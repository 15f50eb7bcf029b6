/** Shared vocabulary: Python's exceptions as an error datatype, the JSON
    values the map service returns, and Python's dictionary operations on
    them (a missing key raises KeyError, a value of the wrong kind TypeError). */
module Common {

  datatype Option<+T> = None | Some(value: T)

  /** The exceptions the modelled code can raise. */
  datatype Error =
    | KeyError(key: string)            // d[key] on a dict without key
    | TypeError                        // an operation applied to the wrong kind of value
    | ResponseError                    // util.get: the HTTP status was not 200
    | LocationNotFound(query: string)  // NaverRECrawler.get_coordinates
    | ZeroDivision                     // integer division by zero
    | ValueError                       // pandas: a row longer or shorter than the header

  datatype Result<+T> = Success(value: T) | Failure(error: Error) {
    predicate IsFailure() { Failure? }
    function PropagateFailure<U>(): Result<U> requires Failure? { Failure(error) }
    function Extract(): T requires Success? { value }
  }

  /** A decoded JSON value (Python's None, bool, int/float, str, list, dict). */
  datatype Value =
    | JNull
    | JBool(b: bool)
    | JNum(n: real)
    | JStr(s: string)
    | JArr(items: seq<Value>)
    | JObj(fields: map<string, Value>)

  /** Request parameters: a dict from parameter name to value. */
  type Params = map<string, Value>

  predicate OccursAt(a: string, b: string, i: int) {
    0 <= i <= |b| - |a| && b[i..i + |a|] == a
  }

  /** Python's `a in b` on two strings. */
  predicate IsSubstring(a: string, b: string) {
    exists i | 0 <= i <= |b| - |a| :: OccursAt(a, b, i)
  }

  lemma {:induction false} SubstringShorter(a: string, b: string)
    requires IsSubstring(a, b)
    ensures |a| <= |b|
    ensures |a| == |b| ==> a == b
  {
    var i :| 0 <= i <= |b| - |a| && OccursAt(a, b, i);
    if |a| == |b| {
      assert i == 0;
      assert b[0..|b|] == b;
    }
  }

  lemma {:induction false} SubstringTransitive(a: string, b: string, c: string)
    requires IsSubstring(a, b) && IsSubstring(b, c)
    ensures IsSubstring(a, c)
  {
    var i :| 0 <= i <= |c| - |b| && OccursAt(b, c, i);
    var k :| 0 <= k <= |b| - |a| && OccursAt(a, b, k);
    forall t | 0 <= t < |a| ensures c[i + k + t] == a[t] {
      assert c[i..i + |b|][k + t] == b[k + t];
      assert b[k..k + |a|][t] == a[t];
    }
    assert OccursAt(a, c, i + k);
  }

  /** Python's `key in v`: key lookup on a dict, element test on a list,
      substring test on a string; anything else raises TypeError. */
  function Has(v: Value, key: string): (r: Result<bool>)
    ensures v.JObj? ==> r == Success(key in v.fields)
    ensures r.Failure? <==> !(v.JObj? || v.JArr? || v.JStr?)
  {
    match v
    case JObj(m) => Success(key in m)
    case JArr(xs) => Success(JStr(key) in xs)
    case JStr(s) => Success(IsSubstring(key, s))
    case _ => Failure(TypeError)
  }

  /** Python's `v[key]` with a string key. */
  function Get(v: Value, key: string): (r: Result<Value>)
    ensures r.Success? <==> v.JObj? && key in v.fields
    ensures r.Success? ==> r.value == v.fields[key]
    ensures v.JObj? && key !in v.fields ==> r == Failure(KeyError(key))
    ensures !v.JObj? ==> r == Failure(TypeError)
  {
    if !v.JObj? then Failure(TypeError)
    else if key in v.fields then Success(v.fields[key])
    else Failure(KeyError(key))
  }

  /** The items a `for` loop visits when its body first subscripts each
      item with a string key. A list gives its items and an empty dict or
      string gives nothing. A non-empty dict or string gives strings (keys,
      characters) whose first subscript raises TypeError, and that
      TypeError is reported at once; any other value cannot be iterated. */
  function Iter(v: Value): (r: Result<seq<Value>>)
    ensures v.JArr? ==> r == Success(v.items)
    ensures r.Success? ==> v.JArr? || r.value == []
  {
    match v
    case JArr(xs) => Success(xs)
    case JObj(m) => if |m| == 0 then Success([]) else Failure(TypeError)
    case JStr(s) => if |s| == 0 then Success([]) else Failure(TypeError)
    case _ => Failure(TypeError)
  }

  /** Python's `len(v)`. */
  function Len(v: Value): (r: Result<nat>)
    ensures v.JObj? ==> r == Success(|v.fields|)
    ensures v.JArr? ==> r == Success(|v.items|)
  {
    match v
    case JObj(m) => Success(|m|)
    case JArr(xs) => Success(|xs|)
    case JStr(s) => Success(|s|)
    case _ => Failure(TypeError)
  }

  /** Python's `v == 0` (False compares equal to 0 as well). */
  predicate IsZero(v: Value) {
    match v
    case JNum(n) => n == 0.0
    case JBool(b) => !b
    case _ => false
  }
}
