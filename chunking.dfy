/** util.split_list: cut a list into k pieces of equal length plus a
    remainder piece (gathering_data/util.py:81-92). */
module Chunking {
  import opened Common

  /** The pieces joined back together, in order. */
  function Concat<T>(pieces: seq<seq<T>>): seq<T> {
    if pieces == [] then [] else Concat(pieces[..|pieces| - 1]) + pieces[|pieces| - 1]
  }

  lemma {:induction false} ConcatSnoc<T>(pieces: seq<seq<T>>, p: seq<T>)
    ensures Concat(pieces + [p]) == Concat(pieces) + p
  {
    assert (pieces + [p])[..|pieces|] == pieces;
  }

  /** An element of the joined list lies in one of the pieces, and back. */
  lemma {:induction false} ConcatMember<T>(pieces: seq<seq<T>>, x: T)
    ensures x in Concat(pieces) <==> exists i :: 0 <= i < |pieces| && x in pieces[i]
  {
    if pieces != [] {
      var init := pieces[..|pieces| - 1];
      ConcatMember(init, x);
      if x in Concat(init) {
        var i :| 0 <= i < |init| && x in init[i];
        assert pieces[i] == init[i];
      }
      if exists i :: 0 <= i < |pieces| && x in pieces[i] {
        var i :| 0 <= i < |pieces| && x in pieces[i];
        if i < |init| {
          assert init[i] == pieces[i];
        }
      }
    }
  }

  /** Python's `a // b`, rounding toward negative infinity. */
  function FloorDiv(a: int, b: int): (q: int)
    requires b != 0
    ensures b > 0 ==> q == a / b
    ensures q * b <= a < q * b + b || q * b + b < a <= q * b
  {
    if b > 0 then a / b else (-a) / (-b)
  }

  /** split_list(list, k). A zero k divides by zero; a negative k returns
      `[[]]` for an empty list and never returns for any other list
      (NegativeKLoopsForever), so only that case is excluded. */
  method SplitList<T>(list: seq<T>, k: int) returns (r: Result<seq<seq<T>>>)
    requires k >= 0 || list == []
    ensures k == 0 ==> r == Failure(ZeroDivision)
    ensures k < 0 ==> r == Success([[]])
    ensures k > 0 ==> r.Success? && Concat(r.value) == list
    ensures k > 0 && |list| >= k ==>
              |r.value| == k + 1
              && (forall i :: 0 <= i < k ==> |r.value[i]| == |list| / k)
              && |r.value[k]| == |list| % k
    ensures k > 0 && |list| < k ==> r.value == [list]
  {
    if k == 0 {
      return Failure(ZeroDivision);
    }
    var splited: seq<seq<T>> := [];
    var step := FloorDiv(|list|, k);
    var left := 0;
    var end := step * k;
    if k > 0 {
      DivFacts(|list|, k);
    }
    while left < end
      invariant 0 <= left <= end <= |list|
      invariant left == Times(|splited|, step)
      invariant step > 0 || |splited| == 0
      invariant forall i :: 0 <= i < |splited| ==> |splited[i]| == step
      invariant Concat(splited) == list[..left]
      decreases end - left
    {
      TimesNext(|splited|, k, step);
      ConcatSnoc(splited, list[left..left + step]);
      assert list[..left] + list[left..left + step] == list[..left + step];
      splited := splited + [list[left..left + step]];
      left := left + step;
    }
    if step > 0 {
      TimesCancel(|splited|, k, step);
    }
    if left <= |list| {
      ConcatSnoc(splited, list[left..]);
      assert list[..left] + list[left..] == list;
      splited := splited + [list[left..]];
    }
    return Success(splited);
  }

  /** The value of `left` after c iterations of the while loop: c * step,
      by repeated addition. */
  function Times(c: nat, step: int): int {
    if c == 0 then 0 else Times(c - 1, step) + step
  }

  lemma {:induction false} TimesIsProduct(c: nat, step: int)
    ensures Times(c, step) == c * step
  {
    if c > 0 {
      TimesIsProduct(c - 1, step);
    }
  }

  lemma {:induction false} TimesCancel(c: nat, k: nat, step: int)
    requires step > 0 && Times(c, step) == step * k
    ensures c == k
  {
    TimesIsProduct(c, step);
    TimesIsProduct(k, step);
    TimesStrict(c, k, step);
    TimesStrict(k, c, step);
  }

  lemma {:induction false} TimesStrict(c: nat, k: nat, step: int)
    requires step > 0
    ensures c < k ==> Times(c, step) < Times(k, step)
    decreases k
  {
    if c < k && c < k - 1 {
      TimesStrict(c, k - 1, step);
    }
  }

  lemma {:induction false} TimesNext(c: nat, k: nat, step: int)
    requires step > 0 && Times(c, step) < step * k
    ensures Times(c + 1, step) <= step * k
  {
    TimesIsProduct(k, step);
    TimesStrict(k, c, step);
    TimesStrict(c + 1, k, step);
  }

  lemma {:induction false} TimesNonPositive(c: nat, step: int)
    requires step <= 0
    ensures Times(c, step) <= 0
  {
    if c > 0 {
      TimesNonPositive(c - 1, step);
    }
  }

  /** With a negative k and a non-empty list, split_list never returns: the
      step is negative and the bound `end` positive, so `left < end` holds
      after every number of iterations. */
  lemma NegativeKLoopsForever(n: nat, k: int)
    requires n > 0 && k < 0
    ensures FloorDiv(n, k) < 0
    ensures forall c: nat :: Times(c, FloorDiv(n, k)) < FloorDiv(n, k) * k
  {
    var step := FloorDiv(n, k);
    assert step * k == (-step) * (-k);
    MulAtLeastOne(-step, -k);
    forall c: nat ensures Times(c, step) < step * k {
      TimesNonPositive(c, step);
    }
  }

  lemma MulAtLeastOne(a: int, b: int)
    requires a >= 1 && b >= 1
    ensures a * b >= 1
  {
    assert a * b == (a - 1) * b + b;
    assert (a - 1) * b >= 0;
  }

  lemma DivFacts(n: nat, k: int)
    requires k > 0
    ensures 0 <= (n / k) * k <= n
    ensures n - (n / k) * k == n % k
    ensures n >= k <==> n / k > 0
  {
  }
}
