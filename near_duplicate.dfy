/** Near-duplicate suppression: util.filter_item and the preschool/daycare
    condition parse_neighbor applies with it (gathering_data/util.py:168-169,
    251-260). */
module NearDuplicate {
  import opened Common
  import opened Model

  ghost predicate Descending<T>(s: seq<T>, key: T -> int) {
    forall i, j :: 0 <= i < j < |s| ==> key(s[i]) >= key(s[j])
  }

  ghost predicate NonDecreasing<T>(s: seq<T>, key: T -> int) {
    forall i, j :: 0 <= i < j < |s| ==> key(s[i]) <= key(s[j])
  }

  /** No item is related to an item that comes after it. */
  ghost predicate NoForwardPair<T>(s: seq<T>, cond: (T, T) -> bool) {
    forall i, j :: 0 <= i < j < |s| ==> !cond(s[i], s[j])
  }

  /** No two members are related, in either order. */
  ghost predicate Independent<T>(s: seq<T>, cond: (T, T) -> bool) {
    forall x, y :: x in s && y in s ==> !cond(x, y)
  }

  function Reverse<T>(s: seq<T>): (r: seq<T>)
    ensures |r| == |s|
  {
    if s == [] then [] else [s[|s| - 1]] + Reverse(s[..|s| - 1])
  }

  lemma {:induction false} ReverseMultiset<T>(s: seq<T>)
    ensures multiset(Reverse(s)) == multiset(s)
  {
    if s != [] {
      ReverseMultiset(s[..|s| - 1]);
      assert s == s[..|s| - 1] + [s[|s| - 1]];
    }
  }

  // ---------------------------------------------------------------------
  // sorted(list, key=to_key, reverse=True): a stable sort, largest key first

  /** Places x before the first element whose key is not larger than x's,
      so that x stays ahead of the equal keys that followed it in the input. */
  function Insert<T>(x: T, t: seq<T>, key: T -> int): (r: seq<T>)
    ensures multiset(r) == multiset(t) + multiset{x}
  {
    if t == [] || key(t[0]) <= key(x) then [x] + t
    else
      assert t == [t[0]] + t[1..];
      [t[0]] + Insert(x, t[1..], key)
  }

  function SortDesc<T>(s: seq<T>, key: T -> int): (r: seq<T>)
    ensures multiset(r) == multiset(s)
  {
    if s == [] then []
    else
      assert s == [s[0]] + s[1..];
      Insert(s[0], SortDesc(s[1..], key), key)
  }

  lemma {:induction false} InsertDescending<T>(x: T, t: seq<T>, key: T -> int)
    requires Descending(t, key)
    ensures Descending(Insert(x, t, key), key)
  {
    if t != [] && key(t[0]) > key(x) {
      var tail := Insert(x, t[1..], key);
      InsertDescending(x, t[1..], key);
      var r := [t[0]] + tail;
      forall j | 0 < j < |r| ensures key(r[0]) >= key(r[j]) {
        var y := r[j];
        assert y in multiset(tail);
        if y != x {
          assert y in t[1..];
          var k :| 0 <= k < |t[1..]| && t[1..][k] == y;
          assert t[k + 1] == y;
        }
      }
    }
  }

  lemma {:induction false} SortDescDescending<T>(s: seq<T>, key: T -> int)
    ensures Descending(SortDesc(s, key), key)
  {
    if s != [] {
      SortDescDescending(s[1..], key);
      InsertDescending(s[0], SortDesc(s[1..], key), key);
    }
  }

  // ---------------------------------------------------------------------
  // One pass of the while loop: the items the popped item does not remove

  /** The items of s that `item` does not relate to, in their order. */
  function Unrelated<T>(item: T, s: seq<T>, cond: (T, T) -> bool): (r: seq<T>)
    ensures |r| <= |s|
  {
    if s == [] then []
    else
      var init := Unrelated(item, s[..|s| - 1], cond);
      assert s == s[..|s| - 1] + [s[|s| - 1]];
      if cond(item, s[|s| - 1]) then init else init + [s[|s| - 1]]
  }

  lemma {:induction false} UnrelatedMember<T>(item: T, s: seq<T>, cond: (T, T) -> bool, x: T)
    ensures x in Unrelated(item, s, cond) <==> x in s && !cond(item, x)
  {
    if s != [] {
      UnrelatedMember(item, s[..|s| - 1], cond, x);
      assert s == s[..|s| - 1] + [s[|s| - 1]];
    }
  }

  lemma {:induction false} UnrelatedSubMultiset<T>(item: T, s: seq<T>, cond: (T, T) -> bool)
    ensures multiset(Unrelated(item, s, cond)) <= multiset(s)
  {
    if s != [] {
      UnrelatedSubMultiset(item, s[..|s| - 1], cond);
      assert s == s[..|s| - 1] + [s[|s| - 1]];
    }
  }

  lemma {:induction false} UnrelatedSnoc<T>(item: T, s: seq<T>, x: T, cond: (T, T) -> bool)
    ensures Unrelated(item, s + [x], cond)
            == if cond(item, x) then Unrelated(item, s, cond) else Unrelated(item, s, cond) + [x]
  {
    assert (s + [x])[..|s|] == s;
  }

  lemma {:induction false} UnrelatedDescending<T>(item: T, s: seq<T>, key: T -> int, cond: (T, T) -> bool)
    requires Descending(s, key)
    ensures Descending(Unrelated(item, s, cond), key)
  {
    if s != [] {
      var init := s[..|s| - 1];
      var u := Unrelated(item, init, cond);
      UnrelatedDescending(item, init, key, cond);
      forall x | x in u ensures key(x) >= key(s[|s| - 1]) {
        UnrelatedMember(item, init, cond, x);
        var k :| 0 <= k < |init| && init[k] == x;
        assert s[k] == x;
      }
    }
  }

  lemma {:induction false} UnrelatedKeepsAll<T>(item: T, s: seq<T>, cond: (T, T) -> bool)
    requires forall x :: x in s ==> !cond(item, x)
    ensures Unrelated(item, s, cond) == s
  {
    if s != [] {
      UnrelatedKeepsAll(item, s[..|s| - 1], cond);
      assert s == s[..|s| - 1] + [s[|s| - 1]];
    }
  }

  /** list.remove(x): drops the first element equal to x. */
  function RemoveFirst<T(==)>(s: seq<T>, x: T): (r: seq<T>)
    ensures x in s ==> |r| == |s| - 1
  {
    if s == [] then []
    else if s[0] == x then s[1..]
    else [s[0]] + RemoveFirst(s[1..], x)
  }

  lemma {:induction false} RemoveFirstAfter<T>(p: seq<T>, x: T, q: seq<T>)
    requires x !in p
    ensures RemoveFirst(p + [x] + q, x) == p + q
  {
    if p == [] {
      assert p + [x] + q == [x] + q;
    } else {
      var s := p + [x] + q;
      assert s[0] == p[0] && p[0] != x;
      assert s[1..] == p[1..] + [x] + q;
      RemoveFirstAfter(p[1..], x, q);
      assert RemoveFirst(s, x) == [p[0]] + (p[1..] + q);
      assert [p[0]] + (p[1..] + q) == p + q;
    }
  }

  // ---------------------------------------------------------------------
  // The whole while loop

  /** What the while loop emits from `items`: pop the last item, remove every
      remaining item it relates to, emit it, repeat. */
  function Suppress<T>(items: seq<T>, cond: (T, T) -> bool): seq<T>
    decreases |items|
  {
    if items == [] then []
    else
      var item := items[|items| - 1];
      [item] + Suppress(Unrelated(item, items[..|items| - 1], cond), cond)
  }

  /** filter_item(list, to_key, condition) */
  method FilterItem<T(==)>(list: seq<T>, key: T -> int, cond: (T, T) -> bool) returns (res: seq<T>)
    ensures res == Suppress(SortDesc(list, key), cond)
    ensures multiset(res) <= multiset(list)
    ensures NonDecreasing(res, key)
    ensures NoForwardPair(res, cond)
    ensures forall x :: x in list ==> x in res || exists y :: y in res && cond(y, x)
  {
    var items := SortDesc(list, key);
    ghost var target := Suppress(items, cond);
    res := [];
    while |items| > 0
      invariant res + Suppress(items, cond) == target
      decreases |items|
    {
      ghost var before := items;
      var item := items[|items| - 1];
      items := RemoveRelated(items[..|items| - 1], item, cond);
      SuppressPop(before, cond);
      res := res + [item];
    }
    FilterItemProperties(list, key, cond);
  }

  /** The inner loop of filter_item: `for it in items[:]` removes from items
      every element the popped item relates to. */
  method RemoveRelated<T(==)>(items0: seq<T>, item: T, cond: (T, T) -> bool) returns (items: seq<T>)
    ensures items == Unrelated(item, items0, cond)
  {
    items := items0;
    var copy := items0;
    for j := 0 to |copy|
      invariant items == Unrelated(item, copy[..j], cond) + copy[j..]
    {
      var it := copy[j];
      RemoveStep(item, copy, j, cond);
      if cond(item, it) {
        items := RemoveFirst(items, it);
      }
    }
    assert copy[..|copy|] == copy;
  }

  lemma SuppressPop<T>(items: seq<T>, cond: (T, T) -> bool)
    requires items != []
    ensures Suppress(items, cond)
            == [items[|items| - 1]] + Suppress(Unrelated(items[|items| - 1], items[..|items| - 1], cond), cond)
  {
  }

  /** One iteration of the inner for loop keeps the invariant. */
  lemma RemoveStep<T>(item: T, copy: seq<T>, j: nat, cond: (T, T) -> bool)
    requires j < |copy|
    ensures var u := Unrelated(item, copy[..j], cond);
            var it := copy[j];
            Unrelated(item, copy[..j + 1], cond) + copy[j + 1..]
            == if cond(item, it) then RemoveFirst(u + copy[j..], it) else u + copy[j..]
  {
    var it := copy[j];
    var u := Unrelated(item, copy[..j], cond);
    assert copy[..j + 1] == copy[..j] + [it];
    assert copy[j..] == [it] + copy[j + 1..];
    UnrelatedSnoc(item, copy[..j], it, cond);
    if cond(item, it) {
      UnrelatedMember(item, copy[..j], cond, it);
      RemoveFirstAfter(u, it, copy[j + 1..]);
      assert u + copy[j..] == u + [it] + copy[j + 1..];
    }
  }

  /** What filter_item promises, stated of its specification. */
  lemma FilterItemProperties<T>(list: seq<T>, key: T -> int, cond: (T, T) -> bool)
    ensures var r := Suppress(SortDesc(list, key), cond);
            && multiset(r) <= multiset(list)
            && NonDecreasing(r, key)
            && NoForwardPair(r, cond)
            && forall x :: x in list ==> x in r || exists y :: y in r && cond(y, x)
  {
    var sorted := SortDesc(list, key);
    SortDescDescending(list, key);
    SuppressSubMultiset(sorted, cond);
    SuppressNonDecreasing(sorted, key, cond);
    SuppressNoForwardPair(sorted, cond);
    SuppressCovers(sorted, cond);
    forall x | x in list ensures x in sorted {
      assert x in multiset(list);
    }
  }

  lemma {:induction false} SuppressSubMultiset<T>(s: seq<T>, cond: (T, T) -> bool)
    ensures multiset(Suppress(s, cond)) <= multiset(s)
    decreases |s|
  {
    if s != [] {
      var item := s[|s| - 1];
      var init := s[..|s| - 1];
      var rest := Unrelated(item, init, cond);
      var tail := Suppress(rest, cond);
      SuppressSubMultiset(rest, cond);
      UnrelatedSubMultiset(item, init, cond);
      SuppressPop(s, cond);
      assert s == init + [item];
      ConsWithin(item, tail, init);
    }
  }

  lemma ConsWithin<T>(item: T, tail: seq<T>, init: seq<T>)
    requires multiset(tail) <= multiset(init)
    ensures multiset([item] + tail) <= multiset(init + [item])
  {
    assert multiset([item] + tail) == multiset{item} + multiset(tail);
    assert multiset(init + [item]) == multiset(init) + multiset{item};
  }

  lemma SuppressMember<T>(s: seq<T>, cond: (T, T) -> bool, x: T)
    requires x in Suppress(s, cond)
    ensures x in s
  {
    SuppressSubMultiset(s, cond);
    assert x in multiset(Suppress(s, cond));
  }

  lemma {:induction false} SuppressNonDecreasing<T>(s: seq<T>, key: T -> int, cond: (T, T) -> bool)
    requires Descending(s, key)
    ensures NonDecreasing(Suppress(s, cond), key)
    decreases |s|
  {
    if s != [] {
      var item := s[|s| - 1];
      var init := s[..|s| - 1];
      var rest := Unrelated(item, init, cond);
      UnrelatedDescending(item, init, key, cond);
      SuppressNonDecreasing(rest, key, cond);
      var tail := Suppress(rest, cond);
      var r := [item] + tail;
      assert r == Suppress(s, cond);
      forall j | 0 < j < |r| ensures key(r[0]) <= key(r[j]) {
        var y := r[j];
        assert y == tail[j - 1];
        SuppressMember(rest, cond, y);
        UnrelatedMember(item, init, cond, y);
        var k :| 0 <= k < |init| && init[k] == y;
        assert s[k] == y;
      }
      forall i, j | 0 < i < j < |r| ensures key(r[i]) <= key(r[j]) {
        assert r[i] == tail[i - 1] && r[j] == tail[j - 1];
      }
    }
  }

  lemma {:induction false} SuppressNoForwardPair<T>(s: seq<T>, cond: (T, T) -> bool)
    ensures NoForwardPair(Suppress(s, cond), cond)
    decreases |s|
  {
    if s != [] {
      var item := s[|s| - 1];
      var init := s[..|s| - 1];
      var rest := Unrelated(item, init, cond);
      SuppressNoForwardPair(rest, cond);
      var tail := Suppress(rest, cond);
      var r := [item] + tail;
      assert r == Suppress(s, cond);
      forall j | 0 < j < |r| ensures !cond(r[0], r[j]) {
        assert r[j] == tail[j - 1];
        SuppressMember(rest, cond, r[j]);
        UnrelatedMember(item, init, cond, r[j]);
      }
      forall i, j | 0 < i < j < |r| ensures !cond(r[i], r[j]) {
        assert r[i] == tail[i - 1] && r[j] == tail[j - 1];
      }
    }
  }

  /** An item is dropped only if an emitted item relates to it. */
  lemma {:induction false} SuppressCovers<T>(s: seq<T>, cond: (T, T) -> bool)
    ensures forall x :: x in s ==> x in Suppress(s, cond) || exists y :: y in Suppress(s, cond) && cond(y, x)
    decreases |s|
  {
    if s != [] {
      var item := s[|s| - 1];
      var init := s[..|s| - 1];
      var rest := Unrelated(item, init, cond);
      SuppressCovers(rest, cond);
      var tail := Suppress(rest, cond);
      var r := [item] + tail;
      assert r == Suppress(s, cond);
      forall x | x in s ensures x in r || exists y :: y in r && cond(y, x) {
        if x != item {
          assert s == init + [item];
          assert x in init;
          if cond(item, x) {
            assert item in r;
          } else {
            UnrelatedMember(item, init, cond, x);
            if x in tail {
              assert x in r;
            } else {
              var y :| y in tail && cond(y, x);
              assert y in r;
            }
          }
        }
      }
    }
  }

  /** On items no two of which are related, the loop removes nothing and
      emits them in popping order. */
  lemma {:induction false} SuppressIndependent<T>(s: seq<T>, cond: (T, T) -> bool)
    requires Independent(s, cond)
    ensures Suppress(s, cond) == Reverse(s)
    decreases |s|
  {
    if s != [] {
      var item := s[|s| - 1];
      var init := s[..|s| - 1];
      UnrelatedKeepsAll(item, init, cond);
      SuppressIndependent(init, cond);
    }
  }

  /** Related items always have strictly smaller keys: the shape of every
      condition filter_item is used with. */
  ghost predicate KeyGrows<T(!new)>(key: T -> int, cond: (T, T) -> bool) {
    forall x, y :: cond(x, y) ==> key(x) < key(y)
  }

  lemma KeyGrowsAt<T(!new)>(key: T -> int, cond: (T, T) -> bool, x: T, y: T)
    requires KeyGrows(key, cond)
    requires key(y) <= key(x)
    ensures !cond(x, y)
  {
  }

  /** When related items have strictly smaller keys, the output of the loop
      holds no related pair in either order. */
  lemma {:induction false} OutputIndependent<T(!new)>(r: seq<T>, key: T -> int, cond: (T, T) -> bool)
    requires KeyGrows(key, cond)
    requires NonDecreasing(r, key) && NoForwardPair(r, cond)
    ensures Independent(r, cond)
  {
    forall x, y | x in r && y in r ensures !cond(x, y) {
      var i :| 0 <= i < |r| && r[i] == x;
      var j :| 0 <= j < |r| && r[j] == y;
      if i < j {
        assert !cond(r[i], r[j]);
      } else {
        assert key(r[j]) <= key(r[i]);
        KeyGrowsAt(key, cond, x, y);
      }
    }
  }

  /** The output of filter_item is a fixed point: filtering it again keeps
      every item, whenever related items always have strictly smaller keys. */
  lemma {:induction false} FilterIdempotent<T(!new)>(list: seq<T>, key: T -> int, cond: (T, T) -> bool)
    requires KeyGrows(key, cond)
    ensures var r := Suppress(SortDesc(list, key), cond);
            multiset(Suppress(SortDesc(r, key), cond)) == multiset(r)
  {
    var r := Suppress(SortDesc(list, key), cond);
    FilterItemProperties(list, key, cond);
    OutputIndependent(r, key, cond);
    var again := SortDesc(r, key);
    forall x, y | x in again && y in again ensures !cond(x, y) {
      assert x in multiset(again) && y in multiset(again);
    }
    SuppressIndependent(again, cond);
    ReverseMultiset(again);
  }

  // ---------------------------------------------------------------------
  // The preschool and daycare instance (util.py:168-169)

  /** to_key: len(x.name) */
  function NameLength(n: Neighbor): int {
    if n.name.JStr? then |n.name.s| else 0
  }

  /** condition: x.name in y.name and x.name != y.name */
  predicate NameInside(x: Neighbor, y: Neighbor) {
    x.name.JStr? && y.name.JStr? && IsSubstring(x.name.s, y.name.s) && x.name.s != y.name.s
  }

  lemma NameInsideShorter(x: Neighbor, y: Neighbor)
    requires NameInside(x, y)
    ensures NameLength(x) < NameLength(y)
  {
    SubstringShorter(x.name.s, y.name.s);
  }

  lemma NameInsideTransitive(x: Neighbor, y: Neighbor, z: Neighbor)
    ensures NameInside(x, y) && NameInside(y, z) ==> NameInside(x, z)
  {
    if NameInside(x, y) && NameInside(y, z) {
      SubstringTransitive(x.name.s, y.name.s, z.name.s);
      NameInsideShorter(x, y);
      NameInsideShorter(y, z);
    }
  }

  lemma NameLengthGrows()
    ensures KeyGrows(NameLength, NameInside)
  {
    forall x, y | NameInside(x, y) ensures NameLength(x) < NameLength(y) {
      NameInsideShorter(x, y);
    }
  }

  /** An amenity survives the preschool/daycare filter exactly when no
      amenity of the input has a name that is a proper substring of its
      name; so two amenities with the same name survive or go together. */
  lemma PreschoolSurvivors(list: seq<Neighbor>, x: Neighbor)
    requires x in list
    ensures x in Suppress(SortDesc(list, NameLength), NameInside)
            <==> !exists y :: y in list && NameInside(y, x)
  {
    var sorted := SortDesc(list, NameLength);
    var r := Suppress(sorted, NameInside);
    assert x in multiset(sorted);
    SuppressCovers(sorted, NameInside);
    if x in r {
      FilterItemProperties(list, NameLength, NameInside);
      NameLengthGrows();
      OutputIndependent(r, NameLength, NameInside);
      forall y | y in list ensures !NameInside(y, x) {
        assert y in multiset(sorted);
        if y !in r {
          var w :| w in r && NameInside(w, y);
          NameInsideTransitive(w, y, x);
        }
      }
    } else {
      var y :| y in r && NameInside(y, x);
      SuppressMember(sorted, NameInside, y);
      assert y in multiset(sorted);
    }
  }

  /** Re-running the preschool/daycare filter on its own output keeps every
      amenity. */
  lemma PreschoolIdempotent(list: seq<Neighbor>)
    ensures var r := Suppress(SortDesc(list, NameLength), NameInside);
            multiset(Suppress(SortDesc(r, NameLength), NameInside)) == multiset(r)
  {
    NameLengthGrows();
    FilterIdempotent(list, NameLength, NameInside);
  }

  /** A branch campus whose name extends the main name is dropped and the
      main entry kept. */
  lemma BranchCampusCollapses(main: Neighbor, branch: Neighbor)
    requires main.name == JStr("Sunrise Kindergarten")
    requires branch.name == JStr("Sunrise Kindergarten Branch 2")
    ensures Suppress(SortDesc([main, branch], NameLength), NameInside) == [main]
  {
    assert OccursAt(main.name.s, branch.name.s, 0);
    assert NameInside(main, branch);
    assert [main, branch][1..] == [branch] && [branch][1..] == [];
    assert SortDesc([branch], NameLength) == [branch];
    assert NameLength(branch) > NameLength(main);
    assert Insert(main, [branch], NameLength) == [branch] + Insert(main, [], NameLength);
    var sorted := [branch, main];
    assert SortDesc([main, branch], NameLength) == sorted;
    assert sorted[..1] == [branch];
    assert Unrelated(main, [branch], NameInside) == [];
    assert Suppress(sorted, NameInside) == [main] + Suppress([], NameInside);
  }
}
