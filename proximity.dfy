/** Amenity counts per listing: util.get_distance_standard and
    util.update_things_intersection (gathering_data/util.py:203-224, 263-270).
    distance_between, the rounded haversine distance, is a parameter. */
module Proximity {
  import opened Common
  import opened Model

  /** A radius in metres per amenity category. */
  type Standard = map<string, int>

  /** The built-in radii. */
  const DefaultStandard: Standard := map[
    "BUS" := 500, "METRO" := 500, "INFANT" := 750, "PRESCHOOL" := 750,
    "PRI_SCHOOL" := 1000, "PUB_SCHOOL" := 1000, "HOSPITAL" := 2000,
    "PARKING" := 500, "MART" := 500, "CONVENIENCE" := 300, "WASHING" := 500,
    "BANK" := 750, "OFFICE" := 1250]

  /** get_distance_standard(standard): the defaults, updated with the
      caller's radii. */
  function GetDistanceStandard(s: Standard): (r: Standard)
    ensures forall k :: k in r <==> k in DefaultStandard || k in s
    ensures forall k :: k in s ==> r[k] == s[k]
    ensures forall k :: k in DefaultStandard && k !in s ==> r[k] == DefaultStandard[k]
  {
    DefaultStandard + s
  }

  /** With no caller radii every category keeps its built-in radius; a bus
      stop counts within 500 metres. */
  lemma DefaultRadii()
    ensures GetDistanceStandard(map[]) == DefaultStandard
    ensures "BUS" in DefaultStandard && DefaultStandard["BUS"] == 500
  {
    assert DefaultStandard + map[] == DefaultStandard;
  }

  /** The first amenity, in list order, whose category has no radius. */
  function MissingKind(ns: seq<Neighbor>, standard: Standard): (r: Option<string>)
    ensures r.None? <==> forall n :: n in ns ==> n.kind in standard
    ensures r.Some? ==> r.value !in standard && exists n :: n in ns && n.kind == r.value
  {
    if ns == [] then None
    else
      var m := MissingKind(ns[..|ns| - 1], standard);
      assert forall n :: n in ns ==> n in ns[..|ns| - 1] || n == ns[|ns| - 1];
      if m.Some? then m
      else if ns[|ns| - 1].kind !in standard then Some(ns[|ns| - 1].kind)
      else None
  }

  /** The counts the inner loop builds for a listing at `loc`:
      `standard[nei.type]` raises KeyError for a category without radius. */
  function AroundOf(loc: Location, ns: seq<Neighbor>, standard: Standard,
                    distance: (Location, Location) -> nat): (r: Result<Around>)
    ensures r.Success? <==> MissingKind(ns, standard).None?
    ensures r.Failure? ==> r.error == KeyError(MissingKind(ns, standard).value)
  {
    if ns == [] then Success(map[])
    else
      var init :- AroundOf(loc, ns[..|ns| - 1], standard, distance);
      var nei := ns[|ns| - 1];
      if nei.kind !in standard then Failure(KeyError(nei.kind))
      else if distance(loc, nei.loc) <= standard[nei.kind] then Success(Increase(init, nei.kind))
      else Success(init)
  }

  /** The amenities of `kind` at most `radius` metres from `loc`. */
  function CountWithin(loc: Location, ns: seq<Neighbor>, kind: string, radius: int,
                       distance: (Location, Location) -> nat): nat {
    if ns == [] then 0
    else
      var nei := ns[|ns| - 1];
      CountWithin(loc, ns[..|ns| - 1], kind, radius, distance)
      + (if nei.kind == kind && distance(loc, nei.loc) <= radius then 1 else 0)
  }

  /** The amenities of `kind`. */
  function CountKind(ns: seq<Neighbor>, kind: string): nat {
    if ns == [] then 0
    else CountKind(ns[..|ns| - 1], kind) + (if ns[|ns| - 1].kind == kind then 1 else 0)
  }

  /** The count of category T is the number of amenities of type T whose
      distance is within T's radius; a category with no such amenity
      counts 0. */
  lemma {:induction false} AroundCounts(loc: Location, ns: seq<Neighbor>, standard: Standard,
                                        distance: (Location, Location) -> nat, kind: string)
    requires AroundOf(loc, ns, standard, distance).Success?
    ensures var a := AroundOf(loc, ns, standard, distance).value;
            && (kind in standard ==> Count(a, kind) == CountWithin(loc, ns, kind, standard[kind], distance))
            && (kind !in standard ==> Count(a, kind) == 0)
  {
    if ns != [] {
      AroundCounts(loc, ns[..|ns| - 1], standard, distance, kind);
    }
  }

  /** Never more than the amenities of that category. */
  lemma {:induction false} CountWithinBound(loc: Location, ns: seq<Neighbor>, kind: string, radius: int,
                                            distance: (Location, Location) -> nat)
    ensures CountWithin(loc, ns, kind, radius, distance) <= CountKind(ns, kind) <= |ns|
  {
    if ns != [] {
      CountWithinBound(loc, ns[..|ns| - 1], kind, radius, distance);
    }
  }

  /** Widening a radius never lowers the count. */
  lemma {:induction false} CountWithinMonotone(loc: Location, ns: seq<Neighbor>, kind: string, r1: int, r2: int,
                                               distance: (Location, Location) -> nat)
    requires r1 <= r2
    ensures CountWithin(loc, ns, kind, r1, distance) <= CountWithin(loc, ns, kind, r2, distance)
  {
    if ns != [] {
      CountWithinMonotone(loc, ns[..|ns| - 1], kind, r1, r2, distance);
    }
  }

  /** For two standards over the same categories, the wider one gives every
      listing at least the counts of the narrower one. */
  lemma AroundMonotone(loc: Location, ns: seq<Neighbor>, s1: Standard, s2: Standard,
                       distance: (Location, Location) -> nat, kind: string)
    requires s1.Keys == s2.Keys
    requires forall k :: k in s1 ==> s1[k] <= s2[k]
    requires AroundOf(loc, ns, s1, distance).Success?
    ensures AroundOf(loc, ns, s2, distance).Success?
    ensures Count(AroundOf(loc, ns, s1, distance).value, kind) <= Count(AroundOf(loc, ns, s2, distance).value, kind)
  {
    AroundCounts(loc, ns, s1, distance, kind);
    AroundCounts(loc, ns, s2, distance, kind);
    if kind in s1 {
      CountWithinMonotone(loc, ns, kind, s1[kind], s2[kind], distance);
    }
  }

  /** A bus stop 480 m away counts with the default 500 m radius; one 520 m
      away does not. */
  lemma BusStopRadius(loc: Location, stop: Neighbor, distance: (Location, Location) -> nat)
    requires stop.kind == "BUS"
    ensures distance(loc, stop.loc) == 480 ==>
              AroundOf(loc, [stop], GetDistanceStandard(map[]), distance) == Success(map["BUS" := 1])
    ensures distance(loc, stop.loc) == 520 ==>
              AroundOf(loc, [stop], GetDistanceStandard(map[]), distance) == Success(map[])
  {
    var standard := GetDistanceStandard(map[]);
    DefaultRadii();
    assert [stop][..0] == [];
    assert AroundOf(loc, [], standard, distance) == Success(map[]);
  }

  // ---------------------------------------------------------------------
  // update_things_intersection

  /** The inner `for nei in neighbors` loop for one listing. */
  method CountAround(loc: Location, neighbors: seq<Neighbor>, standard: Standard,
                     distance: (Location, Location) -> nat) returns (r: Result<Around>)
    ensures r == AroundOf(loc, neighbors, standard, distance)
  {
    var around: Around := map[];
    for i := 0 to |neighbors|
      invariant AroundOf(loc, neighbors[..i], standard, distance) == Success(around)
    {
      var nei := neighbors[i];
      assert neighbors[..i + 1][..i] == neighbors[..i];
      if nei.kind !in standard {
        MissingPersists(neighbors, standard, i + 1);
        return Failure(KeyError(nei.kind));
      }
      if distance(loc, nei.loc) <= standard[nei.kind] {
        around := Increase(around, nei.kind);
      }
    }
    assert neighbors[..|neighbors|] == neighbors;
    return Success(around);
  }

  /** The first category without radius in a prefix is the first in the whole list. */
  lemma {:induction false} MissingPersists(ns: seq<Neighbor>, standard: Standard, n: nat)
    requires n <= |ns| && MissingKind(ns[..n], standard).Some?
    ensures MissingKind(ns, standard) == MissingKind(ns[..n], standard)
    decreases |ns| - n
  {
    if n < |ns| {
      assert ns[..n + 1][..n] == ns[..n];
      MissingPersists(ns, standard, n + 1);
    } else {
      assert ns[..n] == ns;
    }
  }

  /** The listings after update_things_intersection: each one unchanged
      but for its fresh amenity counts. A category without radius raises
      KeyError while the first listing is counted, so with no listing
      nothing fails. */
  function WithAround(things: seq<Thing>, neighbors: seq<Neighbor>, standard: Standard,
                      distance: (Location, Location) -> nat): (r: Result<seq<Thing>>)
    ensures r.Success? <==> |things| == 0 || MissingKind(neighbors, standard).None?
    ensures r.Failure? ==> r.error == KeyError(MissingKind(neighbors, standard).value)
    ensures r.Success? ==>
              |r.value| == |things|
              && forall i :: 0 <= i < |things| ==>
                   r.value[i] == things[i].(around := Some(AroundOf(things[i].loc, neighbors, standard, distance).value))
  {
    if |things| > 0 && MissingKind(neighbors, standard).Some? then
      Failure(KeyError(MissingKind(neighbors, standard).value))
    else
      Success(seq(|things|, i requires 0 <= i < |things| =>
                    things[i].(around := Some(AroundOf(things[i].loc, neighbors, standard, distance).value))))
  }

  /** update_things_intersection(things, neighbors, standard), on the list
      of listings in place. */
  method UpdateThingsIntersection(things: array<Thing>, neighbors: seq<Neighbor>, standard: Standard,
                                  distance: (Location, Location) -> nat) returns (err: Option<Error>)
    modifies things
    ensures var w := WithAround(old(things[..]), neighbors, standard, distance);
            && (err.None? <==> w.Success?)
            && (err.None? ==> things[..] == w.value)
            && (err.Some? ==> err == Some(w.error) && things[..] == old(things[..]))
  {
    ghost var before := things[..];
    for i := 0 to things.Length
      invariant i > 0 ==> MissingKind(neighbors, standard).None?
      invariant forall j :: 0 <= j < i ==>
                  things[j] == before[j].(around := Some(AroundOf(before[j].loc, neighbors, standard, distance).value))
      invariant forall j :: i <= j < things.Length ==> things[j] == before[j]
    {
      var around := CountAround(things[i].loc, neighbors, standard, distance);
      if around.Failure? {
        assert things[..] == before;
        return Some(around.error);
      }
      things[i] := things[i].(around := Some(around.value));
    }
    assert things[..] == WithAround(before, neighbors, standard, distance).value;
    return None;
  }
}
