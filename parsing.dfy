/** Turning the service's JSON into records: util.parse_region,
    util.parse_neighbor and util.parse_things (gathering_data/util.py:132-200).
    Each parser walks a list and appends; the walk is the shared loop
    `Collect`, specified by `MapAll`. */
module Parsing {
  import opened Common
  import opened Model
  import opened NearDuplicate

  // ---------------------------------------------------------------------
  // The append loop

  /** Applying f to each item in order; the first failure aborts the walk. */
  function MapAll<A, X>(items: seq<A>, f: A -> Result<X>): Result<seq<X>> {
    if items == [] then Success([])
    else
      var init :- MapAll(items[..|items| - 1], f);
      var x :- f(items[|items| - 1]);
      Success(init + [x])
  }

  /** `for v in items: res.append(f(v))` */
  method Collect<A, X>(items: seq<A>, f: A -> Result<X>) returns (r: Result<seq<X>>)
    ensures r == MapAll(items, f)
  {
    var res: seq<X> := [];
    for i := 0 to |items|
      invariant MapAll(items[..i], f) == Success(res)
    {
      assert items[..i + 1][..i] == items[..i];
      var x := f(items[i]);
      if x.Failure? {
        assert MapAll(items[..i + 1], f).Failure?;
        FailurePersists(items, f, i + 1);
        return Failure(x.error);
      }
      res := res + [x.value];
    }
    assert items[..|items|] == items;
    return Success(res);
  }

  /** Once a prefix fails, the whole walk fails with the same error. */
  lemma {:induction false} FailurePersists<A, X>(items: seq<A>, f: A -> Result<X>, n: nat)
    requires n <= |items| && MapAll(items[..n], f).Failure?
    ensures MapAll(items, f) == MapAll(items[..n], f)
    decreases |items| - n
  {
    if n < |items| {
      assert items[..n + 1][..n] == items[..n];
      FailurePersists(items, f, n + 1);
    } else {
      assert items[..n] == items;
    }
  }

  /** One more step of the walk from a successful prefix. */
  lemma MapAllStep<A, X>(items: seq<A>, f: A -> Result<X>, i: nat, done: seq<X>)
    requires i < |items| && MapAll(items[..i], f) == Success(done)
    ensures f(items[i]).Success? ==> MapAll(items[..i + 1], f) == Success(done + [f(items[i]).value])
    ensures f(items[i]).Failure? ==> MapAll(items, f) == Failure(f(items[i]).error)
  {
    assert items[..i + 1][..i] == items[..i];
    if f(items[i]).Failure? {
      FailurePersists(items, f, i + 1);
    }
  }

  /** The walk succeeds exactly when every item parses, and then yields the
      parsed items one for one, in order. */
  lemma {:induction false} MapAllSuccess<A, X>(items: seq<A>, f: A -> Result<X>)
    ensures MapAll(items, f).Success? <==> forall i :: 0 <= i < |items| ==> f(items[i]).Success?
    ensures MapAll(items, f).Success? ==>
              |MapAll(items, f).value| == |items|
              && forall i :: 0 <= i < |items| ==> MapAll(items, f).value[i] == f(items[i]).value
  {
    if items != [] {
      var init := items[..|items| - 1];
      MapAllSuccess(init, f);
      if MapAll(init, f).Success? && !f(items[|items| - 1]).Success? {
        assert !f(items[|items| - 1]).Success?;
      }
      if !MapAll(init, f).Success? {
        var i :| 0 <= i < |init| && !f(init[i]).Success?;
        assert items[i] == init[i];
      }
    }
  }

  /** A failed walk fails with the error of the first item that fails. */
  lemma {:induction false} MapAllFirstError<A, X>(items: seq<A>, f: A -> Result<X>, k: nat)
    requires k < |items| && f(items[k]).Failure?
    requires forall i :: 0 <= i < k ==> f(items[i]).Success?
    ensures MapAll(items, f) == Failure(f(items[k]).error)
  {
    var pre := items[..k + 1];
    assert pre[..k] == items[..k];
    MapAllSuccess(items[..k], f);
    FailurePersists(items, f, k + 1);
  }

  /** The values of the Some entries, in order. */
  function Somes<X>(outs: seq<Option<X>>): seq<X> {
    if outs == [] then []
    else Somes(outs[..|outs| - 1]) + (if outs[|outs| - 1].Some? then [outs[|outs| - 1].value] else [])
  }

  /** A walk whose every item is either skipped or raises TypeError: it
      fails when some item raises, and otherwise keeps nothing. */
  lemma {:induction false} SkipWalk<A, X>(items: seq<A>, f: A -> Result<Option<X>>, bad: A -> bool)
    requires forall i :: 0 <= i < |items| ==> f(items[i]) == if bad(items[i]) then Failure(TypeError) else Success(None)
    ensures (exists i :: 0 <= i < |items| && bad(items[i])) ==> MapAll(items, f) == Failure(TypeError)
    ensures (forall i :: 0 <= i < |items| ==> !bad(items[i])) ==> MapAll(items, f).Success? && Somes(MapAll(items, f).value) == []
  {
    if items != [] {
      var n := |items| - 1;
      var init := items[..n];
      forall i | 0 <= i < n ensures init[i] == items[i] {
      }
      SkipWalk(init, f, bad);
      var w0 := MapAll(init, f);
      if w0.Success? && !bad(items[n]) {
        assert (w0.value + [None])[..|w0.value|] == w0.value;
      }
    }
  }

  /** The positions of the Some entries, in increasing order. */
  function SomeIndices<X>(outs: seq<Option<X>>): seq<nat> {
    if outs == [] then []
    else SomeIndices(outs[..|outs| - 1]) + (if outs[|outs| - 1].Some? then [|outs| - 1] else [])
  }

  /** Filter-and-map keeps order: output k is the entry at the k-th kept
      position, the kept positions increase, and every other position
      holds None. */
  lemma SomesIndexed<X>(outs: seq<Option<X>>)
    ensures var idx := SomeIndices(outs);
            && |Somes(outs)| == |idx|
            && (forall k :: 0 <= k < |idx| ==> idx[k] < |outs| && outs[idx[k]].Some? && Somes(outs)[k] == outs[idx[k]].value)
            && (forall k, l :: 0 <= k < l < |idx| ==> idx[k] < idx[l])
            && (forall i :: 0 <= i < |outs| && i !in idx ==> outs[i].None?)
  {
    SomeIndicesShape(outs);
    SomesAt(outs);
    SomeIndicesComplete(outs);
  }

  lemma {:induction false} SomeIndicesShape<X>(outs: seq<Option<X>>)
    ensures var idx := SomeIndices(outs);
            && |Somes(outs)| == |idx|
            && (forall k :: 0 <= k < |idx| ==> idx[k] < |outs| && outs[idx[k]].Some?)
            && (forall k, l :: 0 <= k < l < |idx| ==> idx[k] < idx[l])
  {
    if outs != [] {
      var n := |outs| - 1;
      var init := outs[..n];
      SomeIndicesShape(init);
      var idx0 := SomeIndices(init);
      var tail: seq<nat> := if outs[n].Some? then [n] else [];
      assert SomeIndices(outs) == idx0 + tail;
      assert |Somes(outs)| == |Somes(init)| + |tail|;
      forall k | 0 <= k < |idx0| ensures idx0[k] < n && outs[idx0[k]] == init[idx0[k]] {
      }
    }
  }

  lemma {:induction false} SomesAt<X>(outs: seq<Option<X>>)
    ensures var idx := SomeIndices(outs);
            forall k :: 0 <= k < |idx| && k < |Somes(outs)| && idx[k] < |outs| ==> outs[idx[k]].Some? ==> Somes(outs)[k] == outs[idx[k]].value
  {
    if outs != [] {
      var n := |outs| - 1;
      var init := outs[..n];
      SomesAt(init);
      SomeIndicesShape(init);
      var idx0 := SomeIndices(init);
      forall k | 0 <= k < |idx0| ensures outs[idx0[k]] == init[idx0[k]] {
      }
    }
  }

  lemma {:induction false} SomeIndicesComplete<X>(outs: seq<Option<X>>)
    ensures forall i :: 0 <= i < |outs| && outs[i].Some? ==> i in SomeIndices(outs)
  {
    if outs != [] {
      var n := |outs| - 1;
      var init := outs[..n];
      SomeIndicesComplete(init);
      forall i | 0 <= i < n ensures outs[i] == init[i] {
      }
    }
  }


  // ---------------------------------------------------------------------
  // parse_region

  /** One entry of regionList as an NRegion (cortarName, centre, cortarNo). */
  function RegionItem(obj: Value, zoom: Value): (r: Result<Region>)
    ensures r.Success? <==>
              obj.JObj? && "cortarName" in obj.fields && "centerLat" in obj.fields
              && "centerLon" in obj.fields && "cortarNo" in obj.fields
    ensures r.Success? ==>
              var m := obj.fields;
              r.value == Region(m["cortarName"], Location(m["centerLat"], m["centerLon"], zoom), m["cortarNo"])
  {
    var name :- Get(obj, "cortarName");
    var lat :- Get(obj, "centerLat");
    var lon :- Get(obj, "centerLon");
    var code :- Get(obj, "cortarNo");
    Success(Region(name, Location(lat, lon, zoom), code))
  }

  function RegionParser(zoom: Value): Value -> Result<Region> {
    obj => RegionItem(obj, zoom)
  }

  /** What parse_region(region_obj) returns: nothing for an empty answer,
      otherwise one region per entry of regionList. */
  function RegionsOf(regionObj: Value, zoom: Value): Result<seq<Region>> {
    var n :- Len(regionObj);
    if n < 1 then Success([])
    else
      var list :- Get(regionObj, "regionList");
      var items :- Iter(list);
      MapAll(items, RegionParser(zoom))
  }

  method ParseRegion(regionObj: Value, zoom: Value) returns (r: Result<seq<Region>>)
    ensures r == RegionsOf(regionObj, zoom)
  {
    var n :- Len(regionObj);
    if n < 1 {
      return Success([]);
    }
    var list :- Get(regionObj, "regionList");
    var items :- Iter(list);
    r := Collect(items, RegionParser(zoom));
  }

  /** An empty answer gives no regions; otherwise the regions are the
      entries of regionList one for one, in order. */
  lemma RegionsOfEntries(regionObj: Value, zoom: Value)
    ensures regionObj == JObj(map[]) ==> RegionsOf(regionObj, zoom) == Success([])
    ensures regionObj.JObj? && "regionList" in regionObj.fields && regionObj.fields["regionList"].JArr?
            && RegionsOf(regionObj, zoom).Success? ==>
              var items := regionObj.fields["regionList"].items;
              |RegionsOf(regionObj, zoom).value| == |items|
              && forall i :: 0 <= i < |items| ==> Success(RegionsOf(regionObj, zoom).value[i]) == RegionItem(items[i], zoom)
  {
    if regionObj.JObj? && "regionList" in regionObj.fields && regionObj.fields["regionList"].JArr? {
      MapAllSuccess(regionObj.fields["regionList"].items, RegionParser(zoom));
    }
  }

  // ---------------------------------------------------------------------
  // parse_neighbor

  /** An amenity of a generic category: name and position. */
  function NeighborItem(v: Value, kind: string, zoom: Value): (r: Result<Neighbor>)
    ensures r.Success? <==> v.JObj? && "name" in v.fields && "latitude" in v.fields && "longitude" in v.fields
    ensures r.Success? ==>
              var m := v.fields;
              r.value == Neighbor(kind, m["name"], Location(m["latitude"], m["longitude"], zoom))
  {
    var name :- Get(v, "name");
    var lat :- Get(v, "latitude");
    var lon :- Get(v, "longitude");
    Success(Neighbor(kind, name, Location(lat, lon, zoom)))
  }

  const PublicSchool: string := "PUB_SCHOOL"
  const PrivateSchool: string := "PRI_SCHOOL"

  /** A school: public exactly when organizationType is "공립". */
  function SchoolItem(v: Value, zoom: Value): (r: Result<Neighbor>)
    ensures r.Success? <==>
              v.JObj? && "organizationType" in v.fields && "schoolName" in v.fields
              && "latitude" in v.fields && "longitude" in v.fields
    ensures r.Success? ==>
              var m := v.fields;
              && r.value.kind == (if m["organizationType"] == JStr("공립") then PublicSchool else PrivateSchool)
              && r.value.name == m["schoolName"]
              && r.value.loc == Location(m["latitude"], m["longitude"], zoom)
  {
    var org :- Get(v, "organizationType");
    var name :- Get(v, "schoolName");
    var lat :- Get(v, "latitude");
    var lon :- Get(v, "longitude");
    Success(Neighbor(if org == JStr("공립") then PublicSchool else PrivateSchool, name, Location(lat, lon, zoom)))
  }

  function NeighborParser(kind: string, zoom: Value): Value -> Result<Neighbor> {
    v => NeighborItem(v, kind, zoom)
  }

  function SchoolParser(zoom: Value): Value -> Result<Neighbor> {
    v => SchoolItem(v, zoom)
  }

  /** The amenities of the answer before any filtering: the list under
      'neighborhoods', or the answer itself for schools. */
  function RawNeighbors(data: Value, kind: string, env: Env): Result<seq<Neighbor>> {
    if kind != env.school then
      var list :- Get(data, "neighborhoods");
      var items :- Iter(list);
      MapAll(items, NeighborParser(kind, env.defaultZoom))
    else
      var items :- Iter(data);
      MapAll(items, SchoolParser(env.defaultZoom))
  }

  /** len(x.name) is defined for every amenity (names are strings). */
  predicate AllNamed(ns: seq<Neighbor>) {
    forall n :: n in ns ==> n.name.JStr?
  }

  /** Whether parse_neighbor applies the near-duplicate filter. */
  predicate Filtered(kind: string, env: Env) {
    kind == env.preschool || kind == env.kid
  }

  /** What parse_neighbor(data, nType) returns. */
  function NeighborsOf(data: Value, kind: string, env: Env): Result<seq<Neighbor>> {
    var res :- RawNeighbors(data, kind, env);
    if !Filtered(kind, env) then Success(res)
    else if !AllNamed(res) then Failure(TypeError)
    else Success(Suppress(SortDesc(res, NameLength), NameInside))
  }

  method ParseNeighbor(data: Value, kind: string, env: Env) returns (r: Result<seq<Neighbor>>)
    ensures r == NeighborsOf(data, kind, env)
  {
    var res: seq<Neighbor>;
    if kind != env.school {
      var list :- Get(data, "neighborhoods");
      var items :- Iter(list);
      res :- Collect(items, NeighborParser(kind, env.defaultZoom));
    } else {
      var items :- Iter(data);
      res :- Collect(items, SchoolParser(env.defaultZoom));
    }
    if kind == env.preschool || kind == env.kid {
      if !AllNamed(res) {
        return Failure(TypeError);
      }
      res := FilterItem(res, NameLength, NameInside);
    }
    return Success(res);
  }

  /** The category parse_neighbor gives an amenity fetched as `kind`. */
  predicate OfCategory(n: Neighbor, kind: string, env: Env) {
    if kind != env.school then n.kind == kind else n.kind == PublicSchool || n.kind == PrivateSchool
  }

  /** Every amenity of the answer is of the requested category (schools:
      public or private), one per entry of the answer. */
  lemma RawNeighborKinds(data: Value, kind: string, env: Env)
    requires RawNeighbors(data, kind, env).Success?
    ensures forall n :: n in RawNeighbors(data, kind, env).value ==> OfCategory(n, kind, env)
  {
    var r := RawNeighbors(data, kind, env).value;
    var items := if kind != env.school then Iter(data.fields["neighborhoods"]).value else Iter(data).value;
    var f := if kind != env.school then NeighborParser(kind, env.defaultZoom) else SchoolParser(env.defaultZoom);
    MapAllSuccess(items, f);
    forall n | n in r ensures OfCategory(n, kind, env) {
      var i :| 0 <= i < |r| && r[i] == n;
    }
  }

  /** Outside the preschool and daycare categories nothing is filtered. */
  lemma NeighborsUnfiltered(data: Value, kind: string, env: Env)
    requires !Filtered(kind, env)
    requires NeighborsOf(data, kind, env).Success?
    ensures NeighborsOf(data, kind, env) == RawNeighbors(data, kind, env)
  {
  }

  /** parse_neighbor returns amenities of the requested category only. */
  lemma NeighborKinds(data: Value, kind: string, env: Env)
    requires NeighborsOf(data, kind, env).Success?
    ensures forall n :: n in NeighborsOf(data, kind, env).value ==> OfCategory(n, kind, env)
  {
    var raw := RawNeighbors(data, kind, env).value;
    var r := NeighborsOf(data, kind, env).value;
    RawNeighborKinds(data, kind, env);
    if Filtered(kind, env) {
      SuppressSubMultiset(SortDesc(raw, NameLength), NameInside);
      forall n | n in r ensures OfCategory(n, kind, env) {
        assert n in multiset(r);
      }
    }
  }

  /** For preschools and daycares no retained name is a proper substring of
      another retained name, and an amenity is dropped only when an
      amenity whose name lies inside its own is retained. */
  lemma NeighborsFiltered(data: Value, kind: string, env: Env)
    requires Filtered(kind, env)
    requires NeighborsOf(data, kind, env).Success?
    ensures var raw := RawNeighbors(data, kind, env).value;
            var r := NeighborsOf(data, kind, env).value;
            && Independent(r, NameInside)
            && multiset(r) <= multiset(raw)
            && forall x :: x in raw ==> x in r || exists y :: y in r && NameInside(y, x)
  {
    var raw := RawNeighbors(data, kind, env).value;
    var r := NeighborsOf(data, kind, env).value;
    FilterItemProperties(raw, NameLength, NameInside);
    NameLengthGrows();
    OutputIndependent(r, NameLength, NameInside);
  }

  // ---------------------------------------------------------------------
  // parse_things

  /** NThing(...) built from one record, reading the fields in the order
      the constructor call evaluates them; a median the record lacks is
      None. */
  function MakeThing(v: Value, zoom: Value): (r: Result<Thing>)
    ensures !v.JObj? ==> r == Failure(TypeError)
    ensures r.Success? <==> v.JObj? && ThingKeys <= v.fields.Keys
    ensures v.JObj? && r.Failure? ==> r.error.KeyError? && r.error.key in ThingKeys - v.fields.Keys
    ensures r.Success? ==>
              var m := v.fields;
              && r.value.name == m["complexName"]
              && r.value.typeCode == m["realEstateTypeCode"]
              && r.value.completion == m["completionYearMonth"]
              && r.value.loc == Location(m["latitude"], m["longitude"], zoom)
              && r.value.area == Area(m["minArea"], m["maxArea"], m["representativeArea"], m["floorAreaRatio"])
              && r.value.deal == Price(m["minDealPrice"], m["maxDealPrice"], Optional(m, "medianDealPrice"))
              && r.value.lease == Price(m["minLeasePrice"], m["maxLeasePrice"], Optional(m, "medianLeasePrice"))
              && r.value.dealUnit == Price(m["minDealUnitPrice"], m["maxDealUnitPrice"], Optional(m, "medianDealUnitPrice"))
              && r.value.leaseUnit == Price(m["minLeaseUnitPrice"], m["maxLeaseUnitPrice"], Optional(m, "medianLeaseUnitPrice"))
              && r.value.dir.None? && r.value.around.None?
  {
    var name :- Get(v, "complexName");
    var typeCode :- Get(v, "realEstateTypeCode");
    var completion :- Get(v, "completionYearMonth");
    var lat :- Get(v, "latitude");
    var lon :- Get(v, "longitude");
    var minArea :- Get(v, "minArea");
    var maxArea :- Get(v, "maxArea");
    var repArea :- Get(v, "representativeArea");
    var ratio :- Get(v, "floorAreaRatio");
    var minDeal :- Get(v, "minDealPrice");
    var maxDeal :- Get(v, "maxDealPrice");
    var minLease :- Get(v, "minLeasePrice");
    var maxLease :- Get(v, "maxLeasePrice");
    var minDealUnit :- Get(v, "minDealUnitPrice");
    var maxDealUnit :- Get(v, "maxDealUnitPrice");
    var minLeaseUnit :- Get(v, "minLeaseUnitPrice");
    var maxLeaseUnit :- Get(v, "maxLeaseUnitPrice");
    // `None if key not in v else v[key]` cannot fail on a dict, so reading
    // the medians after the required fields raises the same KeyError.
    var m := v.fields;
    var medDeal := Optional(m, "medianDealPrice");
    var medLease := Optional(m, "medianLeasePrice");
    var medDealUnit := Optional(m, "medianDealUnitPrice");
    var medLeaseUnit := Optional(m, "medianLeaseUnitPrice");
    Success(Thing(name, typeCode, completion, Location(lat, lon, zoom),
                  Area(minArea, maxArea, repArea, ratio),
                  Price(minDeal, maxDeal, medDeal), Price(minLease, maxLease, medLease),
                  Price(minDealUnit, maxDealUnit, medDealUnit), Price(minLeaseUnit, maxLeaseUnit, medLeaseUnit),
                  None, None))
  }

  /** The fields NThing(...) subscripts unconditionally. */
  const ThingKeys: set<string> := {
    "complexName", "realEstateTypeCode", "completionYearMonth", "latitude", "longitude",
    "minArea", "maxArea", "representativeArea", "floorAreaRatio",
    "minDealPrice", "maxDealPrice", "minLeasePrice", "maxLeasePrice",
    "minDealUnitPrice", "maxDealUnitPrice", "minLeaseUnitPrice", "maxLeaseUnitPrice" }

  function Optional(m: map<string, Value>, key: string): Value {
    if key in m then m[key] else JNull
  }

  /** One iteration of the parse_things loop: None when the record is
      skipped (`continue`) or lies outside the sector, otherwise the thing
      tagged with the direction. */
  function ThingItem(v: Value, sector: Sector, dir: string, env: Env): Result<Option<Thing>> {
    var hasDeal :- Has(v, "minDealPrice");
    if !hasDeal && !Has(v, "minLeasePrice").value then Success(None)
    else
      var dealCount :- Get(v, "dealCount");
      var noOffer :-
        if IsZero(dealCount) then
          var leaseCount :- Get(v, "leaseCount");
          Success(IsZero(leaseCount))
        else Success(false);
      if noOffer then Success(None)
      else
        var thing :- MakeThing(v, env.defaultZoom);
        if env.contain(sector, thing.loc) then Success(Some(thing.(dir := Some(dir))))
        else Success(None)
  }

  function ThingParser(sector: Sector, dir: string, env: Env): Value -> Result<Option<Thing>> {
    v => ThingItem(v, sector, dir, env)
  }

  /** The body of `for v in results` skips a string that contains neither
      price name (`in` is then a substring test); any other string fails
      at `v['dealCount']`. */
  predicate NamesPrice(k: string) {
    IsSubstring("minDealPrice", k) || IsSubstring("minLeasePrice", k)
  }

  /** Strings as the values a loop visits: the keys of a dict, or the
      one-character strings of a string. */
  function StrItems(keys: seq<string>): seq<Value> {
    seq(|keys|, i requires 0 <= i < |keys| => JStr(keys[i]))
  }

  function Characters(s: string): seq<string> {
    seq(|s|, i requires 0 <= i < |s| => [s[i]])
  }

  /** What `for v in results` visits in parse_things when results is not a
      dict: a list's items, a string's characters. */
  function Records(results: Value): Result<seq<Value>>
    requires !results.JObj?
  {
    if results.JStr? then Success(StrItems(Characters(results.s))) else Iter(results)
  }

  /** What parse_things(results, sector, dir) returns. A dict is iterated
      over its keys, in the dict's own order; the outcome does not depend
      on that order (ThingsOfDict), so it is stated on the key set. */
  function ThingsOf(results: Value, sector: Sector, dir: string, env: Env): Result<seq<Thing>> {
    if results.JObj? then
      if exists k | k in results.fields.Keys :: NamesPrice(k) then Failure(TypeError) else Success([])
    else
      var items :- Records(results);
      var outs :- MapAll(items, ThingParser(sector, dir, env));
      Success(Somes(outs))
  }

  method ParseThings(results: Value, sector: Sector, dir: string, env: Env) returns (r: Result<seq<Thing>>)
    ensures r == ThingsOf(results, sector, dir, env)
  {
    if results.JObj? {
      // the keys, visited in whatever order the dict holds them
      var rest := results.fields.Keys;
      while rest != {}
        invariant rest <= results.fields.Keys
        invariant forall k :: k in results.fields.Keys - rest ==> !NamesPrice(k)
        decreases rest
      {
        var k :| k in rest;
        var out := ThingItem(JStr(k), sector, dir, env);
        KeyRecord(k, sector, dir, env);
        if out.Failure? {
          return Failure(out.error);
        }
        rest := rest - {k};
      }
      return Success([]);
    }
    var items :- Records(results);
    var outs :- Collect(items, ThingParser(sector, dir, env));
    var res: seq<Thing> := [];
    for i := 0 to |outs|
      invariant res == Somes(outs[..i])
    {
      assert outs[..i + 1][..i] == outs[..i];
      if outs[i].Some? {
        res := res + [outs[i].value];
      }
    }
    assert outs[..|outs|] == outs;
    return Success(res);
  }

  /** The record names at least one minimum price. */
  predicate HasPrice(m: map<string, Value>) {
    "minDealPrice" in m || "minLeasePrice" in m
  }

  /** The record reports zero deal offers and zero lease offers. */
  predicate NoOffer(m: map<string, Value>) {
    "dealCount" in m && IsZero(m["dealCount"]) && "leaseCount" in m && IsZero(m["leaseCount"])
  }

  /** The three discard rules: a record with neither minimum price, or
      with zero deal and zero lease offers, or outside the sector, is
      dropped; every other record that parses is kept, tagged with the
      direction. */
  lemma ThingItemRules(v: Value, sector: Sector, dir: string, env: Env)
    requires v.JObj?
    ensures !HasPrice(v.fields) ==> ThingItem(v, sector, dir, env) == Success(None)
    ensures HasPrice(v.fields) && NoOffer(v.fields) ==> ThingItem(v, sector, dir, env) == Success(None)
    ensures HasPrice(v.fields) && "dealCount" in v.fields && !NoOffer(v.fields)
            && (IsZero(v.fields["dealCount"]) ==> "leaseCount" in v.fields) ==>
              var made := MakeThing(v, env.defaultZoom);
              ThingItem(v, sector, dir, env)
              == if made.Failure? then Failure(made.error)
                 else if env.contain(sector, made.value.loc) then Success(Some(made.value.(dir := Some(dir))))
                 else Success(None)
  {
  }

  /** A kept record passed all three rules and carries the direction. */
  lemma ThingItemKept(v: Value, sector: Sector, dir: string, env: Env)
    requires ThingItem(v, sector, dir, env).Success? && ThingItem(v, sector, dir, env).value.Some?
    ensures v.JObj? && HasPrice(v.fields) && !NoOffer(v.fields)
    ensures var t := ThingItem(v, sector, dir, env).value.value;
            && t.dir == Some(dir) && env.contain(sector, t.loc)
            && MakeThing(v, env.defaultZoom) == Success(t.(dir := None))
  {
  }

  /** parse_things keeps input order: result k comes from record idx[k],
      the positions increase, every record not kept was skipped by one of
      the rules, and every kept thing lies in the sector and carries the
      direction. */
  lemma ThingsOfOrder(results: Value, sector: Sector, dir: string, env: Env)
    requires ThingsOf(results, sector, dir, env).Success?
    ensures results.JObj? ==> ThingsOf(results, sector, dir, env).value == []
    ensures !results.JObj? ==>
            var items := Records(results).value;
            var outs := MapAll(items, ThingParser(sector, dir, env)).value;
            var idx := SomeIndices(outs);
            var r := ThingsOf(results, sector, dir, env).value;
            && |r| == |idx|
            && (forall k :: 0 <= k < |idx| ==>
                  idx[k] < |items| && ThingItem(items[idx[k]], sector, dir, env) == Success(Some(r[k])))
            && (forall k, l :: 0 <= k < l < |idx| ==> idx[k] < idx[l])
            && (forall i :: 0 <= i < |items| && i !in idx ==> ThingItem(items[i], sector, dir, env) == Success(None))
            && (forall t :: t in r ==> t.dir == Some(dir) && env.contain(sector, t.loc))
  {
    if !results.JObj? {
      KeptInOrder(Records(results).value, sector, dir, env);
    }
  }

  lemma KeptInOrder(items: seq<Value>, sector: Sector, dir: string, env: Env)
    requires MapAll(items, ThingParser(sector, dir, env)).Success?
    ensures var outs := MapAll(items, ThingParser(sector, dir, env)).value;
            var idx := SomeIndices(outs);
            var r := Somes(outs);
            && |r| == |idx|
            && (forall k :: 0 <= k < |idx| ==>
                  idx[k] < |items| && ThingItem(items[idx[k]], sector, dir, env) == Success(Some(r[k])))
            && (forall k, l :: 0 <= k < l < |idx| ==> idx[k] < idx[l])
            && (forall i :: 0 <= i < |items| && i !in idx ==> ThingItem(items[i], sector, dir, env) == Success(None))
            && (forall t :: t in r ==> t.dir == Some(dir) && env.contain(sector, t.loc))
  {
    var f := ThingParser(sector, dir, env);
    var outs := MapAll(items, f).value;
    var r := Somes(outs);
    MapAllSuccess(items, f);
    SomesIndexed(outs);
    var idx := SomeIndices(outs);
    forall t | t in r ensures t.dir == Some(dir) && env.contain(sector, t.loc) {
      var k :| 0 <= k < |r| && r[k] == t;
      ThingItemKept(items[idx[k]], sector, dir, env);
    }
  }

  /** A string visited as a record is skipped when it names neither price,
      and otherwise fails with TypeError at `v['dealCount']`. */
  lemma KeyRecord(k: string, sector: Sector, dir: string, env: Env)
    ensures ThingItem(JStr(k), sector, dir, env) == if NamesPrice(k) then Failure(TypeError) else Success(None)
  {
  }

  /** Walking strings: the first one that names a price aborts with
      TypeError; when none does, every one is skipped. */
  lemma StrWalk(keys: seq<string>, sector: Sector, dir: string, env: Env)
    ensures var w := MapAll(StrItems(keys), ThingParser(sector, dir, env));
            && ((exists i :: 0 <= i < |keys| && NamesPrice(keys[i])) ==> w == Failure(TypeError))
            && ((forall i :: 0 <= i < |keys| ==> !NamesPrice(keys[i])) ==> w.Success? && Somes(w.value) == [])
  {
    var items := StrItems(keys);
    var bad := (v: Value) => v.JStr? && NamesPrice(v.s);
    forall i | 0 <= i < |items|
      ensures ThingItem(items[i], sector, dir, env) == if bad(items[i]) then Failure(TypeError) else Success(None)
    {
      KeyRecord(keys[i], sector, dir, env);
    }
    SkipWalk(items, ThingParser(sector, dir, env), bad);
    if exists i :: 0 <= i < |keys| && NamesPrice(keys[i]) {
      var i :| 0 <= i < |keys| && NamesPrice(keys[i]);
      assert bad(items[i]);
    }
  }

  /** An answer that is a dict gives the same outcome whatever order its
      keys are visited in: `[]` when no key names a price, TypeError
      otherwise. */
  lemma ThingsOfDict(m: map<string, Value>, keys: seq<string>, sector: Sector, dir: string, env: Env)
    requires forall k :: k in m <==> k in keys
    ensures var w := MapAll(StrItems(keys), ThingParser(sector, dir, env));
            ThingsOf(JObj(m), sector, dir, env) == if w.Failure? then Failure(w.error) else Success(Somes(w.value))
  {
    StrWalk(keys, sector, dir, env);
    if exists k | k in m.Keys :: NamesPrice(k) {
      var k :| k in m.Keys && NamesPrice(k);
      var i :| 0 <= i < |keys| && keys[i] == k;
    }
  }

  /** An answer that is a string gives no listings: each character is a
      one-character string, too short to contain a price name. */
  lemma ThingsOfString(s: string, sector: Sector, dir: string, env: Env)
    ensures ThingsOf(JStr(s), sector, dir, env) == Success([])
  {
    var cs := Characters(s);
    forall i | 0 <= i < |cs| ensures !NamesPrice(cs[i]) {
      assert |cs[i]| == 1;
    }
    StrWalk(cs, sector, dir, env);
  }

  /** A record with a lease price but no deal price passes the first rule
      and then aborts the whole parse: NThing(...) subscripts minDealPrice
      unconditionally. */
  lemma LeaseOnlyRecordAborts(v: Value, sector: Sector, dir: string, env: Env)
    requires v.JObj?
    requires "minLeasePrice" in v.fields && "minDealPrice" !in v.fields
    requires "dealCount" in v.fields && !IsZero(v.fields["dealCount"])
    requires forall k :: k in ["complexName", "realEstateTypeCode", "completionYearMonth", "latitude",
                               "longitude", "minArea", "maxArea", "representativeArea", "floorAreaRatio"]
                         ==> k in v.fields
    ensures ThingItem(v, sector, dir, env) == Failure(KeyError("minDealPrice"))
  {
  }
}
