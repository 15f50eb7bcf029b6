/** The request layer over one sector: util.get_neighborhood,
    util.make_param_thing, util.get_things, util.get_all_neighbors and
    util.get_things_each_direction (gathering_data/util.py:25-69, 273-290).
    Every request goes through `env.http`; a failed request and a parse
    error both abort the operation, as the exception does in the source. */
module Fetching {
  import opened Common
  import opened Model
  import opened Chunking
  import opened Parsing

  // ---------------------------------------------------------------------
  // Listings

  /** The fixed query of make_param_thing: every price and area band wide
      open, retail prices, empty marker and household filters. */
  function DefaultThingParams(zoom: Value): Params {
    map[
      "zoom" := zoom, "priceType" := JStr("RETAIL"),
      "markerId" := JStr(""), "markerType" := JStr(""),
      "selectedComplexNo" := JStr(""), "selectedComplexBuildingNo" := JStr(""),
      "fakeComplexMarker" := JStr(""), "tag" := JStr("::::::::"),
      "rentPriceMin" := JNum(0.0), "rentPriceMax" := JNum(900000000.0),
      "priceMin" := JNum(0.0), "priceMax" := JNum(900000000.0),
      "areaMin" := JNum(0.0), "areaMax" := JNum(900000000.0),
      "oldBuildYears" := JStr(""), "recentlyBuildYears" := JStr(""),
      "minHouseHoldCount" := JStr(""), "maxHouseHoldCount" := JStr(""),
      "showArticle" := JBool(true), "sameAddressGroup" := JBool(false),
      "minMaintenanceCost" := JStr(""), "maxMaintenanceCost" := JStr("")]
  }

  /** make_param_thing(sector, addon): the fixed query, updated first with
      the sector's parameters and then with the addon's, so a later source
      wins on a shared key. */
  function MakeParamThing(sector: Sector, addon: Addon, env: Env): (p: Params)
    ensures var d, s, a := DefaultThingParams(sector.loc.zoom), env.sectorParam(sector), env.addonParam(addon);
            && (forall k :: k in p <==> k in d || k in s || k in a)
            && (forall k :: k in a ==> p[k] == a[k])
            && (forall k :: k in s && k !in a ==> p[k] == s[k])
            && (forall k :: k in d && k !in s && k !in a ==> p[k] == d[k])
  {
    DefaultThingParams(sector.loc.zoom) + env.sectorParam(sector) + env.addonParam(addon)
  }

  /** Unless the sector or the addon overrides them, a listing request asks
      at the sector's zoom for retail prices up to 900,000,000. */
  lemma ThingParamsDefaults(sector: Sector, addon: Addon, env: Env)
    ensures var s, a := env.sectorParam(sector), env.addonParam(addon);
            var p := MakeParamThing(sector, addon, env);
            && ("zoom" !in s && "zoom" !in a ==> p["zoom"] == sector.loc.zoom)
            && ("priceType" !in s && "priceType" !in a ==> p["priceType"] == JStr("RETAIL"))
            && ("priceMax" !in s && "priceMax" !in a ==> p["priceMax"] == JNum(900000000.0))
            && ("showArticle" !in s && "showArticle" !in a ==> p["showArticle"] == JBool(true))
  {
    var d := DefaultThingParams(sector.loc.zoom);
    assert "zoom" in d && d["zoom"] == sector.loc.zoom;
    assert "priceType" in d && d["priceType"] == JStr("RETAIL");
    assert "priceMax" in d && d["priceMax"] == JNum(900000000.0);
    assert "showArticle" in d && d["showArticle"] == JBool(true);
  }

  /** What get_things(sector, addon) returns: one request to the complex
      endpoint, parsed with the addon's direction. */
  function ThingsFor(sector: Sector, addon: Addon, env: Env): Result<seq<Thing>> {
    var res :- env.http(Request(Complex2, MakeParamThing(sector, addon, env)));
    ThingsOf(res, sector, addon.dir, env)
  }

  /** get_things(sector, addon) */
  method GetThings(sector: Sector, addon: Addon, env: Env) returns (r: Result<seq<Thing>>)
    ensures r == ThingsFor(sector, addon, env)
  {
    var res :- env.http(Request(Complex2, MakeParamThing(sector, addon, env)));
    r := ParseThings(res, sector, addon.dir, env);
  }

  /** The addon get_things_each_direction reuses, with its direction set:
      deals and leases of apartments and officetels. */
  function DirectionAddon(dir: string): Addon {
    Addon(dir, [Deal, Lease], [Apartment, Officetel])
  }

  function DirectionFetcher(sector: Sector, env: Env): string -> Result<seq<Thing>> {
    dir => ThingsFor(sector, DirectionAddon(dir), env)
  }

  /** What get_things_each_direction(sector) returns: the listings of every
      direction in NAddon.DIR_EACH order, one request per direction. */
  function ThingsAllDirections(sector: Sector, env: Env): Result<seq<Thing>> {
    var parts :- MapAll(env.directions, DirectionFetcher(sector, env));
    Success(Concat(parts))
  }

  /** get_things_each_direction(sector): `things.extend(get_things(...))`
      per direction; the first failure propagates. */
  method ThingsEachDirection(sector: Sector, env: Env) returns (r: Result<seq<Thing>>)
    ensures r == ThingsAllDirections(sector, env)
  {
    var dirs := env.directions;
    var f := DirectionFetcher(sector, env);
    var things: seq<Thing> := [];
    ghost var parts: seq<seq<Thing>> := [];
    for i := 0 to |dirs|
      invariant MapAll(dirs[..i], f) == Success(parts)
      invariant things == Concat(parts)
    {
      var got := GetThings(sector, DirectionAddon(dirs[i]), env);
      MapAllStep(dirs, f, i, parts);
      if got.Failure? {
        return Failure(got.error);
      }
      ConcatSnoc(parts, got.value);
      things := things + got.value;
      parts := parts + [got.value];
    }
    assert dirs[..|dirs|] == dirs;
    return Success(things);
  }

  /** Every listing of the sweep lies in the sector, carries one of the
      swept directions and has no amenity counts yet; the sweep succeeds
      exactly when every direction's request and parse succeed. */
  lemma ThingsAllDirectionsContained(sector: Sector, env: Env)
    ensures ThingsAllDirections(sector, env).Success? <==>
              forall i :: 0 <= i < |env.directions| ==> ThingsFor(sector, DirectionAddon(env.directions[i]), env).Success?
    ensures ThingsAllDirections(sector, env).Success? ==>
              forall t :: t in ThingsAllDirections(sector, env).value ==>
                t.dir.Some? && t.dir.value in env.directions && env.contain(sector, t.loc) && t.around.None?
  {
    var dirs := env.directions;
    var f := DirectionFetcher(sector, env);
    MapAllSuccess(dirs, f);
    if ThingsAllDirections(sector, env).Success? {
      var parts: seq<seq<Thing>> := MapAll(dirs, f).value;
      forall t: Thing | t in Concat(parts)
        ensures t.dir.Some? && t.dir.value in dirs && env.contain(sector, t.loc) && t.around.None?
      {
        ConcatMember(parts, t);
        var i :| 0 <= i < |parts| && t in parts[i];
        DirectionContained(sector, dirs[i], env, t);
      }
    }
  }

  /** A listing fetched for one direction lies in the sector and carries
      that direction. */
  lemma DirectionContained(sector: Sector, dir: string, env: Env, t: Thing)
    requires ThingsFor(sector, DirectionAddon(dir), env).Success?
    requires t in ThingsFor(sector, DirectionAddon(dir), env).value
    ensures t.dir == Some(dir) && env.contain(sector, t.loc) && t.around.None?
  {
    var res := env.http(Request(Complex2, MakeParamThing(sector, DirectionAddon(dir), env))).value;
    ThingsOfOrder(res, sector, dir, env);
    var r := ThingsOf(res, sector, dir, env).value;
    var k :| 0 <= k < |r| && r[k] == t;
    var items := Records(res).value;
    var idx := SomeIndices(MapAll(items, ThingParser(sector, dir, env)).value);
    ThingItemKept(items[idx[k]], sector, dir, env);
  }

  /** A failed sweep reports the error of the first direction that fails. */
  lemma ThingsAllDirectionsFirstError(sector: Sector, env: Env, k: nat)
    requires k < |env.directions|
    requires ThingsFor(sector, DirectionAddon(env.directions[k]), env).Failure?
    requires forall i :: 0 <= i < k ==> ThingsFor(sector, DirectionAddon(env.directions[i]), env).Success?
    ensures ThingsAllDirections(sector, env) == Failure(ThingsFor(sector, DirectionAddon(env.directions[k]), env).error)
  {
    MapAllFirstError(env.directions, DirectionFetcher(sector, env), k);
  }

  // ---------------------------------------------------------------------
  // Amenities

  /** The request get_neighborhood(sector, nType) sends: the around
      parameters with the sector's zoom; schools go to their own endpoint,
      every other category names itself as `type`. */
  function NeighborRequest(sector: Sector, kind: string, env: Env): (q: Request)
    ensures q.route == School <==> kind == env.school
    ensures q.route != School ==> q.route == Neighborhood
    ensures "zoom" in q.params && q.params["zoom"] == sector.loc.zoom
    ensures kind != env.school ==> "type" in q.params && q.params["type"] == JStr(kind)
    ensures kind == env.school ==> ("type" in q.params <==> "type" in env.aroundParam(sector.loc))
    ensures forall k :: k != "zoom" && k != "type" ==>
              (k in q.params <==> k in env.aroundParam(sector.loc))
              && (k in q.params ==> q.params[k] == env.aroundParam(sector.loc)[k])
  {
    var param := env.aroundParam(sector.loc)["zoom" := sector.loc.zoom];
    if kind != env.school then Request(Neighborhood, param["type" := JStr(kind)])
    else Request(School, param)
  }

  /** What get_neighborhood(sector, nType) returns. */
  function NeighborhoodFor(sector: Sector, kind: string, env: Env): Result<seq<Neighbor>> {
    var res :- env.http(NeighborRequest(sector, kind, env));
    NeighborsOf(res, kind, env)
  }

  /** get_neighborhood(sector, nType) */
  method GetNeighborhood(sector: Sector, kind: string, env: Env) returns (r: Result<seq<Neighbor>>)
    ensures r == NeighborhoodFor(sector, kind, env)
  {
    var res :- env.http(NeighborRequest(sector, kind, env));
    r := ParseNeighbor(res, kind, env);
  }

  function NeighborFetcher(sector: Sector, env: Env): string -> Result<seq<Neighbor>> {
    kind => NeighborhoodFor(sector, kind, env)
  }

  /** What get_all_neighbors(sector) returns: the amenities of every
      category of NNeighbor.EACH, in that order. */
  function AllNeighborsOf(sector: Sector, env: Env): Result<seq<Neighbor>> {
    var parts :- MapAll(env.categories, NeighborFetcher(sector, env));
    Success(Concat(parts))
  }

  /** get_all_neighbors(sector): `neighbors.extend(get_neighborhood(...))`
      per category; the first failure propagates. */
  method GetAllNeighbors(sector: Sector, env: Env) returns (r: Result<seq<Neighbor>>)
    ensures r == AllNeighborsOf(sector, env)
  {
    var kinds := env.categories;
    var f := NeighborFetcher(sector, env);
    var neighbors: seq<Neighbor> := [];
    ghost var parts: seq<seq<Neighbor>> := [];
    for i := 0 to |kinds|
      invariant MapAll(kinds[..i], f) == Success(parts)
      invariant neighbors == Concat(parts)
    {
      var got := GetNeighborhood(sector, kinds[i], env);
      MapAllStep(kinds, f, i, parts);
      if got.Failure? {
        return Failure(got.error);
      }
      ConcatSnoc(parts, got.value);
      neighbors := neighbors + got.value;
      parts := parts + [got.value];
    }
    assert kinds[..|kinds|] == kinds;
    return Success(neighbors);
  }

  /** Every amenity collected belongs to one of the requested categories
      (a school to PUB_SCHOOL or PRI_SCHOOL); the collection succeeds
      exactly when every category's request and parse succeed. */
  lemma AllNeighborsCategories(sector: Sector, env: Env)
    ensures AllNeighborsOf(sector, env).Success? <==>
              forall i :: 0 <= i < |env.categories| ==> NeighborhoodFor(sector, env.categories[i], env).Success?
    ensures AllNeighborsOf(sector, env).Success? ==>
              forall n :: n in AllNeighborsOf(sector, env).value ==>
                exists kind :: kind in env.categories && OfCategory(n, kind, env)
  {
    var kinds := env.categories;
    var f := NeighborFetcher(sector, env);
    MapAllSuccess(kinds, f);
    if AllNeighborsOf(sector, env).Success? {
      var parts: seq<seq<Neighbor>> := MapAll(kinds, f).value;
      forall n: Neighbor | n in Concat(parts) ensures exists kind :: kind in kinds && OfCategory(n, kind, env) {
        ConcatMember(parts, n);
        var i :| 0 <= i < |parts| && n in parts[i];
        var res := env.http(NeighborRequest(sector, kinds[i], env)).value;
        NeighborKinds(res, kinds[i], env);
      }
    }
  }

  /** A failed collection reports the error of the first category that fails. */
  lemma AllNeighborsFirstError(sector: Sector, env: Env, k: nat)
    requires k < |env.categories|
    requires NeighborhoodFor(sector, env.categories[k], env).Failure?
    requires forall i :: 0 <= i < k ==> NeighborhoodFor(sector, env.categories[i], env).Success?
    ensures AllNeighborsOf(sector, env) == Failure(NeighborhoodFor(sector, env.categories[k], env).error)
  {
    MapAllFirstError(env.categories, NeighborFetcher(sector, env), k);
  }
}
