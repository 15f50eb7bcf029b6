/** The entities of the data-gathering layer (the records built by
    gathering_data/util.py) and the collaborators the model does not see:
    the HTTP endpoint, the haversine distance, and the helpers of
    gathering_data/classes.py, which is not part of this model. */
module Model {
  import opened Common

  /** NLocation: a coordinate and a zoom level. The coordinates are kept as
      the values the service or the coordinate table supplied. */
  datatype Location = Location(lat: Value, lon: Value, zoom: Value)

  /** NRegion: an administrative region (cortarName, centre, cortarNo). */
  datatype Region = Region(name: Value, loc: Location, code: Value)

  /** NSector: the cell the map service returns for a coordinate. */
  datatype Sector = Sector(
    name: Value, loc: Location, id: Value, city: Value, division: Value, boundary: Value)

  /** NArea and NPrice: area and price statistics of a listing; a median the
      service omitted is None (JNull). */
  datatype Area = Area(min: Value, max: Value, representative: Value, floorAreaRatio: Value)
  datatype Price = Price(min: Value, max: Value, median: Value)

  /** NNeighborAround: amenity count per category; a category never
      increased counts 0. */
  type Around = map<string, nat>

  function Count(a: Around, kind: string): nat {
    if kind in a then a[kind] else 0
  }

  /** NNeighborAround.increase */
  function Increase(a: Around, kind: string): (r: Around)
    ensures Count(r, kind) == Count(a, kind) + 1
    ensures forall k :: k != kind ==> Count(r, k) == Count(a, k)
  {
    a[kind := Count(a, kind) + 1]
  }

  /** NThing: one listing (complex). `dir` and `around` are the attributes
      util.py assigns after construction; None stands for "not assigned". */
  datatype Thing = Thing(
    name: Value, typeCode: Value, completion: Value, loc: Location, area: Area,
    deal: Price, lease: Price, dealUnit: Price, leaseUnit: Price,
    dir: Option<string>, around: Option<Around>)

  /** NNeighbor: one amenity of a category (`kind`). */
  datatype Neighbor = Neighbor(kind: string, name: Value, loc: Location)

  /** NAddon: the filter of one listing request. */
  datatype Trade = Deal | Lease
  datatype Estate = Apartment | Officetel
  datatype Addon = Addon(dir: string, trades: seq<Trade>, estates: seq<Estate>)

  /** The endpoints of NRE_ROUTER used by the core. */
  datatype Route = Cortars | Complex2 | Neighborhood | School | RegionList
  datatype Request = Request(route: Route, params: Params)

  /** What the model takes as given:
      - http: util.get, which returns the decoded JSON body or fails;
      - distance: distance_between, the rounded haversine distance in metres;
      - contain: NSector.map.contain, the point-in-polygon test;
      - sectorParam, addonParam, aroundParam: NSector.get_param,
        NAddon.get_param, NLocation.get_around_param;
      - defaultZoom: the zoom an NLocation gets when none is given;
      - school, preschool, kid: NNeighbor.SCHOOL, NNeighbor.PRESCHOOL, NNeighbor.KID;
      - categories: NNeighbor.EACH; directions: NAddon.DIR_EACH;
      - header, row: NThing.HEADER and NThing.get_list. */
  datatype Env = Env(
    http: Request -> Result<Value>,
    distance: (Location, Location) -> nat,
    contain: (Sector, Location) -> bool,
    sectorParam: Sector -> Params,
    addonParam: Addon -> Params,
    aroundParam: Location -> Params,
    defaultZoom: Value,
    school: string,
    preschool: string,
    kid: string,
    categories: seq<string>,
    directions: seq<string>,
    header: seq<string>,
    row: Thing -> seq<Value>)
}
