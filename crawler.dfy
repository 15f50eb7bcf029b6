/** The crawler facade of gathering_data/data_gatherer.py: NaverRECrawler
    resolves a place name to coordinates, finds the sector there, gathers
    its listings and amenities, and returns them as a table with prices in
    units of 100,000,000 won. The CSV file is given as its rows; console
    output is not modelled. */
module Crawler {
  import opened Common
  import opened Model
  import opened Scheduling
  import opened Parsing
  import opened Fetching
  import opened Proximity

  // ---------------------------------------------------------------------
  // Coordinates

  /** A coordinate entry: a (latitude, longitude) pair, or the empty tuple
      some fallback entries hold. */
  datatype Coord = Pair(lat: real, lon: real) | NoCoord

  /** One row of the coordinate file: bjd_nm, center_lati, center_long. */
  datatype CoordRow = CoordRow(name: string, lat: real, lon: real)

  /** The fallback table of the constructor. */
  const DefaultCoordinates: map<string, Coord> := map[
    "강남역" := Pair(37.4979462, 127.0276206),
    "역삼역" := Pair(37.5006, 127.0368),
    "선릉역" := Pair(37.5044, 127.0505),
    "서울역" := Pair(37.5551, 126.9707),
    "한강공원" := Pair(37.5662, 126.8763),
    "홍대입구역" := NoCoord,
    "이태원역" := NoCoord,
    "부산역" := NoCoord,
    "대전역" := NoCoord]

  /** load_coordinates_from_file: the dict comprehension over the rows; a
      later row with the same name overwrites an earlier one. */
  function CoordTable(rows: seq<CoordRow>): (t: map<string, Coord>)
    ensures forall name :: name in t <==> exists i :: 0 <= i < |rows| && rows[i].name == name
    ensures forall name :: name in t ==> t[name].Pair?
  {
    if rows == [] then map[]
    else
      var last := rows[|rows| - 1];
      var init := CoordTable(rows[..|rows| - 1]);
      assert forall i :: 0 <= i < |rows| - 1 ==> rows[..|rows| - 1][i] == rows[i];
      init[last.name := Pair(last.lat, last.lon)]
  }

  /** The entry for a name is the one of its last row. */
  lemma {:induction false} CoordTableLast(rows: seq<CoordRow>, i: nat)
    requires i < |rows|
    requires forall j :: i < j < |rows| ==> rows[j].name != rows[i].name
    ensures rows[i].name in CoordTable(rows)
    ensures CoordTable(rows)[rows[i].name] == Pair(rows[i].lat, rows[i].lon)
  {
    if i < |rows| - 1 {
      var init := rows[..|rows| - 1];
      assert init[i] == rows[i];
      CoordTableLast(init, i);
    }
  }

  /** NLocation(*entry): a pair becomes a location at the default zoom; the
      empty tuple leaves the constructor without its arguments. */
  function Located(c: Coord, zoom: Value): (r: Result<Location>)
    ensures c.Pair? <==> r.Success?
    ensures r.Success? ==> r.value == Location(JNum(c.lat), JNum(c.lon), zoom)
  {
    match c
    case Pair(lat, lon) => Success(Location(JNum(lat), JNum(lon), zoom))
    case NoCoord => Failure(TypeError)
  }

  // ---------------------------------------------------------------------
  // The result table

  /** A pandas DataFrame: column names and rows. */
  datatype Frame = Frame(columns: seq<string>, rows: seq<seq<Value>>)

  /** The columns converted from 10,000 won to 100,000,000 won. */
  const PriceColumns: seq<string> := ["minDeal", "maxDeal", "medianDeal", "minLease", "maxLease", "medianLease"]

  /** `[t.get_list() for t in list]` */
  function Rows(things: seq<Thing>, env: Env): (rows: seq<seq<Value>>)
    ensures |rows| == |things| && forall i :: 0 <= i < |things| ==> rows[i] == env.row(things[i])
  {
    seq(|things|, i requires 0 <= i < |things| => env.row(things[i]))
  }

  /** The width of the widest row, 0 when there is none. */
  function MaxWidth(rows: seq<seq<Value>>): (w: nat)
    ensures forall i :: 0 <= i < |rows| ==> |rows[i]| <= w
    ensures rows != [] ==> exists i :: 0 <= i < |rows| && |rows[i]| == w
  {
    if rows == [] then 0
    else
      var w0 := MaxWidth(rows[..|rows| - 1]);
      var last := |rows[|rows| - 1]|;
      assert forall i :: 0 <= i < |rows| - 1 ==> rows[i] == rows[..|rows| - 1][i];
      if last > w0 then last else w0
  }

  /** A row filled up to width w with missing values. */
  function Padded(row: seq<Value>, w: nat): (r: seq<Value>)
    requires |row| <= w
    ensures |r| == w && r[..|row|] == row && forall k :: |row| <= k < w ==> r[k] == JNull
  {
    row + seq(w - |row|, _ => JNull)
  }

  /** pd.DataFrame(rows, columns=header): the rows are first made as wide
      as the widest one, missing values filling the short ones; that width
      must be the header's. */
  function MakeFrame(header: seq<string>, rows: seq<seq<Value>>): (r: Result<Frame>)
    ensures r.Success? <==> rows == [] || MaxWidth(rows) == |header|
    ensures r.Failure? ==> r.error == ValueError
    ensures r.Success? ==>
              && r.value.columns == header && |r.value.rows| == |rows| && Rectangular(r.value)
              && forall i, k :: 0 <= i < |rows| && 0 <= k < |header| ==>
                   r.value.rows[i][k] == if k < |rows[i]| then rows[i][k] else JNull
  {
    if rows != [] && MaxWidth(rows) != |header| then Failure(ValueError)
    else
      var out := seq(|rows|, i requires 0 <= i < |rows| => Padded(rows[i], |header|));
      assert forall i, k :: 0 <= i < |rows| && 0 <= k < |rows[i]| ==> out[i][k] == out[i][..|rows[i]|][k];
      Success(Frame(header, out))
  }

  /** Python's round(x, 2): the nearest hundredth, a tie going to the even
      hundredth. */
  function Round2(q: real): (r: real)
    ensures (r * 100.0).Floor as real == r * 100.0
    ensures -0.005 <= r - q <= 0.005
    ensures r - q == 0.005 || q - r == 0.005 ==> (r * 100.0).Floor % 2 == 0
  {
    var s := q * 100.0;
    var f := s.Floor;
    var frac := s - f as real;
    var n := if frac < 0.5 then f else if frac > 0.5 then f + 1 else if f % 2 == 0 then f else f + 1;
    assert (n as real / 100.0) * 100.0 == n as real;
    n as real / 100.0
  }

  /** A value already in hundredths is left as it is. */
  lemma Round2Exact(n: int)
    ensures Round2(n as real / 100.0) == n as real / 100.0
  {
    assert (n as real / 100.0) * 100.0 == n as real;
  }

  /** Ties go to the even hundredth. */
  lemma Round2Ties()
    ensures Round2(0.125) == 0.12
    ensures Round2(0.375) == 0.38
  {
    assert (0.125 * 100.0).Floor == 12;
    assert (0.375 * 100.0).Floor == 37;
  }

  /** The cell conversion `round(x / 10000, 2) if pd.notnull(x) else x`:
      a missing value stays missing, a number is divided and rounded to
      the nearest hundredth, a boolean counts as 0 or 1 (both round to 0).
      On a list, pd.notnull tests each element and `if` takes the truth of
      that array: with no element or one null element the cell is kept,
      with two or more the truth is ambiguous (ValueError), and a list
      with one other element cannot be divided. Text and a dict cannot be
      divided either. */
  function RescaleCell(x: Value): (r: Result<Value>)
    ensures x.JNull? ==> r == Success(JNull)
    ensures x.JNum? ==> r == Success(JNum(Round2(x.n / 10000.0)))
    ensures x.JNum? ==> (r.value.n * 100.0).Floor as real == r.value.n * 100.0
                        && -0.005 <= r.value.n - x.n / 10000.0 <= 0.005
    ensures x.JBool? ==> r == Success(JNum(0.0))
    ensures x.JArr? ==>
              r == if |x.items| == 0 || (|x.items| == 1 && x.items[0].JNull?) then Success(x)
                   else if |x.items| >= 2 then Failure(ValueError)
                   else Failure(TypeError)
    ensures x.JStr? || x.JObj? ==> r == Failure(TypeError)
  {
    match x
    case JNull => Success(JNull)
    case JNum(n) => Success(JNum(Round2(n / 10000.0)))
    case JBool(b) => Success(JNum(Round2((if b then 1.0 else 0.0) / 10000.0)))
    case JArr(xs) =>
      if |xs| >= 2 then Failure(ValueError)
      else if xs == [] || xs[0] == JNull then Success(x)
      else Failure(TypeError)
    case _ => Failure(TypeError)
  }

  /** 125,000 (in 10,000 won) is 12.5 (in 100,000,000 won). */
  lemma RescaleExample()
    ensures RescaleCell(JNum(125000.0)) == Success(JNum(12.5))
  {
    Round2Exact(1250);
    assert 125000.0 / 10000.0 == 1250 as real / 100.0;
  }

  function CellRescaler(j: nat): seq<Value> -> Result<seq<Value>> {
    row => if j < |row| then (var c :- RescaleCell(row[j]); Success(row[j := c])) else Success(row)
  }

  /** `df[col] = df[col].apply(...)` on the column at index j. */
  function RescaleColumn(f: Frame, j: nat): Result<Frame> {
    var rows :- MapAll(f.rows, CellRescaler(j));
    Success(Frame(f.columns, rows))
  }

  /** The first position of a column name. */
  function ColumnIndex(columns: seq<string>, col: string): (j: nat)
    requires col in columns
    ensures j < |columns| && columns[j] == col
    ensures forall k :: 0 <= k < j ==> columns[k] != col
  {
    if columns[0] == col then 0 else 1 + ColumnIndex(columns[1..], col)
  }

  /** The conversion loop over `cols`, each applied only when the table has
      that column. */
  function RescaleAll(cols: seq<string>, f: Frame): Result<Frame> {
    if cols == [] then Success(f)
    else
      var g :- RescaleAll(cols[..|cols| - 1], f);
      var col := cols[|cols| - 1];
      if col in g.columns then RescaleColumn(g, ColumnIndex(g.columns, col)) else Success(g)
  }

  /** Once a prefix of the conversion fails, the whole conversion fails
      with the same error. */
  lemma {:induction false} RescaleFailurePersists(cols: seq<string>, f: Frame, n: nat)
    requires n <= |cols| && RescaleAll(cols[..n], f).Failure?
    ensures RescaleAll(cols, f) == RescaleAll(cols[..n], f)
    decreases |cols| - n
  {
    if n < |cols| {
      assert cols[..n + 1][..n] == cols[..n];
      RescaleFailurePersists(cols, f, n + 1);
    } else {
      assert cols[..n] == cols;
    }
  }

  /** Every row keeps its width. */
  predicate Rectangular(f: Frame) {
    forall i :: 0 <= i < |f.rows| ==> |f.rows[i]| == |f.columns|
  }

  /** One converted column: the cells at index j are converted, every other
      cell, the column names and the row count stay. */
  lemma RescaleColumnCells(f: Frame, j: nat)
    requires Rectangular(f) && j < |f.columns|
    ensures RescaleColumn(f, j).Success? <==> forall i :: 0 <= i < |f.rows| ==> RescaleCell(f.rows[i][j]).Success?
    ensures RescaleColumn(f, j).Success? ==>
              var g := RescaleColumn(f, j).value;
              && g.columns == f.columns && |g.rows| == |f.rows| && Rectangular(g)
              && forall i, k :: 0 <= i < |f.rows| && 0 <= k < |f.columns| ==>
                   if k == j then RescaleCell(f.rows[i][j]) == Success(g.rows[i][k]) else g.rows[i][k] == f.rows[i][k]
  {
    MapAllSuccess(f.rows, CellRescaler(j));
  }

  /** The price conversion: with distinct column names, a cell at the first
      position of a price column holds the conversion of the original cell,
      and every other cell is the original. */
  lemma {:induction false} RescaleAllCells(cols: seq<string>, f: Frame)
    requires Rectangular(f)
    requires forall a, b :: 0 <= a < b < |cols| ==> cols[a] != cols[b]
    requires RescaleAll(cols, f).Success?
    ensures var g := RescaleAll(cols, f).value;
            && g.columns == f.columns && |g.rows| == |f.rows| && Rectangular(g)
            && forall i, k :: 0 <= i < |f.rows| && 0 <= k < |f.columns| ==>
                 if f.columns[k] in cols && ColumnIndex(f.columns, f.columns[k]) == k
                 then RescaleCell(f.rows[i][k]) == Success(g.rows[i][k])
                 else g.rows[i][k] == f.rows[i][k]
  {
    if cols != [] {
      var init := cols[..|cols| - 1];
      var col := cols[|cols| - 1];
      assert forall c :: c in cols <==> c in init || c == col;
      forall a | 0 <= a < |init| ensures init[a] != col {
        assert init[a] == cols[a];
      }
      RescaleAllCells(init, f);
      var g0 := RescaleAll(init, f).value;
      var g := RescaleAll(cols, f).value;
      if col in g0.columns {
        var j := ColumnIndex(g0.columns, col);
        RescaleColumnCells(g0, j);
        assert g == RescaleColumn(g0, j).value;
        forall i, k | 0 <= i < |f.rows| && 0 <= k < |f.columns|
          ensures if f.columns[k] in cols && ColumnIndex(f.columns, f.columns[k]) == k
                  then RescaleCell(f.rows[i][k]) == Success(g.rows[i][k])
                  else g.rows[i][k] == f.rows[i][k]
        {
          if k == j {
            assert g0.rows[i][k] == f.rows[i][k];
          } else {
            assert g.rows[i][k] == g0.rows[i][k];
          }
        }
      } else {
        assert g == g0;
      }
    }
  }

  /** The table of the listings: one row per listing under
      NThing.HEADER, then the price conversion. */
  function TableOf(things: seq<Thing>, env: Env): Result<Frame> {
    var frame :- MakeFrame(env.header, Rows(things, env));
    RescaleAll(PriceColumns, frame)
  }

  /** What _get_real_estate_data(sector) returns: the listings of every
      direction, the amenities of every category, the amenity counts with
      the default radii, then the table. */
  function EstateFrame(sector: Sector, env: Env): Result<Frame> {
    var things :- ThingsAllDirections(sector, env);
    var neighbors :- AllNeighborsOf(sector, env);
    var counted :- WithAround(things, neighbors, GetDistanceStandard(map[]), env.distance);
    TableOf(counted, env)
  }

  /** Whether column k is converted: the first column of a price name. */
  predicate PriceCell(header: seq<string>, k: nat) {
    k < |header| && header[k] in PriceColumns && ColumnIndex(header, header[k]) == k
  }

  /** One row per listing, under NThing.HEADER: no listing's row is wider
      than the header, a shorter one is filled with missing values, the
      price cells are converted, and every other cell is as
      NThing.get_list gives it. */
  lemma TableCells(things: seq<Thing>, env: Env)
    requires TableOf(things, env).Success?
    ensures var out := TableOf(things, env).value;
            && out.columns == env.header && |out.rows| == |things| && Rectangular(out)
            && forall i, k :: 0 <= i < |things| && 0 <= k < |env.header| ==>
                 var row := env.row(things[i]);
                 var cell := if k < |row| then row[k] else JNull;
                 && |row| <= |env.header|
                 && (PriceCell(env.header, k) ==> RescaleCell(cell) == Success(out.rows[i][k]))
                 && (!PriceCell(env.header, k) ==> out.rows[i][k] == cell)
  {
    var rows := Rows(things, env);
    var f := MakeFrame(env.header, rows).value;
    RescaleAllCells(PriceColumns, f);
  }

  /** The table has exactly one row per listing of the sweep, each listing
      with its amenity counts; a table error is a widest row whose width
      is not the header's, or a price cell that cannot be divided. */
  lemma EstateFrameRows(sector: Sector, env: Env)
    requires EstateFrame(sector, env).Success?
    ensures var things := ThingsAllDirections(sector, env).value;
            var counted := WithAround(things, AllNeighborsOf(sector, env).value, GetDistanceStandard(map[]), env.distance);
            && counted.Success? && |counted.value| == |things|
            && EstateFrame(sector, env) == TableOf(counted.value, env)
            && |EstateFrame(sector, env).value.rows| == |things|
  {
    var things := ThingsAllDirections(sector, env).value;
    var counted := WithAround(things, AllNeighborsOf(sector, env).value, GetDistanceStandard(map[]), env.distance).value;
    TableCells(counted, env);
  }

  // ---------------------------------------------------------------------
  // The crawler

  /** NaverRECrawler */
  class NaverCrawler {
    var defaultCoordinates: map<string, Coord>
    var coordinates: map<string, Coord>

    /** __init__(coord_file), given the rows of the coordinate file. */
    constructor(rows: seq<CoordRow>)
      ensures defaultCoordinates == DefaultCoordinates
      ensures coordinates == CoordTable(rows)
    {
      defaultCoordinates := DefaultCoordinates;
      coordinates := CoordTable(rows);
    }

    /** get_coordinates(query): the file's table first, then the fallback
      table; a name in neither is not found. */
    function GetCoordinates(query: string, zoom: Value): (r: Result<Location>)
      reads this
      ensures query in coordinates ==> r == Located(coordinates[query], zoom)
      ensures query !in coordinates && query in defaultCoordinates ==> r == Located(defaultCoordinates[query], zoom)
      ensures query !in coordinates && query !in defaultCoordinates ==> r == Failure(LocationNotFound(query))
    {
      if query in coordinates then Located(coordinates[query], zoom)
      else if query in defaultCoordinates then Located(defaultCoordinates[query], zoom)
      else Failure(LocationNotFound(query))
    }

    /** search_location(query): coordinates, the sector there, then its
      table; a failure of any step is the result. */
    method SearchLocation(query: string, env: Env) returns (r: Result<Frame>)
      ensures var loc := GetCoordinates(query, env.defaultZoom);
              && (loc.Failure? ==> r == Failure(loc.error))
              && (loc.Success? ==>
                    var sector := GetSector(loc.value, env);
                    r == if sector.Failure? then Failure(sector.error) else EstateFrame(sector.value, env))
    {
      var location :- GetCoordinates(query, env.defaultZoom);
      var sector :- GetSector(location, env);
      r := RealEstateData(sector, env);
    }

    /** _get_real_estate_data(sector) */
    method RealEstateData(sector: Sector, env: Env) returns (r: Result<Frame>)
      ensures r == EstateFrame(sector, env)
    {
      var things :- ThingsEachDirection(sector, env);
      var neighbors :- GetAllNeighbors(sector, env);
      var list := new Thing[|things|](i requires 0 <= i < |things| => things[i]);
      assert list[..] == things;
      var err := UpdateThingsIntersection(list, neighbors, GetDistanceStandard(map[]), env.distance);
      if err.Some? {
        return Failure(err.value);
      }
      var frame :- MakeFrame(env.header, Rows(list[..], env));
      r := ConvertPrices(frame);
    }
  }

  /** The conversion loop `for col in price_columns`. */
  method ConvertPrices(frame: Frame) returns (r: Result<Frame>)
    ensures r == RescaleAll(PriceColumns, frame)
  {
    var df := frame;
    for k := 0 to |PriceColumns|
      invariant RescaleAll(PriceColumns[..k], frame) == Success(df)
    {
      var col := PriceColumns[k];
      assert PriceColumns[..k + 1][..k] == PriceColumns[..k];
      if col in df.columns {
        var next := RescaleColumn(df, ColumnIndex(df.columns, col));
        if next.Failure? {
          RescaleFailurePersists(PriceColumns, frame, k + 1);
          return Failure(next.error);
        }
        df := next.value;
      }
    }
    assert PriceColumns[..|PriceColumns|] == PriceColumns;
    return Success(df);
  }

  /** A name in the file is taken from the file's last row for it, whatever
      the fallback table says. */
  lemma FileFirst(c: NaverCrawler, rows: seq<CoordRow>, i: nat, zoom: Value)
    requires c.coordinates == CoordTable(rows)
    requires i < |rows|
    requires forall j :: i < j < |rows| ==> rows[j].name != rows[i].name
    ensures c.GetCoordinates(rows[i].name, zoom) == Success(Location(JNum(rows[i].lat), JNum(rows[i].lon), zoom))
  {
    CoordTableLast(rows, i);
  }

  /** A name only in the fallback table: a station with a pair resolves to
      it, one with an empty tuple fails. */
  lemma FallbackOnly(c: NaverCrawler, rows: seq<CoordRow>, zoom: Value)
    requires c.coordinates == CoordTable(rows) && c.defaultCoordinates == DefaultCoordinates
    requires forall i :: 0 <= i < |rows| ==> rows[i].name != "강남역" && rows[i].name != "부산역"
    ensures c.GetCoordinates("강남역", zoom) == Success(Location(JNum(37.4979462), JNum(127.0276206), zoom))
    ensures c.GetCoordinates("부산역", zoom) == Failure(TypeError)
  {
    assert "강남역" !in c.coordinates;
    assert "부산역" !in c.coordinates;
    FallbackEntries();
  }

  /** Two entries of the fallback table. */
  lemma FallbackEntries()
    ensures "강남역" in DefaultCoordinates && DefaultCoordinates["강남역"] == Pair(37.4979462, 127.0276206)
    ensures "부산역" in DefaultCoordinates && DefaultCoordinates["부산역"] == NoCoord
  {
    assert "강남역" != "역삼역" by { assert "강남역"[0] != "역삼역"[0]; }
    assert "강남역" != "선릉역" by { assert "강남역"[0] != "선릉역"[0]; }
    assert "강남역" != "서울역" by { assert "강남역"[0] != "서울역"[0]; }
    assert "강남역" != "한강공원" by { assert "강남역"[0] != "한강공원"[0]; }
    assert "강남역" != "홍대입구역" by { assert "강남역"[0] != "홍대입구역"[0]; }
    assert "강남역" != "이태원역" by { assert "강남역"[0] != "이태원역"[0]; }
    assert "강남역" != "부산역" by { assert "강남역"[0] != "부산역"[0]; }
    assert "강남역" != "대전역" by { assert "강남역"[0] != "대전역"[0]; }
    assert "부산역" != "강남역" by { assert "부산역"[0] != "강남역"[0]; }
    assert "부산역" != "역삼역" by { assert "부산역"[0] != "역삼역"[0]; }
    assert "부산역" != "선릉역" by { assert "부산역"[0] != "선릉역"[0]; }
    assert "부산역" != "서울역" by { assert "부산역"[0] != "서울역"[0]; }
    assert "부산역" != "한강공원" by { assert "부산역"[0] != "한강공원"[0]; }
    assert "부산역" != "홍대입구역" by { assert "부산역"[0] != "홍대입구역"[0]; }
    assert "부산역" != "이태원역" by { assert "부산역"[0] != "이태원역"[0]; }
    assert "부산역" != "대전역" by { assert "부산역"[0] != "대전역"[0]; }
  }

  /** A name in neither table is not found. */
  lemma UnknownName(c: NaverCrawler, query: string, zoom: Value)
    requires c.defaultCoordinates == DefaultCoordinates
    requires query !in c.coordinates && query !in DefaultCoordinates
    ensures c.GetCoordinates(query, zoom) == Failure(LocationNotFound(query))
  {
  }
}
