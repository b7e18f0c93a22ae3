/** `MapPosterGenerator.fetch_layers`: which OSM tags are requested for the optional building and
    water layers, and how the fetched feature table is split into the two layers. */
module Layers {
  import opened Wrappers
  import opened Json
  import opened Styles
  import Fetch

  /** One fetched feature: its id and its non-null tag cells (a missing column reads as NaN). */
  datatype Row = Row(id: nat, cells: map<string, string>)

  /** A feature table: its column names and its rows. */
  datatype Table = Table(columns: seq<string>, rows: seq<Row>)

  /** The value a requested tag must have: any value (`True`), or one of a list. */
  datatype TagFilter = AnyValue | OneOf(values: seq<string>)

  const WaterNaturals: seq<string> := ["water", "bay", "harbour", "coastline"]
  const WaterColumns: seq<string> := ["water", "waterway", "natural"]

  /** The geometry request sent to the remote service. */
  datatype Request = Request(center: Fetch.Point, dist: int, tags: map<string, TagFilter>)

  /** The two optional layers, and the request made for them, if any. */
  datatype Fetched = Fetched(buildings: Option<Table>, water: Option<Table>, request: Option<Request>)

  /** The tag dictionary built from the style's two toggles. */
  function Tags(style: Config): (tags: map<string, TagFilter>)
    ensures "building" in tags <==> Enabled(style, DrawBuildings)
    ensures "water" in tags <==> Enabled(style, DrawWater)
    ensures "waterway" in tags <==> Enabled(style, DrawWater)
    ensures "natural" in tags <==> Enabled(style, DrawWater)
    ensures tags.Keys <= {"building", "water", "waterway", "natural"}
    ensures forall k :: k in tags && k != "natural" ==> tags[k] == AnyValue
    ensures "natural" in tags ==> tags["natural"] == OneOf(WaterNaturals)
  {
    var buildings: map<string, TagFilter> := if Enabled(style, DrawBuildings) then map["building" := AnyValue] else map[];
    if Enabled(style, DrawWater) then
      buildings["water" := AnyValue]["waterway" := AnyValue]["natural" := OneOf(WaterNaturals)]
    else buildings
  }

  /** `[c for c in candidates if c in columns]`. */
  function Present(candidates: seq<string>, columns: seq<string>): (present: seq<string>)
    ensures forall c :: c in present <==> c in candidates && c in columns
    ensures |present| <= |candidates|
  {
    if candidates == [] then []
    else (if candidates[0] in columns then [candidates[0]] else []) + Present(candidates[1..], columns)
  }

  /** The row is non-null in at least one of the columns. */
  predicate NotNullIn(row: Row, columns: seq<string>) {
    exists c :: c in columns && c in row.cells
  }

  /** The rows non-null in at least one of the columns. */
  function Select(rows: seq<Row>, columns: seq<string>): (kept: seq<Row>)
    ensures |kept| <= |rows|
    ensures forall r :: r in kept <==> r in rows && NotNullIn(r, columns)
  {
    if rows == [] then []
    else (if NotNullIn(rows[0], columns) then [rows[0]] else []) + Select(rows[1..], columns)
  }

  /** `fetch_layers(center_lat, center_lon, radius)`, with the remote response as a parameter. */
  function FetchLayers(centerLat: Option<real>, centerLon: Option<real>, radius: int, style: Config,
                       response: Result<Table, Fetch.Fault>): (f: Fetched)
    ensures centerLat.None? || centerLon.None? ==> f == Fetched(None, None, None)
    ensures !Enabled(style, DrawBuildings) && !Enabled(style, DrawWater) ==> f == Fetched(None, None, None)
    ensures f.request.Some? <==>
      centerLat.Some? && centerLon.Some? && (Enabled(style, DrawBuildings) || Enabled(style, DrawWater))
    ensures f.request.Some? ==>
      f.request.value == Request(Fetch.Point(centerLat.value, centerLon.value), radius, Tags(style))
    ensures response.Failure? ==> f.buildings.None? && f.water.None?
    ensures f.buildings.Some? <==> f.request.Some? && response.Success? && "building" in response.value.columns
    ensures f.buildings.Some? ==>
      && f.buildings.value.columns == response.value.columns
      && forall r :: r in f.buildings.value.rows <==> r in response.value.rows && "building" in r.cells
    ensures f.water.Some? <==>
      f.request.Some? && response.Success? && exists c :: c in WaterColumns && c in response.value.columns
    ensures f.water.Some? ==>
      && f.water.value.columns == response.value.columns
      && forall r :: r in f.water.value.rows <==>
           r in response.value.rows && exists c :: c in WaterColumns && c in response.value.columns && c in r.cells
  {
    if centerLat.None? || centerLon.None? then Fetched(None, None, None)
    else
      var tags := Tags(style);
      if tags == map[] then Fetched(None, None, None)
      else
        var request := Request(Fetch.Point(centerLat.value, centerLon.value), radius, tags);
        match response
        case Failure(_) => Fetched(None, None, Some(request))
        case Success(table) =>
          var buildings := if "building" in table.columns
            then Some(Table(table.columns, Select(table.rows, ["building"])))
            else None;
          var waterColumns := Present(WaterColumns, table.columns);
          assert waterColumns != [] ==> waterColumns[0] in waterColumns;
          var water := if waterColumns != []
            then Some(Table(table.columns, Select(table.rows, waterColumns)))
            else None;
          Fetched(buildings, water, Some(request))
  }

  /** A row tagged both as a building and as water lands in both layers. */
  lemma RowInBothLayers(centerLat: real, centerLon: real, radius: int, style: Config)
    requires Enabled(style, DrawWater)
    ensures var row := Row(0, map["building" := "yes", "natural" := "water"]);
      var f := FetchLayers(Some(centerLat), Some(centerLon), radius, style,
                           Success(Table(["building", "natural"], [row])));
      && f.buildings.Some? && row in f.buildings.value.rows
      && f.water.Some? && row in f.water.value.rows
  {
    var row := Row(0, map["building" := "yes", "natural" := "water"]);
    assert "natural" in WaterColumns && "natural" in ["building", "natural"] && "natural" in row.cells;
  }
}
