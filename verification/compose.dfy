/** The layer gating of `create_poster`: which layers are drawn onto the poster, in which order and
    with which style values, and which are registered for a later per-layer export. */
module Compose {
  import opened Wrappers
  import opened Json
  import opened Styles
  import opened Layers
  import Fetch

  datatype LayerName = WaterLayer | BuildingsLayer | StreetsLayer

  /** The key a layer is registered under. */
  function Name(n: LayerName): string {
    match n
    case WaterLayer => "water"
    case BuildingsLayer => "buildings"
    case StreetsLayer => "streets"
  }

  /** Position in the drawing order: water, then buildings, then streets. */
  function Rank(n: LayerName): nat {
    match n
    case WaterLayer => 0
    case BuildingsLayer => 1
    case StreetsLayer => 2
  }

  /** The figure size in inches, kept as given. */
  datatype FigSize = FigSize(width: real, height: real)

  /** The data a layer is drawn from: a feature table or the street graph. */
  datatype Source = Features(table: Table) | Network(graph: Fetch.Graph)

  /** One drawing call on the poster axes. `weight` is the opacity of a feature layer and the line
      width of the street layer; `zorder` is None where the call passes none. */
  datatype Draw = Draw(layer: LayerName, color: Value, weight: Value, zorder: Option<nat>)

  /** An entry of the `layers` dictionary: (data, color, alpha-or-width, figsize) under a name. */
  datatype Registered = Registered(name: LayerName, data: Source, color: Value, weight: Value, size: FigSize)

  datatype Composite = Composite(draws: seq<Draw>, registered: seq<Registered>)

  /** `not df.empty`: the table has at least one row and one column. */
  predicate NonEmpty(t: Table) {
    |t.rows| > 0 && |t.columns| > 0
  }

  /** A feature layer is drawn when its data is present, non-empty and its toggle is on. */
  predicate Shown(data: Option<Table>, style: Config, toggle: Key) {
    data.Some? && NonEmpty(data.value) && Enabled(style, toggle)
  }

  predicate Drawn(draws: seq<Draw>, n: LayerName) {
    exists i :: 0 <= i < |draws| && draws[i].layer == n
  }

  predicate RegisteredAs(registered: seq<Registered>, n: LayerName) {
    exists i :: 0 <= i < |registered| && registered[i].name == n
  }

  function WaterDraw(style: Config): Draw {
    Draw(WaterLayer, GetOr(style, WaterColor, Str("#a0c8ff")), GetOr(style, WaterAlpha, Float(0.35)), Some(1))
  }

  function BuildingsDraw(style: Config): Draw {
    Draw(BuildingsLayer, GetOr(style, BuildingColor, Str("#c7c7c7")), GetOr(style, BuildingAlpha, Float(0.5)), Some(2))
  }

  function StreetsDraw(style: Config): Draw
    requires StreetColor in style && StreetWidth in style
  {
    Draw(StreetsLayer, style[StreetColor], style[StreetWidth], None)
  }

  /** The drawing calls of `create_poster`, in order. */
  function Draws(style: Config, buildings: Option<Table>, water: Option<Table>): (draws: seq<Draw>)
    requires StreetColor in style && StreetWidth in style
    ensures forall i, j :: 0 <= i < j < |draws| ==> Rank(draws[i].layer) < Rank(draws[j].layer)
    ensures Drawn(draws, WaterLayer) <==> Shown(water, style, DrawWater)
    ensures Drawn(draws, BuildingsLayer) <==> Shown(buildings, style, DrawBuildings)
    ensures |draws| >= 1 && draws[|draws| - 1] == StreetsDraw(style)
    ensures forall i :: 0 <= i < |draws| && draws[i].layer == WaterLayer ==> draws[i] == WaterDraw(style)
    ensures forall i :: 0 <= i < |draws| && draws[i].layer == BuildingsLayer ==> draws[i] == BuildingsDraw(style)
  {
    var w := if Shown(water, style, DrawWater) then [WaterDraw(style)] else [];
    var b := if Shown(buildings, style, DrawBuildings) then [BuildingsDraw(style)] else [];
    var draws := w + b + [StreetsDraw(style)];
    assert w != [] ==> draws[0] == WaterDraw(style);
    assert b != [] ==> draws[|w|] == BuildingsDraw(style);
    draws
  }

  /** The data a drawn layer was drawn from. */
  function SourceOf(n: LayerName, graph: Fetch.Graph, buildings: Option<Table>, water: Option<Table>): Source
    requires n == WaterLayer ==> water.Some?
    requires n == BuildingsLayer ==> buildings.Some?
  {
    match n
    case WaterLayer => Features(water.value)
    case BuildingsLayer => Features(buildings.value)
    case StreetsLayer => Network(graph)
  }

  /** The drawing and registration part of `create_poster`: each drawn layer is registered with the
      colour and weight it was drawn with, when exporting. */
  function Compose(style: Config, graph: Fetch.Graph, buildings: Option<Table>, water: Option<Table>,
                   exporting: bool, size: FigSize): (c: Composite)
    requires StreetColor in style && StreetWidth in style
    ensures c.draws == Draws(style, buildings, water)
    ensures !exporting ==> c.registered == []
    ensures exporting ==> |c.registered| == |c.draws|
    ensures exporting ==> forall i :: 0 <= i < |c.draws| ==>
      c.registered[i] == Registered(c.draws[i].layer, SourceOf(c.draws[i].layer, graph, buildings, water),
                                    c.draws[i].color, c.draws[i].weight, size)
  {
    var draws := Draws(style, buildings, water);
    assert forall i :: 0 <= i < |draws| && draws[i].layer == WaterLayer ==> water.Some?;
    assert forall i :: 0 <= i < |draws| && draws[i].layer == BuildingsLayer ==> buildings.Some?;
    var registered := if exporting then
      seq(|draws|, i requires 0 <= i < |draws| =>
        Registered(draws[i].layer, SourceOf(draws[i].layer, graph, buildings, water), draws[i].color, draws[i].weight, size))
      else [];
    Composite(draws, registered)
  }

  /** The street entry keeps the street width in the slot the export later reads as line width. */
  lemma StreetsRegisteredWithWidth(style: Config, graph: Fetch.Graph, buildings: Option<Table>,
                                   water: Option<Table>, size: FigSize)
    requires StreetColor in style && StreetWidth in style
    ensures var c := Compose(style, graph, buildings, water, true, size);
      && |c.registered| >= 1
      && c.registered[|c.registered| - 1] ==
           Registered(StreetsLayer, Network(graph), style[StreetColor], style[StreetWidth], size)
  {
  }

  /** With a style that draws water and buildings and non-empty data for both, three layers are
      registered: water, buildings, streets. A worked instance of `RegistrationGating`. */
  lemma ThreeLayersRegistered(style: Config, graph: Fetch.Graph, buildings: Table, water: Table, size: FigSize)
    requires StreetColor in style && StreetWidth in style
    requires Enabled(style, DrawWater) && Enabled(style, DrawBuildings)
    requires NonEmpty(buildings) && NonEmpty(water)
    ensures var c := Compose(style, graph, Some(buildings), Some(water), true, size);
      && |c.registered| == 3
      && c.registered[0].name == WaterLayer
      && c.registered[1].name == BuildingsLayer
      && c.registered[2].name == StreetsLayer
  {
  }

  /** A style that turns water off registers no water layer, whatever water data was fetched.
      A special case of `RegistrationGating`, kept as the example of a toggle overriding data. */
  lemma WaterToggleGatesRegistration(style: Config, graph: Fetch.Graph, buildings: Option<Table>,
                                     water: Option<Table>, size: FigSize)
    requires StreetColor in style && StreetWidth in style
    requires !Enabled(style, DrawWater)
    ensures var c := Compose(style, graph, buildings, water, true, size);
      forall i :: 0 <= i < |c.registered| ==> c.registered[i].name != WaterLayer
  {
  }

  /** When exporting, a feature layer is registered exactly when it is shown (data present and
      non-empty, toggle on), the street layer always is, and the registrations follow the drawing
      order: water, buildings, streets. */
  lemma RegistrationGating(style: Config, graph: Fetch.Graph, buildings: Option<Table>,
                           water: Option<Table>, size: FigSize)
    requires StreetColor in style && StreetWidth in style
    ensures var r := Compose(style, graph, buildings, water, true, size).registered;
      && (RegisteredAs(r, WaterLayer) <==> Shown(water, style, DrawWater))
      && (RegisteredAs(r, BuildingsLayer) <==> Shown(buildings, style, DrawBuildings))
      && RegisteredAs(r, StreetsLayer)
      && forall i, j :: 0 <= i < j < |r| ==> Rank(r[i].name) < Rank(r[j].name)
  {
    var c := Compose(style, graph, buildings, water, true, size);
    if Drawn(c.draws, WaterLayer) {
      var i :| 0 <= i < |c.draws| && c.draws[i].layer == WaterLayer;
      assert c.registered[i].name == WaterLayer;
    }
    if Drawn(c.draws, BuildingsLayer) {
      var i :| 0 <= i < |c.draws| && c.draws[i].layer == BuildingsLayer;
      assert c.registered[i].name == BuildingsLayer;
    }
    assert c.registered[|c.registered| - 1].name == StreetsLayer;
  }
}
