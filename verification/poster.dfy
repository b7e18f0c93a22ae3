/** `MapPosterGenerator.create_poster`: the figure, the fetched layers, the drawing calls, the title
    and subtitle, the save of the poster and the optional per-layer export, in that order. */
module Poster {
  import opened Wrappers
  import opened Json
  import opened Text
  import opened Styles
  import opened Layers
  import opened Compose
  import opened Export
  import Fetch

  /** Vertical anchors of the title and subtitle, in figure coordinates. */
  const TitleTop: real := 0.96
  const SubtitleTop: real := 0.92

  /** `text` used as a condition: a missing or empty string is false. */
  predicate Given(text: Option<string>) {
    text.Some? && text.value != ""
  }

  /** `(title_text or place_name).upper()`. A coordinate place label of finite coordinates is
      formatted from digits, signs, points, commas, spaces and degree signs only, so upper-casing
      leaves it as it is. */
  function Title(titleText: Option<string>, place: Fetch.Label): (t: Fetch.Label)
    ensures t.Written? ==> forall i :: 0 <= i < |t.text| ==> !IsLowerLetter(t.text[i])
    ensures Given(titleText) ==> t.Written? && Lower(t.text) == Lower(titleText.value)
    ensures !Given(titleText) && place.Written? ==> t.Written? && Lower(t.text) == Lower(place.text)
    ensures t.Coordinates? <==> !Given(titleText) && place.Coordinates?
    ensures t.Coordinates? ==> t == place
    ensures Given(titleText) ==> NoKelvinAdded(t.text, titleText.value)
    ensures !Given(titleText) && place.Written? ==> NoKelvinAdded(t.text, place.text)
  {
    if Given(titleText) then
      LowerOfUpper(titleText.value);
      Fetch.Written(Upper(titleText.value))
    else
      match place
      case Written(s) =>
        LowerOfUpper(s);
        Fetch.Written(Upper(s))
      case Coordinates(_, _) => place
  }

  /** A title that is passed back in as the title text comes out unchanged. */
  lemma TitleIdempotent(titleText: Option<string>, place: Fetch.Label, other: Fetch.Label)
    requires Title(titleText, place).Written? && Title(titleText, place).text != ""
    ensures Title(Some(Title(titleText, place).text), other) == Title(titleText, place)
  {
    if Given(titleText) {
      UpperIdempotent(titleText.value);
    } else {
      UpperIdempotent(place.text);
    }
  }

  /** `subtitle_text or None`. */
  function Subtitle(subtitleText: Option<string>): (s: Option<string>)
    ensures s.Some? <==> Given(subtitleText)
    ensures s.Some? ==> s.value == subtitleText.value
  {
    if Given(subtitleText) then subtitleText else None
  }

  /** The style keys `create_poster` reads by indexing, which raise when missing. */
  predicate Readable(style: Config, subtitleText: Option<string>) {
    && BgColor in style && StreetColor in style && StreetWidth in style
    && TitleSize in style && TitleColor in style
    && (Given(subtitleText) ==> SubtitleSize in style && SubtitleColor in style)
  }

  /** The observable effects of `create_poster`, in order. */
  datatype Event =
    | Figure(size: FigSize, facecolor: Value)
    | Query(request: Request)
    | Drew(draw: Draw)
    | Caption(text: Fetch.Label, top: real, fontSize: Value, color: Value, bold: bool)
    | SavePoster(path: string, facecolor: Value)
    | Exported(dir: string, steps: seq<Step>)

  datatype PosterError = MainSaveFailed | LayerSaveFailed(name: LayerName)

  function DrawEvents(draws: seq<Draw>): (events: seq<Event>)
    ensures |events| == |draws|
    ensures forall i :: 0 <= i < |draws| ==> events[i] == Drew(draws[i])
  {
    if draws == [] then [] else [Drew(draws[0])] + DrawEvents(draws[1..])
  }

  function Captions(style: Config, title: Fetch.Label, subtitle: Option<string>): seq<Event>
    requires TitleSize in style && TitleColor in style
    requires subtitle.Some? ==> SubtitleSize in style && SubtitleColor in style
  {
    [Caption(title, TitleTop, style[TitleSize], style[TitleColor], true)]
    + (if subtitle.Some?
       then [Caption(Fetch.Written(subtitle.value), SubtitleTop, style[SubtitleSize], style[SubtitleColor], false)]
       else [])
  }

  /** Everything `create_poster` does before saving the poster. */
  function Front(style: Config, fetched: Layers.Fetched, c: Composite, title: Fetch.Label,
                 subtitle: Option<string>, size: FigSize): seq<Event>
    requires BgColor in style && TitleSize in style && TitleColor in style
    requires subtitle.Some? ==> SubtitleSize in style && SubtitleColor in style
  {
    [Figure(size, style[BgColor])]
    + (if fetched.request.Some? then [Query(fetched.request.value)] else [])
    + DrawEvents(c.draws)
    + Captions(style, title, subtitle)
  }

  /** The drawing and text events of a poster: the figure comes first with the background colour,
      the layer query (when one is made) precedes every drawing call, the drawing calls are those of
      the layer gating in their order, and the captions come last: the bold title at the top, then the
      subtitle exactly when one was given. */
  lemma FrontLayout(style: Config, fetched: Layers.Fetched, c: Composite, titleText: Option<string>,
                    place: Fetch.Label, subtitleText: Option<string>, size: FigSize)
    requires Readable(style, subtitleText)
    ensures var front := Front(style, fetched, c, Title(titleText, place), Subtitle(subtitleText), size);
      var q := if fetched.request.Some? then 1 else 0;
      && front[0] == Figure(size, style[BgColor])
      && (fetched.request.Some? ==> front[1] == Query(fetched.request.value))
      && front[1 + q..1 + q + |c.draws|] == DrawEvents(c.draws)
      && front[1 + q + |c.draws|] == Caption(Title(titleText, place), TitleTop, style[TitleSize], style[TitleColor], true)
      && (|front| == 3 + q + |c.draws| <==> Given(subtitleText))
      && (Given(subtitleText) ==>
            front[|front| - 1] == Caption(Fetch.Written(subtitleText.value), SubtitleTop, style[SubtitleSize], style[SubtitleColor], false))
  {
    var front := Front(style, fetched, c, Title(titleText, place), Subtitle(subtitleText), size);
    var head := [Figure(size, style[BgColor])] + (if fetched.request.Some? then [Query(fetched.request.value)] else []);
    var draws := DrawEvents(c.draws);
    var captions := Captions(style, Title(titleText, place), Subtitle(subtitleText));
    assert front == head + draws + captions;
    assert front[|head|..|head| + |draws|] == draws;
  }

  /** Nothing before the save writes a file. */
  lemma FrontWritesNothing(style: Config, fetched: Layers.Fetched, c: Composite, title: Fetch.Label,
                           subtitle: Option<string>, size: FigSize)
    requires BgColor in style && TitleSize in style && TitleColor in style
    requires subtitle.Some? ==> SubtitleSize in style && SubtitleColor in style
    ensures var front := Front(style, fetched, c, title, subtitle, size);
      forall i :: 0 <= i < |front| ==> !front[i].SavePoster? && !front[i].Exported?
  {
  }

  /** The events of `create_poster` before the save, from its inputs. */
  function Drawing(style: Config, graph: Fetch.Graph, place: Fetch.Label, size: FigSize,
                   centerLat: Option<real>, centerLon: Option<real>, radius: int,
                   titleText: Option<string>, subtitleText: Option<string>, exporting: bool,
                   response: Result<Table, Fetch.Fault>): seq<Event>
    requires Readable(style, subtitleText)
  {
    var fetched := FetchLayers(centerLat, centerLon, radius, style, response);
    var c := Compose.Compose(style, graph, fetched.buildings, fetched.water, exporting, size);
    Front(style, fetched, c, Title(titleText, place), Subtitle(subtitleText), size)
  }

  /** The layers `create_poster` registers: none unless exporting, and then at least the streets. */
  function RegisteredLayers(style: Config, graph: Fetch.Graph, size: FigSize, centerLat: Option<real>,
                            centerLon: Option<real>, radius: int, exporting: bool,
                            response: Result<Table, Fetch.Fault>): (registered: seq<Registered>)
    requires StreetColor in style && StreetWidth in style
    ensures !exporting ==> registered == []
    ensures exporting ==> registered != [] && registered[|registered| - 1].name == StreetsLayer
  {
    var fetched := FetchLayers(centerLat, centerLon, radius, style, response);
    Compose.Compose(style, graph, fetched.buildings, fetched.water, exporting, size).registered
  }

  /** The layer named by a poster error, if it is a layer error. */
  function LayerError(error: Option<PosterError>): Option<LayerName> {
    if error.Some? && error.value.LayerSaveFailed? then Some(error.value.name) else None
  }

  /** The end of `create_poster`: the poster is saved after all drawing; a raising save ends the call;
      the export runs only when a directory was given, layers were registered and the save returned,
      and its outcome is reported through the error: none iff every save returned, otherwise the first
      registered layer whose save raised. */
  predicate Finished(front: seq<Event>, registered: seq<Registered>, outputPath: string, facecolor: Value,
                     exportDir: Option<string>, mainSaveFails: bool,
                     renderFails: set<LayerName>, saveFails: set<LayerName>,
                     events: seq<Event>, error: Option<PosterError>)
  {
    && front <= events
    && (error == Some(MainSaveFailed) <==> mainSaveFails)
    && (mainSaveFails ==> events == front)
    && (!mainSaveFails ==> |events| > |front| && events[|front|] == SavePoster(outputPath, facecolor))
    && (!mainSaveFails && (!Given(exportDir) || registered == []) ==> |events| == |front| + 1 && error.None?)
    && (!mainSaveFails && Given(exportDir) && registered != [] ==>
          && |events| == |front| + 2
          && events[|front| + 1].Exported?
          && events[|front| + 1].dir == exportDir.value
          && (error.None? <==> forall i :: 0 <= i < |registered| ==> SaveDoesNotRaise(registered[i], renderFails, saveFails))
          && Outcome(registered, exportDir.value, renderFails, saveFails, events[|front| + 1].steps, LayerError(error)))
    && (error.Some? && error.value.LayerSaveFailed? ==>
          error.value.name in saveFails && error.value.name !in renderFails)
  }

  /** Saves the poster and, when asked, exports its registered layers; see `Finished`. */
  method SaveAndExport(front: seq<Event>, registered: seq<Registered>, outputPath: string, facecolor: Value,
                       exportDir: Option<string>, mainSaveFails: bool,
                       renderFails: set<LayerName>, saveFails: set<LayerName>)
    returns (events: seq<Event>, error: Option<PosterError>)
    ensures error == Some(MainSaveFailed) <==> mainSaveFails
    ensures Finished(front, registered, outputPath, facecolor, exportDir, mainSaveFails, renderFails, saveFails,
                     events, error)
  {
    events := front;
    if mainSaveFails {
      error := Some(MainSaveFailed);
      return;
    }
    events := events + [SavePoster(outputPath, facecolor)];
    error := None;
    if Given(exportDir) && registered != [] {
      var steps, failed := ExportLayers(registered, exportDir.value, renderFails, saveFails);
      assert Outcome(registered, exportDir.value, renderFails, saveFails, steps, failed);
      events := events + [Exported(exportDir.value, steps)];
      if failed.Some? {
        error := Some(LayerSaveFailed(failed.value));
      }
      assert LayerError(error) == failed;
    }
  }

  /** `create_poster` with the remote and file-system outcomes as parameters: the geometry response,
      whether saving the poster raises, and which layers fail to render or to save in the export.
      Every registry holds the street layer, so a requested export follows every returned save. */
  method CreatePoster(style: Config, graph: Fetch.Graph, place: Fetch.Label, outputPath: string, size: FigSize,
                      centerLat: Option<real>, centerLon: Option<real>, radius: int,
                      titleText: Option<string>, subtitleText: Option<string>, exportDir: Option<string>,
                      response: Result<Table, Fetch.Fault>, mainSaveFails: bool,
                      renderFails: set<LayerName>, saveFails: set<LayerName>)
    returns (events: seq<Event>, error: Option<PosterError>)
    requires Readable(style, subtitleText)
    ensures error == Some(MainSaveFailed) <==> mainSaveFails
    ensures Finished(Drawing(style, graph, place, size, centerLat, centerLon, radius, titleText, subtitleText,
                             Given(exportDir), response),
                     RegisteredLayers(style, graph, size, centerLat, centerLon, radius, Given(exportDir), response),
                     outputPath, style[BgColor], exportDir, mainSaveFails, renderFails, saveFails, events, error)
    ensures Given(exportDir) && !mainSaveFails ==>
      |events| == |Drawing(style, graph, place, size, centerLat, centerLon, radius, titleText, subtitleText,
                           true, response)| + 2
  {
    var exporting := Given(exportDir);
    var front := Drawing(style, graph, place, size, centerLat, centerLon, radius, titleText, subtitleText,
                         exporting, response);
    var registered := RegisteredLayers(style, graph, size, centerLat, centerLon, radius, exporting, response);
    events, error := SaveAndExport(front, registered, outputPath, style[BgColor], exportDir, mainSaveFails,
                                   renderFails, saveFails);
  }
}
