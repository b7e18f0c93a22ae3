/** `MapPosterGenerator._export_layers`: each registered layer is rendered alone and saved as
    `<name>.png` in the export directory; a layer whose rendering raises is skipped, while an
    error from saving a layer propagates. */
module Export {
  import opened Wrappers
  import opened Json
  import opened Compose

  /** `export_path / file`. */
  datatype Path = Path(dir: string, file: string)

  /** The effects of the export, in order. */
  datatype Step =
    | MakeDir(dir: string)
    | RenderNetwork(data: Source, color: Value, lineWidth: Value)
    | RenderFeatures(data: Source, color: Value, alpha: Value)
    | SaveLayer(path: Path)
    | SkipLayer(name: LayerName)

  function FileName(n: LayerName): string {
    Name(n) + ".png"
  }

  /** The names of the layers whose rendering succeeds, in order. */
  function Rendered(layers: seq<Registered>, renderFails: set<LayerName>): seq<LayerName> {
    if layers == [] then []
    else
      var last := layers[|layers| - 1];
      Rendered(layers[..|layers| - 1], renderFails) + (if last.name in renderFails then [] else [last.name])
  }

  /** The names of the layers whose rendering raises, in order. */
  function Unrendered(layers: seq<Registered>, renderFails: set<LayerName>): seq<LayerName> {
    if layers == [] then []
    else
      var last := layers[|layers| - 1];
      Unrendered(layers[..|layers| - 1], renderFails) + (if last.name in renderFails then [last.name] else [])
  }

  /** Every layer is either rendered or skipped. */
  lemma {:induction false} RenderedOrSkipped(layers: seq<Registered>, renderFails: set<LayerName>)
    ensures |Rendered(layers, renderFails)| + |Unrendered(layers, renderFails)| == |layers|
    ensures forall n :: n in Rendered(layers, renderFails) ==> n !in renderFails
    ensures forall n :: n in Unrendered(layers, renderFails) ==> n in renderFails
    decreases |layers|
  {
    if layers != [] {
      RenderedOrSkipped(layers[..|layers| - 1], renderFails);
    }
  }

  /** The paths of the layers' files in the export directory. */
  function LayerPaths(dir: string, names: seq<LayerName>): (paths: seq<Path>)
  {
    if names == [] then [] else LayerPaths(dir, names[..|names| - 1]) + [Path(dir, FileName(names[|names| - 1]))]
  }

  /** The files saved by the steps, in order. */
  function Saved(steps: seq<Step>): seq<Path> {
    if steps == [] then []
    else
      var last := steps[|steps| - 1];
      Saved(steps[..|steps| - 1]) + (if last.SaveLayer? then [last.path] else [])
  }

  /** The layers skipped by the steps, in order. */
  function Skipped(steps: seq<Step>): seq<LayerName> {
    if steps == [] then []
    else
      var last := steps[|steps| - 1];
      Skipped(steps[..|steps| - 1]) + (if last.SkipLayer? then [last.name] else [])
  }

  lemma {:induction false} SavedSkippedAppend(a: seq<Step>, b: seq<Step>)
    ensures Saved(a + b) == Saved(a) + Saved(b)
    ensures Skipped(a + b) == Skipped(a) + Skipped(b)
    decreases |b|
  {
    if b == [] {
      assert a + b == a;
    } else {
      var b' := b[..|b| - 1];
      assert (a + b)[..|a + b| - 1] == a + b';
      SavedSkippedAppend(a, b');
    }
  }

  /** The step that renders a layer alone: the street graph with its stored value as line width,
      a feature table with its stored value as opacity. */
  function Render(layer: Registered): (s: Step)
    ensures s.RenderNetwork? || s.RenderFeatures?
    ensures s.RenderNetwork? <==> layer.name == StreetsLayer
    ensures s.data == layer.data && s.color == layer.color
    ensures s.RenderNetwork? ==> s.lineWidth == layer.weight
    ensures s.RenderFeatures? ==> s.alpha == layer.weight
  {
    if layer.name == StreetsLayer then RenderNetwork(layer.data, layer.color, layer.weight)
    else RenderFeatures(layer.data, layer.color, layer.weight)
  }

  /** Saving the layer does not raise: its name is not in `saveFails`, or its rendering raised, so
      the loop skips it before any save. */
  predicate SaveDoesNotRaise(layer: Registered, renderFails: set<LayerName>, saveFails: set<LayerName>) {
    layer.name in renderFails || layer.name !in saveFails
  }

  /** One pass of the loop body when nothing raises past it: a failed render skips the layer,
      otherwise the layer is rendered and saved. */
  function LayerSteps(layer: Registered, dir: string, renderFails: set<LayerName>): seq<Step> {
    if layer.name in renderFails then [SkipLayer(layer.name)]
    else [Render(layer), SaveLayer(Path(dir, FileName(layer.name)))]
  }

  /** The loop's steps over layers that all complete. */
  function Trace(layers: seq<Registered>, dir: string, renderFails: set<LayerName>): seq<Step> {
    if layers == [] then []
    else Trace(layers[..|layers| - 1], dir, renderFails) + LayerSteps(layers[|layers| - 1], dir, renderFails)
  }

  lemma LayerPathsSnoc(dir: string, names: seq<LayerName>, n: LayerName)
    ensures LayerPaths(dir, names + [n]) == LayerPaths(dir, names) + [Path(dir, FileName(n))]
  {
    assert (names + [n])[..|names + [n]| - 1] == names;
  }

  /** What one completed pass saves and skips. */
  lemma LayerStepsEffect(layer: Registered, dir: string, renderFails: set<LayerName>)
    ensures Saved(LayerSteps(layer, dir, renderFails)) ==
      (if layer.name in renderFails then [] else [Path(dir, FileName(layer.name))])
    ensures Skipped(LayerSteps(layer, dir, renderFails)) ==
      (if layer.name in renderFails then [layer.name] else [])
  {
    var steps := LayerSteps(layer, dir, renderFails);
    if layer.name !in renderFails {
      var first := [Render(layer)];
      assert steps[..1] == first;
      assert first[..0] == [];
      assert !Render(layer).SaveLayer? && !Render(layer).SkipLayer?;
      assert Saved(first) == Saved([]) + [];
      assert Skipped(first) == Skipped([]) + [];
      assert Saved(steps) == Saved(first) + [Path(dir, FileName(layer.name))];
      assert Skipped(steps) == Skipped(first) + [];
    } else {
      assert steps[..0] == [];
      assert Skipped(steps) == [] + [layer.name];
    }
  }

  /** The loop saves exactly the rendered layers' files and skips exactly the others, in order. */
  lemma {:induction false} TraceSavesRendered(layers: seq<Registered>, dir: string, renderFails: set<LayerName>)
    ensures Saved(Trace(layers, dir, renderFails)) == LayerPaths(dir, Rendered(layers, renderFails))
    ensures Skipped(Trace(layers, dir, renderFails)) == Unrendered(layers, renderFails)
    decreases |layers|
  {
    if layers != [] {
      var init := layers[..|layers| - 1];
      var last := layers[|layers| - 1];
      TraceSavesRendered(init, dir, renderFails);
      SavedSkippedAppend(Trace(init, dir, renderFails), LayerSteps(last, dir, renderFails));
      LayerStepsEffect(last, dir, renderFails);
      if last.name !in renderFails {
        assert Rendered(layers, renderFails) == Rendered(init, renderFails) + [last.name];
        LayerPathsSnoc(dir, Rendered(init, renderFails), last.name);
      } else {
        assert Rendered(init, renderFails) + [] == Rendered(init, renderFails);
        assert Rendered(layers, renderFails) == Rendered(init, renderFails);
        assert Saved(Trace(init, dir, renderFails)) + [] == Saved(Trace(init, dir, renderFails));
      }
    }
  }

  lemma TraceSnoc(layers: seq<Registered>, i: nat, dir: string, renderFails: set<LayerName>)
    requires i < |layers|
    ensures Trace(layers[..i + 1], dir, renderFails) == Trace(layers[..i], dir, renderFails) + LayerSteps(layers[i], dir, renderFails)
  {
    assert layers[..i + 1][..i] == layers[..i];
  }

  /** The drawing calls of the loop are exactly the renderings of the layers that do not fail to
      render, each with the colour and weight stored for it. */
  lemma {:induction false} TraceRenders(layers: seq<Registered>, dir: string, renderFails: set<LayerName>)
    ensures forall j :: 0 <= j < |layers| && layers[j].name !in renderFails ==>
      Render(layers[j]) in Trace(layers, dir, renderFails)
    ensures forall s :: s in Trace(layers, dir, renderFails) && (s.RenderNetwork? || s.RenderFeatures?) ==>
      exists j :: 0 <= j < |layers| && layers[j].name !in renderFails && s == Render(layers[j])
    decreases |layers|
  {
    if layers != [] {
      var init := layers[..|layers| - 1];
      var last := layers[|layers| - 1];
      TraceRenders(init, dir, renderFails);
      var t := Trace(layers, dir, renderFails);
      assert t == Trace(init, dir, renderFails) + LayerSteps(last, dir, renderFails);
      forall j | 0 <= j < |layers| && layers[j].name !in renderFails
        ensures Render(layers[j]) in t
      {
        if j < |layers| - 1 {
          assert layers[j] == init[j];
        } else {
          assert LayerSteps(last, dir, renderFails)[0] == Render(last);
        }
      }
      forall s | s in t && (s.RenderNetwork? || s.RenderFeatures?)
        ensures exists j :: 0 <= j < |layers| && layers[j].name !in renderFails && s == Render(layers[j])
      {
        if s in Trace(init, dir, renderFails) {
          var j :| 0 <= j < |init| && init[j].name !in renderFails && s == Render(init[j]);
          assert layers[j] == init[j];
        } else {
          assert s in LayerSteps(last, dir, renderFails);
          assert s == Render(last);
          assert layers[|layers| - 1] == last;
        }
      }
    }
  }

  /** The effects of an export in which every save succeeds. */
  lemma ExportCompletes(layers: seq<Registered>, dir: string, renderFails: set<LayerName>)
    ensures var steps := [MakeDir(dir)] + Trace(layers, dir, renderFails);
      && steps[0] == MakeDir(dir)
      && Saved(steps) == LayerPaths(dir, Rendered(layers, renderFails))
      && Skipped(steps) == Unrendered(layers, renderFails)
  {
    TraceSavesRendered(layers, dir, renderFails);
    SavedSkippedAppend([MakeDir(dir)], Trace(layers, dir, renderFails));
  }

  /** The effects of an export whose save of layer `k` raises: the files of the rendered layers
      before it are saved, and the failing layer has been rendered. */
  lemma ExportStops(layers: seq<Registered>, k: nat, dir: string, renderFails: set<LayerName>)
    requires k < |layers|
    ensures var steps := [MakeDir(dir)] + Trace(layers[..k], dir, renderFails) + [Render(layers[k])];
      && steps[0] == MakeDir(dir)
      && Saved(steps) == LayerPaths(dir, Rendered(layers[..k], renderFails))
  {
    var done := [MakeDir(dir)] + Trace(layers[..k], dir, renderFails);
    ExportCompletes(layers[..k], dir, renderFails);
    SavedSkippedAppend(done, [Render(layers[k])]);
    assert [Render(layers[k])][..0] == [];
    assert !Render(layers[k]).SaveLayer?;
  }

  /** What an export of `layers` into `dir` reports: the directory is created first; it completes iff
      no save raises, and then the rendered layers' files are saved and the others skipped; otherwise
      `error` is the first layer whose save raises, after the files of the rendered layers before it. */
  predicate Outcome(layers: seq<Registered>, dir: string, renderFails: set<LayerName>, saveFails: set<LayerName>,
                    steps: seq<Step>, error: Option<LayerName>)
  {
    && |steps| >= 1 && steps[0] == MakeDir(dir)
    && (error.None? <==> forall i :: 0 <= i < |layers| ==> SaveDoesNotRaise(layers[i], renderFails, saveFails))
    && (error.None? ==> Saved(steps) == LayerPaths(dir, Rendered(layers, renderFails)))
    && (error.None? ==> Skipped(steps) == Unrendered(layers, renderFails))
    && (error.None? ==> steps == [MakeDir(dir)] + Trace(layers, dir, renderFails))
    && (error.Some? ==> exists k ::
          && 0 <= k < |layers|
          && error.value == layers[k].name
          && !SaveDoesNotRaise(layers[k], renderFails, saveFails)
          && (forall j :: 0 <= j < k ==> SaveDoesNotRaise(layers[j], renderFails, saveFails))
          && Saved(steps) == LayerPaths(dir, Rendered(layers[..k], renderFails))
          && steps == [MakeDir(dir)] + Trace(layers[..k], dir, renderFails) + [Render(layers[k])])
  }

  method ExportLayers(layers: seq<Registered>, dir: string, renderFails: set<LayerName>, saveFails: set<LayerName>)
    returns (steps: seq<Step>, error: Option<LayerName>)
    ensures |steps| >= 1 && steps[0] == MakeDir(dir)
    ensures error.None? <==> forall i :: 0 <= i < |layers| ==> SaveDoesNotRaise(layers[i], renderFails, saveFails)
    ensures error.None? ==> Saved(steps) == LayerPaths(dir, Rendered(layers, renderFails))
    ensures error.None? ==> Skipped(steps) == Unrendered(layers, renderFails)
    ensures error.None? ==> steps == [MakeDir(dir)] + Trace(layers, dir, renderFails)
    ensures error.Some? ==> exists k ::
      && 0 <= k < |layers|
      && error.value == layers[k].name
      && !SaveDoesNotRaise(layers[k], renderFails, saveFails)
      && (forall j :: 0 <= j < k ==> SaveDoesNotRaise(layers[j], renderFails, saveFails))
      && Saved(steps) == LayerPaths(dir, Rendered(layers[..k], renderFails))
      && steps == [MakeDir(dir)] + Trace(layers[..k], dir, renderFails) + [Render(layers[k])]
  {
    var done: seq<Step> := [];
    var i := 0;
    while i < |layers|
      invariant 0 <= i <= |layers|
      invariant forall j :: 0 <= j < i ==> SaveDoesNotRaise(layers[j], renderFails, saveFails)
      invariant done == Trace(layers[..i], dir, renderFails)
    {
      var layer := layers[i];
      TraceSnoc(layers, i, dir, renderFails);
      if layer.name in renderFails {
        done := done + [SkipLayer(layer.name)];
      } else {
        if layer.name in saveFails {
          ExportStops(layers, i, dir, renderFails);
          steps := [MakeDir(dir)] + done + [Render(layer)];
          return steps, Some(layer.name);
        }
        done := done + [Render(layer), SaveLayer(Path(dir, FileName(layer.name)))];
      }
      i := i + 1;
    }
    assert layers[..i] == layers;
    ExportCompletes(layers, dir, renderFails);
    steps := [MakeDir(dir)] + done;
    error := None;
  }
}
