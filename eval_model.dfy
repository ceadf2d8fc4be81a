/** The evaluation step of model/eval_model.py around the external model
    library: the skip-or-clear policy for the output directories, the result
    CSV, the naming of the prediction files, and the pure helpers that
    dispatch on an array's shape. */
module EvalModel {
  import opened Common
  import opened Io

  /** The arguments of `eval_model`. `plotDir` None means "no plots". */
  datatype EvalArgs = EvalArgs(
    testImgDir: Option<Path>, testMaskDir: Option<Path>,
    testImgFile: Path, testMaskFile: Path,
    weightFile: Path, resultFile: Path, predDir: Path, plotDir: Option<Path>,
    backbone: string, imgSize: (int, int), batchnorm: bool, overwrite: bool)

  // ---------------------------------------------------------------------------
  // The directory guard

  /** The outcome of preparing one output directory: the filesystem afterwards,
      what was done, and whether the run goes on. */
  datatype Prepared = Prepared(disk: Disk, effects: seq<Effect>, proceed: bool)

  /** `verify_dir(dir)`, then, when it is not empty, either report and stop or
      (with overwrite) remove it and create it again. */
  function PrepareDir(disk: Disk, dir: Path, overwrite: bool, message: string): Prepared {
    var made := MakeDirs(disk, dir);
    if IsDirEmpty(made, dir) then Prepared(made, [VerifyDir(dir)], true)
    else if !overwrite then Prepared(made, [VerifyDir(dir), Report(message)], false)
    else Prepared(MakeDirs(RemoveTree(made, dir), dir), [VerifyDir(dir), RemoveDir(dir), VerifyDir(dir)], true)
  }

  /** The plot directory gets the same treatment, and only when there is one. */
  function PreparePlotDir(disk: Disk, a: EvalArgs): Prepared {
    match a.plotDir
    case None => Prepared(disk, [], true)
    case Some(dir) => PrepareDir(disk, dir, a.overwrite, PlotDirNotEmptyMessage)
  }

  /** The guard as `eval_model` performs it, step by step; realises `PrepareDir`. */
  method CheckOutputDir(disk: Disk, dir: Path, overwrite: bool, message: string)
    returns (p: Prepared)
    ensures p == PrepareDir(disk, dir, overwrite, message)
  {
    var current := MakeDirs(disk, dir);
    var effects := [VerifyDir(dir)];
    if !IsDirEmpty(current, dir) {
      if !overwrite {
        return Prepared(current, effects + [Report(message)], false);
      }
      current := RemoveTree(current, dir);
      effects := effects + [RemoveDir(dir)];
      current := MakeDirs(current, dir);
      effects := effects + [VerifyDir(dir)];
    }
    return Prepared(current, effects, true);
  }

  // ---------------------------------------------------------------------------
  // What a run that passes the guards writes

  /** The two rows of the result file: a header of "weight file" and the metric
      names, then the weight file's basename and the metric values. */
  function ResultRows(weightFile: Path, metricNames: seq<string>, metricValues: seq<string>): seq<seq<string>> {
    [["weight file"] + metricNames, [Basename(weightFile)] + metricValues]
  }

  /** The prediction file of one test image: its basename inside `dir`. */
  function OutputFile(dir: Path, image: Path): Path {
    dir + [Basename(image)]
  }

  /** What is saved for one test image: its prediction, and its plot when plots are on. */
  function ImageOutputs(a: EvalArgs, image: Path): seq<Effect> {
    [SaveImage(OutputFile(a.predDir, image))]
    + (if a.plotDir.Some? then [SavePlot(OutputFile(a.plotDir.value, image))] else [])
  }

  function ImageEffects(a: EvalArgs, images: seq<Path>): seq<Effect> {
    if images == [] then [] else ImageEffects(a, images[..|images| - 1]) + ImageOutputs(a, images[|images| - 1])
  }

  /** The files the image loop creates. */
  function ImageFiles(a: EvalArgs, images: seq<Path>): set<Path> {
    (set img | img in images :: OutputFile(a.predDir, img))
    + (if a.plotDir.Some? then set img | img in images :: OutputFile(a.plotDir.value, img) else {})
  }

  /** Reading the two lists, writing the result file, then the image loop. */
  function Outputs(a: EvalArgs, images: seq<Path>, metricNames: seq<string>, metricValues: seq<string>): seq<Effect> {
    [ReadFileList(a.testImgFile, a.testImgDir), ReadFileList(a.testMaskFile, a.testMaskDir),
     WriteCsv(a.resultFile, ResultRows(a.weightFile, metricNames, metricValues))]
    + ImageEffects(a, images)
  }

  datatype EvalResult = EvalResult(disk: Disk, effects: seq<Effect>)

  /** What `eval_model` does to the filesystem and in which order. `images` is
      what `read_file_list` returns for the test image list; the metric names
      and values are what the model library reports. */
  function EvalRun(disk: Disk, a: EvalArgs, images: seq<Path>, metricNames: seq<string>, metricValues: seq<string>): EvalResult {
    var p := PrepareDir(disk, a.predDir, a.overwrite, PredictionDirNotEmptyMessage);
    if !p.proceed then EvalResult(p.disk, p.effects)
    else
      var q := PreparePlotDir(p.disk, a);
      if !q.proceed then EvalResult(q.disk, p.effects + q.effects)
      else EvalResult(q.disk + {a.resultFile} + ImageFiles(a, images),
                      p.effects + q.effects + Outputs(a, images, metricNames, metricValues))
  }

  lemma ImageFilesSnoc(a: EvalArgs, images: seq<Path>, i: nat)
    requires i < |images|
    ensures ImageFiles(a, images[..i + 1])
         == ImageFiles(a, images[..i]) + {OutputFile(a.predDir, images[i])}
            + (if a.plotDir.Some? then {OutputFile(a.plotDir.value, images[i])} else {})
  {
    assert images[..i + 1] == images[..i] + [images[i]];
  }

  lemma ImageEffectsSnoc(a: EvalArgs, images: seq<Path>, i: nat)
    requires i < |images|
    ensures ImageEffects(a, images[..i + 1]) == ImageEffects(a, images[..i]) + ImageOutputs(a, images[i])
  {
    assert images[..i + 1][..i] == images[..i];
  }

  /** `eval_model`. */
  method Evaluate(disk: Disk, a: EvalArgs, images: seq<Path>, metricNames: seq<string>, metricValues: seq<string>)
    returns (r: EvalResult)
    ensures r == EvalRun(disk, a, images, metricNames, metricValues)
  {
    var p := CheckOutputDir(disk, a.predDir, a.overwrite, PredictionDirNotEmptyMessage);
    if !p.proceed {
      return EvalResult(p.disk, p.effects);
    }
    var q := Prepared(p.disk, [], true);
    if a.plotDir.Some? {
      q := CheckOutputDir(p.disk, a.plotDir.value, a.overwrite, PlotDirNotEmptyMessage);
      if !q.proceed {
        return EvalResult(q.disk, p.effects + q.effects);
      }
    }
    assert q == PreparePlotDir(p.disk, a);
    var out := WriteOutputs(q.disk, a, images, metricNames, metricValues);
    return EvalResult(out.disk, p.effects + q.effects + out.effects);
  }

  /** One pass of the image loop: the prediction under the image's basename,
      and the plot when plots are on. */
  method SaveImageOutputs(a: EvalArgs, image: Path) returns (piece: seq<Effect>, files: set<Path>)
    ensures piece == ImageOutputs(a, image)
    ensures files == {OutputFile(a.predDir, image)} + (if a.plotDir.Some? then {OutputFile(a.plotDir.value, image)} else {})
  {
    var name := Basename(image);
    piece := [SaveImage(a.predDir + [name])];
    files := {a.predDir + [name]};
    if a.plotDir.Some? {
      piece := piece + [SavePlot(a.plotDir.value + [name])];
      files := files + {a.plotDir.value + [name]};
    }
  }

  /** The part of `eval_model` after the guards: the two list reads, the result
      file, and the loop over the test images. */
  method WriteOutputs(disk: Disk, a: EvalArgs, images: seq<Path>, metricNames: seq<string>, metricValues: seq<string>)
    returns (r: EvalResult)
    ensures r == EvalResult(disk + {a.resultFile} + ImageFiles(a, images), Outputs(a, images, metricNames, metricValues))
  {
    var effects := [ReadFileList(a.testImgFile, a.testImgDir), ReadFileList(a.testMaskFile, a.testMaskDir)];
    effects := effects + [WriteCsv(a.resultFile, [["weight file"] + metricNames, [Basename(a.weightFile)] + metricValues])];
    var saved, written := SaveAllImages(a, images);
    effects := effects + saved;
    var current := disk + {a.resultFile} + written;
    return EvalResult(current, effects);
  }

  /** The loop over the test images. */
  method SaveAllImages(a: EvalArgs, images: seq<Path>) returns (saved: seq<Effect>, written: set<Path>)
    ensures saved == ImageEffects(a, images)
    ensures written == ImageFiles(a, images)
  {
    saved, written := [], {};
    for i := 0 to |images|
      invariant saved == ImageEffects(a, images[..i])
      invariant written == ImageFiles(a, images[..i])
    {
      var piece, files := SaveImageOutputs(a, images[i]);
      ImageEffectsSnoc(a, images, i);
      ImageFilesSnoc(a, images, i);
      saved, written := saved + piece, written + files;
    }
    assert images[..|images|] == images;
  }

  // ---------------------------------------------------------------------------
  // Properties of the guard and of a run

  /** The skip-or-clear policy: the run goes on exactly when the directory is
      empty after `verify_dir` or overwrite is on. When it stops nothing is
      deleted; when it goes on the directory exists and is empty and every path
      outside it is kept. */
  lemma PrepareDirPolicy(disk: Disk, dir: Path, overwrite: bool, message: string)
    requires dir != []
    ensures var p := PrepareDir(disk, dir, overwrite, message);
      && (p.proceed <==> IsDirEmpty(MakeDirs(disk, dir), dir) || overwrite)
      && (!p.proceed ==> disk <= p.disk && p.effects == [VerifyDir(dir), Report(message)])
      && (p.proceed ==> dir in p.disk && IsDirEmpty(p.disk, dir))
      && (forall e :: e in disk && !(dir <= e) ==> e in p.disk)
      && (RemoveDir(dir) in p.effects <==> p.proceed && !IsDirEmpty(MakeDirs(disk, dir), dir))
  {
    var made := MakeDirs(disk, dir);
    if !IsDirEmpty(made, dir) && overwrite {
      ClearLeavesEmpty(made, dir);
    } else if IsDirEmpty(made, dir) {
      assert dir in made;
    }
  }

  /** A non-empty prediction directory without overwrite: the run stops with one
      message, before any list is read or file written, and nothing is removed. */
  lemma PredictionGuardSkips(disk: Disk, a: EvalArgs, images: seq<Path>, metricNames: seq<string>, metricValues: seq<string>)
    requires !IsDirEmpty(MakeDirs(disk, a.predDir), a.predDir) && !a.overwrite
    ensures var r := EvalRun(disk, a, images, metricNames, metricValues);
      && r.effects == [VerifyDir(a.predDir), Report(PredictionDirNotEmptyMessage)]
      && r.disk == MakeDirs(disk, a.predDir)
      && disk <= r.disk
  {
  }

  /** A non-empty plot directory without overwrite stops the run just the same
      (after the prediction directory was prepared). */
  lemma PlotGuardSkips(disk: Disk, a: EvalArgs, images: seq<Path>, metricNames: seq<string>, metricValues: seq<string>)
    requires a.plotDir.Some? && !a.overwrite
    requires IsDirEmpty(MakeDirs(disk, a.predDir), a.predDir)
    requires var made := MakeDirs(disk, a.predDir);
      !IsDirEmpty(MakeDirs(made, a.plotDir.value), a.plotDir.value)
    ensures var r := EvalRun(disk, a, images, metricNames, metricValues);
      && r.effects == [VerifyDir(a.predDir), VerifyDir(a.plotDir.value), Report(PlotDirNotEmptyMessage)]
      && disk <= r.disk
  {
  }

  /** A second run on the same prediction directory without overwrite, after a
      run that wrote at least one prediction there, stops at the first guard. */
  lemma RerunSkips(disk: Disk, a: EvalArgs, images: seq<Path>, metricNames: seq<string>, metricValues: seq<string>,
                   b: EvalArgs, images2: seq<Path>, metricNames2: seq<string>, metricValues2: seq<string>)
    requires images != []
    requires PrepareDir(disk, a.predDir, a.overwrite, PredictionDirNotEmptyMessage).proceed
    requires PreparePlotDir(PrepareDir(disk, a.predDir, a.overwrite, PredictionDirNotEmptyMessage).disk, a).proceed
    requires b.predDir == a.predDir && !b.overwrite
    ensures var first := EvalRun(disk, a, images, metricNames, metricValues);
      EvalRun(first.disk, b, images2, metricNames2, metricValues2).effects
        == [VerifyDir(b.predDir), Report(PredictionDirNotEmptyMessage)]
  {
    var first := EvalRun(disk, a, images, metricNames, metricValues);
    var f := OutputFile(a.predDir, images[0]);
    assert f in ImageFiles(a, images);
    assert f in MakeDirs(first.disk, b.predDir) && Inside(b.predDir, f);
    PredictionGuardSkips(first.disk, b, images2, metricNames2, metricValues2);
  }

  /** Without a plot directory nothing plot-related happens. */
  lemma NoPlotDirNoPlots(disk: Disk, a: EvalArgs, images: seq<Path>, metricNames: seq<string>, metricValues: seq<string>)
    requires a.plotDir == None
    ensures var r := EvalRun(disk, a, images, metricNames, metricValues);
      forall i :: 0 <= i < |r.effects| ==> !r.effects[i].SavePlot? && r.effects[i] != Report(PlotDirNotEmptyMessage)
  {
    var r := EvalRun(disk, a, images, metricNames, metricValues);
    var p := PrepareDir(disk, a.predDir, a.overwrite, PredictionDirNotEmptyMessage);
    PrepareDirEffects(disk, a.predDir, a.overwrite, PredictionDirNotEmptyMessage);
    assert PredictionDirNotEmptyMessage != PlotDirNotEmptyMessage;
    var out := Outputs(a, images, metricNames, metricValues);
    if p.proceed {
      assert PreparePlotDir(p.disk, a).effects == [];
      assert r.effects == p.effects + [] + out;
    }
    forall i | 0 <= i < |r.effects| ensures !r.effects[i].SavePlot? && r.effects[i] != Report(PlotDirNotEmptyMessage) {
      var e := r.effects[i];
      if e !in p.effects {
        assert e in out;
        if e !in out[..3] {
          assert out == out[..3] + ImageEffects(a, images);
          ImageEffectsMember(a, images, e);
        }
      }
    }
  }

  /** Preparing a directory only creates, removes and reports. */
  lemma PrepareDirEffects(disk: Disk, dir: Path, overwrite: bool, message: string)
    ensures forall e :: e in PrepareDir(disk, dir, overwrite, message).effects ==>
      e.VerifyDir? || e.RemoveDir? || e == Report(message)
  {
  }

  /** What the image loop does, by value. */
  lemma ImageEffectsMember(a: EvalArgs, images: seq<Path>, e: Effect)
    requires e in ImageEffects(a, images)
    ensures e.SaveImage? || (a.plotDir.Some? && e.SavePlot?)
  {
    var j :| 0 <= j < |ImageEffects(a, images)| && ImageEffects(a, images)[j] == e;
    ImageEffectsKinds(a, images, j);
  }

  /** The image loop saves, for the `i`-th test image, its prediction under its
      basename in the prediction directory, followed by its plot when plots are on. */
  lemma ImageEffectsAt(a: EvalArgs, images: seq<Path>, i: nat)
    requires i < |images|
    ensures var k := if a.plotDir.Some? then 2 else 1;
      && |ImageEffects(a, images)| == k * |images|
      && ImageEffects(a, images)[k * i] == SaveImage(a.predDir + [Basename(images[i])])
      && (a.plotDir.Some? ==> ImageEffects(a, images)[k * i + 1] == SavePlot(a.plotDir.value + [Basename(images[i])]))
  {
    ImageEffectsLength(a, images);
    if a.plotDir.Some? {
      PlotImageEffectsAt(a, images, i);
    } else {
      PlainImageEffectsAt(a, images, i);
    }
  }

  lemma {:induction false} PlainImageEffectsAt(a: EvalArgs, images: seq<Path>, i: nat)
    requires a.plotDir.None? && i < |images|
    ensures |ImageEffects(a, images)| == |images|
    ensures ImageEffects(a, images)[i] == SaveImage(a.predDir + [Basename(images[i])])
    decreases |images|
  {
    var n := |images| - 1;
    var init := images[..n];
    assert ImageEffects(a, images) == ImageEffects(a, init) + ImageOutputs(a, images[n]);
    ImageEffectsLength(a, init);
    if i < n {
      PlainImageEffectsAt(a, init, i);
      assert init[i] == images[i];
    }
  }

  lemma {:induction false} PlotImageEffectsAt(a: EvalArgs, images: seq<Path>, i: nat)
    requires a.plotDir.Some? && i < |images|
    ensures |ImageEffects(a, images)| == 2 * |images|
    ensures ImageEffects(a, images)[2 * i] == SaveImage(a.predDir + [Basename(images[i])])
    ensures ImageEffects(a, images)[2 * i + 1] == SavePlot(a.plotDir.value + [Basename(images[i])])
    decreases |images|
  {
    var n := |images| - 1;
    var init := images[..n];
    assert ImageEffects(a, images) == ImageEffects(a, init) + ImageOutputs(a, images[n]);
    ImageEffectsLength(a, init);
    if i < n {
      PlotImageEffectsAt(a, init, i);
      assert init[i] == images[i];
    }
  }

  lemma {:induction false} ImageEffectsLength(a: EvalArgs, images: seq<Path>)
    ensures |ImageEffects(a, images)| == (if a.plotDir.Some? then 2 else 1) * |images|
    decreases |images|
  {
    if images != [] {
      ImageEffectsLength(a, images[..|images| - 1]);
    }
  }

  /** A run that passes both guards reads the two lists, writes exactly two rows
      to the result file, then saves one prediction per test image in list order. */
  lemma ProceedingRunOutputs(disk: Disk, a: EvalArgs, images: seq<Path>, metricNames: seq<string>, metricValues: seq<string>)
    requires PrepareDir(disk, a.predDir, a.overwrite, PredictionDirNotEmptyMessage).proceed
    requires PreparePlotDir(PrepareDir(disk, a.predDir, a.overwrite, PredictionDirNotEmptyMessage).disk, a).proceed
    ensures var r := EvalRun(disk, a, images, metricNames, metricValues);
      var out := Outputs(a, images, metricNames, metricValues);
      && r.effects[|r.effects| - |out|..] == out
      && out[2] == WriteCsv(a.resultFile, [["weight file"] + metricNames, [Basename(a.weightFile)] + metricValues])
      && (forall j :: 0 <= j < |out| && j != 2 ==> !out[j].WriteCsv?)
      && |out| == 3 + (if a.plotDir.Some? then 2 else 1) * |images|
  {
    var out := Outputs(a, images, metricNames, metricValues);
    ImageEffectsLength(a, images);
    forall j | 0 <= j < |out| && j != 2 ensures !out[j].WriteCsv? {
      if j > 2 {
        ImageEffectsKinds(a, images, j - 3);
      }
    }
  }

  /** The image loop only saves predictions, and plots only when plots are on. */
  lemma {:induction false} ImageEffectsKinds(a: EvalArgs, images: seq<Path>, j: nat)
    requires j < |ImageEffects(a, images)|
    ensures ImageEffects(a, images)[j].SaveImage? || (a.plotDir.Some? && ImageEffects(a, images)[j].SavePlot?)
    decreases |images|
  {
    var init := images[..|images| - 1];
    if j < |ImageEffects(a, init)| {
      ImageEffectsKinds(a, init, j);
    }
  }

  /** After a run that passes the guards, the prediction directory holds exactly
      one file per test image, named by the image's basename, provided the plot
      directory and the result file lie outside it. */
  lemma PredictionDirContents(disk: Disk, a: EvalArgs, images: seq<Path>, metricNames: seq<string>, metricValues: seq<string>)
    requires a.predDir != []
    requires PrepareDir(disk, a.predDir, a.overwrite, PredictionDirNotEmptyMessage).proceed
    requires PreparePlotDir(PrepareDir(disk, a.predDir, a.overwrite, PredictionDirNotEmptyMessage).disk, a).proceed
    requires a.plotDir.Some? ==> !(a.predDir <= a.plotDir.value)
    requires !Inside(a.predDir, a.resultFile)
    ensures var r := EvalRun(disk, a, images, metricNames, metricValues);
      forall e :: e in r.disk && Inside(a.predDir, e) <==> exists i :: 0 <= i < |images| && e == a.predDir + [Basename(images[i])]
  {
    var p := PrepareDir(disk, a.predDir, a.overwrite, PredictionDirNotEmptyMessage);
    var q := PreparePlotDir(p.disk, a);
    PrepareDirPolicy(disk, a.predDir, a.overwrite, PredictionDirNotEmptyMessage);
    var r := EvalRun(disk, a, images, metricNames, metricValues);
    assert r.disk == q.disk + {a.resultFile} + ImageFiles(a, images);
    forall e | e in q.disk ensures !Inside(a.predDir, e) {
      if e !in p.disk {
        assert a.plotDir.Some?;
        PlotPrepareAddsPrefixes(p.disk, a.plotDir.value, a.overwrite, e);
      }
    }
    forall img | img in images && a.plotDir.Some? ensures !Inside(a.predDir, OutputFile(a.plotDir.value, img)) {
      InsideAppend(a.predDir, a.plotDir.value, Basename(img));
    }
    forall e | e in r.disk && Inside(a.predDir, e)
      ensures exists i :: 0 <= i < |images| && e == a.predDir + [Basename(images[i])]
    {
      assert e in (set img | img in images :: OutputFile(a.predDir, img));
      var img :| img in images && e == OutputFile(a.predDir, img);
      var i :| 0 <= i < |images| && images[i] == img;
    }
    forall i | 0 <= i < |images| ensures a.predDir + [Basename(images[i])] in r.disk {
      assert OutputFile(a.predDir, images[i]) in ImageFiles(a, images);
    }
  }

  /** A path strictly inside `d` that ends in one more component lies in `d` or
      below: its directory starts with `d`. */
  lemma InsideAppend(d: Path, p: Path, x: string)
    ensures Inside(d, p + [x]) ==> d <= p
  {
    if Inside(d, p + [x]) {
      assert d <= (p + [x])[..|p|];
      assert (p + [x])[..|p|] == p;
    }
  }

  /** Preparing the plot directory only adds prefixes of it. */
  lemma PlotPrepareAddsPrefixes(disk: Disk, dir: Path, overwrite: bool, e: Path)
    requires e in PrepareDir(disk, dir, overwrite, PlotDirNotEmptyMessage).disk && e !in disk
    ensures e <= dir
  {
    var made := MakeDirs(disk, dir);
    if e !in made {
      assert e in MakeDirs(RemoveTree(made, dir), dir);
    }
  }

  // ---------------------------------------------------------------------------
  // Shape helpers; an array is described by its shape

  type Shape = seq<nat>

  /** `reshape_arr`: 3-D arrays and 3-channel 4-D arrays unchanged, a 1-channel
      4-D array without its channel axis, None for anything else. */
  function ReshapeArr(shape: Shape): Option<Shape> {
    if |shape| == 3 then Some(shape)
    else if |shape| == 4 then
      if shape[3] == 3 then Some(shape)
      else if shape[3] == 1 then Some(shape[..3])
      else None
    else None
  }

  datatype Cmap = Gray | Jet

  /** `get_cmap`: 'gray' for 3-D and 1-channel 4-D arrays, 'jet' for 3-channel
      4-D arrays, None otherwise. */
  function GetCmap(shape: Shape): Option<Cmap> {
    if |shape| == 3 then Some(Gray)
    else if |shape| == 4 then
      if shape[3] == 3 then Some(Jet)
      else if shape[3] == 1 then Some(Gray)
      else None
    else None
  }

  function Product(shape: Shape): nat {
    if shape == [] then 1 else Product(shape[..|shape| - 1]) * shape[|shape| - 1]
  }

  /** Reshaping never changes the number of elements, lands on a shape it keeps
      unchanged, and agrees with the colour map: an array gets a colour map
      exactly when it can be reshaped, and the same one afterwards. */
  lemma ReshapeProperties(shape: Shape)
    ensures ReshapeArr(shape).Some? <==> GetCmap(shape).Some?
    ensures ReshapeArr(shape).Some? ==>
      var t := ReshapeArr(shape).value;
      && Product(t) == Product(shape)
      && ReshapeArr(t) == Some(t)
      && GetCmap(t) == GetCmap(shape)
      && (|t| == 3 || (|t| == 4 && t[3] == 3))
      && (GetCmap(shape) == Some(Gray) <==> |t| == 3)
  {
    if |shape| == 4 && shape[3] == 1 {
      assert Product(shape) == Product(shape[..3]) * 1;
    }
  }

  // ---------------------------------------------------------------------------
  // zero_pad_mask and mask_to_red on two-dimensional masks

  /** A `height` x `width` grid (rows of equal length). */
  predicate IsGrid<T>(m: seq<seq<T>>, width: nat) {
    forall i :: 0 <= i < |m| ==> |m[i]| == width
  }

  function Fill<T>(n: nat, x: T): (r: seq<T>)
    ensures |r| == n && forall i :: 0 <= i < n ==> r[i] == x
  {
    if n == 0 then [] else Fill(n - 1, x) + [x]
  }

  /** `np.pad(mask, pad, mode="constant")` for a non-negative `pad`: `pad` zero
      rows above and below, `pad` zeros left and right of every row. */
  function PadGrid<T>(m: seq<seq<T>>, width: nat, pad: nat, zero: T): seq<seq<T>> {
    var border := Fill(pad, Fill(width + 2 * pad, zero));
    var middle := seq(|m|, i requires 0 <= i < |m| => Fill(pad, zero) + m[i] + Fill(pad, zero));
    border + middle + border
  }

  /** The padded grid has `pad` more rows and columns on every side; a cell is
      the mask's cell shifted by `pad` inside the window and zero outside it. */
  lemma PadGridCells<T>(m: seq<seq<T>>, width: nat, pad: nat, zero: T)
    requires IsGrid(m, width)
    ensures var r := PadGrid(m, width, pad, zero);
      && |r| == |m| + 2 * pad && IsGrid(r, width + 2 * pad)
      && forall i, j :: 0 <= i < |r| && 0 <= j < width + 2 * pad ==>
           r[i][j] == if pad <= i < pad + |m| && pad <= j < pad + width then m[i - pad][j - pad] else zero
  {
    var side := Fill(pad, zero);
    var border := Fill(pad, Fill(width + 2 * pad, zero));
    var middle := seq(|m|, i requires 0 <= i < |m| => side + m[i] + side);
    var r := border + middle + border;
    assert r == PadGrid(m, width, pad, zero);
    forall i | 0 <= i < |r| ensures |r[i]| == width + 2 * pad {
      if pad <= i < pad + |m| {
        assert r[i] == middle[i - pad];
      } else if i < pad {
        assert r[i] == border[i];
      } else {
        assert r[i] == border[i - pad - |m|];
      }
    }
    forall i, j | 0 <= i < |r| && 0 <= j < width + 2 * pad
      ensures r[i][j] == if pad <= i < pad + |m| && pad <= j < pad + width then m[i - pad][j - pad] else zero
    {
      if pad <= i < pad + |m| {
        var row := m[i - pad];
        assert r[i] == side + row + side;
        if j < pad {
          assert r[i][j] == side[j];
        } else if j < pad + width {
          assert r[i][j] == row[j - pad];
        } else {
          assert r[i][j] == side[j - pad - width];
        }
      } else if i < pad {
        assert r[i] == border[i];
      } else {
        assert r[i] == border[i - pad - |m|];
      }
    }
  }

  /** `zero_pad_mask(mask, desired_size)`: pads every side by
      `(desired_size - height) // 2`; a negative pad is an error in `np.pad`. */
  function ZeroPadMask<T>(m: seq<seq<T>>, width: nat, desiredSize: int, zero: T): Option<seq<seq<T>>>
    requires IsGrid(m, width)
  {
    var pad := (desiredSize - |m|) / 2;
    if pad < 0 then None else Some(PadGrid(m, width, pad, zero))
  }

  /** A square mask padded to a size that differs from its own by an even,
      non-negative amount comes out exactly `desiredSize` square, with the mask
      centred; an odd difference leaves it one short in each direction. */
  lemma ZeroPadMaskSize<T>(m: seq<seq<T>>, desiredSize: int, zero: T)
    requires IsGrid(m, |m|) && |m| <= desiredSize
    ensures ZeroPadMask(m, |m|, desiredSize, zero).Some?
    ensures var r := ZeroPadMask(m, |m|, desiredSize, zero).value;
      && ((desiredSize - |m|) % 2 == 0 ==> |r| == desiredSize && IsGrid(r, desiredSize))
      && ((desiredSize - |m|) % 2 == 1 ==> |r| == desiredSize - 1 && IsGrid(r, desiredSize - 1))
  {
    PadGridCells(m, |m|, (desiredSize - |m|) / 2, zero);
  }

  /** A mask taller than the desired size cannot be padded: even a difference of
      one floors to a pad of -1. */
  lemma ZeroPadMaskTooLarge<T>(m: seq<seq<T>>, width: nat, desiredSize: int, zero: T)
    requires IsGrid(m, width) && |m| > desiredSize
    ensures ZeroPadMask(m, width, desiredSize, zero) == None
  {
  }

  /** `mask_to_red(mask)`: the mask reshaped to `height` x `height`, stacked
      with two zero channels into RGBA pixels; the reshape fails unless the
      mask is square (or has no rows). */
  function MaskToRed<T>(m: seq<seq<T>>, width: nat, zero: T): Option<seq<seq<seq<T>>>>
    requires IsGrid(m, width)
  {
    if |m| > 0 && width != |m| then None
    else Some(seq(|m|, i requires 0 <= i < |m| =>
              seq(|m|, j requires 0 <= j < |m| => [m[i][j], zero, zero, m[i][j]])))
  }

  /** Every pixel of the red overlay has four channels: the mask in red and
      alpha, zero in green and blue, in a grid as large as the mask. */
  lemma MaskToRedChannels<T>(m: seq<seq<T>>, zero: T)
    requires IsGrid(m, |m|)
    ensures MaskToRed(m, |m|, zero).Some?
    ensures var r := MaskToRed(m, |m|, zero).value;
      && |r| == |m| && IsGrid(r, |m|)
      && forall i, j :: 0 <= i < |m| && 0 <= j < |m| ==>
           |r[i][j]| == 4 && r[i][j][0] == m[i][j] && r[i][j][1] == zero
           && r[i][j][2] == zero && r[i][j][3] == m[i][j]
  {
  }

  /** The overlay of `eval_model`: a square prediction padded to the image size
      (an even difference) becomes an image-sized RGBA overlay. */
  lemma OverlaySize<T>(m: seq<seq<T>>, desiredSize: int, zero: T)
    requires IsGrid(m, |m|) && |m| <= desiredSize && (desiredSize - |m|) % 2 == 0
    ensures ZeroPadMask(m, |m|, desiredSize, zero).Some?
    ensures var padded := ZeroPadMask(m, |m|, desiredSize, zero).value;
      && IsGrid(padded, |padded|)
      && MaskToRed(padded, |padded|, zero).Some?
      && |MaskToRed(padded, |padded|, zero).value| == desiredSize
  {
    ZeroPadMaskSize(m, desiredSize, zero);
  }
}
