/** The sweep driver of notebooks/eval_script.py: `build_datasets`,
    `train_models` and `eval_models` walk the sweep dimensions in nested loops
    over the path registry and call a collaborator once per tuple. The
    collaborators are recorded as calls in a log, in the order they are made. */
module Sweep {
  import opened Common
  import opened Registry
  import TM = TrainModel
  import EM = EvalModel
  import Io

  /** The test/train/validation fractions, as exact reals. */
  datatype Split = Split(test: real, train: real, valid: real)

  /** Python's `int(x)` on a float: truncation toward zero. */
  function Trunc(x: real): int {
    if x >= 0.0 then x.Floor else -((-x).Floor)
  }

  /** A call to a collaborator, or a message the driver prints when it skips. */
  datatype Call =
    | MakeComboDatasetTxt(listFiles: seq<Path>, outFile: Path, rootDirs: seq<Option<Path>>, totalImgs: int, seed: int)
    | TestTrainValidSplit(imgDir: Option<Path>, maskDir: Option<Path>, tileDir: Path, split: Split, seed: int, nSet: Option<int>)
    | TrainUnet(trainArgs: TM.TrainArgs)
    | EvalModel(evalArgs: EM.EvalArgs)
    | Report(message: string)

  /** `paths[ts][seed]` exists. */
  predicate HasSeed(paths: Paths, ts: string, seed: int) {
    ts in paths && seed in paths[ts].seeds
  }

  /** `paths[ts][seed][backbone][rev]` exists and holds model artifacts. */
  predicate HasModel(paths: Paths, ts: string, seed: int, backbone: string, rev: string) {
    HasSeed(paths, ts, seed) && backbone in paths[ts].seeds[seed].backbones
    && rev in paths[ts].seeds[seed].backbones[backbone]
    && paths[ts].seeds[seed].backbones[backbone][rev].Model?
  }

  /** `paths[ts][seed][backbone][test]` exists and holds evaluation paths. */
  predicate HasEval(paths: Paths, ts: string, seed: int, backbone: string, test: string) {
    HasSeed(paths, ts, seed) && backbone in paths[ts].seeds[seed].backbones
    && test in paths[ts].seeds[seed].backbones[backbone]
    && paths[ts].seeds[seed].backbones[backbone][test].Eval?
  }

  // ---------------------------------------------------------------------------
  // build_datasets

  /** Everything the combo branch looks up before its first call: the set's own
      seed entry, and for every constituent its roots and seed entry. */
  datatype ComboInputs = ComboInputs(node: SeedNode, imgRoots: seq<Option<Path>>, maskRoots: seq<Option<Path>>, parts: seq<SeedNode>)

  /** The lookups of the combo branch; None is the KeyError it catches. */
  function ComboLookup(paths: Paths, comboSets: map<string, seq<string>>, ts: string, seed: int): (r: Option<ComboInputs>)
    ensures r.Some? <==> ts in comboSets && HasSeed(paths, ts, seed)
                         && forall i :: 0 <= i < |comboSets[ts]| ==> HasSeed(paths, comboSets[ts][i], seed)
    ensures r.Some? ==>
      var sets := comboSets[ts];
      && r.value.node == paths[ts].seeds[seed]
      && |r.value.imgRoots| == |r.value.maskRoots| == |r.value.parts| == |sets|
      && forall i :: 0 <= i < |sets| ==>
           && r.value.imgRoots[i] == paths[sets[i]].imgRoot
           && r.value.maskRoots[i] == paths[sets[i]].maskRoot
           && r.value.parts[i] == paths[sets[i]].seeds[seed]
  {
    if ts !in comboSets || !HasSeed(paths, ts, seed) then None
    else
      var sets := comboSets[ts];
      if exists i :: 0 <= i < |sets| && !HasSeed(paths, sets[i], seed) then None
      else Some(ComboInputs(
        paths[ts].seeds[seed],
        seq(|sets|, i requires 0 <= i < |sets| => paths[sets[i]].imgRoot),
        seq(|sets|, i requires 0 <= i < |sets| => paths[sets[i]].maskRoot),
        seq(|sets|, i requires 0 <= i < |sets| => paths[sets[i]].seeds[seed])))
  }

  function ComboSkipMessage(ts: string): string {
    "combo_sets does not contain a specifier for " + ts + ". Skipping..."
  }

  function TrainImgs(parts: seq<SeedNode>): (r: seq<Path>)
    ensures |r| == |parts| && forall i :: 0 <= i < |parts| ==> r[i] == parts[i].trainImg
  {
    seq(|parts|, i requires 0 <= i < |parts| => parts[i].trainImg)
  }

  function TrainMasks(parts: seq<SeedNode>): (r: seq<Path>)
    ensures |r| == |parts| && forall i :: 0 <= i < |parts| ==> r[i] == parts[i].trainMask
  {
    seq(|parts|, i requires 0 <= i < |parts| => parts[i].trainMask)
  }

  function ValidImgs(parts: seq<SeedNode>): (r: seq<Path>)
    ensures |r| == |parts| && forall i :: 0 <= i < |parts| ==> r[i] == parts[i].validImg
  {
    seq(|parts|, i requires 0 <= i < |parts| => parts[i].validImg)
  }

  function ValidMasks(parts: seq<SeedNode>): (r: seq<Path>)
    ensures |r| == |parts| && forall i :: 0 <= i < |parts| ==> r[i] == parts[i].validMask
  {
    seq(|parts|, i requires 0 <= i < |parts| => parts[i].validMask)
  }

  /** The four merge calls of a combo whose lookups succeed. */
  function ComboCalls(inputs: ComboInputs, nSet: int, split: Split, seed: int): seq<Call> {
    var nTrain, nValid := Trunc(nSet as real * split.train), Trunc(nSet as real * split.valid);
    [MakeComboDatasetTxt(TrainImgs(inputs.parts), inputs.node.trainImg, inputs.imgRoots, nTrain, seed),
     MakeComboDatasetTxt(TrainMasks(inputs.parts), inputs.node.trainMask, inputs.maskRoots, nTrain, seed),
     MakeComboDatasetTxt(ValidImgs(inputs.parts), inputs.node.validImg, inputs.imgRoots, nValid, seed),
     MakeComboDatasetTxt(ValidMasks(inputs.parts), inputs.node.validMask, inputs.maskRoots, nValid, seed)]
  }

  /** The calls for one (train_set, seed). A plain set missing from the table,
      and a combo reaching the size computation with no `n_set`, make the
      Python raise; `BuildDatasets` excludes both, and here they yield nothing. */
  function BuildCell(paths: Paths, comboSets: map<string, seq<string>>, ts: string, seed: int,
                     nSet: Option<int>, split: Split): seq<Call>
  {
    if IsCombo(ts) then
      match ComboLookup(paths, comboSets, ts, seed)
      case None => [Report(ComboSkipMessage(ts))]
      case Some(inputs) => if nSet.Some? then ComboCalls(inputs, nSet.value, split, seed) else []
    else if ts in paths then
      [TestTrainValidSplit(paths[ts].imgRoot, paths[ts].maskRoot, paths[ts].tiles, split, seed, nSet)]
    else []
  }

  function BuildRow(paths: Paths, comboSets: map<string, seq<string>>, ts: string, seeds: seq<int>,
                    nSet: Option<int>, split: Split): seq<Call>
  {
    ConcatMap(seeds, seed => BuildCell(paths, comboSets, ts, seed, nSet, split))
  }

  /** The log of `build_datasets`: the cells in loop order, train sets outermost. */
  function BuildLog(paths: Paths, comboSets: map<string, seq<string>>, trainSets: seq<string>, seeds: seq<int>,
                    nSet: Option<int>, split: Split): seq<Call>
  {
    ConcatMap(trainSets, ts => BuildRow(paths, comboSets, ts, seeds, nSet, split))
  }

  /** What `build_datasets` needs to run without raising: every plain set is in the
      table, and without `n_set` no combo gets past its lookups. */
  predicate BuildRuns(paths: Paths, comboSets: map<string, seq<string>>, trainSets: seq<string>, seeds: seq<int>,
                      nSet: Option<int>)
  {
    && (forall ts :: ts in trainSets && !IsCombo(ts) ==> ts in paths)
    && (nSet == None ==> forall ts, seed :: ts in trainSets && seed in seeds && IsCombo(ts) ==>
                           ComboLookup(paths, comboSets, ts, seed) == None)
  }

  /** One pass of the seed loop. */
  method BuildOne(paths: Paths, comboSets: map<string, seq<string>>, ts: string, seed: int,
                  nSet: Option<int>, split: Split) returns (calls: seq<Call>)
    requires !IsCombo(ts) ==> ts in paths
    requires IsCombo(ts) && nSet == None ==> ComboLookup(paths, comboSets, ts, seed) == None
    ensures calls == BuildCell(paths, comboSets, ts, seed, nSet, split)
  {
    if IsCombo(ts) {
      var inputs := ComboLookup(paths, comboSets, ts, seed);
      if inputs == None {
        return [Report(ComboSkipMessage(ts))];
      }
      calls := MergeCombo(inputs.value, nSet.value, split, seed);
    } else {
      var site := paths[ts];
      calls := [TestTrainValidSplit(site.imgRoot, site.maskRoot, site.tiles, split, seed, nSet)];
    }
  }

  /** The sizes of a combo and its four `make_combo_dataset_txt` calls. */
  method MergeCombo(inputs: ComboInputs, nSet: int, split: Split, seed: int) returns (calls: seq<Call>)
    ensures calls == ComboCalls(inputs, nSet, split, seed)
  {
    var node, parts := inputs.node, inputs.parts;
    var nTrain := Trunc(nSet as real * split.train);
    var nValid := Trunc(nSet as real * split.valid);
    calls := [MakeComboDatasetTxt(TrainImgs(parts), node.trainImg, inputs.imgRoots, nTrain, seed),
              MakeComboDatasetTxt(TrainMasks(parts), node.trainMask, inputs.maskRoots, nTrain, seed),
              MakeComboDatasetTxt(ValidImgs(parts), node.validImg, inputs.imgRoots, nValid, seed),
              MakeComboDatasetTxt(ValidMasks(parts), node.validMask, inputs.maskRoots, nValid, seed)];
    ghost var expected := ComboCalls(inputs, nSet, split, seed);
    assert expected[0].totalImgs == expected[1].totalImgs == nTrain;
    assert expected[2].totalImgs == expected[3].totalImgs == nValid;
    assert calls[0] == expected[0] && calls[1] == expected[1];
    assert calls[2] == expected[2] && calls[3] == expected[3];
  }

  lemma BuildRowSnoc(paths: Paths, comboSets: map<string, seq<string>>, ts: string, seeds: seq<int>,
                     nSet: Option<int>, split: Split, j: nat)
    requires j < |seeds|
    ensures BuildRow(paths, comboSets, ts, seeds[..j + 1], nSet, split)
         == BuildRow(paths, comboSets, ts, seeds[..j], nSet, split) + BuildCell(paths, comboSets, ts, seeds[j], nSet, split)
  {
    assert seeds[..j + 1] == seeds[..j] + [seeds[j]];
    ConcatMapSnoc(seeds[..j], seeds[j], seed => BuildCell(paths, comboSets, ts, seed, nSet, split));
  }

  lemma BuildLogSnoc(paths: Paths, comboSets: map<string, seq<string>>, trainSets: seq<string>, seeds: seq<int>,
                     nSet: Option<int>, split: Split, i: nat)
    requires i < |trainSets|
    ensures BuildLog(paths, comboSets, trainSets[..i + 1], seeds, nSet, split)
         == BuildLog(paths, comboSets, trainSets[..i], seeds, nSet, split) + BuildRow(paths, comboSets, trainSets[i], seeds, nSet, split)
  {
    assert trainSets[..i + 1] == trainSets[..i] + [trainSets[i]];
    ConcatMapSnoc(trainSets[..i], trainSets[i], ts => BuildRow(paths, comboSets, ts, seeds, nSet, split));
  }

  /** The seed loop for one train set. */
  method BuildSeeds(paths: Paths, comboSets: map<string, seq<string>>, ts: string, seeds: seq<int>,
                    nSet: Option<int>, split: Split) returns (log: seq<Call>)
    requires !IsCombo(ts) ==> ts in paths
    requires IsCombo(ts) && nSet == None ==> forall seed :: seed in seeds ==> ComboLookup(paths, comboSets, ts, seed) == None
    ensures log == BuildRow(paths, comboSets, ts, seeds, nSet, split)
  {
    log := [];
    for j := 0 to |seeds|
      invariant log == BuildRow(paths, comboSets, ts, seeds[..j], nSet, split)
    {
      assert seeds[j] in seeds;
      var calls := BuildOne(paths, comboSets, ts, seeds[j], nSet, split);
      BuildRowSnoc(paths, comboSets, ts, seeds, nSet, split, j);
      log := log + calls;
    }
    assert seeds[..|seeds|] == seeds;
  }

  /** `build_datasets(paths, train_sets, seeds, n_set, test_train_valid, combo_sets)`. */
  method BuildDatasets(paths: Paths, trainSets: seq<string>, seeds: seq<int>, nSet: Option<int>, split: Split,
                       comboSets: map<string, seq<string>>) returns (log: seq<Call>)
    requires BuildRuns(paths, comboSets, trainSets, seeds, nSet)
    ensures log == BuildLog(paths, comboSets, trainSets, seeds, nSet, split)
  {
    log := [];
    for i := 0 to |trainSets|
      invariant log == BuildLog(paths, comboSets, trainSets[..i], seeds, nSet, split)
    {
      assert trainSets[i] in trainSets;
      var row := BuildSeeds(paths, comboSets, trainSets[i], seeds, nSet, split);
      BuildLogSnoc(paths, comboSets, trainSets, seeds, nSet, split, i);
      log := log + row;
    }
    assert trainSets[..|trainSets|] == trainSets;
  }

  // ---------------------------------------------------------------------------
  // train_models

  datatype TrainSettings = TrainSettings(imgSize: int, epochs: int, freezeEncoder: bool, patience: int, batchnorm: bool)

  /** The arguments `train_models` passes for one tuple: the set's roots as the
      train directories, no validation directories, the final-weights file
      always given, and overwrite left at its default (off). */
  function TrainArgsFor(paths: Paths, ts: string, seed: int, backbone: string, rev: string, c: TrainSettings): TM.TrainArgs
    requires HasModel(paths, ts, seed, backbone, rev)
  {
    var site := paths[ts];
    var node := site.seeds[seed];
    var m := node.backbones[backbone][rev].model;
    TM.TrainArgs(site.imgRoot, site.maskRoot, node.trainImg, node.trainMask, node.validImg, node.validMask,
                 m.trainLog, m.bestWeights, Some(m.finalWeights), None, None,
                 backbone, Some(seed), (c.imgSize, c.imgSize), c.epochs, c.freezeEncoder, c.patience, c.batchnorm, false)
  }

  /** The call for one (train_set, seed, backbone, model_rev); nothing when the
      lookups fail, which `TrainModels` excludes (the Python raises KeyError). */
  function TrainCell(paths: Paths, ts: string, seed: int, backbone: string, rev: string, c: TrainSettings): seq<Call> {
    if HasModel(paths, ts, seed, backbone, rev) then [TrainUnet(TrainArgsFor(paths, ts, seed, backbone, rev, c))] else []
  }

  function TrainRevs(paths: Paths, ts: string, seed: int, backbone: string, revs: seq<string>, c: TrainSettings): seq<Call> {
    ConcatMap(revs, rev => TrainCell(paths, ts, seed, backbone, rev, c))
  }

  function TrainBackbones(paths: Paths, ts: string, seed: int, backbones: seq<string>, revs: seq<string>, c: TrainSettings): seq<Call> {
    ConcatMap(backbones, b => TrainRevs(paths, ts, seed, b, revs, c))
  }

  function TrainSeeds(paths: Paths, ts: string, seeds: seq<int>, backbones: seq<string>, revs: seq<string>, c: TrainSettings): seq<Call> {
    ConcatMap(seeds, seed => TrainBackbones(paths, ts, seed, backbones, revs, c))
  }

  /** The log of `train_models`. */
  function TrainLog(paths: Paths, trainSets: seq<string>, seeds: seq<int>, backbones: seq<string>, revs: seq<string>,
                    c: TrainSettings): seq<Call>
  {
    ConcatMap(trainSets, ts => TrainSeeds(paths, ts, seeds, backbones, revs, c))
  }

  /** Every lookup of `train_models` succeeds. */
  predicate TrainRuns(paths: Paths, trainSets: seq<string>, seeds: seq<int>, backbones: seq<string>, revs: seq<string>) {
    forall ts, seed, b, rev :: ts in trainSets && seed in seeds && b in backbones && rev in revs ==>
      HasModel(paths, ts, seed, b, rev)
  }

  /** The `model_rev` loop of `train_models`; realises `TrainRevs`. */
  method TrainRevsLoop(paths: Paths, ts: string, seed: int, backbone: string, revs: seq<string>, c: TrainSettings)
    returns (log: seq<Call>)
    requires forall rev :: rev in revs ==> HasModel(paths, ts, seed, backbone, rev)
    ensures log == TrainRevs(paths, ts, seed, backbone, revs, c)
  {
    log := [];
    for l := 0 to |revs|
      invariant log == ConcatMap(revs[..l], rev => TrainCell(paths, ts, seed, backbone, rev, c))
    {
      var rev := revs[l];
      assert rev in revs;
      var site := paths[ts];
      var node := site.seeds[seed];
      var m := node.backbones[backbone][rev].model;
      var args := TM.TrainArgs(site.imgRoot, site.maskRoot, node.trainImg, node.trainMask, node.validImg, node.validMask,
                               m.trainLog, m.bestWeights, Some(m.finalWeights), None, None,
                               backbone, Some(seed), (c.imgSize, c.imgSize), c.epochs, c.freezeEncoder, c.patience,
                               c.batchnorm, false);
      ConcatMapSnoc(revs[..l], rev, rev => TrainCell(paths, ts, seed, backbone, rev, c));
      assert revs[..l + 1] == revs[..l] + [rev];
      log := log + [TrainUnet(args)];
    }
    assert revs[..|revs|] == revs;
  }

  /** The `backbone` loop of `train_models`; realises `TrainBackbones`. */
  method TrainBackbonesLoop(paths: Paths, ts: string, seed: int, backbones: seq<string>, revs: seq<string>, c: TrainSettings)
    returns (log: seq<Call>)
    requires forall b, rev :: b in backbones && rev in revs ==> HasModel(paths, ts, seed, b, rev)
    ensures log == TrainBackbones(paths, ts, seed, backbones, revs, c)
  {
    log := [];
    for k := 0 to |backbones|
      invariant log == ConcatMap(backbones[..k], b => TrainRevs(paths, ts, seed, b, revs, c))
    {
      var row := TrainRevsLoop(paths, ts, seed, backbones[k], revs, c);
      ConcatMapSnoc(backbones[..k], backbones[k], b => TrainRevs(paths, ts, seed, b, revs, c));
      assert backbones[..k + 1] == backbones[..k] + [backbones[k]];
      log := log + row;
    }
    assert backbones[..|backbones|] == backbones;
  }

  /** The `seed` loop of `train_models`; realises `TrainSeeds`. */
  method TrainSeedsLoop(paths: Paths, ts: string, seeds: seq<int>, backbones: seq<string>, revs: seq<string>, c: TrainSettings)
    returns (log: seq<Call>)
    requires forall seed, b, rev :: seed in seeds && b in backbones && rev in revs ==> HasModel(paths, ts, seed, b, rev)
    ensures log == TrainSeeds(paths, ts, seeds, backbones, revs, c)
  {
    log := [];
    for j := 0 to |seeds|
      invariant log == ConcatMap(seeds[..j], seed => TrainBackbones(paths, ts, seed, backbones, revs, c))
    {
      var row := TrainBackbonesLoop(paths, ts, seeds[j], backbones, revs, c);
      ConcatMapSnoc(seeds[..j], seeds[j], seed => TrainBackbones(paths, ts, seed, backbones, revs, c));
      assert seeds[..j + 1] == seeds[..j] + [seeds[j]];
      log := log + row;
    }
    assert seeds[..|seeds|] == seeds;
  }

  /** `train_models(paths, train_sets, seeds, backbones, model_revs, img_size, epochs,
      freeze_encoder, patience, batchnorm)`. */
  method TrainModels(paths: Paths, trainSets: seq<string>, seeds: seq<int>, backbones: seq<string>, revs: seq<string>,
                     c: TrainSettings) returns (log: seq<Call>)
    requires TrainRuns(paths, trainSets, seeds, backbones, revs)
    ensures log == TrainLog(paths, trainSets, seeds, backbones, revs, c)
  {
    log := [];
    for i := 0 to |trainSets|
      invariant log == ConcatMap(trainSets[..i], ts => TrainSeeds(paths, ts, seeds, backbones, revs, c))
    {
      var row := TrainSeedsLoop(paths, trainSets[i], seeds, backbones, revs, c);
      ConcatMapSnoc(trainSets[..i], trainSets[i], ts => TrainSeeds(paths, ts, seeds, backbones, revs, c));
      assert trainSets[..i + 1] == trainSets[..i] + [trainSets[i]];
      log := log + row;
    }
    assert trainSets[..|trainSets|] == trainSets;
  }

  // ---------------------------------------------------------------------------
  // eval_models

  datatype EvalSettings = EvalSettings(imgSize: int, batchnorm: bool, weightType: string, genPlots: bool)

  const WeightsNotFoundMessage := "Weights not found!"

  predicate ValidSelector(weightType: string) {
    weightType == "best" || weightType == "final"
  }

  /** The arguments `eval_models` passes for one tuple. The test lists and
      roots are those of the TRAIN set; the output paths are those stored
      under the test set's key. */
  function EvalArgsFor(paths: Paths, ts: string, seed: int, backbone: string, rev: string, test: string,
                       c: EvalSettings): EM.EvalArgs
    requires HasModel(paths, ts, seed, backbone, rev) && HasEval(paths, ts, seed, backbone, test)
  {
    var site := paths[ts];
    var node := site.seeds[seed];
    var m := node.backbones[backbone][rev].model;
    var e := node.backbones[backbone][test].eval;
    EM.EvalArgs(site.imgRoot, site.maskRoot, node.testImg, node.testMask,
                if c.weightType == "best" then m.bestWeights else m.finalWeights,
                e.resultFile, e.predictionDir, if c.genPlots then Some(e.plotDir) else None,
                backbone, (c.imgSize, c.imgSize), c.batchnorm, false)
  }

  /** The call for one (train_set, seed, backbone, model_rev, test_set): a report
      for an unknown weight selector, otherwise one evaluation; nothing when the
      lookups fail, which `EvalModels` excludes (the Python raises KeyError). */
  function EvalCell(paths: Paths, ts: string, seed: int, backbone: string, rev: string, test: string,
                    c: EvalSettings): seq<Call>
  {
    if !ValidSelector(c.weightType) then [Report(WeightsNotFoundMessage)]
    else if HasModel(paths, ts, seed, backbone, rev) && HasEval(paths, ts, seed, backbone, test) then
      [EvalModel(EvalArgsFor(paths, ts, seed, backbone, rev, test, c))]
    else []
  }

  function EvalTests(paths: Paths, ts: string, seed: int, backbone: string, rev: string, tests: seq<string>,
                     c: EvalSettings): seq<Call>
  {
    ConcatMap(tests, test => EvalCell(paths, ts, seed, backbone, rev, test, c))
  }

  function EvalRevs(paths: Paths, ts: string, seed: int, backbone: string, revs: seq<string>, tests: seq<string>,
                    c: EvalSettings): seq<Call>
  {
    ConcatMap(revs, rev => EvalTests(paths, ts, seed, backbone, rev, tests, c))
  }

  function EvalBackbones(paths: Paths, ts: string, seed: int, backbones: seq<string>, revs: seq<string>,
                         tests: seq<string>, c: EvalSettings): seq<Call>
  {
    ConcatMap(backbones, b => EvalRevs(paths, ts, seed, b, revs, tests, c))
  }

  function EvalSeeds(paths: Paths, ts: string, seeds: seq<int>, backbones: seq<string>, revs: seq<string>,
                     tests: seq<string>, c: EvalSettings): seq<Call>
  {
    ConcatMap(seeds, seed => EvalBackbones(paths, ts, seed, backbones, revs, tests, c))
  }

  /** The log of `eval_models`. */
  function EvalLog(paths: Paths, trainSets: seq<string>, seeds: seq<int>, backbones: seq<string>, revs: seq<string>,
                   tests: seq<string>, c: EvalSettings): seq<Call>
  {
    ConcatMap(trainSets, ts => EvalSeeds(paths, ts, seeds, backbones, revs, tests, c))
  }

  /** The lookups `eval_models` makes for one tuple succeed: the train set's
      seed entry always, and with a known selector also the model_rev and
      test_set entries. */
  predicate EvalCellRuns(paths: Paths, ts: string, seed: int, backbone: string, rev: string, test: string, weightType: string) {
    && HasSeed(paths, ts, seed)
    && (ValidSelector(weightType) ==> HasModel(paths, ts, seed, backbone, rev) && HasEval(paths, ts, seed, backbone, test))
  }

  predicate EvalRuns(paths: Paths, trainSets: seq<string>, seeds: seq<int>, backbones: seq<string>, revs: seq<string>,
                     tests: seq<string>, weightType: string)
  {
    forall ts, seed, b, rev, test :: ts in trainSets && seed in seeds && b in backbones && rev in revs && test in tests ==>
      EvalCellRuns(paths, ts, seed, b, rev, test, weightType)
  }

  /** The `test_set` loop of `eval_models`; realises `EvalTests`. */
  method EvalTestsLoop(paths: Paths, ts: string, seed: int, backbone: string, rev: string, tests: seq<string>,
                       c: EvalSettings) returns (log: seq<Call>)
    requires forall test :: test in tests ==> EvalCellRuns(paths, ts, seed, backbone, rev, test, c.weightType)
    ensures log == EvalTests(paths, ts, seed, backbone, rev, tests, c)
  {
    log := [];
    for t := 0 to |tests|
      invariant log == ConcatMap(tests[..t], test => EvalCell(paths, ts, seed, backbone, rev, test, c))
    {
      var test := tests[t];
      assert test in tests;
      ConcatMapSnoc(tests[..t], test, test => EvalCell(paths, ts, seed, backbone, rev, test, c));
      assert tests[..t + 1] == tests[..t] + [test];
      var site := paths[ts];
      var node := site.seeds[seed];
      var testImg, testMask := node.testImg, node.testMask;
      var imgDir, maskDir := site.imgRoot, site.maskRoot;
      var weightFile: Path;
      if c.weightType == "best" {
        weightFile := node.backbones[backbone][rev].model.bestWeights;
      } else if c.weightType == "final" {
        weightFile := node.backbones[backbone][rev].model.finalWeights;
      } else {
        log := log + [Report(WeightsNotFoundMessage)];
        continue;
      }
      var e := node.backbones[backbone][test].eval;
      var predDir, resultFile := e.predictionDir, e.resultFile;
      var plotDir: Option<Path> := None;
      if c.genPlots {
        plotDir := Some(e.plotDir);
      }
      log := log + [EvalModel(EM.EvalArgs(imgDir, maskDir, testImg, testMask, weightFile, resultFile, predDir, plotDir,
                                          backbone, (c.imgSize, c.imgSize), c.batchnorm, false))];
    }
    assert tests[..|tests|] == tests;
  }

  /** The `model_rev` loop of `eval_models`; realises `EvalRevs`. */
  method EvalRevsLoop(paths: Paths, ts: string, seed: int, backbone: string, revs: seq<string>, tests: seq<string>,
                      c: EvalSettings) returns (log: seq<Call>)
    requires forall rev, test :: rev in revs && test in tests ==> EvalCellRuns(paths, ts, seed, backbone, rev, test, c.weightType)
    ensures log == EvalRevs(paths, ts, seed, backbone, revs, tests, c)
  {
    log := [];
    for l := 0 to |revs|
      invariant log == ConcatMap(revs[..l], rev => EvalTests(paths, ts, seed, backbone, rev, tests, c))
    {
      var row := EvalTestsLoop(paths, ts, seed, backbone, revs[l], tests, c);
      ConcatMapSnoc(revs[..l], revs[l], rev => EvalTests(paths, ts, seed, backbone, rev, tests, c));
      assert revs[..l + 1] == revs[..l] + [revs[l]];
      log := log + row;
    }
    assert revs[..|revs|] == revs;
  }

  /** The `backbone` loop of `eval_models`; realises `EvalBackbones`. */
  method EvalBackbonesLoop(paths: Paths, ts: string, seed: int, backbones: seq<string>, revs: seq<string>,
                           tests: seq<string>, c: EvalSettings) returns (log: seq<Call>)
    requires forall b, rev, test :: b in backbones && rev in revs && test in tests ==>
      EvalCellRuns(paths, ts, seed, b, rev, test, c.weightType)
    ensures log == EvalBackbones(paths, ts, seed, backbones, revs, tests, c)
  {
    log := [];
    for k := 0 to |backbones|
      invariant log == ConcatMap(backbones[..k], b => EvalRevs(paths, ts, seed, b, revs, tests, c))
    {
      var row := EvalRevsLoop(paths, ts, seed, backbones[k], revs, tests, c);
      ConcatMapSnoc(backbones[..k], backbones[k], b => EvalRevs(paths, ts, seed, b, revs, tests, c));
      assert backbones[..k + 1] == backbones[..k] + [backbones[k]];
      log := log + row;
    }
    assert backbones[..|backbones|] == backbones;
  }

  /** The `seed` loop of `eval_models`; realises `EvalSeeds`. */
  method EvalSeedsLoop(paths: Paths, ts: string, seeds: seq<int>, backbones: seq<string>, revs: seq<string>,
                       tests: seq<string>, c: EvalSettings) returns (log: seq<Call>)
    requires forall seed, b, rev, test :: seed in seeds && b in backbones && rev in revs && test in tests ==>
      EvalCellRuns(paths, ts, seed, b, rev, test, c.weightType)
    ensures log == EvalSeeds(paths, ts, seeds, backbones, revs, tests, c)
  {
    log := [];
    for j := 0 to |seeds|
      invariant log == ConcatMap(seeds[..j], seed => EvalBackbones(paths, ts, seed, backbones, revs, tests, c))
    {
      var row := EvalBackbonesLoop(paths, ts, seeds[j], backbones, revs, tests, c);
      ConcatMapSnoc(seeds[..j], seeds[j], seed => EvalBackbones(paths, ts, seed, backbones, revs, tests, c));
      assert seeds[..j + 1] == seeds[..j] + [seeds[j]];
      log := log + row;
    }
    assert seeds[..|seeds|] == seeds;
  }

  /** `eval_models(paths, train_sets, seeds, backbones, model_revs, test_sets, img_size,
      batchnorm, weight_type, gen_plots)`. */
  method EvalModels(paths: Paths, trainSets: seq<string>, seeds: seq<int>, backbones: seq<string>, revs: seq<string>,
                    tests: seq<string>, c: EvalSettings) returns (log: seq<Call>)
    requires EvalRuns(paths, trainSets, seeds, backbones, revs, tests, c.weightType)
    ensures log == EvalLog(paths, trainSets, seeds, backbones, revs, tests, c)
  {
    log := [];
    for i := 0 to |trainSets|
      invariant log == ConcatMap(trainSets[..i], ts => EvalSeeds(paths, ts, seeds, backbones, revs, tests, c))
    {
      var row := EvalSeedsLoop(paths, trainSets[i], seeds, backbones, revs, tests, c);
      ConcatMapSnoc(trainSets[..i], trainSets[i], ts => EvalSeeds(paths, ts, seeds, backbones, revs, tests, c));
      assert trainSets[..i + 1] == trainSets[..i] + [trainSets[i]];
      log := log + row;
    }
    assert trainSets[..|trainSets|] == trainSets;
  }

  // ---------------------------------------------------------------------------
  // Properties of build_datasets

  /** `int()` truncates toward zero: below the value for positive products,
      above it for negative ones. */
  lemma TruncTowardZero(x: real)
    ensures x >= 0.0 ==> 0 <= Trunc(x) && Trunc(x) as real <= x < Trunc(x) as real + 1.0
    ensures x < 0.0 ==> Trunc(x) <= 0 && Trunc(x) as real - 1.0 < x <= Trunc(x) as real
    ensures Trunc(-x) == -Trunc(x)
  {
  }

  /** For a plain set of the registry, the cell is one split call over that
      set's own `tiles/img`, `tiles/mask` and `tiles`. */
  lemma PlainCellSplits(root: Path, trainSets: seq<string>, seeds: seq<int>, backbones: seq<string>,
                        revs: seq<string>, tests: seq<string>, comboSets: map<string, seq<string>>,
                        ts: string, seed: int, nSet: Option<int>, split: Split)
    requires ts in trainSets && !IsCombo(ts)
    ensures BuildCell(RegistrySpec(root, trainSets, seeds, backbones, revs, tests), comboSets, ts, seed, nSet, split)
         == [TestTrainValidSplit(Some(root + [ts, "tiles", "img"]), Some(root + [ts, "tiles", "mask"]),
                                 root + [ts, "tiles"], split, seed, nSet)]
  {
    SiteEntries(root, trainSets, seeds, backbones, revs, tests, ts);
  }

  /** A combo whose lookups succeed makes four merge calls: train images, train
      masks, validation images, validation masks. Each merges the constituents'
      corresponding lists, with their image or mask roots, into the combo's own
      list, drawing `int(n_set * train)` or `int(n_set * valid)` samples. */
  lemma ComboCellCalls(paths: Paths, comboSets: map<string, seq<string>>, ts: string, seed: int, n: int, split: Split)
    requires IsCombo(ts) && ComboLookup(paths, comboSets, ts, seed).Some?
    ensures var cell := BuildCell(paths, comboSets, ts, seed, Some(n), split);
      var sets := comboSets[ts];
      var node := paths[ts].seeds[seed];
      var nTrain, nValid := Trunc(n as real * split.train), Trunc(n as real * split.valid);
      && |cell| == 4
      && (forall k :: 0 <= k < 4 ==> && cell[k].MakeComboDatasetTxt? && cell[k].seed == seed
                                     && |cell[k].listFiles| == |cell[k].rootDirs| == |sets|)
      && cell[0].outFile == node.trainImg && cell[1].outFile == node.trainMask
      && cell[2].outFile == node.validImg && cell[3].outFile == node.validMask
      && cell[0].totalImgs == cell[1].totalImgs == nTrain
      && cell[2].totalImgs == cell[3].totalImgs == nValid
      && forall i :: 0 <= i < |sets| ==>
           var part := paths[sets[i]].seeds[seed];
           && cell[0].listFiles[i] == part.trainImg && cell[1].listFiles[i] == part.trainMask
           && cell[2].listFiles[i] == part.validImg && cell[3].listFiles[i] == part.validMask
           && cell[0].rootDirs[i] == cell[2].rootDirs[i] == paths[sets[i]].imgRoot
           && cell[1].rootDirs[i] == cell[3].rootDirs[i] == paths[sets[i]].maskRoot
  {
  }

  /** A combo cell is the single skip report exactly when one of its lookups
      fails: no `combo_sets` entry, or a missing set or seed entry. */
  lemma ComboSkipIff(paths: Paths, comboSets: map<string, seq<string>>, ts: string, seed: int, n: int, split: Split)
    requires IsCombo(ts)
    ensures BuildCell(paths, comboSets, ts, seed, Some(n), split) == [Report(ComboSkipMessage(ts))]
        <==> !(ts in comboSets && HasSeed(paths, ts, seed)
               && forall i :: 0 <= i < |comboSets[ts]| ==> HasSeed(paths, comboSets[ts][i], seed))
  {
  }

  /** The list files the registry names for train and validation data are never
      its test list files. */
  lemma NotATestList(root: Path, ts: string, s: Subset, k: Kind, k2: Kind, seed: int)
    requires s != Test
    ensures ListFile(root, ts, s, k, seed) != ListFile(root, ts, Test, k2, seed)
  {
    var a, b := ListFile(root, ts, s, k, seed), ListFile(root, ts, Test, k2, seed);
    NotATestName(s, k, k2, seed);
    assert a[|a| - 1] == ListFileName(s, k, seed);
    assert b[|b| - 1] == ListFileName(Test, k2, seed);
  }

  /** Only test list names start with "te". */
  lemma NotATestName(s: Subset, k: Kind, k2: Kind, seed: int)
    requires s != Test
    ensures ListFileName(s, k, seed) != ListFileName(Test, k2, seed)
  {
    var p, q := ListPrefix(s, k), ListPrefix(Test, k2);
    assert p[1] != q[1];
    assert ListFileName(s, k, seed)[1] == p[1];
    assert ListFileName(Test, k2, seed)[1] == q[1];
  }

  lemma SeedOutputsAreNotTestLists(root: Path, ts: string, seed: int, node: SeedNode,
                                   backbones: seq<string>, revs: seq<string>, tests: seq<string>)
    requires node == SeedSpec(root, ts, seed, backbones, revs, tests)
    ensures var outs := [node.trainImg, node.trainMask, node.validImg, node.validMask];
      node.testImg !in outs && node.testMask !in outs
  {
    var testImg, testMask := ListFile(root, ts, Test, Img, seed), ListFile(root, ts, Test, Mask, seed);
    assert node.testImg == testImg && node.testMask == testMask;
    NotEitherTestList(root, ts, Train, Img, seed);
    NotEitherTestList(root, ts, Train, Mask, seed);
    NotEitherTestList(root, ts, Valid, Img, seed);
    NotEitherTestList(root, ts, Valid, Mask, seed);
    assert node.trainImg == ListFile(root, ts, Train, Img, seed) && node.trainMask == ListFile(root, ts, Train, Mask, seed);
    assert node.validImg == ListFile(root, ts, Valid, Img, seed) && node.validMask == ListFile(root, ts, Valid, Mask, seed);
    NotInFour(node.testImg, node.trainImg, node.trainMask, node.validImg, node.validMask);
    NotInFour(node.testMask, node.trainImg, node.trainMask, node.validImg, node.validMask);
  }

  lemma NotInFour<U>(x: U, a: U, b: U, c: U, d: U)
    requires x != a && x != b && x != c && x != d
    ensures x !in [a, b, c, d]
  {
  }

  lemma NotEitherTestList(root: Path, ts: string, s: Subset, k: Kind, seed: int)
    requires s != Test
    ensures ListFile(root, ts, s, k, seed) != ListFile(root, ts, Test, Img, seed)
    ensures ListFile(root, ts, s, k, seed) != ListFile(root, ts, Test, Mask, seed)
  {
    NotATestList(root, ts, s, k, Img, seed);
    NotATestList(root, ts, s, k, Mask, seed);
  }

  /** A combo cell writes only its own train and validation lists. */
  lemma ComboWritesTrainAndValidLists(paths: Paths, comboSets: map<string, seq<string>>, ts: string, seed: int,
                                      nSet: Option<int>, split: Split)
    requires IsCombo(ts) && HasSeed(paths, ts, seed)
    ensures var cell := BuildCell(paths, comboSets, ts, seed, nSet, split);
      var node := paths[ts].seeds[seed];
      forall k :: 0 <= k < |cell| && cell[k].MakeComboDatasetTxt? ==>
        cell[k].outFile in [node.trainImg, node.trainMask, node.validImg, node.validMask]
  {
    var lookup := ComboLookup(paths, comboSets, ts, seed);
    if lookup.Some? && nSet.Some? {
      assert BuildCell(paths, comboSets, ts, seed, nSet, split) == ComboCalls(lookup.value, nSet.value, split, seed);
    }
  }

  /** Building a registry combo never writes its test lists. */
  lemma ComboBuildsNoTestList(root: Path, trainSets: seq<string>, seeds: seq<int>, backbones: seq<string>,
                              revs: seq<string>, tests: seq<string>, comboSets: map<string, seq<string>>,
                              ts: string, seed: int, nSet: Option<int>, split: Split)
    requires ts in trainSets && seed in seeds && IsCombo(ts)
    ensures var paths := RegistrySpec(root, trainSets, seeds, backbones, revs, tests);
      var cell := BuildCell(paths, comboSets, ts, seed, nSet, split);
      var node := paths[ts].seeds[seed];
      forall k :: 0 <= k < |cell| && cell[k].MakeComboDatasetTxt? ==>
        cell[k].outFile != node.testImg && cell[k].outFile != node.testMask
  {
    var paths := RegistrySpec(root, trainSets, seeds, backbones, revs, tests);
    assert paths[ts] == SiteSpec(root, ts, seeds, backbones, revs, tests);
    assert seed in paths[ts].seeds;
    SeedOutputsAreNotTestLists(root, ts, seed, paths[ts].seeds[seed], backbones, revs, tests);
    ComboWritesTrainAndValidLists(paths, comboSets, ts, seed, nSet, split);
  }

  /** Each cell's calls sit together in the log, in loop order, between those of
      the cells before and after it: a skipped cell changes nothing else. */
  lemma BuildCellInPlace(paths: Paths, comboSets: map<string, seq<string>>, trainSets: seq<string>, seeds: seq<int>,
                         nSet: Option<int>, split: Split, i: nat, j: nat)
    requires i < |trainSets| && j < |seeds|
    ensures BuildLog(paths, comboSets, trainSets, seeds, nSet, split)
         == BuildLog(paths, comboSets, trainSets[..i], seeds, nSet, split)
          + BuildRow(paths, comboSets, trainSets[i], seeds[..j], nSet, split)
          + BuildCell(paths, comboSets, trainSets[i], seeds[j], nSet, split)
          + BuildRow(paths, comboSets, trainSets[i], seeds[j + 1..], nSet, split)
          + BuildLog(paths, comboSets, trainSets[i + 1..], seeds, nSet, split)
  {
    var before := BuildLog(paths, comboSets, trainSets[..i], seeds, nSet, split);
    var after := BuildLog(paths, comboSets, trainSets[i + 1..], seeds, nSet, split);
    var left := BuildRow(paths, comboSets, trainSets[i], seeds[..j], nSet, split);
    var cell := BuildCell(paths, comboSets, trainSets[i], seeds[j], nSet, split);
    var right := BuildRow(paths, comboSets, trainSets[i], seeds[j + 1..], nSet, split);
    ConcatMapAt(trainSets, ts => BuildRow(paths, comboSets, ts, seeds, nSet, split), i);
    assert BuildLog(paths, comboSets, trainSets, seeds, nSet, split)
        == before + BuildRow(paths, comboSets, trainSets[i], seeds, nSet, split) + after;
    ConcatMapAt(seeds, seed => BuildCell(paths, comboSets, trainSets[i], seed, nSet, split), j);
    assert BuildRow(paths, comboSets, trainSets[i], seeds, nSet, split) == left + cell + right;
    AppendAssoc(before, left + cell, right);
    AppendAssoc(before, left, cell);
  }

  /** Over its own registry, `build_datasets` with a sample budget raises nothing. */
  lemma RegistryBuildRuns(root: Path, trainSets: seq<string>, seeds: seq<int>, backbones: seq<string>,
                          revs: seq<string>, tests: seq<string>, comboSets: map<string, seq<string>>, n: int)
    ensures BuildRuns(RegistrySpec(root, trainSets, seeds, backbones, revs, tests), comboSets, trainSets, seeds, Some(n))
  {
  }

  // ---------------------------------------------------------------------------
  // Properties of train_models

  lemma TrainRevsLength(paths: Paths, ts: string, seed: int, backbone: string, revs: seq<string>, c: TrainSettings)
    requires forall rev :: rev in revs ==> HasModel(paths, ts, seed, backbone, rev)
    ensures |TrainRevs(paths, ts, seed, backbone, revs, c)| == |revs|
  {
    ConcatMapUniformLength(revs, rev => TrainCell(paths, ts, seed, backbone, rev, c), 1);
  }

  lemma TrainRevsAt(paths: Paths, ts: string, seed: int, backbone: string, revs: seq<string>, c: TrainSettings, l: nat)
    requires forall rev :: rev in revs ==> HasModel(paths, ts, seed, backbone, rev)
    requires l < |revs|
    ensures |TrainRevs(paths, ts, seed, backbone, revs, c)| == |revs|
    ensures TrainRevs(paths, ts, seed, backbone, revs, c)[l] == TrainUnet(TrainArgsFor(paths, ts, seed, backbone, revs[l], c))
  {
    var f := rev => TrainCell(paths, ts, seed, backbone, rev, c);
    ConcatMapUniformLength(revs, f, 1);
    ConcatMapUniformAt(revs, f, 1, l);
    assert revs[l] in revs;
  }

  lemma TrainBackbonesLength(paths: Paths, ts: string, seed: int, backbones: seq<string>, revs: seq<string>, c: TrainSettings)
    requires forall b, rev :: b in backbones && rev in revs ==> HasModel(paths, ts, seed, b, rev)
    ensures |TrainBackbones(paths, ts, seed, backbones, revs, c)| == |revs| * |backbones|
  {
    forall b | b in backbones ensures |TrainRevs(paths, ts, seed, b, revs, c)| == |revs| {
      TrainRevsLength(paths, ts, seed, b, revs, c);
    }
    ConcatMapUniformLength(backbones, b => TrainRevs(paths, ts, seed, b, revs, c), |revs|);
  }

  lemma TrainBackbonesAt(paths: Paths, ts: string, seed: int, backbones: seq<string>, revs: seq<string>, c: TrainSettings,
                         k: nat, l: nat)
    requires forall b, rev :: b in backbones && rev in revs ==> HasModel(paths, ts, seed, b, rev)
    requires k < |backbones| && l < |revs|
    ensures Offset(|revs|, k, l) < |TrainBackbones(paths, ts, seed, backbones, revs, c)|
    ensures TrainBackbones(paths, ts, seed, backbones, revs, c)[Offset(|revs|, k, l)]
         == TrainUnet(TrainArgsFor(paths, ts, seed, backbones[k], revs[l], c))
  {
    var g := b => TrainRevs(paths, ts, seed, b, revs, c);
    forall b | b in backbones ensures |g(b)| == |revs| {
      TrainRevsLength(paths, ts, seed, b, revs, c);
    }
    TrainRevsAt(paths, ts, seed, backbones[k], revs, c, l);
    ConcatMapUniformElem(backbones, g, |revs|, k, l);
  }

  lemma TrainSeedsLength(paths: Paths, ts: string, seeds: seq<int>, backbones: seq<string>, revs: seq<string>, c: TrainSettings)
    requires forall seed, b, rev :: seed in seeds && b in backbones && rev in revs ==> HasModel(paths, ts, seed, b, rev)
    ensures |TrainSeeds(paths, ts, seeds, backbones, revs, c)| == |revs| * |backbones| * |seeds|
  {
    forall seed | seed in seeds ensures |TrainBackbones(paths, ts, seed, backbones, revs, c)| == |revs| * |backbones| {
      TrainBackbonesLength(paths, ts, seed, backbones, revs, c);
    }
    ConcatMapUniformLength(seeds, seed => TrainBackbones(paths, ts, seed, backbones, revs, c), |revs| * |backbones|);
  }

  lemma TrainSeedsAt(paths: Paths, ts: string, seeds: seq<int>, backbones: seq<string>, revs: seq<string>, c: TrainSettings,
                     j: nat, k: nat, l: nat)
    requires forall seed, b, rev :: seed in seeds && b in backbones && rev in revs ==> HasModel(paths, ts, seed, b, rev)
    requires j < |seeds| && k < |backbones| && l < |revs|
    ensures var p := Offset(|revs| * |backbones|, j, Offset(|revs|, k, l));
      p < |TrainSeeds(paths, ts, seeds, backbones, revs, c)|
      && TrainSeeds(paths, ts, seeds, backbones, revs, c)[p] == TrainUnet(TrainArgsFor(paths, ts, seeds[j], backbones[k], revs[l], c))
  {
    var g := seed => TrainBackbones(paths, ts, seed, backbones, revs, c);
    var n := |revs| * |backbones|;
    forall seed | seed in seeds ensures |g(seed)| == n {
      TrainBackbonesLength(paths, ts, seed, backbones, revs, c);
    }
    TrainBackbonesAt(paths, ts, seeds[j], backbones, revs, c, k, l);
    var inner := Offset(|revs|, k, l);
    InnerBound(|revs|, |backbones|, k, l);
    ConcatMapUniformElem(seeds, g, n, j, inner);
  }

  /** `train_models` calls `train_unet` once per tuple: the log is exactly as long
      as the product of the four dimensions. */
  lemma TrainCallCount(paths: Paths, trainSets: seq<string>, seeds: seq<int>, backbones: seq<string>, revs: seq<string>,
                       c: TrainSettings)
    requires TrainRuns(paths, trainSets, seeds, backbones, revs)
    ensures |TrainLog(paths, trainSets, seeds, backbones, revs, c)| == |trainSets| * |seeds| * |backbones| * |revs|
  {
    var size := |revs| * |backbones| * |seeds|;
    forall ts | ts in trainSets ensures |TrainSeeds(paths, ts, seeds, backbones, revs, c)| == size {
      TrainSeedsLength(paths, ts, seeds, backbones, revs, c);
    }
    ConcatMapUniformLength(trainSets, ts => TrainSeeds(paths, ts, seeds, backbones, revs, c), size);
    Reorder4(|trainSets|, |seeds|, |backbones|, |revs|);
  }

  lemma Reorder4(a: nat, b: nat, c: nat, d: nat)
    ensures d * c * b * a == a * b * c * d
  {
  }

  /** Element `t` of block `j` when every block holds `n` elements. */
  function Offset(n: nat, j: nat, t: nat): nat {
    n * j + t
  }

  lemma InnerBound(n: nat, m: nat, k: nat, l: nat)
    requires k < m && l < n
    ensures n * k + l < n * m
  {
    MulSucc(n, k);
    assert n * (k + 1) <= n * m by { MulMono(n, k + 1, m); }
  }

  lemma MulMono(n: nat, a: nat, b: nat)
    requires a <= b
    ensures n * a <= n * b
  {
  }


  /** The position of tuple (i, j, k, l) when the loops run train set outermost
      and model_rev innermost. */
  function TupleIndex(i: nat, j: nat, k: nat, l: nat, nSeeds: nat, nBackbones: nat, nRevs: nat): nat {
    ((i * nSeeds + j) * nBackbones + k) * nRevs + l
  }

  lemma TupleIndexExpand(i: nat, j: nat, k: nat, l: nat, nSeeds: nat, nBackbones: nat, nRevs: nat)
    ensures TupleIndex(i, j, k, l, nSeeds, nBackbones, nRevs)
         == Offset(nRevs * nBackbones * nSeeds, i, Offset(nRevs * nBackbones, j, Offset(nRevs, k, l)))
  {
    calc {
      ((i * nSeeds + j) * nBackbones + k) * nRevs + l;
      ((i * nSeeds) * nBackbones + j * nBackbones + k) * nRevs + l;
      ((i * nSeeds) * nBackbones) * nRevs + (j * nBackbones) * nRevs + k * nRevs + l;
      (nRevs * nBackbones * nSeeds) * i + ((nRevs * nBackbones) * j + (nRevs * k + l));
    }
  }

  /** ... and the call at the position of tuple (i, j, k, l) trains that tuple. */
  lemma TrainCallAt(paths: Paths, trainSets: seq<string>, seeds: seq<int>, backbones: seq<string>, revs: seq<string>,
                    c: TrainSettings, i: nat, j: nat, k: nat, l: nat)
    requires TrainRuns(paths, trainSets, seeds, backbones, revs)
    requires i < |trainSets| && j < |seeds| && k < |backbones| && l < |revs|
    ensures TupleIndex(i, j, k, l, |seeds|, |backbones|, |revs|) < |TrainLog(paths, trainSets, seeds, backbones, revs, c)|
    ensures TrainLog(paths, trainSets, seeds, backbones, revs, c)[TupleIndex(i, j, k, l, |seeds|, |backbones|, |revs|)]
         == TrainUnet(TrainArgsFor(paths, trainSets[i], seeds[j], backbones[k], revs[l], c))
  {
    assert trainSets[i] in trainSets;
    TrainSeedsAt(paths, trainSets[i], seeds, backbones, revs, c, j, k, l);
    InnerBound(|revs|, |backbones|, k, l);
    InnerBound(|revs| * |backbones|, |seeds|, j, Offset(|revs|, k, l));
    TrainLogAt(paths, trainSets, seeds, backbones, revs, c, i, Offset(|revs| * |backbones|, j, Offset(|revs|, k, l)));
    TupleIndexExpand(i, j, k, l, |seeds|, |backbones|, |revs|);
  }

  /** Element `t` of the block of train set `i`. */
  lemma TrainLogAt(paths: Paths, trainSets: seq<string>, seeds: seq<int>, backbones: seq<string>, revs: seq<string>,
                   c: TrainSettings, i: nat, t: nat)
    requires TrainRuns(paths, trainSets, seeds, backbones, revs)
    requires i < |trainSets| && t < |revs| * |backbones| * |seeds|
    ensures |TrainSeeds(paths, trainSets[i], seeds, backbones, revs, c)| == |revs| * |backbones| * |seeds|
    ensures Offset(|revs| * |backbones| * |seeds|, i, t) < |TrainLog(paths, trainSets, seeds, backbones, revs, c)|
    ensures TrainLog(paths, trainSets, seeds, backbones, revs, c)[Offset(|revs| * |backbones| * |seeds|, i, t)]
         == TrainSeeds(paths, trainSets[i], seeds, backbones, revs, c)[t]
  {
    var size := |revs| * |backbones| * |seeds|;
    var g := ts => TrainSeeds(paths, ts, seeds, backbones, revs, c);
    forall ts | ts in trainSets ensures |g(ts)| == size {
      TrainSeedsLength(paths, ts, seeds, backbones, revs, c);
    }
    ConcatMapUniformElem(trainSets, g, size, i, t);
  }

  /** What each training call does, given the registry entry it was built from:
      validation reads fall back to the set's own roots, and since overwrite is
      off, a tuple whose best weights exist is skipped with one message, while
      any other tuple trains and ends by saving its final weights. */
  lemma TrainCallBehaviour(paths: Paths, ts: string, seed: int, backbone: string, rev: string, c: TrainSettings,
                           disk: Io.Disk, nTrain: nat, pathText: Path -> string)
    requires HasModel(paths, ts, seed, backbone, rev)
    ensures var a := TrainArgsFor(paths, ts, seed, backbone, rev, c);
      var site := paths[ts];
      var m := site.seeds[seed].backbones[backbone][rev].model;
      var t := TM.TrainTrace(disk, a, nTrain, pathText);
      && TM.WithDefaultValidDirs(a).validImgDir == site.imgRoot
      && TM.WithDefaultValidDirs(a).validMaskDir == site.maskRoot
      && (m.bestWeights in disk ==> t == [Io.Report(Io.WeightsExistMessage)])
      && (m.bestWeights !in disk ==> |t| > 0 && t[|t| - 1] == Io.SaveWeights(m.finalWeights))
  {
    var a := TrainArgsFor(paths, ts, seed, backbone, rev, c);
    var m := paths[ts].seeds[seed].backbones[backbone][rev].model;
    if m.bestWeights in disk {
      TM.SkipDoesNothing(disk, a, nTrain, pathText);
    } else {
      TM.SavesFinalWeightsIff(disk, a, nTrain, pathText, m.finalWeights);
    }
  }

  /** Over its own registry, `train_models` raises nothing, provided no revision
      tag is also a test-set identifier (the two share one key space). */
  lemma RegistryTrainRuns(root: Path, trainSets: seq<string>, seeds: seq<int>, backbones: seq<string>,
                          revs: seq<string>, tests: seq<string>)
    requires forall rev :: rev in revs ==> rev !in tests
    ensures TrainRuns(RegistrySpec(root, trainSets, seeds, backbones, revs, tests), trainSets, seeds, backbones, revs)
  {
    var paths := RegistrySpec(root, trainSets, seeds, backbones, revs, tests);
    forall ts, seed, b, rev | ts in trainSets && seed in seeds && b in backbones && rev in revs
      ensures HasModel(paths, ts, seed, b, rev)
    {
      ListFileEntries(root, trainSets, seeds, backbones, revs, tests, ts, seed);
      ModelEntries(root, trainSets, seeds, backbones, revs, tests, ts, seed, b, rev);
    }
  }

  // ---------------------------------------------------------------------------
  // Properties of eval_models

  /** With a known selector, the cell is one evaluation: the weights the selector
      names, the train set's test lists and roots, the test set's output paths,
      a plot directory exactly when plots are on, and overwrite off. */
  lemma EvalCallArguments(paths: Paths, ts: string, seed: int, backbone: string, rev: string, test: string, c: EvalSettings)
    requires ValidSelector(c.weightType)
    requires HasModel(paths, ts, seed, backbone, rev) && HasEval(paths, ts, seed, backbone, test)
    ensures var cell := EvalCell(paths, ts, seed, backbone, rev, test, c);
      var site := paths[ts];
      var node := site.seeds[seed];
      var m := node.backbones[backbone][rev].model;
      var e := node.backbones[backbone][test].eval;
      && |cell| == 1 && cell[0].EvalModel?
      && var a := cell[0].evalArgs;
      && (c.weightType == "best" ==> a.weightFile == m.bestWeights)
      && (c.weightType == "final" ==> a.weightFile == m.finalWeights)
      && (a.plotDir.Some? <==> c.genPlots)
      && (c.genPlots ==> a.plotDir == Some(e.plotDir))
      && a.predDir == e.predictionDir && a.resultFile == e.resultFile
      && a.testImgFile == node.testImg && a.testMaskFile == node.testMask
      && a.testImgDir == site.imgRoot && a.testMaskDir == site.maskRoot
      && a.backbone == backbone && !a.overwrite
  {
  }

  lemma EvalTestsLength(paths: Paths, ts: string, seed: int, backbone: string, rev: string, tests: seq<string>, c: EvalSettings)
    requires forall test :: test in tests ==> EvalCellRuns(paths, ts, seed, backbone, rev, test, c.weightType)
    ensures |EvalTests(paths, ts, seed, backbone, rev, tests, c)| == |tests|
  {
    ConcatMapUniformLength(tests, test => EvalCell(paths, ts, seed, backbone, rev, test, c), 1);
  }

  lemma EvalRevsLength(paths: Paths, ts: string, seed: int, backbone: string, revs: seq<string>, tests: seq<string>,
                       c: EvalSettings)
    requires forall rev, test :: rev in revs && test in tests ==> EvalCellRuns(paths, ts, seed, backbone, rev, test, c.weightType)
    ensures |EvalRevs(paths, ts, seed, backbone, revs, tests, c)| == |tests| * |revs|
  {
    forall rev | rev in revs ensures |EvalTests(paths, ts, seed, backbone, rev, tests, c)| == |tests| {
      EvalTestsLength(paths, ts, seed, backbone, rev, tests, c);
    }
    ConcatMapUniformLength(revs, rev => EvalTests(paths, ts, seed, backbone, rev, tests, c), |tests|);
  }

  lemma EvalBackbonesLength(paths: Paths, ts: string, seed: int, backbones: seq<string>, revs: seq<string>,
                            tests: seq<string>, c: EvalSettings)
    requires forall b, rev, test :: b in backbones && rev in revs && test in tests ==>
      EvalCellRuns(paths, ts, seed, b, rev, test, c.weightType)
    ensures |EvalBackbones(paths, ts, seed, backbones, revs, tests, c)| == |tests| * |revs| * |backbones|
  {
    forall b | b in backbones ensures |EvalRevs(paths, ts, seed, b, revs, tests, c)| == |tests| * |revs| {
      EvalRevsLength(paths, ts, seed, b, revs, tests, c);
    }
    ConcatMapUniformLength(backbones, b => EvalRevs(paths, ts, seed, b, revs, tests, c), |tests| * |revs|);
  }

  lemma EvalSeedsLength(paths: Paths, ts: string, seeds: seq<int>, backbones: seq<string>, revs: seq<string>,
                        tests: seq<string>, c: EvalSettings)
    requires forall seed, b, rev, test :: seed in seeds && b in backbones && rev in revs && test in tests ==>
      EvalCellRuns(paths, ts, seed, b, rev, test, c.weightType)
    ensures |EvalSeeds(paths, ts, seeds, backbones, revs, tests, c)| == |tests| * |revs| * |backbones| * |seeds|
  {
    forall seed | seed in seeds
      ensures |EvalBackbones(paths, ts, seed, backbones, revs, tests, c)| == |tests| * |revs| * |backbones|
    {
      EvalBackbonesLength(paths, ts, seed, backbones, revs, tests, c);
    }
    ConcatMapUniformLength(seeds, seed => EvalBackbones(paths, ts, seed, backbones, revs, tests, c),
                           |tests| * |revs| * |backbones|);
  }

  /** `eval_models` makes one call or report per tuple of the five dimensions. */
  lemma EvalCallCount(paths: Paths, trainSets: seq<string>, seeds: seq<int>, backbones: seq<string>, revs: seq<string>,
                      tests: seq<string>, c: EvalSettings)
    requires EvalRuns(paths, trainSets, seeds, backbones, revs, tests, c.weightType)
    ensures |EvalLog(paths, trainSets, seeds, backbones, revs, tests, c)|
         == |trainSets| * |seeds| * |backbones| * |revs| * |tests|
  {
    var size := |tests| * |revs| * |backbones| * |seeds|;
    forall ts | ts in trainSets ensures |EvalSeeds(paths, ts, seeds, backbones, revs, tests, c)| == size {
      EvalSeedsLength(paths, ts, seeds, backbones, revs, tests, c);
    }
    ConcatMapUniformLength(trainSets, ts => EvalSeeds(paths, ts, seeds, backbones, revs, tests, c), size);
    Reorder5(|trainSets|, |seeds|, |backbones|, |revs|, |tests|);
  }

  lemma Reorder5(a: nat, b: nat, c: nat, d: nat, e: nat)
    ensures e * d * c * b * a == a * b * c * d * e
  {
  }

  /** With a known selector, every tuple is evaluated. */
  lemma EvalCallMade(paths: Paths, trainSets: seq<string>, seeds: seq<int>, backbones: seq<string>, revs: seq<string>,
                     tests: seq<string>, c: EvalSettings, ts: string, seed: int, backbone: string, rev: string, test: string)
    requires ValidSelector(c.weightType)
    requires ts in trainSets && seed in seeds && backbone in backbones && rev in revs && test in tests
    requires HasModel(paths, ts, seed, backbone, rev) && HasEval(paths, ts, seed, backbone, test)
    ensures EvalModel(EvalArgsFor(paths, ts, seed, backbone, rev, test, c))
         in EvalLog(paths, trainSets, seeds, backbones, revs, tests, c)
  {
    var call := EvalModel(EvalArgsFor(paths, ts, seed, backbone, rev, test, c));
    ConcatMapContains(tests, test => EvalCell(paths, ts, seed, backbone, rev, test, c), test, call);
    ConcatMapContains(revs, rev => EvalTests(paths, ts, seed, backbone, rev, tests, c), rev, call);
    ConcatMapContains(backbones, b => EvalRevs(paths, ts, seed, b, revs, tests, c), backbone, call);
    ConcatMapContains(seeds, seed => EvalBackbones(paths, ts, seed, backbones, revs, tests, c), seed, call);
    ConcatMapContains(trainSets, ts => EvalSeeds(paths, ts, seeds, backbones, revs, tests, c), ts, call);
  }

  /** An unknown selector evaluates nothing: every entry of the log is the
      "Weights not found!" report. */
  lemma UnknownSelectorOnlyReports(paths: Paths, trainSets: seq<string>, seeds: seq<int>, backbones: seq<string>,
                                   revs: seq<string>, tests: seq<string>, c: EvalSettings)
    requires !ValidSelector(c.weightType)
    ensures var log := EvalLog(paths, trainSets, seeds, backbones, revs, tests, c);
      forall j :: 0 <= j < |log| ==> log[j] == Report(WeightsNotFoundMessage)
  {
    var v := Report(WeightsNotFoundMessage);
    forall ts, seed, b, rev | ts in trainSets && seed in seeds && b in backbones && rev in revs
      ensures var r := EvalTests(paths, ts, seed, b, rev, tests, c); forall j :: 0 <= j < |r| ==> r[j] == v
    {
      ConcatMapEvery(tests, test => EvalCell(paths, ts, seed, b, rev, test, c), v);
    }
    forall ts, seed, b | ts in trainSets && seed in seeds && b in backbones
      ensures var r := EvalRevs(paths, ts, seed, b, revs, tests, c); forall j :: 0 <= j < |r| ==> r[j] == v
    {
      ConcatMapEvery(revs, rev => EvalTests(paths, ts, seed, b, rev, tests, c), v);
    }
    forall ts, seed | ts in trainSets && seed in seeds
      ensures var r := EvalBackbones(paths, ts, seed, backbones, revs, tests, c); forall j :: 0 <= j < |r| ==> r[j] == v
    {
      ConcatMapEvery(backbones, b => EvalRevs(paths, ts, seed, b, revs, tests, c), v);
    }
    forall ts | ts in trainSets
      ensures var r := EvalSeeds(paths, ts, seeds, backbones, revs, tests, c); forall j :: 0 <= j < |r| ==> r[j] == v
    {
      ConcatMapEvery(seeds, seed => EvalBackbones(paths, ts, seed, backbones, revs, tests, c), v);
    }
    ConcatMapEvery(trainSets, ts => EvalSeeds(paths, ts, seeds, backbones, revs, tests, c), v);
  }

  /** Over its own registry, `eval_models` raises nothing when no revision tag is
      also a test-set identifier. */
  lemma RegistryEvalRuns(root: Path, trainSets: seq<string>, seeds: seq<int>, backbones: seq<string>,
                         revs: seq<string>, tests: seq<string>, weightType: string)
    requires forall rev :: rev in revs ==> rev !in tests
    ensures EvalRuns(RegistrySpec(root, trainSets, seeds, backbones, revs, tests), trainSets, seeds, backbones, revs,
                     tests, weightType)
  {
    var paths := RegistrySpec(root, trainSets, seeds, backbones, revs, tests);
    forall ts, seed, b, rev, test | ts in trainSets && seed in seeds && b in backbones && rev in revs && test in tests
      ensures EvalCellRuns(paths, ts, seed, b, rev, test, weightType)
    {
      ListFileEntries(root, trainSets, seeds, backbones, revs, tests, ts, seed);
      ModelEntries(root, trainSets, seeds, backbones, revs, tests, ts, seed, b, rev);
      EvalEntries(root, trainSets, seeds, backbones, revs, tests, ts, seed, b, test);
    }
  }

  /** Over the registry, the evaluation of EVERY revision writes into the
      prediction directory named after the LAST revision, while loading that
      revision's own weights. */
  lemma EvalSharesLastRevision(root: Path, trainSets: seq<string>, seeds: seq<int>, backbones: seq<string>,
                               revs: seq<string>, tests: seq<string>, c: EvalSettings,
                               ts: string, seed: int, backbone: string, rev: string, test: string)
    requires ValidSelector(c.weightType)
    requires ts in trainSets && seed in seeds && backbone in backbones && rev in revs && test in tests
    requires forall r :: r in revs ==> r !in tests
    ensures var paths := RegistrySpec(root, trainSets, seeds, backbones, revs, tests);
      HasModel(paths, ts, seed, backbone, rev) && HasEval(paths, ts, seed, backbone, test)
    ensures var paths := RegistrySpec(root, trainSets, seeds, backbones, revs, tests);
      var a := EvalArgsFor(paths, ts, seed, backbone, rev, test, c);
      var m := ModelEntry(root, ts, seed, backbone, rev);
      && a.predDir == EvalEntry(root, ts, seed, backbone, revs[|revs| - 1], test).predictionDir
      && a.weightFile == if c.weightType == "best" then m.bestWeights else m.finalWeights
  {
    var paths := RegistrySpec(root, trainSets, seeds, backbones, revs, tests);
    assert paths[ts] == SiteSpec(root, ts, seeds, backbones, revs, tests);
    assert seed in paths[ts].seeds;
    assert paths[ts].seeds[seed] == SeedSpec(root, ts, seed, backbones, revs, tests);
    assert backbone in paths[ts].seeds[seed].backbones;
    var node := paths[ts].seeds[seed].backbones[backbone];
    assert node == BackboneSpec(root, ts, seed, backbone, revs, tests);
    assert rev in revs + tests && test in revs + tests;
    assert node[rev] == Model(ModelEntry(root, ts, seed, backbone, rev));
    assert node[test] == Eval(EvalEntry(root, ts, seed, backbone, revs[|revs| - 1], test));
  }

  /** Hence, with two revisions, once the evaluation for the first has written
      its predictions, the evaluation for the second is skipped by the
      prediction-directory guard. This is the case of two consecutive runs on
      the disk the first one leaves; runs for other test sets that come in
      between inside `EvalLog` are not covered. The first run must have
      proceeded and been given at least one image: with none it writes no
      prediction and the second run proceeds too. */
  lemma SecondRevisionSkipped(root: Path, trainSets: seq<string>, seeds: seq<int>, backbones: seq<string>,
                              revs: seq<string>, tests: seq<string>, c: EvalSettings,
                              ts: string, seed: int, backbone: string, r1: string, r2: string, test: string,
                              disk: Io.Disk, images: seq<Path>, metricNames: seq<string>, metricValues: seq<string>,
                              images2: seq<Path>, metricNames2: seq<string>, metricValues2: seq<string>)
    requires ValidSelector(c.weightType)
    requires ts in trainSets && seed in seeds && backbone in backbones && r1 in revs && r2 in revs && test in tests
    requires forall r :: r in revs ==> r !in tests
    requires images != []
    requires var a1 := EvalArgsFor(RegistrySpec(root, trainSets, seeds, backbones, revs, tests), ts, seed, backbone, r1, test, c);
      var p := EM.PrepareDir(disk, a1.predDir, a1.overwrite, Io.PredictionDirNotEmptyMessage);
      p.proceed && EM.PreparePlotDir(p.disk, a1).proceed
    ensures var paths := RegistrySpec(root, trainSets, seeds, backbones, revs, tests);
      var a1 := EvalArgsFor(paths, ts, seed, backbone, r1, test, c);
      var a2 := EvalArgsFor(paths, ts, seed, backbone, r2, test, c);
      var first := EM.EvalRun(disk, a1, images, metricNames, metricValues);
      EM.EvalRun(first.disk, a2, images2, metricNames2, metricValues2).effects
        == [Io.VerifyDir(a2.predDir), Io.Report(Io.PredictionDirNotEmptyMessage)]
  {
    var paths := RegistrySpec(root, trainSets, seeds, backbones, revs, tests);
    EvalSharesLastRevision(root, trainSets, seeds, backbones, revs, tests, c, ts, seed, backbone, r1, test);
    EvalSharesLastRevision(root, trainSets, seeds, backbones, revs, tests, c, ts, seed, backbone, r2, test);
    var a1 := EvalArgsFor(paths, ts, seed, backbone, r1, test, c);
    var a2 := EvalArgsFor(paths, ts, seed, backbone, r2, test, c);
    EM.RerunSkips(disk, a1, images, metricNames, metricValues, a2, images2, metricNames2, metricValues2);
  }
}
