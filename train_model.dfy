/** The training step of model/train_model.py around the external model
    library: `write_header`, which opens the training log with a fixed CSV
    block echoing every parameter, and the parts of `train_unet` that decide
    whether to train and with what (the existing-weights guard, the defaulting
    of the validation directories, the callbacks and the final save). */
module TrainModel {
  import opened Common
  import opened Io

  /** The arguments of `train_unet`. A root directory is None when the list
      file holds full paths; `endWeightFile` None means "do not save final weights". */
  datatype TrainArgs = TrainArgs(
    trainImgDir: Option<Path>, trainMaskDir: Option<Path>,
    trainImgFile: Path, trainMaskFile: Path,
    validImgFile: Path, validMaskFile: Path,
    logFile: Path, bestWeightFile: Path, endWeightFile: Option<Path>,
    validImgDir: Option<Path>, validMaskDir: Option<Path>,
    backbone: string, seed: Option<int>, imgSize: (int, int),
    epochs: int, freezeEncoder: bool, patience: int, batchnorm: bool,
    overwrite: bool)

  // ---------------------------------------------------------------------------
  // Python's str() of the logged values

  function OptPathText(p: Option<Path>, pathText: Path -> string): string {
    match p
    case None => "None"
    case Some(q) => pathText(q)
  }

  function OptIntText(i: Option<int>): string {
    match i
    case None => "None"
    case Some(n) => IntStr(n)
  }

  function BoolText(b: bool): string {
    if b then "True" else "False"
  }

  /** `str((w, h))`, which contains a comma. */
  function SizeText(size: (int, int)): string {
    "(" + IntStr(size.0) + ", " + IntStr(size.1) + ")"
  }

  // ---------------------------------------------------------------------------
  // write_header

  /** The 17 parameter names of the header's first line, in order. */
  const HeaderNames: seq<string> := [
    "train_img_dir", "train_mask_dir", "train_img_file", "train_mask_file",
    "valid_img_file", "valid_mask_file", "best_weight_file", "end_weight_file",
    "valid_img_dir", "valid_mask_dir", "backbone", "seed", "img_size", "epochs",
    "freeze_encoder", "patience", "batchnorm"]

  /** The column names of the per-epoch rows the CSV logger appends. */
  const EpochColumns := "epoch,train_loss,train_IOU,val_loss,val_IOU"

  /** The augmentation settings `train_unet` passes, with Python's rendering of each float. */
  const AugmentDict: seq<(string, string)> := [
    ("rotation_range", "30.0"), ("width_shift_range", "0.1"),
    ("height_shift_range", "0.1"), ("zoom_range", "0.2")]

  /** The rendered values of the header's second line, in the order of `HeaderNames`. */
  function HeaderValues(a: TrainArgs, pathText: Path -> string): (vs: seq<string>)
    ensures |vs| == |HeaderNames|
  {
    [OptPathText(a.trainImgDir, pathText), OptPathText(a.trainMaskDir, pathText),
     pathText(a.trainImgFile), pathText(a.trainMaskFile),
     pathText(a.validImgFile), pathText(a.validMaskFile),
     pathText(a.bestWeightFile), OptPathText(a.endWeightFile, pathText),
     OptPathText(a.validImgDir, pathText), OptPathText(a.validMaskDir, pathText),
     a.backbone, OptIntText(a.seed), SizeText(a.imgSize), IntStr(a.epochs),
     BoolText(a.freezeEncoder), IntStr(a.patience), BoolText(a.batchnorm)]
  }

  /** `str(val).replace(",", ";")` */
  function Sanitize(s: string): (r: string)
    ensures |r| == |s|
    ensures forall i :: 0 <= i < |s| ==> r[i] == (if s[i] == ',' then ';' else s[i])
    ensures ',' !in r
  {
    if s == [] then [] else [if s[0] == ',' then ';' else s[0]] + Sanitize(s[1..])
  }

  function SanitizeAll(vs: seq<string>): (rs: seq<string>)
    ensures |rs| == |vs|
    ensures forall i :: 0 <= i < |vs| ==> rs[i] == Sanitize(vs[i])
  {
    seq(|vs|, i requires 0 <= i < |vs| => Sanitize(vs[i]))
  }

  function Keys(d: seq<(string, string)>): (ks: seq<string>)
    ensures |ks| == |d| && forall i :: 0 <= i < |d| ==> ks[i] == d[i].0
  {
    seq(|d|, i requires 0 <= i < |d| => d[i].0)
  }

  function Values(d: seq<(string, string)>): (vs: seq<string>)
    ensures |vs| == |d| && forall i :: 0 <= i < |d| ==> vs[i] == d[i].1
  {
    seq(|d|, i requires 0 <= i < |d| => d[i].1)
  }

  /** The lines `write_header` writes: names, values, augmentation keys and
      augmentation values, each cell followed by a comma, then a blank line and
      the per-epoch column names. */
  function HeaderRows(a: TrainArgs, augment: seq<(string, string)>, pathText: Path -> string): seq<string> {
    RowsOf(HeaderNames, SanitizeAll(HeaderValues(a, pathText)), Keys(augment), SanitizeAll(Values(augment)))
  }

  function RowsOf(names: seq<string>, values: seq<string>, keys: seq<string>, augmentValues: seq<string>): seq<string> {
    [Terminated(names, ','), Terminated(values, ','), Terminated(keys, ','), Terminated(augmentValues, ','),
     "", EpochColumns]
  }

  /** The text `write_header` writes: every line followed by a line break. */
  function HeaderText(a: TrainArgs, augment: seq<(string, string)>, pathText: Path -> string): string {
    Terminated(HeaderRows(a, augment, pathText), '\n')
  }

  /** Appends `cs` cell by cell, as the loops of `write_header` do. */
  method WriteCells(text0: string, cs: seq<string>) returns (text: string)
    ensures text == text0 + Terminated(cs, ',')
  {
    text := text0;
    for i := 0 to |cs|
      invariant text == text0 + Terminated(cs[..i], ',')
    {
      TerminatedPrefixSnoc(cs, i, ',');
      AppendAssoc(text0, Terminated(cs[..i], ','), cs[i] + ",");
      text := text + cs[i] + ",";
    }
    assert cs[..|cs|] == cs;
  }

  /** One loop of `write_header` and the line break after it. */
  method WriteRow(text0: string, cs: seq<string>) returns (text: string)
    ensures text == text0 + Terminated(cs, ',') + "\n"
  {
    text := WriteCells(text0, cs);
    text := text + "\n";
  }

  /** `write_header(csvfile, ...)`: the text written to the log file (the
      `verify_dir` of its directory is an effect recorded by `TrainUnet`). */
  method WriteHeader(a: TrainArgs, augment: seq<(string, string)>, pathText: Path -> string)
    returns (text: string)
    ensures text == HeaderText(a, augment, pathText)
  {
    text := WriteRows(HeaderNames, SanitizeAll(HeaderValues(a, pathText)), Keys(augment), SanitizeAll(Values(augment)));
  }

  /** The writes of `write_header`, given the cells of its four loops. */
  method WriteRows(names: seq<string>, values: seq<string>, keys: seq<string>, augmentValues: seq<string>)
    returns (text: string)
    ensures text == Terminated(RowsOf(names, values, keys, augmentValues), '\n')
  {
    ghost var rows := RowsOf(names, values, keys, augmentValues);
    text := WriteRow("", names);
    TerminatedPrefixSnoc(rows, 0, '\n');
    assert text == Terminated(rows[..1], '\n');
    text := WriteRow(text, values);
    TerminatedPrefixSnoc(rows, 1, '\n');
    assert text == Terminated(rows[..2], '\n');
    text := WriteRow(text, keys);
    TerminatedPrefixSnoc(rows, 2, '\n');
    assert text == Terminated(rows[..3], '\n');
    text := WriteCells(text, augmentValues);
    ghost var upToValues := text;
    text := text + "\n\n";
    TerminatedPrefixSnoc(rows, 3, '\n');
    TerminatedPrefixSnoc(rows, 4, '\n');
    assert text == upToValues + "\n" + "\n" by {
      AppendAssoc(upToValues, "\n", "\n");
    }
    assert text == Terminated(rows[..5], '\n');
    text := text + EpochColumns + "\n";
    TerminatedPrefixSnoc(rows, 5, '\n');
    assert rows[..6] == rows;
  }

  // ---------------------------------------------------------------------------
  // Reading the header back

  /** No rendered value, augmentation key or value contains a line break. */
  predicate SingleLineInputs(a: TrainArgs, augment: seq<(string, string)>, pathText: Path -> string) {
    && (forall i :: 0 <= i < |HeaderNames| ==> '\n' !in HeaderValues(a, pathText)[i])
    && (forall i :: 0 <= i < |augment| ==> '\n' !in augment[i].0 && '\n' !in augment[i].1)
  }

  lemma SanitizeKeepsSingleLine(s: string)
    requires '\n' !in s
    ensures '\n' !in Sanitize(s)
  {
    forall i | 0 <= i < |s| ensures Sanitize(s)[i] != '\n' {
      assert s[i] != '\n';
    }
  }

  /** A cell text free of both separators. */
  predicate Plain(s: string) {
    ',' !in s && '\n' !in s
  }

  lemma NamesPlainA() ensures forall i :: 0 <= i < 4 ==> Plain(HeaderNames[i]) {}
  lemma NamesPlainB() ensures forall i :: 4 <= i < 8 ==> Plain(HeaderNames[i]) {}
  lemma NamesPlainC() ensures forall i :: 8 <= i < 12 ==> Plain(HeaderNames[i]) {}
  lemma NamesPlainD() ensures forall i :: 12 <= i < 17 ==> Plain(HeaderNames[i]) {}

  /** No parameter name contains a comma or a line break. */
  lemma NamesPlain()
    ensures forall i :: 0 <= i < |HeaderNames| ==> Plain(HeaderNames[i])
  {
    NamesPlainA();
    NamesPlainB();
    NamesPlainC();
    NamesPlainD();
  }

  /** Rows built from single-line cells split back into the rows. */
  lemma RowsSplit(names: seq<string>, values: seq<string>, keys: seq<string>, augmentValues: seq<string>)
    requires forall i :: 0 <= i < |names| ==> '\n' !in names[i]
    requires forall i :: 0 <= i < |values| ==> '\n' !in values[i]
    requires forall i :: 0 <= i < |keys| ==> '\n' !in keys[i]
    requires forall i :: 0 <= i < |augmentValues| ==> '\n' !in augmentValues[i]
    ensures Split(Terminated(RowsOf(names, values, keys, augmentValues), '\n'), '\n')
         == RowsOf(names, values, keys, augmentValues) + [""]
  {
    var rows := RowsOf(names, values, keys, augmentValues);
    TerminatedAvoids(names, ',', '\n');
    TerminatedAvoids(values, ',', '\n');
    TerminatedAvoids(keys, ',', '\n');
    TerminatedAvoids(augmentValues, ',', '\n');
    assert '\n' !in EpochColumns;
    assert forall i :: 0 <= i < |rows| ==> '\n' !in rows[i];
    SplitTerminated(rows, '\n');
  }

  lemma SanitizedSingleLine(vs: seq<string>)
    requires forall i :: 0 <= i < |vs| ==> '\n' !in vs[i]
    ensures forall i :: 0 <= i < |vs| ==> '\n' !in SanitizeAll(vs)[i]
  {
    forall i | 0 <= i < |vs| ensures '\n' !in SanitizeAll(vs)[i] {
      SanitizeKeepsSingleLine(vs[i]);
    }
  }

  /** The header splits into exactly its six lines (names, values,
      augmentation keys, augmentation values, a blank line, the epoch columns)
      and the empty text after the final line break. */
  lemma HeaderLines(a: TrainArgs, augment: seq<(string, string)>, pathText: Path -> string)
    requires SingleLineInputs(a, augment, pathText)
    ensures Split(HeaderText(a, augment, pathText), '\n')
         == [Terminated(HeaderNames, ','), Terminated(SanitizeAll(HeaderValues(a, pathText)), ','),
             Terminated(Keys(augment), ','), Terminated(SanitizeAll(Values(augment)), ','),
             "", EpochColumns, ""]
  {
    NamesPlain();
    SanitizedSingleLine(HeaderValues(a, pathText));
    SanitizedSingleLine(Values(augment));
    RowsSplit(HeaderNames, SanitizeAll(HeaderValues(a, pathText)), Keys(augment), SanitizeAll(Values(augment)));
  }

  /** Cell by cell, the header's lines are the 17 names, the 17 sanitised values
      (so the value line holds exactly 17 commas), the augmentation keys and the
      sanitised augmentation values in the same order. */
  lemma HeaderCells(a: TrainArgs, augment: seq<(string, string)>, pathText: Path -> string)
    requires forall i :: 0 <= i < |augment| ==> ',' !in augment[i].0
    ensures Split(Terminated(HeaderNames, ','), ',') == HeaderNames + [""]
    ensures Split(Terminated(SanitizeAll(HeaderValues(a, pathText)), ','), ',')
         == SanitizeAll(HeaderValues(a, pathText)) + [""]
    ensures Count(Terminated(SanitizeAll(HeaderValues(a, pathText)), ','), ',') == 17
    ensures Split(Terminated(Keys(augment), ','), ',') == Keys(augment) + [""]
    ensures Split(Terminated(SanitizeAll(Values(augment)), ','), ',') == SanitizeAll(Values(augment)) + [""]
    ensures |Keys(augment)| == |SanitizeAll(Values(augment))| == |augment|
  {
    NamesPlain();
    SplitTerminated(HeaderNames, ',');
    var vs := SanitizeAll(HeaderValues(a, pathText));
    SplitTerminated(vs, ',');
    CountTerminated(vs, ',');
    SplitTerminated(Keys(augment), ',');
    SplitTerminated(SanitizeAll(Values(augment)), ',');
  }

  // ---------------------------------------------------------------------------
  // train_unet

  /** A None validation directory is replaced by the corresponding train directory. */
  function WithDefaultValidDirs(a: TrainArgs): (r: TrainArgs)
    ensures r.validImgDir == (if a.validImgDir == None then a.trainImgDir else a.validImgDir)
    ensures r.validMaskDir == (if a.validMaskDir == None then a.trainMaskDir else a.validMaskDir)
  {
    var img := if a.validImgDir == None then a.trainImgDir else a.validImgDir;
    var mask := if a.validMaskDir == None then a.trainMaskDir else a.validMaskDir;
    a.(validImgDir := img, validMaskDir := mask)
  }

  /** Training is skipped when the best-weights file exists and overwrite is off. */
  predicate SkipsTraining(disk: Disk, a: TrainArgs) {
    a.bestWeightFile in disk && !a.overwrite
  }

  /** The callbacks handed to `fit`: checkpoint and CSV logger, plus early
      stopping when patience is positive. */
  function TrainCallbacks(a: TrainArgs): seq<Callback> {
    [ModelCheckpoint(a.bestWeightFile, "val_loss", true), CsvLogger(a.logFile, true, ",")]
    + (if a.patience > 0 then [EarlyStopping("loss", a.patience, true)] else [])
  }

  /** `steps_per_epoch`: the number of training samples floor-divided by the batch size 4. */
  function StepsPerEpoch(nTrain: nat): (steps: nat)
    ensures 4 * steps <= nTrain < 4 * steps + 4
  {
    nTrain / 4
  }

  /** What `train_unet` does, in order. The directory of the best-weights file
      is verified a second time when final weights are requested; the code
      checks that directory, not the final-weights file's. */
  function TrainTrace(disk: Disk, a: TrainArgs, nTrain: nat, pathText: Path -> string): seq<Effect> {
    if SkipsTraining(disk, a) then [Report(WeightsExistMessage)] else TrainingTrace(a, nTrain, pathText)
  }

  /** What `train_unet` does once the guard lets it proceed. */
  function TrainingTrace(a: TrainArgs, nTrain: nat, pathText: Path -> string): seq<Effect> {
    Preparation(a, nTrain, pathText) + FinalSave(a)
  }

  /** Everything up to and including `fit`. */
  function Preparation(a: TrainArgs, nTrain: nat, pathText: Path -> string): seq<Effect> {
    var v := WithDefaultValidDirs(a);
    WeightDirChecks(a) + ListReads(v)
    + [VerifyDir(Dirname(a.logFile)), WriteText(a.logFile, HeaderText(v, AugmentDict, pathText))]
    + [Fit(StepsPerEpoch(nTrain), a.epochs, TrainCallbacks(a))]
  }

  /** The directory checks before training: the best-weights directory, once
      more when final weights are requested. */
  function WeightDirChecks(a: TrainArgs): seq<Effect> {
    [VerifyDir(Dirname(a.bestWeightFile))]
    + (if a.endWeightFile.Some? then [VerifyDir(Dirname(a.bestWeightFile))] else [])
  }

  /** The four `read_file_list` calls, each list with its root directory. */
  function ListReads(a: TrainArgs): seq<Effect> {
    [ReadFileList(a.trainImgFile, a.trainImgDir), ReadFileList(a.trainMaskFile, a.trainMaskDir),
     ReadFileList(a.validImgFile, a.validImgDir), ReadFileList(a.validMaskFile, a.validMaskDir)]
  }

  function FinalSave(a: TrainArgs): seq<Effect> {
    if a.endWeightFile.Some? then [SaveWeights(a.endWeightFile.value)] else []
  }

  /** `train_unet` over the filesystem `disk`; `nTrain` is the number of
      training samples the (external) loader produces, `pathText` how the host
      renders a path. Returns the effects in order and the callbacks passed to `fit`. */
  method TrainUnet(disk: Disk, a: TrainArgs, nTrain: nat, pathText: Path -> string)
    returns (effects: seq<Effect>, callbacks: seq<Callback>)
    ensures effects == TrainTrace(disk, a, nTrain, pathText)
    ensures callbacks == if SkipsTraining(disk, a) then [] else TrainCallbacks(a)
  {
    if a.bestWeightFile in disk && !a.overwrite {
      effects, callbacks := [Report(WeightsExistMessage)], [];
      return;
    }
    effects, callbacks := Train(a, nTrain, pathText);
  }

  /** The body of `train_unet` after the guard; realises `TrainingTrace`. */
  method Train(a: TrainArgs, nTrain: nat, pathText: Path -> string)
    returns (effects: seq<Effect>, callbacks: seq<Callback>)
    ensures effects == TrainingTrace(a, nTrain, pathText)
    ensures callbacks == TrainCallbacks(a)
  {
    var checks := CheckWeightDirs(a);
    var v := DefaultValidDirs(a);
    var listReads := [ReadFileList(v.trainImgFile, v.trainImgDir), ReadFileList(v.trainMaskFile, v.trainMaskDir),
                      ReadFileList(v.validImgFile, v.validImgDir), ReadFileList(v.validMaskFile, v.validMaskDir)];
    var header := WriteHeader(v, AugmentDict, pathText);
    callbacks := MakeCallbacks(a);
    var save := SaveFinalWeights(a);
    effects := checks + listReads
      + [VerifyDir(Dirname(a.logFile)), WriteText(a.logFile, header)]
      + [Fit(nTrain / 4, a.epochs, callbacks)]
      + save;
  }

  /** The `verify_dir` calls on the weights directory; realises `WeightDirChecks`. */
  method CheckWeightDirs(a: TrainArgs) returns (effects: seq<Effect>)
    ensures effects == WeightDirChecks(a)
  {
    effects := [VerifyDir(Dirname(a.bestWeightFile))];
    if a.endWeightFile.Some? {
      effects := effects + [VerifyDir(Dirname(a.bestWeightFile))];
    }
  }

  /** The reassignment of missing validation directories; realises `WithDefaultValidDirs`. */
  method DefaultValidDirs(a: TrainArgs) returns (v: TrainArgs)
    ensures v == WithDefaultValidDirs(a)
  {
    var validImgDir, validMaskDir := a.validImgDir, a.validMaskDir;
    if validImgDir == None {
      validImgDir := a.trainImgDir;
    }
    if validMaskDir == None {
      validMaskDir := a.trainMaskDir;
    }
    v := a.(validImgDir := validImgDir, validMaskDir := validMaskDir);
  }

  /** The callback list, extended with early stopping when patience is positive;
      realises `TrainCallbacks`. */
  method MakeCallbacks(a: TrainArgs) returns (callbacks: seq<Callback>)
    ensures callbacks == TrainCallbacks(a)
  {
    callbacks := [ModelCheckpoint(a.bestWeightFile, "val_loss", true), CsvLogger(a.logFile, true, ",")];
    if a.patience > 0 {
      callbacks := callbacks + [EarlyStopping("loss", a.patience, true)];
    }
  }

  /** The final `save_weights`, when a final-weights file is given; realises `FinalSave`. */
  method SaveFinalWeights(a: TrainArgs) returns (effects: seq<Effect>)
    ensures effects == FinalSave(a)
  {
    effects := [];
    if a.endWeightFile.Some? {
      effects := [SaveWeights(a.endWeightFile.value)];
    }
  }

  // ---------------------------------------------------------------------------
  // Properties of train_unet

  /** Existing weights without overwrite: one status line, nothing read or written. */
  lemma SkipDoesNothing(disk: Disk, a: TrainArgs, nTrain: nat, pathText: Path -> string)
    requires a.bestWeightFile in disk && !a.overwrite
    ensures TrainTrace(disk, a, nTrain, pathText) == [Report(WeightsExistMessage)]
  {
  }

  /** Otherwise the guard proceeds: after the directory checks the four lists
      are read, the validation ones with the defaulted directories, and the log
      header is written next. */
  lemma ProceedReadsAndLogs(disk: Disk, a: TrainArgs, nTrain: nat, pathText: Path -> string)
    requires !SkipsTraining(disk, a)
    ensures var t := TrainTrace(disk, a, nTrain, pathText);
      var k := if a.endWeightFile.Some? then 2 else 1;
      var validImg := if a.validImgDir == None then a.trainImgDir else a.validImgDir;
      var validMask := if a.validMaskDir == None then a.trainMaskDir else a.validMaskDir;
      && |t| >= k + 7
      && (forall i :: 0 <= i < k ==> t[i] == VerifyDir(Dirname(a.bestWeightFile)))
      && t[k..k + 4] == [ReadFileList(a.trainImgFile, a.trainImgDir), ReadFileList(a.trainMaskFile, a.trainMaskDir),
                         ReadFileList(a.validImgFile, validImg), ReadFileList(a.validMaskFile, validMask)]
      && t[k + 4] == VerifyDir(Dirname(a.logFile))
      && t[k + 5] == WriteText(a.logFile, HeaderText(WithDefaultValidDirs(a), AugmentDict, pathText))
  {
    var v := WithDefaultValidDirs(a);
    var w, l := WeightDirChecks(a), ListReads(v);
    var m := [VerifyDir(Dirname(a.logFile)), WriteText(a.logFile, HeaderText(v, AugmentDict, pathText))];
    var r := [Fit(StepsPerEpoch(nTrain), a.epochs, TrainCallbacks(a))] + FinalSave(a);
    assert TrainTrace(disk, a, nTrain, pathText) == w + l + m + r by {
      AppendAssoc(w + l + m, [Fit(StepsPerEpoch(nTrain), a.epochs, TrainCallbacks(a))], FinalSave(a));
    }
    Layout(w, l, m, r);
  }

  /** Where the pieces of `w + l + m + r` sit. */
  lemma Layout<T>(w: seq<T>, l: seq<T>, m: seq<T>, r: seq<T>)
    requires |l| == 4 && |m| == 2
    ensures var t := w + l + m + r;
      && |t| == |w| + 6 + |r|
      && (forall i :: 0 <= i < |w| ==> t[i] == w[i])
      && t[|w|..|w| + 4] == l
      && t[|w| + 4] == m[0] && t[|w| + 5] == m[1]
  {
  }

  /** The header of the log records the validation directories actually used:
      the given ones, or the train directories in their place. */
  lemma HeaderRecordsValidDirs(a: TrainArgs, pathText: Path -> string)
    ensures var vs := HeaderValues(WithDefaultValidDirs(a), pathText);
      && vs[8] == OptPathText(if a.validImgDir == None then a.trainImgDir else a.validImgDir, pathText)
      && vs[9] == OptPathText(if a.validMaskDir == None then a.trainMaskDir else a.validMaskDir, pathText)
      && HeaderNames[8] == "valid_img_dir" && HeaderNames[9] == "valid_mask_dir"
  {
    var v := WithDefaultValidDirs(a);
    var vs := HeaderValues(v, pathText);
    assert vs[8] == OptPathText(v.validImgDir, pathText);
    assert vs[9] == OptPathText(v.validMaskDir, pathText);
  }

  /** No `save_weights` call comes before the final save. The best weights are
      written during `fit` by the `ModelCheckpoint` callback handed to it. */
  lemma PreparationSavesNothing(a: TrainArgs, nTrain: nat, pathText: Path -> string, f: Path)
    ensures SaveWeights(f) !in Preparation(a, nTrain, pathText)
  {
    var v := WithDefaultValidDirs(a);
    var w, l := WeightDirChecks(a), ListReads(v);
    var m := [VerifyDir(Dirname(a.logFile)), WriteText(a.logFile, HeaderText(v, AugmentDict, pathText))];
    var fit := [Fit(StepsPerEpoch(nTrain), a.epochs, TrainCallbacks(a))];
    assert Preparation(a, nTrain, pathText) == w + l + m + fit;
    assert SaveWeights(f) !in w;
    assert SaveWeights(f) !in l;
    assert SaveWeights(f) !in m;
    assert SaveWeights(f) !in fit;
  }

  /** An explicit `save_weights` happens exactly when a final-weights file is
      given and training runs, as the last action. */
  lemma SavesFinalWeightsIff(disk: Disk, a: TrainArgs, nTrain: nat, pathText: Path -> string, f: Path)
    ensures SaveWeights(f) in TrainTrace(disk, a, nTrain, pathText)
        <==> !SkipsTraining(disk, a) && a.endWeightFile == Some(f)
    ensures var t := TrainTrace(disk, a, nTrain, pathText);
      !SkipsTraining(disk, a) && a.endWeightFile.Some? ==> t[|t| - 1] == SaveWeights(a.endWeightFile.value)
  {
    if !SkipsTraining(disk, a) {
      var p := Preparation(a, nTrain, pathText);
      PreparationSavesNothing(a, nTrain, pathText, f);
      assert TrainTrace(disk, a, nTrain, pathText) == p + FinalSave(a);
      assert SaveWeights(f) in p + FinalSave(a) <==> SaveWeights(f) in FinalSave(a);
    }
  }

  /** Early stopping is among the callbacks exactly when patience is positive. */
  lemma EarlyStoppingIff(a: TrainArgs)
    ensures (exists i :: 0 <= i < |TrainCallbacks(a)| && TrainCallbacks(a)[i].EarlyStopping?) <==> a.patience > 0
    ensures TrainCallbacks(a)[..2] == [ModelCheckpoint(a.bestWeightFile, "val_loss", true), CsvLogger(a.logFile, true, ",")]
  {
    if a.patience > 0 {
      assert TrainCallbacks(a)[2].EarlyStopping?;
    }
  }

  /** `fit` runs with `nTrain // 4` steps per epoch and the selected callbacks. */
  lemma FitArguments(disk: Disk, a: TrainArgs, nTrain: nat, pathText: Path -> string)
    requires !SkipsTraining(disk, a)
    ensures Fit(nTrain / 4, a.epochs, TrainCallbacks(a)) in TrainTrace(disk, a, nTrain, pathText)
  {
  }
}
