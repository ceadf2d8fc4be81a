# nyc_pvnet experiment sweep, modelled in Dafny

nyc_pvnet trains and evaluates U-Net segmentation models that find solar panels
in aerial image tiles. This project models the parts of it that do not depend on
the neural-network library:

* the **path registry** of `notebooks/eval_script.py`. `configure_paths` builds a
  nested table `paths[train_set][seed][backbone][key]` holding every list file,
  weights file, log, prediction directory and result file of a sweep. It lives in
  module `Registry`. Under each backbone, model revisions and test-set identifiers
  share one key space, exactly as in the Python dictionary.
* the **sweep driver** of `notebooks/eval_script.py` (module `Sweep`).
  `build_datasets`, `train_models` and `eval_models` walk the sweep dimensions in
  nested loops and call a collaborator once per tuple. Each call is recorded in a
  log, in the order it is made:
  * the dataset splitter or the combo merger;
  * `train_unet`;
  * `eval_model`;
  * a printed skip message.
* **`train_unet` and `write_header`** of `model/train_model.py` (module
  `TrainModel`):
  * the existing-weights guard;
  * defaulting of the validation directories;
  * the CSV header block written into the training log;
  * the callbacks;
  * the steps per epoch;
  * the final save.
* **`eval_model`** of `model/eval_model.py` (module `EvalModel`):
  * the skip-or-clear policy for the prediction and plot directories;
  * the result CSV;
  * the naming of prediction and plot files;
  * the pure array helpers `reshape_arr`, `get_cmap`, `zero_pad_mask` and `mask_to_red`, on shapes and nested sequences.

The filesystem is a set of paths (module `Io`). The helpers `verify_dir`,
`is_dir_empty` and `shutil.rmtree` get the meaning their names and uses imply:
* `verify_dir` creates the directory and its ancestors;
* `is_dir_empty` holds when nothing lies strictly inside;
* `rmtree` removes the directory and everything below it.

Paths are sequences of components. `os.path.join` is concatenation, `dirname` drops
the last component and `basename` takes it. Module `Common` also holds:
* Python's `str()` of integers, with injectivity proofs;
* the `in` test on strings;
* the split and count used to read the CSV header back;
* a snoc-recursive `ConcatMap` that gives nested loops their specification.

Every loop of the source that updates variables is a `method` with a loop and
invariants: `while` loops for the dictionary-building loops of `configure_paths`
(module `Registry`), `for` loops for the nested loops of the sweep driver and of
`write_header`. Each such method is proved equal to a specification function
(for example `Sweep.TrainModels` against `Sweep.TrainLog`), and the properties are
proved as lemmas about those functions. The list comprehensions that build the
combo merge inputs are sequence comprehensions in functions (`Sweep.TrainImgs`
and its three siblings, used by `Sweep.ComboCalls`), and their effect is stated by
`Sweep.ComboCellCalls`.

Some straight-line methods are the imperative rendering of a function of the
same content: `Sweep.MergeCombo` of `Sweep.ComboCalls`, and
`EvalModel.SaveImageOutputs` of `EvalModel.ImageOutputs`. The lemmas about what
those steps mean (`Sweep.ComboCellCalls`, `EvalModel.ImageEffectsAt`) are proved
about the functions.

The model follows the code where the code and its documentation disagree:
* `train_unet` verifies the best-weights directory a second time when a
  final-weights file is given. The second check is not on the final-weights
  directory.
* `eval_models` reads the test lists and image roots of the *train* set for every
  test set. Only the output paths come from the test set's key.
* In the registry built by `configure_paths`, all revisions of one
  (train set, seed, backbone) share the evaluation entry of the *last* revision.
  Evaluating a second revision therefore finds the prediction directory already
  filled and skips. `Sweep.SecondRevisionSkipped` proves this for two consecutive
  runs, the first of which proceeds with at least one test image. Runs for other
  test sets that come between them in the sweep are not covered by that lemma.

## Model

| member | source | states |
|---|---|---|
| Registry.ConfigurePaths | notebooks/eval_script.py:126-181 | the nested loops build exactly the registry `RegistrySpec` of the root and the sweep dimensions |
| Registry.ConfigureSite | notebooks/eval_script.py:129-179 | one train set's entry is `SiteSpec`: its directories and one table per seed |
| Registry.ConfigureSeeds | notebooks/eval_script.py:148-179 | the seed loop builds the seed table `SeedTables`: one entry per seed |
| Registry.ConfigureSeed | notebooks/eval_script.py:149-179 | one seed's entry is `SeedSpec`: six list files and one table per backbone |
| Registry.ConfigureBackbone | notebooks/eval_script.py:159-179 | a backbone's table is `BackboneSpec`: one model entry per revision, then test-set entries written over by every revision in turn |
| Registry.WriteEvalEntries | notebooks/eval_script.py:169-179 | the test-set loop adds `EvalTable` for the current revision on top of the existing table |
| Registry.SiteEntries | notebooks/eval_script.py:130-146 | a set's image and mask roots are None exactly for combos (names containing "CMB"), `tiles/img` and `tiles/mask` otherwise; tiles, models and predictions directories; seed keys are the seeds |
| Registry.ListFileEntries | notebooks/eval_script.py:151-158 | the six list files are `tiles/{test,train,valid}_{img,mask}_{seed}.txt`; backbone keys are the backbones |
| Registry.ModelEntries | notebooks/eval_script.py:160-167 | a revision not used as a test-set name maps to the best-weights, final-weights and train-log files named by `{set}_{backbone}_{seed}_v{rev}` |
| Registry.EvalEntries | notebooks/eval_script.py:169-179 | with no revisions a test set has no entry; otherwise its prediction, plot and result paths are named after the last revision |
| Registry.ListFileInjective | notebooks/eval_script.py:151-156 | distinct (train set, subset, kind, seed) give distinct list files |
| Registry.ListFileNameInjective | notebooks/eval_script.py:151-156 | list file names determine subset, kind and seed |
| Sweep.ComboLookup | notebooks/eval_script.py:215-229 | the combo lookups succeed exactly when the combo, its seed and every constituent's seed exist, and then return the constituents' roots and seed entries in order |
| Sweep.TruncTowardZero | notebooks/eval_script.py:230-244 | `int()` of the sample budget truncates toward zero on both signs |
| Sweep.MergeCombo | notebooks/eval_script.py:228-244 | the four merge calls of a combo are `ComboCalls` |
| Sweep.BuildOne | notebooks/eval_script.py:214-251 | the calls made for one (train set, seed) are `BuildCell` |
| Sweep.BuildSeeds | notebooks/eval_script.py:213-251 | the seed loop makes the calls `BuildRow` |
| Sweep.BuildDatasets | notebooks/eval_script.py:212-251 | when no uncaught error can occur, `build_datasets` makes exactly the calls `BuildLog`, train sets outermost |
| Sweep.BuildCellInPlace | notebooks/eval_script.py:212-213 | each (train set, seed) contributes its calls as one contiguous block between those before and after it in loop order |
| Sweep.PlainCellSplits | notebooks/eval_script.py:247-251 | for a plain registry set the cell is one split call on its `tiles/img`, `tiles/mask` and `tiles` with the seed and budget |
| Sweep.ComboCellCalls | notebooks/eval_script.py:214-244 | a combo whose lookups succeed makes four merges, into train images, train masks, valid images and valid masks, each over the constituents' lists and roots, with `int(n*train)` or `int(n*valid)` samples |
| Sweep.ComboSkipIff | notebooks/eval_script.py:215-246 | a combo cell is the single skip message exactly when a lookup fails |
| Sweep.ComboWritesTrainAndValidLists | notebooks/eval_script.py:219-244 | every merge of a combo writes one of the combo's own train or validation lists |
| Sweep.SeedOutputsAreNotTestLists | notebooks/eval_script.py:151-156 | a registry seed's test lists are none of its train or validation lists |
| Sweep.ComboBuildsNoTestList | notebooks/eval_script.py:219-244 | building a registry combo never overwrites its test lists |
| Sweep.RegistryBuildRuns | notebooks/eval_script.py:212-251 | over its own registry with a budget, `build_datasets` raises nothing |
| Sweep.TrainModels | notebooks/eval_script.py:283-303 | when every lookup succeeds, `train_models` makes exactly the calls `TrainLog` |
| Sweep.TrainSeedsLoop | notebooks/eval_script.py:284-303 | the seed loop for one train set makes the calls `TrainSeeds`, whose positions `TrainSeedsAt` gives |
| Sweep.TrainBackbonesLoop | notebooks/eval_script.py:285-303 | the backbone loop for one seed makes the calls `TrainBackbones`, whose positions `TrainBackbonesAt` gives |
| Sweep.TrainRevsLoop | notebooks/eval_script.py:286-303 | the revision loop for one backbone makes the calls `TrainRevs`, one per revision in order (`TrainRevsAt`) |
| Sweep.TrainCallCount | notebooks/eval_script.py:283-301 | one `train_unet` call per (train set, seed, backbone, revision) |
| Sweep.TrainCallAt | notebooks/eval_script.py:283-301 | the call at the loop-order position of a tuple trains that tuple |
| Sweep.TrainLogAt | notebooks/eval_script.py:283-301 | the block of train set `i` starts at `i` times the block size |
| Sweep.TrainSeedsAt | notebooks/eval_script.py:284-301 | within one train set, position of (seed, backbone, revision) |
| Sweep.TrainBackbonesAt | notebooks/eval_script.py:285-301 | within one seed, position of (backbone, revision) |
| Sweep.TrainRevsAt | notebooks/eval_script.py:286-301 | within one backbone, the call for revision `l` sits at `l` |
| Sweep.TrainCallBehaviour | notebooks/eval_script.py:289-301 | a sweep training call validates on the set's own roots, skips with one message when the best weights exist, and otherwise ends by saving the final weights |
| Sweep.RegistryTrainRuns | notebooks/eval_script.py:289-297 | over its own registry, `train_models` raises nothing when no revision is also a test-set name |
| Sweep.EvalModels | notebooks/eval_script.py:336-367 | when every lookup succeeds, `eval_models` makes exactly the calls `EvalLog` |
| Sweep.EvalSeedsLoop | notebooks/eval_script.py:337-367 | the seed loop for one train set makes the calls `EvalSeeds` |
| Sweep.EvalBackbonesLoop | notebooks/eval_script.py:338-367 | the backbone loop for one seed makes the calls `EvalBackbones` |
| Sweep.EvalRevsLoop | notebooks/eval_script.py:339-367 | the revision loop for one backbone makes the calls `EvalRevs` |
| Sweep.EvalTestsLoop | notebooks/eval_script.py:340-367 | the test-set loop makes `EvalTests`: per test set, the message for an unknown selector, one evaluation when the lookups succeed |
| Sweep.EvalCallArguments | notebooks/eval_script.py:342-365 | the arguments of an evaluation: weights chosen by the selector, the train set's test lists and roots, the test set's outputs, a plot directory exactly when plots are on, overwrite off |
| Sweep.EvalCallCount | notebooks/eval_script.py:336-365 | one entry per (train set, seed, backbone, revision, test set) |
| Sweep.EvalCallMade | notebooks/eval_script.py:336-365 | with a known selector every tuple is evaluated |
| Sweep.UnknownSelectorOnlyReports | notebooks/eval_script.py:348-354 | with a selector other than "best" or "final" every entry is the "Weights not found!" message |
| Sweep.RegistryEvalRuns | notebooks/eval_script.py:342-357 | over its own registry with no revision named like a test set, `eval_models` raises nothing |
| Sweep.EvalSharesLastRevision | notebooks/eval_script.py:356-357 | in the registry every revision evaluates into the last revision's prediction directory, with its own weights |
| Sweep.SecondRevisionSkipped | notebooks/eval_script.py:356-365 | after one revision's run has filled the shared prediction directory, evaluating another revision only verifies it and reports |
| TrainModel.Sanitize | model/train_model.py:41 | every comma of a value becomes a semicolon and nothing else changes |
| TrainModel.WriteCells | model/train_model.py:32-34 | writing each cell followed by a comma appends `Terminated(cells, ',')` |
| TrainModel.WriteRow | model/train_model.py:32-35 | a row of cells and its line break |
| TrainModel.WriteRows | model/train_model.py:32-49 | the writes produce the six lines names, values, keys, augment values, empty line, epoch columns, each ended by a line break |
| TrainModel.WriteHeader | model/train_model.py:23-49 | the header text is `HeaderText` of the arguments and augmentation settings |
| TrainModel.NamesPlain | model/train_model.py:32-33 | no parameter name contains a comma or a line break |
| TrainModel.RowsSplit | model/train_model.py:32-49 | splitting the header at line breaks gives back its six lines and a final empty piece |
| TrainModel.HeaderLines | model/train_model.py:31-49 | for single-line inputs the header reads back as exactly its six lines |
| TrainModel.HeaderCells | model/train_model.py:32-47 | each line splits at commas into its cells; the value line has 17 cells, the augment lines one per setting |
| TrainModel.WithDefaultValidDirs | model/train_model.py:168-171 | a None validation directory becomes the train directory, others are kept |
| TrainModel.StepsPerEpoch | model/train_model.py:260 | the steps per epoch are the sample count floor-divided by 4 |
| TrainModel.TrainUnet | model/train_model.py:108-268 | the effects are `TrainTrace` and the callbacks those handed to `fit` (none when skipped) |
| TrainModel.CheckWeightDirs | model/train_model.py:164-166 | the weights directory is verified once, and a second time when a final-weights file is given, as `WeightDirChecks` |
| TrainModel.DefaultValidDirs | model/train_model.py:168-171 | the arguments with missing validation directories replaced, as `WithDefaultValidDirs` |
| TrainModel.MakeCallbacks | model/train_model.py:224-240 | the callback list `TrainCallbacks`, whose early-stopping member is characterised by `EarlyStoppingIff` |
| TrainModel.SaveFinalWeights | model/train_model.py:267-268 | the final save `FinalSave`, characterised by `SavesFinalWeightsIff` |
| TrainModel.Train | model/train_model.py:164-268 | past the guard, the effects are `TrainingTrace` |
| TrainModel.SkipDoesNothing | model/train_model.py:160-162 | existing best weights without overwrite: only the message |
| TrainModel.ProceedReadsAndLogs | model/train_model.py:164-177 | past the guard: the weight-directory checks (twice with final weights), the four list reads with defaulted validation roots, then the log directory and the header |
| TrainModel.HeaderRecordsValidDirs | model/train_model.py:168-171 | the header records the defaulted validation directories |
| TrainModel.PreparationSavesNothing | model/train_model.py:164-265 | no explicit `save_weights` call comes before the final save (the checkpoint callback's writes inside `fit` are not `save_weights` calls) |
| TrainModel.SavesFinalWeightsIff | model/train_model.py:267-268 | an explicit `save_weights` is made exactly when training runs and a final-weights file is given, on that file, as the last effect |
| TrainModel.EarlyStoppingIff | model/train_model.py:224-240 | early stopping is among the callbacks exactly when patience is positive, after the checkpoint and the CSV logger |
| TrainModel.FitArguments | model/train_model.py:258-265 | a run that trains calls `fit` with `n // 4` steps, the epochs and the callbacks |
| Io.MakeDirs | model/eval_model.py:55 | creating a directory adds it and every one of its ancestors, and nothing else |
| Io.RemoveTree | model/eval_model.py:61 | removal deletes the directory and what lies under it, and nothing else |
| Io.ClearLeavesEmpty | model/eval_model.py:61-62 | removing and recreating leaves the directory existing and empty, everything outside untouched |
| EvalModel.CheckOutputDir | model/eval_model.py:55-62 | the guard's steps give `PrepareDir`, the function whose policy `PrepareDirPolicy` states |
| EvalModel.PrepareDirPolicy | model/eval_model.py:55-72 | about `PrepareDir` and its use for the plot directory: the run goes on exactly when the directory is empty or overwrite is set; a stop only verifies and reports; going on leaves it empty; nothing outside is lost; removal happens exactly when going on from a non-empty directory |
| EvalModel.PredictionGuardSkips | model/eval_model.py:55-59 | a non-empty prediction directory without overwrite: verify, report, stop |
| EvalModel.PlotGuardSkips | model/eval_model.py:64-69 | a non-empty plot directory without overwrite stops after both checks |
| EvalModel.RerunSkips | model/eval_model.py:55-59 | a second run into the same prediction directory without overwrite only verifies and reports |
| EvalModel.Evaluate | model/eval_model.py:21-160 | the run's filesystem and effects are `EvalRun` |
| EvalModel.WriteOutputs | model/eval_model.py:109-160 | a run past the guards adds the result file and the image files and performs `Outputs` |
| EvalModel.SaveAllImages | model/eval_model.py:134-160 | the image loop performs `ImageEffects` and creates `ImageFiles` |
| EvalModel.SaveImageOutputs | model/eval_model.py:134-160 | one image: its prediction, and its plot when plots are on |
| EvalModel.ProceedingRunOutputs | model/eval_model.py:109-118 | a run past the guards ends with the list reads, the only CSV write (header "weight file" plus metric names, then the weights basename plus values) and one or two saves per image |
| EvalModel.ImageEffectsAt | model/eval_model.py:134-160 | image `i`'s prediction is saved at position `k*i` under its basename, its plot at `k*i+1` |
| EvalModel.ImageEffectsKinds | model/eval_model.py:134-160 | the image loop only saves images, and plots only when plots are on |
| EvalModel.NoPlotDirNoPlots | model/eval_model.py:64-160 | without a plot directory no plot is saved and the plot message never appears |
| EvalModel.PredictionDirContents | model/eval_model.py:134-137 | after a successful run the prediction directory holds exactly the basenames of the test images |
| EvalModel.ReshapeProperties | model/eval_model.py:169-186 | about `ReshapeArr` (lines 169-176) and `GetCmap` (lines 179-186): they are defined on the same shapes; reshaping keeps the element count, is idempotent, keeps the colour map, and yields 3-D or 4-D RGB |
| EvalModel.Fill | model/eval_model.py:165 | a constant row of the requested length |
| EvalModel.PadGridCells | model/eval_model.py:163-166 | padding a grid surrounds it with a border of zeros of width `pad` |
| EvalModel.ZeroPadMaskSize | model/eval_model.py:163-166 | about `ZeroPadMask`: padding a square mask reaches the desired size, one less when the difference is odd |
| EvalModel.ZeroPadMaskTooLarge | model/eval_model.py:163-166 | about `ZeroPadMask`: a mask larger than the desired size makes the pad negative, which errors |
| EvalModel.MaskToRedChannels | model/eval_model.py:189-199 | about `MaskToRed`: every cell becomes (mask, 0, 0, mask) |
| EvalModel.OverlaySize | model/eval_model.py:154-155 | the padded red overlay is as large as the image |

## Left out

- Neural-network work (preprocessing, augmentation, model construction, `fit`,
  `evaluate`, `predict`, plotting) is outside the model. It is represented by the
  effects and calls it causes. The number of training samples, the test image list
  and the metric names and values are inputs.
- `print` output other than the three guard messages, the combo skip message and
  "Weights not found!" is not modelled, nor is `gc.collect()`.
- `get_augmented`, `read_file_list`, `reshape_inputs`, `test_train_valid_split` and
  `make_combo_dataset_txt` are not part of this model. They are recorded as calls.
- How a path renders as text is the parameter `pathText`. Floats are exact reals,
  and the augmentation floats are their Python renderings as constants.
- The result CSV's quoting by the `csv` module is not modelled: the rows are
  recorded as cell sequences.
- `Sweep.BuildDatasets`: `combo_sets=None` raises a TypeError in the source. The
  model takes a map (possibly empty), so that case is not represented.
- `Sweep.BuildDatasets`, `Sweep.TrainModels`, `Sweep.EvalModels`: a failed lookup
  raises an uncaught error in the source. The methods require that no such error
  occurs (`BuildRuns`, `TrainRuns`, `EvalRuns`). The specification functions yield
  no call for such a cell.
- `Sweep.BuildDatasets`: a combo with `n_set=None` raises a TypeError when the
  sample count is computed. The method requires that no combo gets past its lookups
  in that case.
- Registry: a backbone named like one of the seed-level keys (`test_im`,
  `train_msk` and the other list-file keys) is not modelled. Those keys are record
  fields of a seed entry, not a dictionary shared with the backbones. The
  backbone level, where revisions and test sets really share keys, is modelled.
- `is_dir_empty` is a query on the disk model (`Io.IsDirEmpty`), not a logged
  effect. The log records only `verify_dir`, `rmtree`, the saves and the messages.
- `Registry.ModelEntries`: a revision used as a test-set name is overwritten by an
  evaluation entry. The lemma only states that the entry is then an evaluation.
- `TrainModel.Train`: the writes of `best_weight_file` that `ModelCheckpoint`
  makes during `fit` are represented only by that callback in the `Fit` effect.
  They are not `SaveWeights` effects.
- `TrainModel.WriteRows`: `f.write("\n\n")` is modelled as an empty line after the
  augment values. Both give the same text.
- Python's `str()` of `img_size` is modelled only for the tuple of two integers
  that `train_models` passes.
- `EvalModel.ZeroPadMaskSize` and `EvalModel.MaskToRedChannels`: masks are square
  nested sequences. numpy's shapes other than 2-D are not modelled.
