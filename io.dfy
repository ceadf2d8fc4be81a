/** The filesystem as the training and evaluation steps see it, and the
    externally visible actions they perform. The helpers `verify_dir` and
    `is_dir_empty` (utils/fileio, not part of this model) and `shutil.rmtree`
    are given the meaning their names and uses imply. */
module Io {
  import opened Common

  /** Every path that exists: files and directories alike. */
  type Disk = set<Path>

  /** `d` lies strictly inside directory `dir`. */
  predicate Inside(dir: Path, d: Path) {
    dir < d
  }

  /** `verify_dir(dir)`: the directory and all its ancestors exist afterwards. */
  function MakeDirs(disk: Disk, dir: Path): (r: Disk)
    ensures disk <= r
    ensures dir != [] ==> dir in r
    ensures forall k :: 0 < k <= |dir| ==> dir[..k] in r
    ensures forall e :: e in r && e !in disk ==> e <= dir
  {
    assert dir[..|dir|] == dir;
    disk + set k | 0 < k <= |dir| :: dir[..k]
  }

  /** `is_dir_empty(dir)`: nothing exists inside `dir`. */
  predicate IsDirEmpty(disk: Disk, dir: Path) {
    forall e :: e in disk ==> !Inside(dir, e)
  }

  /** `shutil.rmtree(dir)`: `dir` and everything inside it are gone, nothing else is touched. */
  function RemoveTree(disk: Disk, dir: Path): (r: Disk)
    ensures r <= disk
    ensures forall e :: e in r ==> !(dir <= e)
    ensures forall e :: e in disk && !(dir <= e) ==> e in r
  {
    set e | e in disk && !(dir <= e)
  }

  /** Clearing a directory and recreating it leaves it existing and empty, and
      every path outside it as it was. */
  lemma {:induction false} ClearLeavesEmpty(disk: Disk, dir: Path)
    requires dir != []
    ensures var r := MakeDirs(RemoveTree(disk, dir), dir);
      && dir in r
      && IsDirEmpty(r, dir)
      && (forall e :: e in disk && !(dir <= e) ==> e in r)
  {
    var r := MakeDirs(RemoveTree(disk, dir), dir);
    forall e | e in r
      ensures !Inside(dir, e)
    {
      if e !in RemoveTree(disk, dir) {
        assert e <= dir;
      }
    }
  }

  /** Messages printed by the guards. */
  const WeightsExistMessage := "Weights exist, skipping training..."
  const PredictionDirNotEmptyMessage := "Prediction directory is not empty, skipping operation..."
  const PlotDirNotEmptyMessage := "Plot directory is not empty, skipping operation..."

  /** A keras callback handed to `model.fit`. */
  datatype Callback =
    | ModelCheckpoint(checkpointFile: Path, monitor: string, saveBestOnly: bool)
    | CsvLogger(logFile: Path, append: bool, separator: string)
    | EarlyStopping(watched: string, patience: int, restoreBestWeights: bool)

  /** An action with an effect outside the program, in the order performed. */
  datatype Effect =
    | Report(message: string)
    | VerifyDir(dir: Path)
    | RemoveDir(dir: Path)
    | ReadFileList(listFile: Path, rootDir: Option<Path>)
    | WriteText(file: Path, text: string)
    | Fit(stepsPerEpoch: int, epochs: int, callbacks: seq<Callback>)
    | SaveWeights(weightFile: Path)
    | WriteCsv(csvFile: Path, rows: seq<seq<string>>)
    | SaveImage(imageFile: Path)
    | SavePlot(plotFile: Path)
}
