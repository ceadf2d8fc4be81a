/** The experiment path registry built by `configure_paths`
    (notebooks/eval_script.py): a nested table
    `paths[train_set][seed][backbone][key]` of every file and directory an
    experiment sweep reads or writes, derived from the data root and the
    sweep dimensions by fixed naming templates. */
module Registry {
  import opened Common

  /** A training set is a combo exactly when its identifier contains "CMB". */
  predicate IsCombo(trainSet: string) {
    Contains(trainSet, "CMB")
  }

  /** Artifacts of one trained model: `paths[ts][seed][backbone][model_rev]`. */
  datatype ModelPaths = ModelPaths(bestWeights: Path, finalWeights: Path, trainLog: Path)

  /** Outputs of evaluating a model on a test set: `paths[ts][seed][backbone][test_set]`. */
  datatype EvalPaths = EvalPaths(predictionDir: Path, plotDir: Path, resultFile: Path)

  /** model_rev keys and test_set keys share one dictionary under each backbone. */
  datatype Leaf = Model(model: ModelPaths) | Eval(eval: EvalPaths)

  type BackboneNode = map<string, Leaf>

  /** `paths[ts][seed]`: the six dataset list files and one table per backbone. */
  datatype SeedNode = SeedNode(
    testImg: Path, testMask: Path,
    trainImg: Path, trainMask: Path,
    validImg: Path, validMask: Path,
    backbones: map<string, BackboneNode>)

  /** `paths[ts]`: the set-level directories and one table per seed. */
  datatype SiteNode = SiteNode(
    tiles: Path,
    imgRoot: Option<Path>,
    maskRoot: Option<Path>,
    modelOutRoot: Path,
    predictionRoot: Path,
    seeds: map<int, SeedNode>)

  type Paths = map<string, SiteNode>

  // ---------------------------------------------------------------------------
  // Naming templates

  datatype Subset = Test | Train | Valid
  datatype Kind = Img | Mask

  /** The literal part of each list file name before the seed. */
  function ListPrefix(s: Subset, k: Kind): string {
    match (s, k)
    case (Test, Img) => "test_img_"
    case (Test, Mask) => "test_mask_"
    case (Train, Img) => "train_img_"
    case (Train, Mask) => "train_mask_"
    case (Valid, Img) => "valid_img_"
    case (Valid, Mask) => "valid_mask_"
  }

  /** `{test|train|valid}_{img|mask}_{seed}.txt` */
  function ListFileName(s: Subset, k: Kind, seed: int): string {
    ListPrefix(s, k) + IntStr(seed) + ".txt"
  }

  function TilesDir(root: Path, ts: string): Path {
    root + [ts, "tiles"]
  }

  function ListFile(root: Path, ts: string, s: Subset, k: Kind, seed: int): Path {
    TilesDir(root, ts) + [ListFileName(s, k, seed)]
  }

  /** `{train_set}_{backbone}_{seed}_v{model_rev}`, the stem of every model and prediction name. */
  function Stem(ts: string, backbone: string, seed: int, rev: string): string {
    ts + "_" + backbone + "_" + IntStr(seed) + "_v" + rev
  }

  /** `{stem}_predicting_{test_set}`, the prediction subdirectory. */
  function PredictionSubdir(ts: string, backbone: string, seed: int, rev: string, test: string): string {
    Stem(ts, backbone, seed, rev) + "_predicting_" + test
  }

  function ModelEntry(root: Path, ts: string, seed: int, backbone: string, rev: string): ModelPaths {
    var dir := root + [ts, "models"];
    var stem := Stem(ts, backbone, seed, rev);
    ModelPaths(dir + [stem + "_weights_best.h5"], dir + [stem + "_weights_final.h5"], dir + [stem + "_trainlog.csv"])
  }

  function EvalEntry(root: Path, ts: string, seed: int, backbone: string, rev: string, test: string): EvalPaths {
    var sub := PredictionSubdir(ts, backbone, seed, rev, test);
    var dir := root + [ts, "predictions", sub];
    EvalPaths(dir + ["pred_masks"], dir + ["plots"], dir + [sub + "_data.csv"])
  }

  // ---------------------------------------------------------------------------
  // The table as a whole

  /** `paths[ts][seed][backbone]` once the model_rev loop has run over `revs`:
      every test_set key holds the evaluation paths named after the LAST revision
      (each pass of the model_rev loop rewrites them), every other revision key
      holds its model artifacts. */
  function BackboneSpec(root: Path, ts: string, seed: int, backbone: string,
                        revs: seq<string>, tests: seq<string>): BackboneNode
  {
    map k | k in revs + tests && (|revs| > 0 || k in revs) ::
      if |revs| > 0 && k in tests then Eval(EvalEntry(root, ts, seed, backbone, revs[|revs| - 1], k))
      else Model(ModelEntry(root, ts, seed, backbone, k))
  }

  /** The test_set entries written by one model_rev pass. */
  function EvalTable(root: Path, ts: string, seed: int, backbone: string, rev: string, tests: seq<string>): BackboneNode {
    map t | t in tests :: Eval(EvalEntry(root, ts, seed, backbone, rev, t))
  }

  function BackboneTables(root: Path, ts: string, seed: int, backbones: seq<string>,
                          revs: seq<string>, tests: seq<string>): map<string, BackboneNode>
  {
    map b | b in backbones :: BackboneSpec(root, ts, seed, b, revs, tests)
  }

  function SeedSpec(root: Path, ts: string, seed: int, backbones: seq<string>,
                    revs: seq<string>, tests: seq<string>): SeedNode
  {
    SeedNode(
      ListFile(root, ts, Test, Img, seed), ListFile(root, ts, Test, Mask, seed),
      ListFile(root, ts, Train, Img, seed), ListFile(root, ts, Train, Mask, seed),
      ListFile(root, ts, Valid, Img, seed), ListFile(root, ts, Valid, Mask, seed),
      BackboneTables(root, ts, seed, backbones, revs, tests))
  }

  function SeedTables(root: Path, ts: string, seeds: seq<int>, backbones: seq<string>,
                      revs: seq<string>, tests: seq<string>): map<int, SeedNode>
  {
    map s | s in seeds :: SeedSpec(root, ts, s, backbones, revs, tests)
  }

  function SiteSpec(root: Path, ts: string, seeds: seq<int>, backbones: seq<string>,
                    revs: seq<string>, tests: seq<string>): SiteNode
  {
    var tiles := TilesDir(root, ts);
    SiteNode(
      tiles,
      if IsCombo(ts) then None else Some(tiles + ["img"]),
      if IsCombo(ts) then None else Some(tiles + ["mask"]),
      root + [ts, "models"],
      root + [ts, "predictions"],
      SeedTables(root, ts, seeds, backbones, revs, tests))
  }

  /** The registry `configure_paths` returns. */
  function RegistrySpec(root: Path, trainSets: seq<string>, seeds: seq<int>, backbones: seq<string>,
                        revs: seq<string>, tests: seq<string>): Paths
  {
    map ts | ts in trainSets :: SiteSpec(root, ts, seeds, backbones, revs, tests)
  }

  // ---------------------------------------------------------------------------
  // configure_paths: five nested loops filling the table

  /** One pass of the model_rev loop appends a revision: its model entry is
      written, then every test_set entry is rewritten with that revision. */
  lemma BackboneSnoc(root: Path, ts: string, seed: int, backbone: string,
                     revs: seq<string>, rev: string, tests: seq<string>)
    ensures BackboneSpec(root, ts, seed, backbone, revs + [rev], tests)
         == BackboneSpec(root, ts, seed, backbone, revs, tests)[rev := Model(ModelEntry(root, ts, seed, backbone, rev))]
            + EvalTable(root, ts, seed, backbone, rev, tests)
  {
    var revs' := revs + [rev];
    assert forall k :: k in revs' <==> k in revs || k == rev;
  }

  lemma EvalTableSnoc(root: Path, ts: string, seed: int, backbone: string, rev: string, tests: seq<string>, t: string)
    ensures EvalTable(root, ts, seed, backbone, rev, tests + [t])
         == EvalTable(root, ts, seed, backbone, rev, tests)[t := Eval(EvalEntry(root, ts, seed, backbone, rev, t))]
  {
    assert forall k :: k in tests + [t] <==> k in tests || k == t;
  }

  lemma BackboneTablesSnoc(root: Path, ts: string, seed: int, backbones: seq<string>, b: string,
                           revs: seq<string>, tests: seq<string>)
    ensures BackboneTables(root, ts, seed, backbones + [b], revs, tests)
         == BackboneTables(root, ts, seed, backbones, revs, tests)[b := BackboneSpec(root, ts, seed, b, revs, tests)]
  {
    assert forall k :: k in backbones + [b] <==> k in backbones || k == b;
  }

  lemma SeedTablesSnoc(root: Path, ts: string, seeds: seq<int>, seed: int, backbones: seq<string>,
                       revs: seq<string>, tests: seq<string>)
    ensures SeedTables(root, ts, seeds + [seed], backbones, revs, tests)
         == SeedTables(root, ts, seeds, backbones, revs, tests)[seed := SeedSpec(root, ts, seed, backbones, revs, tests)]
  {
    assert forall k :: k in seeds + [seed] <==> k in seeds || k == seed;
  }

  /** The test_set loop inside one model_rev pass: every test_set key is
      (re)written with the evaluation paths of revision `rev`. */
  method WriteEvalEntries(node0: BackboneNode, root: Path, ts: string, seed: int, backbone: string,
                          rev: string, tests: seq<string>) returns (node: BackboneNode)
    ensures node == node0 + EvalTable(root, ts, seed, backbone, rev, tests)
  {
    node := node0;
    var k := 0;
    while k < |tests|
      invariant 0 <= k <= |tests|
      invariant node == node0 + EvalTable(root, ts, seed, backbone, rev, tests[..k])
    {
      var test := tests[k];
      var entry := Eval(EvalEntry(root, ts, seed, backbone, rev, test));
      node := node[test := entry];
      assert tests[..k + 1] == tests[..k] + [test];
      EvalTableSnoc(root, ts, seed, backbone, rev, tests[..k], test);
      MapUnionUpdate(node0, EvalTable(root, ts, seed, backbone, rev, tests[..k]), test, entry);
      k := k + 1;
    }
    assert tests[..k] == tests;
  }

  /** The model_rev loop for one backbone. */
  method ConfigureBackbone(root: Path, ts: string, seed: int, backbone: string,
                           revs: seq<string>, tests: seq<string>) returns (node: BackboneNode)
    ensures node == BackboneSpec(root, ts, seed, backbone, revs, tests)
  {
    node := map[];
    var j := 0;
    while j < |revs|
      invariant 0 <= j <= |revs|
      invariant node == BackboneSpec(root, ts, seed, backbone, revs[..j], tests)
    {
      var rev := revs[j];
      node := node[rev := Model(ModelEntry(root, ts, seed, backbone, rev))];
      node := WriteEvalEntries(node, root, ts, seed, backbone, rev, tests);
      assert revs[..j + 1] == revs[..j] + [rev];
      BackboneSnoc(root, ts, seed, backbone, revs[..j], rev, tests);
      j := j + 1;
    }
    assert revs[..j] == revs;
  }

  /** The backbone loop for one (train_set, seed). */
  method ConfigureSeed(root: Path, ts: string, seed: int, backbones: seq<string>,
                       revs: seq<string>, tests: seq<string>) returns (node: SeedNode)
    ensures node == SeedSpec(root, ts, seed, backbones, revs, tests)
  {
    var tables: map<string, BackboneNode> := map[];
    var b := 0;
    while b < |backbones|
      invariant 0 <= b <= |backbones|
      invariant tables == BackboneTables(root, ts, seed, backbones[..b], revs, tests)
    {
      var backbone := backbones[b];
      var table := ConfigureBackbone(root, ts, seed, backbone, revs, tests);
      tables := tables[backbone := table];
      assert backbones[..b + 1] == backbones[..b] + [backbone];
      BackboneTablesSnoc(root, ts, seed, backbones[..b], backbone, revs, tests);
      b := b + 1;
    }
    assert backbones[..b] == backbones;
    node := SeedNode(
      ListFile(root, ts, Test, Img, seed), ListFile(root, ts, Test, Mask, seed),
      ListFile(root, ts, Train, Img, seed), ListFile(root, ts, Train, Mask, seed),
      ListFile(root, ts, Valid, Img, seed), ListFile(root, ts, Valid, Mask, seed),
      tables);
  }

  /** The seed loop for one train_set, after the set-level entries. */
  method ConfigureSite(root: Path, ts: string, seeds: seq<int>, backbones: seq<string>,
                       revs: seq<string>, tests: seq<string>) returns (node: SiteNode)
    ensures node == SiteSpec(root, ts, seeds, backbones, revs, tests)
  {
    var tiles := TilesDir(root, ts);
    var imgRoot, maskRoot := None, None;
    if !IsCombo(ts) {
      imgRoot, maskRoot := Some(tiles + ["img"]), Some(tiles + ["mask"]);
    }
    var tables := ConfigureSeeds(root, ts, seeds, backbones, revs, tests);
    node := SiteNode(tiles, imgRoot, maskRoot, root + [ts, "models"], root + [ts, "predictions"], tables);
  }

  /** The seed loop itself. */
  method ConfigureSeeds(root: Path, ts: string, seeds: seq<int>, backbones: seq<string>,
                        revs: seq<string>, tests: seq<string>) returns (tables: map<int, SeedNode>)
    ensures tables == SeedTables(root, ts, seeds, backbones, revs, tests)
  {
    tables := map[];
    var i := 0;
    while i < |seeds|
      invariant 0 <= i <= |seeds|
      invariant tables == SeedTables(root, ts, seeds[..i], backbones, revs, tests)
    {
      var seed := seeds[i];
      var table := ConfigureSeed(root, ts, seed, backbones, revs, tests);
      tables := tables[seed := table];
      assert seeds[..i + 1] == seeds[..i] + [seed];
      SeedTablesSnoc(root, ts, seeds[..i], seed, backbones, revs, tests);
      i := i + 1;
    }
    assert seeds[..i] == seeds;
  }

  /** `configure_paths(data_root_dir, train_sets, seeds, backbones, model_revs, test_sets)`. */
  method ConfigurePaths(root: Path, trainSets: seq<string>, seeds: seq<int>, backbones: seq<string>,
                        revs: seq<string>, tests: seq<string>) returns (paths: Paths)
    ensures paths == RegistrySpec(root, trainSets, seeds, backbones, revs, tests)
  {
    paths := map[];
    var i := 0;
    while i < |trainSets|
      invariant 0 <= i <= |trainSets|
      invariant paths == RegistrySpec(root, trainSets[..i], seeds, backbones, revs, tests)
    {
      var ts := trainSets[i];
      var site := ConfigureSite(root, ts, seeds, backbones, revs, tests);
      paths := paths[ts := site];
      assert trainSets[..i + 1] == trainSets[..i] + [ts];
      i := i + 1;
    }
    assert trainSets[..i] == trainSets;
  }

  // ---------------------------------------------------------------------------
  // Properties of the table configure_paths builds

  /** Set-level entries: the roots are absent exactly for combo sets; otherwise
      they are `tiles/img` and `tiles/mask` under the set's own directory. */
  lemma SiteEntries(root: Path, trainSets: seq<string>, seeds: seq<int>, backbones: seq<string>,
                    revs: seq<string>, tests: seq<string>, ts: string)
    requires ts in trainSets
    ensures ts in RegistrySpec(root, trainSets, seeds, backbones, revs, tests)
    ensures var site := RegistrySpec(root, trainSets, seeds, backbones, revs, tests)[ts];
      && (site.imgRoot == None <==> IsCombo(ts))
      && (site.maskRoot == None <==> IsCombo(ts))
      && (!IsCombo(ts) ==> (site.imgRoot == Some(root + [ts, "tiles", "img"])
                         && site.maskRoot == Some(root + [ts, "tiles", "mask"])))
      && site.tiles == root + [ts, "tiles"]
      && site.modelOutRoot == root + [ts, "models"]
      && site.predictionRoot == root + [ts, "predictions"]
      && site.seeds.Keys == set s | s in seeds
  {
    assert TilesDir(root, ts) + ["img"] == root + [ts, "tiles", "img"];
    assert TilesDir(root, ts) + ["mask"] == root + [ts, "tiles", "mask"];
  }

  /** Per seed, the six list files sit under `tiles` and are named
      `{test|train|valid}_{img|mask}_{seed}.txt`. */
  lemma ListFileEntries(root: Path, trainSets: seq<string>, seeds: seq<int>, backbones: seq<string>,
                        revs: seq<string>, tests: seq<string>, ts: string, seed: int)
    requires ts in trainSets && seed in seeds
    ensures ts in RegistrySpec(root, trainSets, seeds, backbones, revs, tests)
    ensures seed in RegistrySpec(root, trainSets, seeds, backbones, revs, tests)[ts].seeds
    ensures var node := RegistrySpec(root, trainSets, seeds, backbones, revs, tests)[ts].seeds[seed];
      var tiles := root + [ts, "tiles"];
      var n := IntStr(seed);
      && node.testImg == tiles + ["test_img_" + n + ".txt"]
      && node.testMask == tiles + ["test_mask_" + n + ".txt"]
      && node.trainImg == tiles + ["train_img_" + n + ".txt"]
      && node.trainMask == tiles + ["train_mask_" + n + ".txt"]
      && node.validImg == tiles + ["valid_img_" + n + ".txt"]
      && node.validMask == tiles + ["valid_mask_" + n + ".txt"]
      && node.backbones.Keys == set b | b in backbones
  {
  }

  /** Per (seed, backbone, model_rev), the model artifacts sit under `models` and
      are named `{train_set}_{backbone}_{seed}_v{model_rev}_` followed by
      `weights_best.h5`, `weights_final.h5` or `trainlog.csv` -- unless the
      revision tag is also a test_set identifier, in which case the shared key
      holds that test set's evaluation paths instead. */
  lemma ModelEntries(root: Path, trainSets: seq<string>, seeds: seq<int>, backbones: seq<string>,
                     revs: seq<string>, tests: seq<string>, ts: string, seed: int, backbone: string, rev: string)
    requires ts in trainSets && seed in seeds && backbone in backbones && rev in revs
    ensures var node := RegistrySpec(root, trainSets, seeds, backbones, revs, tests)[ts].seeds[seed].backbones[backbone];
      var dir := root + [ts, "models"];
      var stem := ts + "_" + backbone + "_" + IntStr(seed) + "_v" + rev;
      && rev in node
      && (rev !in tests ==>
            node[rev] == Model(ModelPaths(dir + [stem + "_weights_best.h5"],
                                          dir + [stem + "_weights_final.h5"],
                                          dir + [stem + "_trainlog.csv"])))
      && (rev in tests ==> node[rev].Eval?)
  {
  }

  /** Test-set entries are keyed under the backbone and rewritten by every
      model_rev pass, so after the build they all embed the LAST revision;
      all three sit in the subdirectory `{stem}_predicting_{test_set}` of
      `predictions`. With no revisions there are no test-set entries at all. */
  lemma EvalEntries(root: Path, trainSets: seq<string>, seeds: seq<int>, backbones: seq<string>,
                    revs: seq<string>, tests: seq<string>, ts: string, seed: int, backbone: string, test: string)
    requires ts in trainSets && seed in seeds && backbone in backbones && test in tests
    ensures var node := RegistrySpec(root, trainSets, seeds, backbones, revs, tests)[ts].seeds[seed].backbones[backbone];
      && (revs == [] ==> test !in node)
      && (revs != [] ==>
            var last := revs[|revs| - 1];
            var sub := ts + "_" + backbone + "_" + IntStr(seed) + "_v" + last + "_predicting_" + test;
            var dir := root + [ts, "predictions", sub];
            && test in node
            && node[test] == Eval(EvalPaths(dir + ["pred_masks"], dir + ["plots"], dir + [sub + "_data.csv"])))
  {
  }

  /** The character after "t"/"v" names the subset; the one after the first
      '_' names the kind. */
  function SubsetChar(s: Subset): char {
    match s
    case Test => 'e'
    case Train => 'r'
    case Valid => 'a'
  }

  function KindPos(s: Subset): nat {
    match s
    case Test => 5
    case Train => 6
    case Valid => 6
  }

  /** The first seven characters of a list-file prefix determine it. */
  lemma ListPrefixHead(s1: Subset, k1: Kind, s2: Subset, k2: Kind)
    requires ListPrefix(s1, k1)[..7] == ListPrefix(s2, k2)[..7]
    ensures s1 == s2 && k1 == k2
  {
    var p1, p2 := ListPrefix(s1, k1), ListPrefix(s2, k2);
    assert p1[1] == SubsetChar(s1) by { match (s1, k1) { case _ => } }
    assert p2[1] == SubsetChar(s2) by { match (s2, k2) { case _ => } }
    assert p1[1] == p2[1];
    assert s1 == s2;
    var j := KindPos(s1);
    assert p1[j] == (if k1 == Img then 'i' else 'm') by { match (s1, k1) { case _ => } }
    assert p2[j] == (if k2 == Img then 'i' else 'm') by { match (s2, k2) { case _ => } }
    assert p1[j] == p2[j];
  }

  lemma ListFileNameInjective(s1: Subset, k1: Kind, seed1: int, s2: Subset, k2: Kind, seed2: int)
    requires ListFileName(s1, k1, seed1) == ListFileName(s2, k2, seed2)
    ensures s1 == s2 && k1 == k2 && seed1 == seed2
  {
    ListFileNameParts(s1, k1, seed1);
    ListFileNameParts(s2, k2, seed2);
    ListPrefixHead(s1, k1, s2, k2);
    IntStrInjective(seed1, seed2);
  }

  /** A list-file name starts with its prefix and has the seed before ".txt". */
  lemma ListFileNameParts(s: Subset, k: Kind, seed: int)
    ensures var name, p := ListFileName(s, k, seed), ListPrefix(s, k);
      && |p| >= 9 && |name| == |p| + |IntStr(seed)| + 4
      && name[..7] == p[..7]
      && name[|p|..|name| - 4] == IntStr(seed)
  {
    var name, p, n := ListFileName(s, k, seed), ListPrefix(s, k), IntStr(seed);
    assert |p| >= 9 by { match (s, k) { case _ => } }
    assert name == p + n + ".txt";
    assert name[..7] == p[..7];
    assert name[|p|..|name| - 4] == n;
  }

  /** The list-file part of the table is injective: two entries for different
      (train_set, subset, kind, seed) keys never name the same file. */
  lemma ListFileInjective(root: Path, ts1: string, s1: Subset, k1: Kind, seed1: int,
                          ts2: string, s2: Subset, k2: Kind, seed2: int)
    requires ListFile(root, ts1, s1, k1, seed1) == ListFile(root, ts2, s2, k2, seed2)
    ensures ts1 == ts2 && s1 == s2 && k1 == k2 && seed1 == seed2
  {
    var p := ListFile(root, ts1, s1, k1, seed1);
    assert p[|root|] == ts1 && p[|root|] == ts2;
    assert p[|root| + 2] == ListFileName(s1, k1, seed1) == ListFileName(s2, k2, seed2);
    ListFileNameInjective(s1, k1, seed1, s2, k2, seed2);
  }
}
