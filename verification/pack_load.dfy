/** Loading a content pack: which trees are accepted, and what a loaded pack
    then promises to the commands that use it. */
module PackLoad {
  import opened Options
  import opened Ordering
  import opened FileTree
  import opened Bundles
  import DirNames
  import Payloads

  /** The fields of the three manifests that are kept. */
  datatype PackManifest = PackManifest(contract: int, name: string, version: string, description: string)
  datatype BundleManifest = BundleManifest(description: string, image: string)
  datatype ScenarioManifest = ScenarioManifest(name: string, description: string)

  /** Schema validation and decoding of the manifests' text. */
  datatype Decoders = Decoders(pack: string -> Option<PackManifest>,
                               bundle: string -> Option<BundleManifest>,
                               scenario: string -> Option<ScenarioManifest>)

  /** The first violation found. */
  datatype Problem =
    | BadManifest(path: Path)
    | NotAFolder(path: Path)
    | BadName(path: Path)
    | ManifestsWithoutCluster(dir: Path)
    | NoTask(dir: Path)
    | Nothing(path: Path)

  datatype Result<T> = Ok(value: T) | Err(problem: Problem)

  function Manifest<T>(fs: Tree, p: Path, decode: string -> Option<T>): Option<T> {
    if IsFile(fs, p) then decode(At(fs, p).value.data) else None
  }

  // ---------------------------------------------------------- the accepted

  function Children(fs: Tree, dir: Path): (names: set<string>)
    ensures forall n :: n in names <==> dir + [n] in fs
  {
    var s := set p | p in fs && |p| == |dir| + 1 && dir <= p :: p[|dir|];
    assert forall n :: dir + [n] in fs ==> n in s by {
      forall n | dir + [n] in fs ensures n in s {
        var p := dir + [n];
        assert p[|dir|] == n;
      }
    }
    assert forall n :: n in s ==> dir + [n] in fs by {
      forall n | n in s ensures dir + [n] in fs {
        var p :| p in fs && |p| == |dir| + 1 && dir <= p && p[|dir|] == n;
        assert p == dir + [n];
      }
    }
    s
  }

  function Folders(fs: Tree, dir: Path): set<string> {
    set n | n in Children(fs, dir) && IsDir(fs, dir + [n])
  }

  const BUNDLES: Path := ["bundles"]

  function Scenarios(b: string): Path { ["bundles", b, "scenarios"] }

  function KindManifests(b: string): Path { ["bundles", b, "kind", "manifests"] }

  function ClusterFile(b: string): Path { ["bundles", b, "kind", "cluster.yaml"] }

  /** The kind manifests folder has an entry whose name ends in `.yaml`. */
  predicate HasManifests(fs: Tree, b: string) {
    exists n :: n in Children(fs, KindManifests(b)) && Payloads.EndsWith(n, ".yaml")
  }

  predicate ScenarioOk(fs: Tree, d: Decoders, b: string, s: string) {
    && DirNames.IsDirName(s)
    && IsDir(fs, Scenarios(b) + [s] + ["task"])
    && Manifest(fs, Scenarios(b) + [s] + ["scenario.yaml"], d.scenario).Some?
  }

  predicate ScenariosOk(fs: Tree, d: Decoders, b: string) {
    && IsDir(fs, Scenarios(b)) && Folders(fs, Scenarios(b)) != {}
    && forall s :: s in Folders(fs, Scenarios(b)) ==> ScenarioOk(fs, d, b, s)
  }

  predicate BundleOk(fs: Tree, d: Decoders, b: string) {
    && DirNames.IsDirName(b)
    && Manifest(fs, ["bundles", b, "bundle.yaml"], d.bundle).Some?
    && (HasManifests(fs, b) ==> IsFile(fs, ClusterFile(b)))
    && ScenariosOk(fs, d, b)
  }

  /** The bundles of a pack: at least one folder, and every folder acceptable. */
  predicate BundlesOk(fs: Tree, d: Decoders) {
    && IsDir(fs, BUNDLES) && Folders(fs, BUNDLES) != {}
    && forall b :: b in Folders(fs, BUNDLES) ==> BundleOk(fs, d, b)
  }

  predicate Acceptable(fs: Tree, d: Decoders) {
    Manifest(fs, ["pack.yaml"], d.pack).Some? && BundlesOk(fs, d)
  }

  /** The manifest is missing, or its schema refuses it. */
  predicate Refused(fs: Tree, d: Decoders, p: Path) {
    p != [] && (!IsFile(fs, p)
      || (p[|p| - 1] == "pack.yaml" && d.pack(At(fs, p).value.data).None?)
      || (p[|p| - 1] == "bundle.yaml" && d.bundle(At(fs, p).value.data).None?)
      || (p[|p| - 1] == "scenario.yaml" && d.scenario(At(fs, p).value.data).None?))
  }

  /** The reported problem is there. */
  predicate Violates(fs: Tree, d: Decoders, problem: Problem) {
    match problem
    case BadManifest(p) => Refused(fs, d, p)
    case NotAFolder(p) => !IsDir(fs, p)
    case BadName(p) => p != [] && !DirNames.IsDirName(p[|p| - 1])
    case ManifestsWithoutCluster(dir) =>
      |dir| == 2 && HasManifests(fs, dir[1]) && !IsFile(fs, ClusterFile(dir[1]))
    case NoTask(dir) => IsDir(fs, dir) && !IsDir(fs, dir + ["task"])
    case Nothing(p) => IsDir(fs, p) && Folders(fs, p) == {}
  }

  // ---------------------------------------------------------- the loaded

  /** The names are the folders of `dir`, in name order. */
  ghost predicate ListsFolders(fs: Tree, dir: Path, names: seq<string>) {
    SortedOf(StringLess, Folders(fs, dir), names)
  }

  function ScenarioNames(list: seq<Scenario>): seq<string> {
    seq(|list|, k requires 0 <= k < |list| => list[k].name)
  }

  function BundleNames(list: seq<Bundle>): seq<string> {
    seq(|list|, k requires 0 <= k < |list| => list[k].name)
  }

  predicate DescribesScenario(fs: Tree, d: Decoders, b: string, s: Scenario) {
    var m := Manifest(fs, Scenarios(b) + [s.name] + ["scenario.yaml"], d.scenario);
    m.Some? && s.title == m.value.name && s.description == m.value.description
  }

  ghost predicate DescribesScenarios(fs: Tree, d: Decoders, b: string, list: seq<Scenario>) {
    && ListsFolders(fs, Scenarios(b), ScenarioNames(list))
    && forall k :: 0 <= k < |list| ==> DescribesScenario(fs, d, b, list[k])
  }

  ghost predicate DescribesBundle(fs: Tree, d: Decoders, b: Bundle) {
    var m := Manifest(fs, ["bundles", b.name, "bundle.yaml"], d.bundle);
    && m.Some? && b.description == m.value.description && b.image == m.value.image
    && b.hasLab == IsDir(fs, ["bundles", b.name, "lab"])
    && b.hasSetup == IsFile(fs, ["bundles", b.name, "lab", "setup.sh"])
    && b.hasKind == IsFile(fs, ClusterFile(b.name))
    && DescribesScenarios(fs, d, b.name, b.scenarios)
  }

  /** Every folder of `bundles`, in name order, as it is. */
  ghost predicate DescribesBundles(fs: Tree, d: Decoders, list: seq<Bundle>) {
    && ListsFolders(fs, BUNDLES, BundleNames(list))
    && forall k :: 0 <= k < |list| ==> DescribesBundle(fs, d, list[k])
  }

  ghost predicate DescribesPack(fs: Tree, d: Decoders, p: Pack) {
    var m := Manifest(fs, ["pack.yaml"], d.pack);
    && m.Some? && p.contract == m.value.contract && p.name == m.value.name
    && p.version == m.value.version && p.description == m.value.description
    && DescribesBundles(fs, d, p.bundles)
  }

  // ------------------------------------------------------------ operations

  method ReadDir(fs: Tree, dir: Path) returns (names: Option<seq<string>>)
    ensures names.Some? <==> IsDir(fs, dir)
    ensures names.Some? ==> SortedOf(StringLess, Children(fs, dir), names.value)
  {
    if !IsDir(fs, dir) {
      return None;
    }
    StringsTotal();
    hide StringLess, Total;
    var found := Elements(Children(fs, dir));
    var sorted := SortDistinct(StringLess, found);
    names := Some(sorted);
  }

  /** What a loop over sorted entries has kept: the folders among the first `n`. */
  ghost predicate KeptFolders(fs: Tree, dir: Path, entries: seq<string>, n: nat, names: seq<string>)
    requires n <= |entries|
  {
    && Sorted(StringLess, names)
    && forall x :: x in names <==> x in entries[..n] && IsDir(fs, dir + [x])
  }

  lemma SkipEntry(fs: Tree, dir: Path, entries: seq<string>, n: nat, names: seq<string>)
    requires n < |entries| && KeptFolders(fs, dir, entries, n, names) && !IsDir(fs, dir + [entries[n]])
    ensures KeptFolders(fs, dir, entries, n + 1, names)
  {
    assert entries[..n + 1] == entries[..n] + [entries[n]];
  }

  lemma KeepEntry(fs: Tree, dir: Path, entries: seq<string>, n: nat, names: seq<string>)
    requires Sorted(StringLess, entries)
    requires n < |entries| && KeptFolders(fs, dir, entries, n, names) && IsDir(fs, dir + [entries[n]])
    ensures KeptFolders(fs, dir, entries, n + 1, names + [entries[n]])
  {
    var all := names + [entries[n]];
    assert entries[..n + 1] == entries[..n] + [entries[n]];
    hide StringLess;
    forall j | 0 <= j < |names| ensures StringLess(names[j], entries[n]) {
      assert names[j] in names;
      var m :| 0 <= m < n && entries[..n][m] == names[j];
      assert entries[m] == names[j];
    }
  }

  lemma KeptAll(fs: Tree, dir: Path, entries: seq<string>, names: seq<string>)
    requires SortedOf(StringLess, Children(fs, dir), entries)
    requires KeptFolders(fs, dir, entries, |entries|, names)
    ensures ListsFolders(fs, dir, names)
    ensures names == [] <==> Folders(fs, dir) == {}
  {
    assert entries[..|entries|] == entries;
    assert names != [] ==> names[0] in names && names[0] in Folders(fs, dir);
  }

  /** What the scenario loop has kept after `n` entries. */
  ghost predicate KeptScenarios(fs: Tree, d: Decoders, b: string, entries: seq<string>, n: nat, list: seq<Scenario>)
    requires n <= |entries|
  {
    && KeptFolders(fs, Scenarios(b), entries, n, ScenarioNames(list))
    && forall k :: 0 <= k < |list| ==> ScenarioOk(fs, d, b, list[k].name) && DescribesScenario(fs, d, b, list[k])
  }

  lemma NoScenarioYet(fs: Tree, d: Decoders, b: string, entries: seq<string>)
    ensures KeptScenarios(fs, d, b, entries, 0, [])
  {
  }

  lemma SkipScenario(fs: Tree, d: Decoders, b: string, entries: seq<string>, n: nat, list: seq<Scenario>)
    requires n < |entries| && KeptScenarios(fs, d, b, entries, n, list) && !IsDir(fs, Scenarios(b) + [entries[n]])
    ensures KeptScenarios(fs, d, b, entries, n + 1, list)
  {
    hide ScenarioOk, DescribesScenario, KeptFolders;
    SkipEntry(fs, Scenarios(b), entries, n, ScenarioNames(list));
  }

  lemma KeepScenario(fs: Tree, d: Decoders, b: string, entries: seq<string>, n: nat, list: seq<Scenario>, s: Scenario)
    requires Sorted(StringLess, entries) && n < |entries| && KeptScenarios(fs, d, b, entries, n, list)
    requires s.name == entries[n] && IsDir(fs, Scenarios(b) + [s.name])
    requires ScenarioOk(fs, d, b, s.name) && DescribesScenario(fs, d, b, s)
    ensures KeptScenarios(fs, d, b, entries, n + 1, list + [s])
  {
    hide ScenarioOk, DescribesScenario, KeptFolders, Sorted;
    KeepEntry(fs, Scenarios(b), entries, n, ScenarioNames(list));
    assert ScenarioNames(list + [s]) == ScenarioNames(list) + [s.name];
  }

  lemma AllScenariosKept(fs: Tree, d: Decoders, b: string, entries: seq<string>, list: seq<Scenario>)
    requires IsDir(fs, Scenarios(b)) && SortedOf(StringLess, Children(fs, Scenarios(b)), entries)
    requires KeptScenarios(fs, d, b, entries, |entries|, list)
    ensures list == [] <==> Folders(fs, Scenarios(b)) == {}
    ensures list != [] ==> ScenariosOk(fs, d, b) && DescribesScenarios(fs, d, b, list)
  {
    hide ScenarioOk, DescribesScenario, KeptFolders, SortedOf, Folders, ListsFolders;
    KeptAll(fs, Scenarios(b), entries, ScenarioNames(list));
    assert |ScenarioNames(list)| == |list|;
    AllKeptAreOk(fs, d, b, list);
  }

  lemma OneBadScenario(fs: Tree, d: Decoders, b: string, entries: seq<string>, name: string)
    requires SortedOf(StringLess, Children(fs, Scenarios(b)), entries) && name in entries
    requires IsDir(fs, Scenarios(b) + [name]) && !ScenarioOk(fs, d, b, name)
    ensures !ScenariosOk(fs, d, b)
  {
    hide ScenarioOk, StringLess;
    assert name in Folders(fs, Scenarios(b));
  }

  lemma NoScenarios(fs: Tree, d: Decoders, b: string)
    requires !IsDir(fs, Scenarios(b)) || Folders(fs, Scenarios(b)) == {}
    ensures !ScenariosOk(fs, d, b)
    ensures IsDir(fs, Scenarios(b)) ==> Violates(fs, d, Nothing(Scenarios(b)))
    ensures !IsDir(fs, Scenarios(b)) ==> Violates(fs, d, NotAFolder(Scenarios(b)))
  {
    hide ScenarioOk, Folders, IsDir;
  }

  /** One scenario folder. */
  method LoadScenario(fs: Tree, d: Decoders, b: string, name: string) returns (r: Result<Scenario>)
    requires IsDir(fs, Scenarios(b) + [name])
    ensures r.Ok? <==> ScenarioOk(fs, d, b, name)
    ensures r.Ok? ==> r.value.name == name && DescribesScenario(fs, d, b, r.value)
    ensures r.Err? ==> Violates(fs, d, r.problem)
  {
    var dir := Scenarios(b) + [name];
    if !DirNames.IsDirName(name) {
      return Err(BadName(dir));
    }
    if !IsDir(fs, dir + ["task"]) {
      return Err(NoTask(dir));
    }
    var m := Manifest(fs, dir + ["scenario.yaml"], d.scenario);
    if m.None? {
      return Err(BadManifest(dir + ["scenario.yaml"]));
    }
    r := Ok(Scenario(name, m.value.name, m.value.description));
  }

  method LoadScenarios(fs: Tree, d: Decoders, b: string) returns (r: Result<seq<Scenario>>)
    ensures r.Ok? <==> ScenariosOk(fs, d, b)
    ensures r.Ok? ==> DescribesScenarios(fs, d, b, r.value)
    ensures r.Err? ==> Violates(fs, d, r.problem)
  {
    hide *;
    var dir := Scenarios(b);
    var entries := ReadDir(fs, dir);
    if entries.None? {
      NoScenarios(fs, d, b);
      return Err(NotAFolder(dir));
    }
    EntriesAreSorted(fs, dir, entries.value);
    var list: seq<Scenario> := [];
    NoScenarioYet(fs, d, b, entries.value);
    for n := 0 to |entries.value|
      invariant KeptScenarios(fs, d, b, entries.value, n, list)
    {
      var name := entries.value[n];
      if !IsDir(fs, dir + [name]) {
        SkipScenario(fs, d, b, entries.value, n, list);
      } else {
        var s := LoadScenario(fs, d, b, name);
        if s.Err? {
          OneBadScenario(fs, d, b, entries.value, name);
          return Err(s.problem);
        }
        KeepScenario(fs, d, b, entries.value, n, list, s.value);
        list := list + [s.value];
      }
    }
    AllScenariosKept(fs, d, b, entries.value, list);
    if list == [] {
      NoScenarios(fs, d, b);
      return Err(Nothing(dir));
    }
    r := Ok(list);
  }

  lemma EntriesAreSorted(fs: Tree, dir: Path, entries: seq<string>)
    requires SortedOf(StringLess, Children(fs, dir), entries)
    ensures Sorted(StringLess, entries)
  {
    hide StringLess;
  }

  lemma AllKeptAreOk(fs: Tree, d: Decoders, b: string, list: seq<Scenario>)
    requires ListsFolders(fs, Scenarios(b), ScenarioNames(list))
    requires forall k :: 0 <= k < |list| ==> ScenarioOk(fs, d, b, list[k].name)
    ensures forall s :: s in Folders(fs, Scenarios(b)) ==> ScenarioOk(fs, d, b, s)
  {
    forall s | s in Folders(fs, Scenarios(b)) ensures ScenarioOk(fs, d, b, s) {
      assert s in ScenarioNames(list);
      var k :| 0 <= k < |list| && ScenarioNames(list)[k] == s;
      assert list[k].name == s;
    }
  }

  method LoadBundle(fs: Tree, d: Decoders, name: string) returns (r: Result<Bundle>)
    ensures r.Ok? <==> BundleOk(fs, d, name)
    ensures r.Ok? ==> r.value.name == name && DescribesBundle(fs, d, r.value)
    ensures r.Err? ==> Violates(fs, d, r.problem)
  {
    if !DirNames.IsDirName(name) {
      return Err(BadName(["bundles", name]));
    }
    var m := Manifest(fs, ["bundles", name, "bundle.yaml"], d.bundle);
    if m.None? {
      return Err(BadManifest(["bundles", name, "bundle.yaml"]));
    }
    var hasKind := IsFile(fs, ClusterFile(name));
    if HasManifests(fs, name) && !hasKind {
      return Err(ManifestsWithoutCluster(["bundles", name]));
    }
    var scenarios := LoadScenarios(fs, d, name);
    if scenarios.Err? {
      return Err(scenarios.problem);
    }
    r := Ok(Bundle(name, m.value.description, m.value.image,
                   IsDir(fs, ["bundles", name, "lab"]), IsFile(fs, ["bundles", name, "lab", "setup.sh"]),
                   hasKind, scenarios.value));
  }

  /** What the bundle loop has kept after `n` entries. */
  ghost predicate KeptBundles(fs: Tree, d: Decoders, entries: seq<string>, n: nat, list: seq<Bundle>)
    requires n <= |entries|
  {
    && KeptFolders(fs, BUNDLES, entries, n, BundleNames(list))
    && forall k :: 0 <= k < |list| ==> BundleOk(fs, d, list[k].name) && DescribesBundle(fs, d, list[k])
  }

  lemma NoBundleYet(fs: Tree, d: Decoders, entries: seq<string>)
    ensures KeptBundles(fs, d, entries, 0, [])
  {
  }

  lemma SkipFile(fs: Tree, d: Decoders, entries: seq<string>, n: nat, list: seq<Bundle>)
    requires n < |entries| && KeptBundles(fs, d, entries, n, list) && !IsDir(fs, BUNDLES + [entries[n]])
    ensures KeptBundles(fs, d, entries, n + 1, list)
  {
    hide BundleOk, DescribesBundle, KeptFolders;
    SkipEntry(fs, BUNDLES, entries, n, BundleNames(list));
  }

  lemma KeepBundle(fs: Tree, d: Decoders, entries: seq<string>, n: nat, list: seq<Bundle>, b: Bundle)
    requires Sorted(StringLess, entries) && n < |entries| && KeptBundles(fs, d, entries, n, list)
    requires b.name == entries[n] && IsDir(fs, BUNDLES + [b.name])
    requires BundleOk(fs, d, b.name) && DescribesBundle(fs, d, b)
    ensures KeptBundles(fs, d, entries, n + 1, list + [b])
  {
    hide BundleOk, DescribesBundle, KeptFolders, Sorted;
    KeepEntry(fs, BUNDLES, entries, n, BundleNames(list));
    assert BundleNames(list + [b]) == BundleNames(list) + [b.name];
  }

  lemma AllBundlesKept(fs: Tree, d: Decoders, entries: seq<string>, list: seq<Bundle>)
    requires IsDir(fs, BUNDLES) && SortedOf(StringLess, Children(fs, BUNDLES), entries)
    requires KeptBundles(fs, d, entries, |entries|, list)
    ensures list == [] <==> Folders(fs, BUNDLES) == {}
    ensures list != [] ==> BundlesOk(fs, d) && DescribesBundles(fs, d, list)
  {
    hide BundleOk, DescribesBundle, KeptFolders, SortedOf, Folders, ListsFolders;
    KeptAll(fs, BUNDLES, entries, BundleNames(list));
    assert |BundleNames(list)| == |list|;
    AllKeptBundlesAreOk(fs, d, list);
  }

  lemma OneBadBundle(fs: Tree, d: Decoders, entries: seq<string>, name: string)
    requires SortedOf(StringLess, Children(fs, BUNDLES), entries) && name in entries
    requires IsDir(fs, BUNDLES + [name]) && !BundleOk(fs, d, name)
    ensures !BundlesOk(fs, d)
  {
    hide BundleOk, StringLess;
    assert name in Folders(fs, BUNDLES);
  }

  lemma NoBundles(fs: Tree, d: Decoders)
    requires !IsDir(fs, BUNDLES) || Folders(fs, BUNDLES) == {}
    ensures !BundlesOk(fs, d)
    ensures IsDir(fs, BUNDLES) ==> Violates(fs, d, Nothing(BUNDLES))
    ensures !IsDir(fs, BUNDLES) ==> Violates(fs, d, NotAFolder(BUNDLES))
  {
    hide BundleOk, Folders, IsDir;
  }

  method LoadBundles(fs: Tree, d: Decoders) returns (r: Result<seq<Bundle>>)
    ensures r.Ok? <==> BundlesOk(fs, d)
    ensures r.Ok? ==> DescribesBundles(fs, d, r.value)
    ensures r.Err? ==> Violates(fs, d, r.problem)
  {
    hide *;
    var entries := ReadDir(fs, BUNDLES);
    if entries.None? {
      NoBundles(fs, d);
      return Err(NotAFolder(BUNDLES));
    }
    EntriesAreSorted(fs, BUNDLES, entries.value);
    var list: seq<Bundle> := [];
    NoBundleYet(fs, d, entries.value);
    for n := 0 to |entries.value|
      invariant KeptBundles(fs, d, entries.value, n, list)
    {
      var name := entries.value[n];
      if !IsDir(fs, BUNDLES + [name]) {
        SkipFile(fs, d, entries.value, n, list);
      } else {
        var b := LoadBundle(fs, d, name);
        if b.Err? {
          OneBadBundle(fs, d, entries.value, name);
          return Err(b.problem);
        }
        KeepBundle(fs, d, entries.value, n, list, b.value);
        list := list + [b.value];
      }
    }
    AllBundlesKept(fs, d, entries.value, list);
    if list == [] {
      NoBundles(fs, d);
      return Err(Nothing(BUNDLES));
    }
    r := Ok(list);
  }

  lemma AllKeptBundlesAreOk(fs: Tree, d: Decoders, list: seq<Bundle>)
    requires ListsFolders(fs, BUNDLES, BundleNames(list))
    requires forall k :: 0 <= k < |list| ==> BundleOk(fs, d, list[k].name)
    ensures forall b :: b in Folders(fs, BUNDLES) ==> BundleOk(fs, d, b)
  {
    forall b | b in Folders(fs, BUNDLES) ensures BundleOk(fs, d, b) {
      assert b in BundleNames(list);
      var k :| 0 <= k < |list| && BundleNames(list)[k] == b;
      assert list[k].name == b;
    }
  }

  /** A pack loads exactly when it is acceptable, and then as what it holds:
      every folder of `bundles` and of their scenarios, in name order.  A refusal
      names a violation that is there. */
  method Load(fs: Tree, d: Decoders) returns (r: Result<Pack>)
    ensures r.Ok? <==> Acceptable(fs, d)
    ensures r.Ok? ==> DescribesPack(fs, d, r.value)
    ensures r.Err? ==> Violates(fs, d, r.problem)
  {
    var m := Manifest(fs, ["pack.yaml"], d.pack);
    if m.None? {
      return Err(BadManifest(["pack.yaml"]));
    }
    var bundles := LoadBundles(fs, d);
    if bundles.Err? {
      return Err(bundles.problem);
    }
    r := Ok(Pack(m.value.contract, m.value.name, m.value.version, m.value.description, bundles.value));
  }

  /** A loaded bundle can be staged and run: its folders are there, its names are
      safe words, its scenarios are distinct and at least one, and a setup hook
      comes with the lab folder it lives in. */
  lemma LoadedBundleShips(fs: Tree, d: Decoders, b: Bundle)
    requires WellFormed(fs) && BundleOk(fs, d, b.name) && DescribesBundle(fs, d, b)
    ensures Payloads.Ships(fs, b)
    ensures b.hasSetup ==> b.hasLab
    ensures DirNames.IsDirName(b.name) && b.scenarios != []
    ensures forall k :: 0 <= k < |b.scenarios| ==> DirNames.IsDirName(b.scenarios[k].name)
  {
    assert ["bundles", b.name, "lab"] + ["setup.sh"] == ["bundles", b.name, "lab", "setup.sh"];
    assert ["bundles", b.name, "kind"] + ["cluster.yaml"] == ClusterFile(b.name);
    if b.hasSetup {
      FolderOfFile(fs, ["bundles", b.name, "lab"], "setup.sh");
    }
    if b.hasKind {
      FolderOfFile(fs, ["bundles", b.name, "kind"], "cluster.yaml");
    }
    ScenariosAreFolders(fs, d, b);
    StringsTotal();
    hide WellFormed, StringLess, HasManifests;
    forall j, k | 0 <= j < k < |b.scenarios| ensures b.scenarios[j].name != b.scenarios[k].name {
      assert StringLess(ScenarioNames(b.scenarios)[j], ScenarioNames(b.scenarios)[k]);
    }
  }

  lemma FolderOfFile(fs: Tree, dir: Path, name: string)
    requires WellFormed(fs) && IsFile(fs, dir + [name])
    ensures IsDir(fs, dir)
  {
    var p := dir + [name];
    assert p in fs && HasPlace(fs, p);
    assert p[..|p| - 1] == dir;
  }

  lemma ScenariosAreFolders(fs: Tree, d: Decoders, b: Bundle)
    requires ScenariosOk(fs, d, b.name) && DescribesScenarios(fs, d, b.name, b.scenarios)
    ensures b.scenarios != []
    ensures forall k :: 0 <= k < |b.scenarios| ==>
      DirNames.IsDirName(b.scenarios[k].name) && IsDir(fs, Payloads.TaskPart(b, b.scenarios[k].name).src)
  {
    var names := ScenarioNames(b.scenarios);
    forall k | 0 <= k < |b.scenarios|
      ensures DirNames.IsDirName(b.scenarios[k].name) && IsDir(fs, Payloads.TaskPart(b, b.scenarios[k].name).src)
    {
      assert names[k] in names && names[k] in Folders(fs, Scenarios(b.name));
      assert ScenarioOk(fs, d, b.name, names[k]);
      assert Scenarios(b.name) + [names[k]] + ["task"] == Payloads.TaskPart(b, names[k]).src;
    }
    var s :| s in Folders(fs, Scenarios(b.name));
    assert s in names;
  }

  /** Any bundle of a loaded pack. */
  lemma BundlesOfPackShip(fs: Tree, d: Decoders, p: Pack, k: nat)
    requires WellFormed(fs) && Acceptable(fs, d) && DescribesPack(fs, d, p) && k < |p.bundles|
    ensures BundleOk(fs, d, p.bundles[k].name) && DescribesBundle(fs, d, p.bundles[k])
  {
    var names := BundleNames(p.bundles);
    assert names[k] in names && names[k] in Folders(fs, BUNDLES);
  }

  // ------------------------------------------------- what is accepted, spelled out

  /** A folder of `bundles` with a safe name, a manifest, a cluster configuration if it
      has kind manifests, and at least one scenario folder, each with a safe name, a task
      folder and a manifest. */
  ghost predicate BundleIsSound(fs: Tree, d: Decoders, b: string) {
    && DirNames.IsDirName(b)
    && IsFile(fs, ["bundles", b, "bundle.yaml"]) && d.bundle(At(fs, ["bundles", b, "bundle.yaml"]).value.data).Some?
    && (HoldsYaml(fs, ["bundles", b, "kind", "manifests"]) ==> IsFile(fs, ["bundles", b, "kind", "cluster.yaml"]))
    && HoldsFolder(fs, ["bundles", b, "scenarios"])
    && (forall s: string :: IsDir(fs, ["bundles", b, "scenarios"] + [s]) ==> ScenarioIsSound(fs, d, b, s))
  }

  ghost predicate HoldsFolder(fs: Tree, dir: Path) {
    exists n: string :: IsDir(fs, dir + [n])
  }

  ghost predicate HoldsYaml(fs: Tree, dir: Path) {
    exists n: string :: At(fs, dir + [n]).Some? && IsYaml(n)
  }

  predicate IsYaml(name: string) {
    |name| >= 5 && name[|name| - 5..] == ".yaml"
  }

  predicate ScenarioIsSound(fs: Tree, d: Decoders, b: string, s: string) {
    var dir := ["bundles", b, "scenarios"] + [s];
    && DirNames.IsDirName(s) && IsDir(fs, dir + ["task"])
    && IsFile(fs, dir + ["scenario.yaml"]) && d.scenario(At(fs, dir + ["scenario.yaml"]).value.data).Some?
  }

  /** A pack is accepted exactly with a manifest and at least one bundle folder, all of
      them sound. */
  lemma AcceptedExactly(fs: Tree, d: Decoders)
    requires WellFormed(fs)
    ensures Acceptable(fs, d) <==>
      && IsFile(fs, ["pack.yaml"]) && d.pack(At(fs, ["pack.yaml"]).value.data).Some?
      && HoldsFolder(fs, ["bundles"])
      && (forall b: string :: IsDir(fs, ["bundles"] + [b]) ==> BundleIsSound(fs, d, b))
  {
    hide WellFormed, BundleOk, BundleIsSound, Folders;
    FoldersAre(fs, BUNDLES);
    forall b ensures BundleOk(fs, d, b) <==> BundleIsSound(fs, d, b) {
      SoundExactly(fs, d, b);
    }
  }

  lemma FoldersAre(fs: Tree, dir: Path)
    requires WellFormed(fs)
    ensures forall n :: n in Folders(fs, dir) <==> IsDir(fs, dir + [n])
    ensures HoldsFolder(fs, dir) <==> IsDir(fs, dir) && Folders(fs, dir) != {}
  {
    forall n | IsDir(fs, dir + [n]) ensures dir + [n] in fs && IsDir(fs, dir) {
      ParentIsDir(fs, dir, n);
    }
    hide WellFormed;
    if Folders(fs, dir) != {} {
      var n :| n in Folders(fs, dir);
      assert IsDir(fs, dir + [n]);
    }
  }

  lemma ParentIsDir(fs: Tree, dir: Path, name: string)
    requires WellFormed(fs) && IsDir(fs, dir + [name])
    ensures dir + [name] in fs && IsDir(fs, dir)
  {
    var p := dir + [name];
    assert p in fs && HasPlace(fs, p);
    assert p[..|p| - 1] == dir;
  }

  lemma SoundExactly(fs: Tree, d: Decoders, b: string)
    requires WellFormed(fs)
    ensures BundleOk(fs, d, b) <==> BundleIsSound(fs, d, b)
  {
    ManifestsAre(fs, b);
    FoldersAre(fs, Scenarios(b));
    forall s ensures ScenarioOk(fs, d, b, s) <==> ScenarioIsSound(fs, d, b, s) {
      ScenarioSoundExactly(fs, d, b, s);
    }
    hide HasManifests, HoldsYaml, HoldsFolder, WellFormed, Folders, IsFile, IsDir, At, ScenarioOk, ScenarioIsSound,
      DirNames.IsDirName;
  }

  lemma ScenarioSoundExactly(fs: Tree, d: Decoders, b: string, s: string)
    ensures ScenarioOk(fs, d, b, s) <==> ScenarioIsSound(fs, d, b, s)
  {
  }

  lemma ManifestsAre(fs: Tree, b: string)
    requires WellFormed(fs)
    ensures HasManifests(fs, b) <==> HoldsYaml(fs, ["bundles", b, "kind", "manifests"])
  {
    var dir := ["bundles", b, "kind", "manifests"];
    assert KindManifests(b) == dir;
    forall n ensures n in Children(fs, dir) <==> At(fs, dir + [n]).Some? {
    }
    forall n ensures Payloads.EndsWith(n, ".yaml") <==> IsYaml(n) {
    }
    hide WellFormed, At, Children, Payloads.EndsWith, IsYaml, KindManifests;
  }
}
