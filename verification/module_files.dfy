/** What becomes of the Go module files of a pack: `_go.mod` stands for `go.mod`, and
    a pack may hold both. */
module ModuleFiles {
  import opened Options
  import opened Ordering
  import opened FileTree
  import opened Bundles
  import opened Payloads
  import DirNames
  import PackLoad

  /** Where a shipped file goes, relative to its folder. */
  function Target(r: Path): Path {
    if Named(r, PLACEHOLDER) then Sibling(r, GO_MOD) else r
  }

  /** The disk has the file of the part, with its contents and mode, at its target. */
  predicate Arrives(t: Tree, fs: Tree, part: Part, r: Path)
    requires At(fs, part.src + r).Some?
  {
    At(t, part.dst + Target(r)) == Some(StagedNode(fs, part.src + r))
  }

  /** A placeholder beside a module file that says something else. */
  predicate Overwritten(fs: Tree, src: Path, r: Path)
    requires IsFile(fs, src + r)
  {
    && Named(r, PLACEHOLDER) && IsFile(fs, src + Sibling(r, GO_MOD))
    && At(fs, src + Sibling(r, GO_MOD)).value.data != At(fs, src + r).value.data
  }

  lemma ShippedFileHasName(fs: Tree, src: Path, r: Path)
    requires IsDir(fs, src) && IsFile(fs, src + r)
    ensures r != [] && Target(r) != []
  {
    assert r == [] ==> src + r == src;
  }

  /** What the copy of a folder has at a file's target. */
  lemma TargetImage(fs: Tree, src: Path, r: Path)
    requires IsDir(fs, src) && IsFile(fs, src + r) && !Clash(fs, src)
    ensures Image(fs, src, Target(r)) == Some(StagedNode(fs, src + r)) <==> !Overwritten(fs, src, r)
    ensures Named(r, PLACEHOLDER) ==> Image(fs, src, r).None?
  {
    ShippedFileHasName(fs, src, r);
    NameBelow(src, r, PLACEHOLDER);
    if Named(r, PLACEHOLDER) {
      var q := Sibling(r, GO_MOD);
      BesidesKnowsItself(r, PLACEHOLDER, GO_MOD);
      BesidesKnowsItself(r, GO_MOD, GO_MOD);
      NameBelow(src, q, GO_MOD);
      NameBelow(src, q, PLACEHOLDER);
      NoShell(src + r);
      NoShell(src + q);
      assert !ClashAt(fs, src, q);
      assert !Named(q, PLACEHOLDER);
    }
  }

  lemma PartImage(disk: Tree, fs: Tree, b: Bundle, k: nat, q: Path)
    requires Ships(fs, b) && Unstaged(disk) && StagedParts(disk, fs, Parts(b)).1
    requires k < |Parts(b)| && q != []
    ensures IsDir(fs, Parts(b)[k].src)
    ensures At(StagedParts(disk, fs, Parts(b)).0, Parts(b)[k].dst + q) == Image(fs, Parts(b)[k].src, q)
    ensures !Clash(fs, Parts(b)[k].src)
  {
    var parts := Parts(b);
    hide Ships, Unstaged, Parts, Apart, Expected, StagedParts, Image, Clash;
    PartsAreApart(fs, b);
    PartsAreFolders(fs, b, k);
    FreshPayload(disk, fs, b);
    BelowOnePart(disk, fs, parts, k, q);
    Drop(parts[k].dst, q);
    UnstagedBelow(disk, parts[k].dst);
  }

  /** After a staging that worked, a file of a shipped folder is at its target, unless
      it is a placeholder beside a module file with other contents; that one is at the
      target then.  Nothing is staged under a placeholder's own name. */
  lemma ArrivesExactly(disk: Tree, fs: Tree, b: Bundle, k: nat, r: Path)
    requires Ships(fs, b) && Unstaged(disk) && StagedParts(disk, fs, Parts(b)).1
    requires k < |Parts(b)| && IsFile(fs, Parts(b)[k].src + r)
    ensures var t, part := StagedParts(disk, fs, Parts(b)).0, Parts(b)[k];
      && (Arrives(t, fs, part, r) <==> !Overwritten(fs, part.src, r))
      && (Named(r, PLACEHOLDER) ==> At(t, part.dst + r).None?)
  {
    hide Ships, Unstaged, Parts, StagedParts, Image, Clash, Overwritten, Target, StagedNode;
    PartsAreFolders(fs, b, k);
    ShippedFileHasName(fs, Parts(b)[k].src, r);
    PartImage(disk, fs, b, k, Target(r));
    PartImage(disk, fs, b, k, r);
    TargetImage(fs, Parts(b)[k].src, r);
  }

  // ------------------------------------------------- packs that are accepted

  const TASK: Path := ["bundles", "b", "scenarios", "s", "task"]
  const PACK_FILE: Path := ["pack.yaml"]
  const BUNDLE_FILE: Path := ["bundles", "b", "bundle.yaml"]
  const SCENARIO_FILE: Path := ["bundles", "b", "scenarios", "s", "scenario.yaml"]

  /** The texts of a pack's manifests and of its placeholder. */
  datatype Texts = Texts(pack: string, bundle: string, scenario: string, placeholder: string)

  /** The program's schemas and decoders take the three manifests. */
  predicate Takes(d: PackLoad.Decoders, x: Texts) {
    d.pack(x.pack).Some? && d.bundle(x.bundle).Some? && d.scenario(x.scenario).Some?
  }

  /** A pack of one bundle with one scenario, whose task has a placeholder for a module
      file and `beside` in the place of the module file. */
  function Sample(x: Texts, beside: Node): Tree {
    (map q | q in UpTo(TASK) :: Dir)
    + map[PACK_FILE := File(x.pack, false), BUNDLE_FILE := File(x.bundle, false),
          SCENARIO_FILE := File(x.scenario, false),
          TASK + [PLACEHOLDER] := File(x.placeholder, false), TASK + [GO_MOD] := beside]
  }

  /** Its bundle, as loaded. */
  function SampleBundle(d: PackLoad.Decoders, x: Texts): Bundle
    requires Takes(d, x)
  {
    var b, s := d.bundle(x.bundle).value, d.scenario(x.scenario).value;
    Bundle("b", b.description, b.image, false, false, false, [Scenario("s", s.name, s.description)])
  }

  /** The paths of the sample, by length. */
  predicate InSample(q: Path) {
    || (q != [] && OnTheWay(q, TASK))
    || q == PACK_FILE || q == BUNDLE_FILE || q == SCENARIO_FILE
    || q == TASK + [PLACEHOLDER] || q == TASK + [GO_MOD]
  }

  lemma SampleAt(x: Texts, beside: Node, q: Path)
    ensures q in Sample(x, beside) <==> InSample(q)
    ensures q != [] && OnTheWay(q, TASK) ==> IsDir(Sample(x, beside), q)
    ensures q == PACK_FILE ==> At(Sample(x, beside), q) == Some(File(x.pack, false))
    ensures q == BUNDLE_FILE ==> At(Sample(x, beside), q) == Some(File(x.bundle, false))
    ensures q == SCENARIO_FILE ==> At(Sample(x, beside), q) == Some(File(x.scenario, false))
    ensures q == TASK + [GO_MOD] ==> At(Sample(x, beside), q) == Some(beside)
    ensures q == TASK + [PLACEHOLDER] ==> At(Sample(x, beside), q) == Some(File(x.placeholder, false))
  {
    assert PACK_FILE[0][0] != TASK[0][0];
    assert BUNDLE_FILE[2][0] != TASK[2][0];
    assert SCENARIO_FILE[4][0] != TASK[4][0];
    assert PLACEHOLDER[0] != GO_MOD[0];
    assert (TASK + [PLACEHOLDER])[5] != (TASK + [GO_MOD])[5];
  }

  lemma NamesAreFileNames()
    ensures forall k :: 0 <= k < |TASK| ==> IsFileName(TASK[k])
    ensures IsFileName(PACK_FILE[0]) && IsFileName(BUNDLE_FILE[2]) && IsFileName(SCENARIO_FILE[4])
    ensures IsFileName(PLACEHOLDER) && IsFileName(GO_MOD)
  {
  }

  lemma ParentsAreAbove()
    ensures BUNDLE_FILE[..2] == TASK[..2] && SCENARIO_FILE[..4] == TASK[..4] && PACK_FILE[..0] == []
    ensures forall name: string :: (TASK + [name])[..5] == TASK[..5]
  {
  }

  lemma HasPlaceBelow(t: Tree, p: Path, n: nat)
    requires n < |TASK| + 1 && |p| == n + 1 && IsFileName(p[n]) && p[..n] == TASK[..n]
    requires forall q :: q != [] && OnTheWay(q, TASK) ==> IsDir(t, q)
    ensures HasPlace(t, p)
  {
    assert OnTheWay(TASK[..n], TASK);
  }

  lemma SampleIsWellFormed(x: Texts, beside: Node)
    ensures WellFormed(Sample(x, beside))
  {
    hide Sample, HasPlace, PLACEHOLDER, GO_MOD, IsFileName;
    var t := Sample(x, beside);
    NamesAreFileNames();
    ParentsAreAbove();
    forall q ensures q in t <==> InSample(q) {
      SampleAt(x, beside, q);
    }
    forall q | q != [] && OnTheWay(q, TASK) ensures IsDir(t, q) {
      SampleAt(x, beside, q);
    }
    forall p | p in t ensures HasPlace(t, p) {
      HasPlaceBelow(t, p, |p| - 1);
    }
  }

  lemma OneFolder(t: Tree, dir: Path, name: string)
    requires forall n :: dir + [n] in t && IsDir(t, dir + [n]) <==> n == name
    ensures PackLoad.Folders(t, dir) == {name}
  {
  }

  lemma OnlyTaskAtItsLength(q: Path)
    requires InSample(q) && (|q| == 2 || |q| == 4)
    ensures q == TASK[..|q|]
  {
  }

  lemma SampleFolders(x: Texts, beside: Node)
    ensures PackLoad.Folders(Sample(x, beside), PackLoad.BUNDLES) == {"b"}
    ensures PackLoad.Folders(Sample(x, beside), PackLoad.Scenarios("b")) == {"s"}
  {
    hide Sample, InSample;
    var t, d, e := Sample(x, beside), PackLoad.BUNDLES, PackLoad.Scenarios("b");
    assert d == TASK[..1] && e == TASK[..3];
    FoldersOnTheWay(x, beside, d);
    FoldersOnTheWay(x, beside, e);
  }

  lemma FoldersOnTheWay(x: Texts, beside: Node, dir: Path)
    requires (|dir| == 1 || |dir| == 3) && dir == TASK[..|dir|]
    ensures PackLoad.Folders(Sample(x, beside), dir) == {TASK[|dir|]}
  {
    hide Sample, InSample, PackLoad.Folders;
    var t := Sample(x, beside);
    forall n ensures dir + [n] in t && IsDir(t, dir + [n]) <==> n == TASK[|dir|] {
      var q := dir + [n];
      SampleAt(x, beside, q);
      if InSample(q) {
        OnlyTaskAtItsLength(q);
        assert q[|dir|] == n;
      }
      if n == TASK[|dir|] {
        assert q == TASK[..|dir| + 1];
        assert InSample(q) by { TakenIsInSample(|dir| + 1); }
      }
    }
    OneFolder(t, dir, TASK[|dir|]);
  }

  lemma TakenIsInSample(n: nat)
    requires 0 < n <= |TASK|
    ensures InSample(TASK[..n])
  {
  }

  /** Neither a lab nor a cluster folder. */
  lemma NothingElseBelow(x: Texts, beside: Node, q: Path)
    requires |q| >= 3 && q[0] == "bundles" && q[1] == "b" && (q[2] == "lab" || q[2] == "kind")
    ensures q !in Sample(x, beside) && At(Sample(x, beside), q).None?
  {
    hide Sample;
    SampleAt(x, beside, q);
    assert TASK[2][0] == 's' && BUNDLE_FILE[2][0] == 'b' && SCENARIO_FILE[2][0] == 's';
    assert (TASK + [PLACEHOLDER])[2] == TASK[2] && (TASK + [GO_MOD])[2] == TASK[2];
  }

  lemma SampleScenario(d: PackLoad.Decoders, x: Texts, beside: Node)
    requires Takes(d, x)
    ensures PackLoad.ScenarioOk(Sample(x, beside), d, "b", "s")
    ensures PackLoad.ScenariosOk(Sample(x, beside), d, "b")
    ensures PackLoad.DescribesScenarios(Sample(x, beside), d, "b", SampleBundle(d, x).scenarios)
  {
    hide Sample, InSample, PackLoad.Folders;
    var t := Sample(x, beside);
    SampleAt(x, beside, TASK);
    SampleAt(x, beside, SCENARIO_FILE);
    SampleAt(x, beside, TASK[..3]);
    SampleFolders(x, beside);
    assert PackLoad.Scenarios("b") == TASK[..3];
    assert PackLoad.Scenarios("b") + ["s"] + ["task"] == TASK;
    assert PackLoad.Scenarios("b") + ["s"] + ["scenario.yaml"] == SCENARIO_FILE;
    assert DirNames.IsDirName("s");
    assert PackLoad.ScenarioNames(SampleBundle(d, x).scenarios) == ["s"];
  }

  lemma SampleBundleLoads(d: PackLoad.Decoders, x: Texts, beside: Node)
    requires Takes(d, x)
    ensures PackLoad.BundleOk(Sample(x, beside), d, "b")
    ensures PackLoad.DescribesBundle(Sample(x, beside), d, SampleBundle(d, x))
  {
    hide Sample, InSample, PackLoad.ScenariosOk, PackLoad.DescribesScenarios;
    var t := Sample(x, beside);
    SampleScenario(d, x, beside);
    SampleAt(x, beside, BUNDLE_FILE);
    assert DirNames.IsDirName("b");
    assert ["bundles", "b", "bundle.yaml"] == BUNDLE_FILE;
    NothingElseBelow(x, beside, ["bundles", "b", "lab"]);
    NothingElseBelow(x, beside, ["bundles", "b", "lab", "setup.sh"]);
    NothingElseBelow(x, beside, PackLoad.ClusterFile("b"));
    forall n ensures PackLoad.KindManifests("b") + [n] !in t {
      NothingElseBelow(x, beside, PackLoad.KindManifests("b") + [n]);
    }
  }

  lemma SampleIsAccepted(d: PackLoad.Decoders, x: Texts, beside: Node)
    requires Takes(d, x)
    ensures WellFormed(Sample(x, beside)) && PackLoad.Acceptable(Sample(x, beside), d)
    ensures PackLoad.BundleOk(Sample(x, beside), d, "b")
    ensures PackLoad.DescribesBundle(Sample(x, beside), d, SampleBundle(d, x))
    ensures Ships(Sample(x, beside), SampleBundle(d, x))
  {
    hide Sample, InSample, PackLoad.BundleOk, PackLoad.DescribesBundle, PackLoad.Folders, WellFormed, Ships;
    SampleIsWellFormed(x, beside);
    SampleAt(x, beside, PACK_FILE);
    SampleAt(x, beside, TASK[..1]);
    assert PackLoad.BUNDLES == TASK[..1];
    SampleFolders(x, beside);
    SampleBundleLoads(d, x, beside);
    PackLoad.LoadedBundleShips(Sample(x, beside), d, SampleBundle(d, x));
  }

  lemma SamplePart(d: PackLoad.Decoders, x: Texts)
    requires Takes(d, x)
    ensures Parts(SampleBundle(d, x)) == [TaskPart(SampleBundle(d, x), "s")]
    ensures TaskPart(SampleBundle(d, x), "s").src == TASK
  {
  }

  lemma ModuleNames()
    ensures Named([GO_MOD], GO_MOD) && Named([PLACEHOLDER], PLACEHOLDER)
    ensures Sibling([GO_MOD], PLACEHOLDER) == [PLACEHOLDER] && Sibling([PLACEHOLDER], GO_MOD) == [GO_MOD]
  {
  }

  /** Packs that load and cannot be staged: a folder takes the place that the
      placeholder's module file should have.  Whatever schemas the manifests meet, and
      whatever the placeholder says. */
  lemma AcceptedPackCannotBeStaged(disk: Tree, d: PackLoad.Decoders, x: Texts)
    requires Unstaged(disk) && Takes(d, x)
    ensures var fs, b := Sample(x, Dir), SampleBundle(d, x);
      && WellFormed(fs) && PackLoad.Acceptable(fs, d) && PackLoad.DescribesBundle(fs, d, b)
      && !StagedParts(disk, fs, Parts(b)).1
  {
    hide *;
    var fs, b := Sample(x, Dir), SampleBundle(d, x);
    SampleIsAccepted(d, x, Dir);
    SamplePart(d, x);
    SampleAt(x, Dir, TASK + [GO_MOD]);
    SampleAt(x, Dir, TASK + [PLACEHOLDER]);
    ClashesBeside(fs, TASK, x.placeholder);
    FreshPayload(disk, fs, b);
    assert Parts(b)[0].src == TASK;
  }

  lemma ClashesBeside(fs: Tree, src: Path, text: string)
    requires At(fs, src + [GO_MOD]) == Some(Dir)
    requires At(fs, src + [PLACEHOLDER]) == Some(File(text, false))
    ensures Clash(fs, src)
  {
    ModuleNames();
    assert ClashAt(fs, src, [GO_MOD]);
  }

  /** Packs that load, are staged, and lose a shipped file on the way: whatever schemas
      the manifests meet, and for any two texts of placeholder and module file, the
      placeholder is lost exactly when they differ. */
  lemma AcceptedPackLosesAFile(disk: Tree, d: PackLoad.Decoders, x: Texts, own: string)
    requires Unstaged(disk) && Takes(d, x)
    ensures var fs, b := Sample(x, File(own, false)), SampleBundle(d, x);
      && WellFormed(fs) && PackLoad.Acceptable(fs, d) && PackLoad.DescribesBundle(fs, d, b)
      && StagedParts(disk, fs, Parts(b)).1
      && |Parts(b)| == 1 && IsFile(fs, Parts(b)[0].src + [PLACEHOLDER])
      && (Arrives(StagedParts(disk, fs, Parts(b)).0, fs, Parts(b)[0], [PLACEHOLDER]) <==> own == x.placeholder)
  {
    hide *;
    var fs, b := Sample(x, File(own, false)), SampleBundle(d, x);
    SampleIsAccepted(d, x, File(own, false));
    SamplePart(d, x);
    assert Parts(b)[0].src == TASK;
    SampleAt(x, File(own, false), TASK + [GO_MOD]);
    SampleAt(x, File(own, false), TASK + [PLACEHOLDER]);
    OverwrittenBeside(fs, TASK, x.placeholder, own);
    NoClashHere(x, own);
    FreshPayload(disk, fs, b);
    ArrivesExactly(disk, fs, b, 0, [PLACEHOLDER]);
  }

  lemma OverwrittenBeside(fs: Tree, src: Path, text: string, own: string)
    requires At(fs, src + [GO_MOD]) == Some(File(own, false))
    requires At(fs, src + [PLACEHOLDER]) == Some(File(text, false))
    ensures IsFile(fs, src + [PLACEHOLDER]) && (Overwritten(fs, src, [PLACEHOLDER]) <==> own != text)
  {
    ModuleNames();
  }

  lemma NoClashHere(x: Texts, own: string)
    ensures !Clash(Sample(x, File(own, false)), TASK)
  {
    hide Sample, GO_MOD, PLACEHOLDER;
    var beside := File(own, false);
    SampleAt(x, beside, TASK + [GO_MOD]);
    SampleAt(x, beside, TASK + [PLACEHOLDER]);
    forall r ensures !ClashAt(Sample(x, beside), TASK, r) {
      SampleAt(x, beside, TASK + r);
    }
  }
}
