/** What a staged payload holds, path by path: which folders of a pack leave it, under
    which names, and nothing besides. */
module Shipping {
  import opened Options
  import opened FileTree
  import opened Bundles
  import opened Payloads
  import DirNames
  import PackLoad

  /** What staging makes of the folder `dir` at `q`: its directories, its files with mode
      0755 for those named `*.sh` and 0644 for the others, a `_go.mod` as the `go.mod`
      beside it unless there is one. */
  function Shown(fs: Tree, dir: Path, q: Path): Option<Node> {
    var here := At(fs, dir + q);
    if q == [] then here
    else
      var name := q[|q| - 1];
      var placeholder := At(fs, dir + q[..|q| - 1] + ["_go.mod"]);
      if here == Some(Dir) then Some(Dir)
      else if here.Some? then
        if name == "_go.mod" then None
        else Some(File(here.value.data, |name| >= 3 && name[|name| - 3..] == ".sh"))
      else if name == "go.mod" && placeholder.Some? && placeholder.value.File? then
        Some(File(placeholder.value.data, false))
      else None
  }

  lemma ImageIsShown(fs: Tree, src: Path, q: Path)
    requires IsDir(fs, src)
    ensures Image(fs, src, q) == Shown(fs, src, q)
  {
    if q == [] {
      RootImage(fs, src);
    } else {
      NameBelow(src, q, PLACEHOLDER);
      assert src + Sibling(q, PLACEHOLDER) == src + q[..|q| - 1] + ["_go.mod"];
      assert Named(q, PLACEHOLDER) <==> q[|q| - 1] == "_go.mod";
      assert Named(q, GO_MOD) <==> q[|q| - 1] == "go.mod";
      assert (src + q)[|src + q| - 1] == q[|q| - 1];
      assert q in Below(fs, src) <==> At(fs, src + q).Some?;
      assert IsFile(fs, src + Sibling(q, PLACEHOLDER)) ==> Sibling(q, PLACEHOLDER) in Below(fs, src);
    }
  }

  /** A bundle staged for the first time, with success. */
  ghost predicate FirstStaging(disk: Tree, fs: Tree, b: Bundle) {
    Ships(fs, b) && Unstaged(disk) && StagedParts(disk, fs, Parts(b)).1
  }

  ghost function Payload(disk: Tree, fs: Tree, b: Bundle): Tree {
    StagedParts(disk, fs, Parts(b)).0
  }

  // -------------------------------------------------- below, above, elsewhere

  lemma BelowPart(disk: Tree, fs: Tree, b: Bundle, k: nat, q: Path)
    requires FirstStaging(disk, fs, b) && k < |Parts(b)|
    ensures At(Payload(disk, fs, b), Parts(b)[k].dst + q) == Shown(fs, Parts(b)[k].src, q)
  {
    var parts := Parts(b);
    hide Ships, Unstaged, Parts, Apart, Expected, StagedParts, Image, Clash, Shown;
    PartsAreApart(fs, b);
    PartsAreFolders(fs, b, k);
    FreshPayload(disk, fs, b);
    ImageIsShown(fs, parts[k].src, q);
    Drop(parts[k].dst, q);
    if q == [] {
      WayIsDir(disk, fs, parts, k, parts[k].dst + q);
      assert parts[k].dst + [] == parts[k].dst && parts[k].src + [] == parts[k].src;
      RootImage(fs, parts[k].src);
    } else {
      BelowOnePart(disk, fs, parts, k, q);
      UnstagedBelow(disk, parts[k].dst);
    }
  }

  lemma AbovePart(disk: Tree, fs: Tree, b: Bundle, k: nat, p: Path)
    requires FirstStaging(disk, fs, b) && k < |Parts(b)| && p <= Parts(b)[k].dst
    ensures At(Payload(disk, fs, b), p) == Some(Dir)
  {
    hide Ships, Unstaged, Parts, Apart, Expected, StagedParts;
    PartsAreApart(fs, b);
    PartsAreFolders(fs, b, k);
    FreshPayload(disk, fs, b);
    WayIsDir(disk, fs, Parts(b), k, p);
  }

  lemma {:induction false} ExpectedElsewhere(disk: Tree, fs: Tree, parts: seq<Part>, p: Path)
    requires forall k :: 0 <= k < |parts| ==> !Nested(parts[k].dst, p)
    ensures Expected(disk, fs, parts, p) == At(disk, p)
  {
    if parts != [] {
      ExpectedElsewhere(disk, fs, parts[..|parts| - 1], p);
    }
  }

  lemma Elsewhere(disk: Tree, fs: Tree, b: Bundle, p: Path)
    requires FirstStaging(disk, fs, b) && p != [] && p[0] == "payload"
    requires forall k :: 0 <= k < |Parts(b)| ==> !Nested(Parts(b)[k].dst, p)
    ensures At(Payload(disk, fs, b), p) == None
  {
    hide Ships, Parts, Apart, Expected, StagedParts, Nested;
    FreshPayload(disk, fs, b);
    ExpectedElsewhere(disk, fs, Parts(b), p);
  }

  // -------------------------------------------------- part by part, literally

  /** The parts in order: tasks, lab, cluster configuration. */
  lemma PartsAre(b: Bundle)
    ensures |Parts(b)| == |b.scenarios| + (if b.hasLab then 1 else 0) + (if b.hasKind then 1 else 0)
    ensures forall k :: 0 <= k < |b.scenarios| ==>
      Parts(b)[k] == Part(["bundles", b.name, "scenarios", b.scenarios[k].name, "task"],
                          ["payload", "workspace", b.scenarios[k].name])
    ensures b.hasLab ==> Parts(b)[|b.scenarios|] == Part(["bundles", b.name, "lab"], ["payload", "lab"])
    ensures b.hasKind ==> Parts(b)[|Parts(b)| - 1] == Part(["bundles", b.name, "kind"], ["payload", "kind"])
  {
  }

  predicate HasScenario(b: Bundle, s: string) {
    exists k :: 0 <= k < |b.scenarios| && b.scenarios[k].name == s
  }

  /** Where a path of the payload lies: the folder of the pack it is made from, and its
      place in it. */
  datatype Place = In(dir: Path, rest: Path) | Above | Outside

  function PlaceOf(b: Bundle, p: Path): Place
    requires p != []
  {
    if |p| == 1 then if b.scenarios != [] || b.hasLab || b.hasKind then Above else Outside
    else if p[1] == "workspace" then
      if |p| == 2 then if b.scenarios != [] then Above else Outside
      else if HasScenario(b, p[2]) then In(["bundles", b.name, "scenarios", p[2], "task"], p[3..])
      else Outside
    else if p[1] == "lab" && b.hasLab then In(["bundles", b.name, "lab"], p[2..])
    else if p[1] == "kind" && b.hasKind then In(["bundles", b.name, "kind"], p[2..])
    else Outside
  }

  /** A part that `p` is at or below. */
  predicate IsPlacedIn(part: Part, p: Path, place: Place) {
    place.In? && part.dst <= p && part.src == place.dir && p[|part.dst|..] == place.rest
  }

  lemma InIsInAPart(b: Bundle, p: Path)
    requires p != [] && p[0] == "payload" && PlaceOf(b, p).In?
    ensures exists k :: 0 <= k < |Parts(b)| && IsPlacedIn(Parts(b)[k], p, PlaceOf(b, p))
  {
    PartsAre(b);
    hide Parts;
    if p[1] == "workspace" {
      var k :| 0 <= k < |b.scenarios| && b.scenarios[k].name == p[2];
      assert p[..3] == Parts(b)[k].dst;
      assert IsPlacedIn(Parts(b)[k], p, PlaceOf(b, p));
    } else {
      var k := if p[1] == "lab" && b.hasLab then |b.scenarios| else |Parts(b)| - 1;
      assert p[..2] == Parts(b)[k].dst;
      assert IsPlacedIn(Parts(b)[k], p, PlaceOf(b, p));
    }
  }

  lemma AboveIsAboveAPart(b: Bundle, p: Path)
    requires p != [] && p[0] == "payload" && PlaceOf(b, p).Above?
    ensures exists k :: 0 <= k < |Parts(b)| && p <= Parts(b)[k].dst
  {
    PartsAre(b);
    hide Parts;
    var k := if b.scenarios != [] then 0 else |Parts(b)| - 1;
    assert p <= Parts(b)[k].dst;
  }

  lemma FolderNames()
    ensures "workspace" != "lab" && "workspace" != "kind" && "lab" != "kind"
  {
    assert "workspace"[0] != "lab"[0] && "workspace"[0] != "kind"[0] && "lab"[0] != "kind"[0];
  }

  lemma OutsideIsElsewhere(b: Bundle, p: Path, k: nat)
    requires p != [] && p[0] == "payload" && PlaceOf(b, p).Outside? && k < |Parts(b)|
    ensures !Nested(Parts(b)[k].dst, p)
  {
    PartsAre(b);
    PartAt(b, k);
    FolderNames();
    var dst := Parts(b)[k].dst;
    hide Parts;
    if k < |b.scenarios| {
      assert dst == ["payload", "workspace", b.scenarios[k].name];
      assert HasScenario(b, dst[2]);
    }
    NestedShare(dst, p, 1);
    NestedShare(dst, p, 2);
    hide Nested;
  }

  lemma NestedShare(a: Path, b: Path, n: nat)
    ensures Nested(a, b) && n < |a| && n < |b| ==> a[n] == b[n]
  {
  }

  /** The payload, path by path.  After a first staging that works there is at every path
      below `payload` exactly this: a scenario's task below `workspace/` and its name, the
      lab below `lab`, the cluster configuration below `kind`, the folders these are in,
      and nothing else; no solution, no manifest, no other scenario. */
  lemma PayloadIsShared(disk: Tree, fs: Tree, b: Bundle, p: Path)
    requires FirstStaging(disk, fs, b) && p != [] && p[0] == "payload"
    ensures At(Payload(disk, fs, b), p) ==
      if |p| == 1 then if b.scenarios != [] || b.hasLab || b.hasKind then Some(Dir) else None
      else if p[1] == "workspace" then
        if |p| == 2 then if b.scenarios != [] then Some(Dir) else None
        else if HasScenario(b, p[2]) then Shown(fs, ["bundles", b.name, "scenarios", p[2], "task"], p[3..])
        else None
      else if p[1] == "lab" && b.hasLab then Shown(fs, ["bundles", b.name, "lab"], p[2..])
      else if p[1] == "kind" && b.hasKind then Shown(fs, ["bundles", b.name, "kind"], p[2..])
      else None
  {
    hide FirstStaging, Parts, Payload, Shown, HasScenario;
    var place, parts := PlaceOf(b, p), Parts(b);
    match place {
      case In(dir, rest) =>
        InIsInAPart(b, p);
        var k :| 0 <= k < |parts| && IsPlacedIn(parts[k], p, place);
        assert p == parts[k].dst + rest;
        BelowPart(disk, fs, b, k, rest);
      case Above =>
        AboveIsAboveAPart(b, p);
        var k :| 0 <= k < |parts| && p <= parts[k].dst;
        AbovePart(disk, fs, b, k, p);
      case Outside =>
        forall k | 0 <= k < |parts| ensures !Nested(parts[k].dst, p) {
          OutsideIsElsewhere(b, p, k);
        }
        Elsewhere(disk, fs, b, p);
    }
  }

  // ------------------------------------------------------------ consequences

  /** The file is a copy of the one at its own place in the folder, or for a `go.mod` that
      is not there, of the `_go.mod` beside it; executable exactly when named `*.sh`. */
  predicate MadeFrom(fs: Tree, dir: Path, q: Path, node: Node) {
    && q != [] && node.File?
    && var name := q[|q| - 1];
    && (node.exec <==> |name| >= 3 && name[|name| - 3..] == ".sh")
    && var source := At(fs, if name == "go.mod" && !IsFile(fs, dir + q) then dir + q[..|q| - 1] + ["_go.mod"] else dir + q);
       source.Some? && source.value.File? && source.value.data == node.data
  }

  lemma ShownIsMadeFrom(fs: Tree, dir: Path, q: Path)
    requires IsDir(fs, dir) && Shown(fs, dir, q).Some? && Shown(fs, dir, q).value.File?
    ensures MadeFrom(fs, dir, q, Shown(fs, dir, q).value)
  {
    assert q == [] ==> dir + q == dir;
    GoModIsNoScript();
  }

  lemma GoModIsNoScript()
    ensures "go.mod"[3..] != ".sh"
  {
    assert "go.mod"[3..][0] != ".sh"[0];
  }

  /** Every staged file is made from one file of a shared folder: a scenario's task, the
      lab or the cluster configuration. */
  lemma StagedFileIsMadeFrom(disk: Tree, fs: Tree, b: Bundle, p: Path)
    requires FirstStaging(disk, fs, b) && p != [] && p[0] == "payload" && IsFile(Payload(disk, fs, b), p)
    ensures var node := At(Payload(disk, fs, b), p).value;
      || (|p| > 3 && p[1] == "workspace" && HasScenario(b, p[2])
          && MadeFrom(fs, ["bundles", b.name, "scenarios", p[2], "task"], p[3..], node))
      || (|p| > 2 && p[1] == "lab" && b.hasLab && MadeFrom(fs, ["bundles", b.name, "lab"], p[2..], node))
      || (|p| > 2 && p[1] == "kind" && b.hasKind && MadeFrom(fs, ["bundles", b.name, "kind"], p[2..], node))
  {
    PayloadIsShared(disk, fs, b, p);
    SharedAreFolders(disk, fs, b);
    hide FirstStaging, Payload, Shown;
    if p[1] == "workspace" {
      ShownIsMadeFrom(fs, ["bundles", b.name, "scenarios", p[2], "task"], p[3..]);
    } else if p[1] == "lab" {
      ShownIsMadeFrom(fs, ["bundles", b.name, "lab"], p[2..]);
    } else {
      ShownIsMadeFrom(fs, ["bundles", b.name, "kind"], p[2..]);
    }
  }

  lemma SharedAreFolders(disk: Tree, fs: Tree, b: Bundle)
    requires FirstStaging(disk, fs, b)
    ensures forall s :: HasScenario(b, s) ==> IsDir(fs, ["bundles", b.name, "scenarios", s, "task"])
    ensures b.hasLab ==> IsDir(fs, ["bundles", b.name, "lab"])
    ensures b.hasKind ==> IsDir(fs, ["bundles", b.name, "kind"])
  {
    hide WellFormed, Unstaged, StagedParts;
  }

  /** A directory named `go.mod` beside a `_go.mod` file. */
  ghost predicate Blocked(fs: Tree, dir: Path) {
    exists q: Path :: IsDir(fs, dir + q + ["go.mod"]) && IsFile(fs, dir + q + ["_go.mod"])
  }

  lemma ClashIsBlocked(fs: Tree, dir: Path)
    ensures Clash(fs, dir) <==> Blocked(fs, dir)
  {
    if Clash(fs, dir) {
      var r :| ClashAt(fs, dir, r);
      var q := r[..|r| - 1];
      assert dir + r == dir + q + ["go.mod"] && dir + Sibling(r, PLACEHOLDER) == dir + q + ["_go.mod"];
    }
    if Blocked(fs, dir) {
      var q :| IsDir(fs, dir + q + ["go.mod"]) && IsFile(fs, dir + q + ["_go.mod"]);
      var r := q + ["go.mod"];
      assert r[..|r| - 1] == q;
      assert dir + r == dir + q + ["go.mod"] && dir + Sibling(r, PLACEHOLDER) == dir + q + ["_go.mod"];
      assert ClashAt(fs, dir, r);
    }
  }

  /** Staging for the first time fails exactly when a shared folder has a directory where
      a module file must go; what was on the disk besides stays as it was. */
  lemma StagingFailsExactly(disk: Tree, fs: Tree, b: Bundle)
    requires Ships(fs, b) && Unstaged(disk)
    ensures FirstStaging(disk, fs, b) <==>
      && (forall s :: HasScenario(b, s) ==> !Blocked(fs, ["bundles", b.name, "scenarios", s, "task"]))
      && (b.hasLab ==> !Blocked(fs, ["bundles", b.name, "lab"]))
      && (b.hasKind ==> !Blocked(fs, ["bundles", b.name, "kind"]))
  {
    FreshPayload(disk, fs, b);
    hide Ships, Unstaged, StagedParts, Parts, Expected, Clash, Blocked;
    forall k | 0 <= k < |Parts(b)| ensures Clash(fs, Parts(b)[k].src) <==> Blocked(fs, Parts(b)[k].src) {
      ClashIsBlocked(fs, Parts(b)[k].src);
    }
    NoneBlocked(fs, b);
  }

  lemma NoneBlocked(fs: Tree, b: Bundle)
    ensures (forall k :: 0 <= k < |Parts(b)| ==> !Blocked(fs, Parts(b)[k].src)) <==>
      && (forall s :: HasScenario(b, s) ==> !Blocked(fs, ["bundles", b.name, "scenarios", s, "task"]))
      && (b.hasLab ==> !Blocked(fs, ["bundles", b.name, "lab"]))
      && (b.hasKind ==> !Blocked(fs, ["bundles", b.name, "kind"]))
  {
    var parts := Parts(b);
    PartsAre(b);
    hide Parts, Blocked;
    if forall k :: 0 <= k < |parts| ==> !Blocked(fs, parts[k].src) {
      forall s | HasScenario(b, s) ensures !Blocked(fs, ["bundles", b.name, "scenarios", s, "task"]) {
        var k :| 0 <= k < |b.scenarios| && b.scenarios[k].name == s;
        assert !Blocked(fs, parts[k].src);
      }
    }
    forall k | 0 <= k < |parts|
      ensures
        if k < |b.scenarios| then
          HasScenario(b, b.scenarios[k].name)
          && parts[k].src == ["bundles", b.name, "scenarios", b.scenarios[k].name, "task"]
        else (b.hasLab && parts[k].src == ["bundles", b.name, "lab"]) || (b.hasKind && parts[k].src == ["bundles", b.name, "kind"])
    {
      PartAt(b, k);
    }
  }

  /** Everything else on the disk stays as it was. */
  lemma RestOfTheDiskStays(disk: Tree, fs: Tree, b: Bundle, p: Path)
    requires FirstStaging(disk, fs, b) && (p == [] || p[0] != "payload")
    ensures At(Payload(disk, fs, b), p) == At(disk, p)
  {
    FreshPayload(disk, fs, b);
    hide Ships, Unstaged, StagedParts, Parts, Clash;
    if p != [] {
      forall k | 0 <= k < |Parts(b)| ensures !Nested(Parts(b)[k].dst, p) {
        PartsAreFolders(fs, b, k);
        NestedShare(Parts(b)[k].dst, p, 0);
      }
      ExpectedElsewhere(disk, fs, Parts(b), p);
    }
  }

  // ------------------------------------------------- the files that are run

  /** A bundle of an accepted pack, staged for the first time, has its setup hook and its
      cluster configuration where they are looked for, with the pack's contents, and the
      hook executable. */
  lemma HookAndClusterAreStaged(disk: Tree, fs: Tree, d: PackLoad.Decoders, b: Bundle)
    requires WellFormed(fs) && PackLoad.BundleOk(fs, d, b.name) && PackLoad.DescribesBundle(fs, d, b)
    requires Unstaged(disk) && StagedParts(disk, fs, Parts(b)).1
    ensures var (t, lab, kind) := (Payload(disk, fs, b), ["bundles", b.name, "lab"], ["bundles", b.name, "kind"]);
      && (b.hasSetup ==>
            && IsFile(fs, lab + ["setup.sh"])
            && At(t, ["payload", "lab", "setup.sh"]) == Some(File(At(fs, lab + ["setup.sh"]).value.data, true)))
      && (b.hasKind ==>
            && IsFile(fs, kind + ["cluster.yaml"])
            && At(t, ["payload", "kind", "cluster.yaml"]) == Some(File(At(fs, kind + ["cluster.yaml"]).value.data, false)))
  {
    PackLoad.LoadedBundleShips(fs, d, b);
    Described(fs, d, b);
    assert FirstStaging(disk, fs, b);
    hide *;
    if b.hasSetup {
      LabFileIsShown(disk, fs, b, "setup.sh");
      SetupIsScript();
      ShownFile(fs, ["bundles", b.name, "lab"], "setup.sh");
    }
    if b.hasKind {
      KindFileIsShown(disk, fs, b, "cluster.yaml");
      ClusterIsNoScript();
      ShownFile(fs, ["bundles", b.name, "kind"], "cluster.yaml");
    }
  }

  lemma LabFileIsShown(disk: Tree, fs: Tree, b: Bundle, name: string)
    requires FirstStaging(disk, fs, b) && b.hasLab
    ensures At(Payload(disk, fs, b), ["payload", "lab", name]) == Shown(fs, ["bundles", b.name, "lab"], [name])
  {
    var p := ["payload", "lab", name];
    assert p[2..] == [name];
    FolderNames();
    hide *;
    PayloadIsShared(disk, fs, b, p);
  }

  lemma KindFileIsShown(disk: Tree, fs: Tree, b: Bundle, name: string)
    requires FirstStaging(disk, fs, b) && b.hasKind
    ensures At(Payload(disk, fs, b), ["payload", "kind", name]) == Shown(fs, ["bundles", b.name, "kind"], [name])
  {
    var p := ["payload", "kind", name];
    assert p[2..] == [name];
    FolderNames();
    hide *;
    PayloadIsShared(disk, fs, b, p);
  }

  lemma Described(fs: Tree, d: PackLoad.Decoders, b: Bundle)
    requires PackLoad.DescribesBundle(fs, d, b)
    ensures b.hasSetup == IsFile(fs, ["bundles", b.name, "lab"] + ["setup.sh"])
    ensures b.hasKind == IsFile(fs, ["bundles", b.name, "kind"] + ["cluster.yaml"])
  {
    assert ["bundles", b.name, "lab"] + ["setup.sh"] == ["bundles", b.name, "lab", "setup.sh"];
    assert ["bundles", b.name, "kind"] + ["cluster.yaml"] == PackLoad.ClusterFile(b.name);
    hide PackLoad.DescribesScenarios;
  }

  lemma ShownFile(fs: Tree, dir: Path, name: string)
    requires IsFile(fs, dir + [name]) && name != "_go.mod"
    ensures Shown(fs, dir, [name])
         == Some(File(At(fs, dir + [name]).value.data, |name| >= 3 && name[|name| - 3..] == ".sh"))
  {
  }

  lemma SetupIsScript()
    ensures "setup.sh" != "_go.mod" && "setup.sh"[5..] == ".sh"
  {
  }

  lemma ClusterIsNoScript()
    ensures "cluster.yaml" != "_go.mod" && "cluster.yaml"[9..] != ".sh"
  {
    assert "cluster.yaml"[9..][0] == 'a';
  }
}
