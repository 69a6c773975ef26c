/** When compose starts a session's stack, everything its override mounts is in
    place: loading, staging, pushing and the order of launch phases together. */
module ComposeMounts {
  import opened Options
  import opened FileTree
  import opened Bundles
  import opened Text
  import Sessions
  import Lifecycle
  import LaunchRuns
  import Payloads
  import PayloadTar
  import PackLoad
  import Override = ComposeOverride
  import DirNames

  const COMPOSE: Path := ["compose.yaml"]
  const OVERRIDE: Path := ["override.yaml"]
  const KUBECONFIG: Path := ["payload", "kubeconfig"]
  const ADMIN: Path := ["payload", "kubeconfig.admin"]
  const SETUP: Path := ["payload", "lab", "setup.sh"]

  function Plain(t: string): Node { File(t, false) }

  // ----------------------------------------------- what each step leaves

  /** The stack folder on the engine's disk once staging worked: the compose file,
      and for a bundle its payload and the override. */
  ghost function StagedStack(fs: Tree, bundle: Option<Bundle>, compose: string): Tree {
    var base := map[COMPOSE := Plain(compose)];
    if bundle.None? then base
    else
      var b := bundle.value;
      Payloads.StagedParts(base, fs, Payloads.Parts(b)).0[OVERRIDE
        := Plain(Override.Unlines(Override.OverrideLines(true, b.hasLab, b.hasKind)))]
  }

  /** The same folder on the VM once the stack files were pushed: the override goes
      along when staging wrote one. */
  ghost function PushedStack(host: Tree): Tree {
    var files := map[COMPOSE := if IsFile(host, COMPOSE) then host[COMPOSE] else Plain("")];
    if OVERRIDE in host then files[OVERRIDE := host[OVERRIDE]] else files
  }

  /** And once the payload was pushed. */
  ghost function WithPayload(vm: Tree, host: Tree): Tree {
    if At(host, ["payload"]).None? then vm
    else
      var r := PayloadTar.UnpackAll(vm, PayloadTar.TarOf(host, ["payload"]));
      if r.None? then vm else r.value
  }

  /** The folder compose runs in, from the steps that worked: on this machine it is
      the staged one, on a VM the pushed one. */
  ghost function StackFolder(i: Lifecycle.Inputs, fs: Tree, compose: string, worked: set<Lifecycle.Step>): Tree {
    var host := if Lifecycle.StageFiles in worked then StagedStack(fs, i.bundle, compose) else map[];
    var pushed := if Lifecycle.PushCompose in worked then PushedStack(host) else map[];
    var here :=
      if !i.cloud then host else if Lifecycle.PushTar in worked then WithPayload(pushed, host) else pushed;
    if Lifecycle.MakeCluster !in worked then here
    else if i.cloud then here[KUBECONFIG := Plain("")] else here[ADMIN := Plain("")][KUBECONFIG := Plain("")]
  }

  /** The steps of a log that worked. */
  function Worked(log: seq<Lifecycle.Event>, breaks: set<Lifecycle.Step>): set<Lifecycle.Step> {
    set e | e in log && e.Attempted? && e.step !in breaks :: e.step
  }

  /** Where a mount's source is, seen from the folder compose runs in. */
  function SourceOf(m: Override.Mount): Path {
    if |m.source| >= 2 then Split(m.source[2..], '/') else []
  }

  lemma Sources()
    ensures SourceOf(Override.WORKSPACE) == ["payload", "workspace"]
    ensures SourceOf(Override.LAB) == ["payload", "lab"]
    ensures SourceOf(Override.KUBECONFIG) == KUBECONFIG
  {
    hide SourceOf;
    WorkspaceSource();
    LabSource();
    KubeconfigSource();
  }

  lemma WorkspaceSource()
    ensures SourceOf(Override.WORKSPACE) == ["payload", "workspace"]
  {
    assert "./payload/workspace" == "./payload/" + "workspace";
    assert '/' !in "workspace";
    hide SourceOf;
    SourceIs(Override.WORKSPACE, "workspace");
  }

  lemma LabSource()
    ensures SourceOf(Override.LAB) == ["payload", "lab"]
  {
    assert "./payload/lab" == "./payload/" + "lab";
    assert '/' !in "lab";
    hide SourceOf;
    SourceIs(Override.LAB, "lab");
  }

  lemma KubeconfigSource()
    ensures SourceOf(Override.KUBECONFIG) == KUBECONFIG
  {
    assert "./payload/kubeconfig" == "./payload/" + "kubeconfig";
    assert '/' !in "kubeconfig";
    hide SourceOf;
    SourceIs(Override.KUBECONFIG, "kubeconfig");
  }

  lemma SourceIs(m: Override.Mount, name: string)
    requires m.source == "./payload/" + name && '/' !in name
    ensures SourceOf(m) == ["payload", name]
  {
    assert m.source[2..] == "payload" + ['/'] + name;
    assert '/' !in "payload";
    SplitUpTo("payload", name, '/');
    SplitWhole(name, '/');
  }

  // ------------------------------------------------ the staged stack folder

  lemma BaseIsUnstaged(compose: string)
    ensures Payloads.Unstaged(map[COMPOSE := Plain(compose)]) && WellFormed(map[COMPOSE := Plain(compose)])
  {
    var base: Tree := map[COMPOSE := Plain(compose)];
    assert COMPOSE[0][0] == 'c' && Payloads.PAYLOAD[0] == 'p';
    assert IsFileName("compose.yaml") by { assert '/' !in "compose.yaml"; }
    assert COMPOSE[..0] == [];
    assert HasPlace(base, COMPOSE);
  }

  /** What a staged bundle's folder is known to hold. */
  ghost predicate HoldsBundle(t: Tree, b: Bundle) {
    && IsDir(t, ["payload"]) && IsDir(t, ["payload", "workspace"])
    && (b.hasLab ==> IsDir(t, ["payload", "lab"]))
    && (b.hasSetup ==> At(t, SETUP).Some? && At(t, SETUP).value.File? && At(t, SETUP).value.exec)
  }

  lemma StagedHoldsBundle(fs: Tree, d: PackLoad.Decoders, b: Bundle, base: Tree)
    requires WellFormed(fs) && PackLoad.BundleOk(fs, d, b.name) && PackLoad.DescribesBundle(fs, d, b)
    requires Payloads.Unstaged(base) && Payloads.StagedParts(base, fs, Payloads.Parts(b)).1
    ensures HoldsBundle(Payloads.StagedParts(base, fs, Payloads.Parts(b)).0, b)
  {
    hide *;
    var parts := Payloads.Parts(b);
    var t := Payloads.StagedParts(base, fs, parts).0;
    PackLoad.LoadedBundleShips(fs, d, b);
    SetupIsFile(fs, d, b);
    Payloads.PartsAreApart(fs, b);
    Payloads.FreshPayload(base, fs, b);
    FirstPart(b);
    Payloads.PartsAreFolders(fs, b, 0);
    Payloads.WayIsDir(base, fs, parts, 0, ["payload"]);
    Payloads.WayIsDir(base, fs, parts, 0, ["payload", "workspace"]);
    if b.hasLab {
      LabIsStaged(fs, b, base);
    }
    BundleIsHeld(t, b);
  }

  lemma SetupIsFile(fs: Tree, d: PackLoad.Decoders, b: Bundle)
    requires PackLoad.DescribesBundle(fs, d, b)
    ensures b.hasSetup == IsFile(fs, ["bundles", b.name, "lab", "setup.sh"])
  {
    hide PackLoad.DescribesScenarios;
  }

  lemma FirstPart(b: Bundle)
    requires b.scenarios != []
    ensures Payloads.Parts(b) != []
    ensures OnTheWay(["payload"], Payloads.Parts(b)[0].dst)
    ensures OnTheWay(["payload", "workspace"], Payloads.Parts(b)[0].dst)
  {
    FirstTaskWay(Payloads.TaskPart(b, b.scenarios[0].name).dst);
    hide OnTheWay;
    assert Payloads.Parts(b)[0] == Payloads.TaskPart(b, b.scenarios[0].name);
  }

  lemma BundleIsHeld(t: Tree, b: Bundle)
    requires At(t, ["payload"]) == Some(Dir) && At(t, ["payload", "workspace"]) == Some(Dir)
    requires b.hasLab ==> At(t, ["payload", "lab"]) == Some(Dir)
    requires b.hasSetup ==> b.hasLab && At(t, SETUP).Some? && At(t, SETUP).value.File? && At(t, SETUP).value.exec
    ensures HoldsBundle(t, b)
  {
    hide At;
  }

  lemma LabIsStaged(fs: Tree, b: Bundle, base: Tree)
    requires Payloads.Ships(fs, b) && Payloads.Apart(Payloads.Parts(b)) && b.hasLab
    requires b.hasSetup ==> IsFile(fs, ["bundles", b.name, "lab", "setup.sh"])
    ensures Payloads.Expected(base, fs, Payloads.Parts(b), ["payload", "lab"]) == Some(Dir)
    ensures b.hasSetup ==>
      var x := Payloads.Expected(base, fs, Payloads.Parts(b), SETUP); x.Some? && x.value.File? && x.value.exec
  {
    var k := |b.scenarios|;
    Payloads.PartAt(b, k);
    Payloads.PartsAreFolders(fs, b, k);
    hide Payloads.Ships, Payloads.Apart, Payloads.Parts, Payloads.Expected;
    Payloads.WayIsDir(base, fs, Payloads.Parts(b), k, ["payload", "lab"]);
    if b.hasSetup {
      SetupIsStaged(fs, b, base, k);
    }
  }

  lemma FirstTaskWay(dst: Path)
    requires |dst| == 3 && dst[0] == "payload" && dst[1] == "workspace"
    ensures OnTheWay(["payload"], dst) && OnTheWay(["payload", "workspace"], dst)
  {
    assert dst[..1] == ["payload"] && dst[..2] == ["payload", "workspace"];
  }

  lemma SetupIsStaged(fs: Tree, b: Bundle, base: Tree, k: nat)
    requires k < |Payloads.Parts(b)| && Payloads.Parts(b)[k] == Payloads.LabPart(b)
    requires Payloads.Apart(Payloads.Parts(b)) && IsFile(fs, ["bundles", b.name, "lab", "setup.sh"])
    requires IsDir(fs, ["bundles", b.name, "lab"])
    ensures var x := Payloads.Expected(base, fs, Payloads.Parts(b), SETUP);
      x.Some? && x.value.File? && x.value.exec
  {
    var src: Path := ["bundles", b.name, "lab"];
    var q: Path := ["setup.sh"];
    assert src + q == ["bundles", b.name, "lab", "setup.sh"];
    assert SETUP[2..] == q && ["payload", "lab"] <= SETUP;
    assert q in Below(fs, src);
    SetupIsShell(src + q);
    assert Payloads.Image(fs, src, q) == Some(File(At(fs, src + q).value.data, true));
    Payloads.CoveredIsExpected(base, fs, Payloads.Parts(b), k, SETUP);
  }

  lemma SetupIsShell(p: Path)
    requires p != [] && p[|p| - 1] == "setup.sh"
    ensures Payloads.IsShell(p) && !Payloads.Named(p, Payloads.PLACEHOLDER)
  {
    assert "setup.sh"[5..] == ".sh";
    assert "setup.sh"[0] != Payloads.PLACEHOLDER[0];
  }

  lemma StagedIsWellFormed(fs: Tree, b: Bundle, base: Tree)
    requires Payloads.Ships(fs, b) && WellFormed(base)
    requires forall k :: 0 <= k < |b.scenarios| ==> DirNames.IsDirName(b.scenarios[k].name)
    ensures WellFormed(Payloads.StagedParts(base, fs, Payloads.Parts(b)).0)
  {
    var parts := Payloads.Parts(b);
    ShippedWellFormed(fs, b);
    hide *;
    forall k | 0 <= k < |parts| ensures PlainPath(parts[k].dst) {
      PartIsPlain(b, k);
    }
    Payloads.StagingKeepsForm(base, fs, parts);
  }

  lemma ShippedWellFormed(fs: Tree, b: Bundle)
    requires Payloads.Ships(fs, b)
    ensures WellFormed(fs)
  {
    hide WellFormed;
  }

  lemma StagedNames()
    ensures IsFileName("payload") && IsFileName("workspace") && IsFileName("lab") && IsFileName("kind")
  {
    assert '/' !in "payload" && '/' !in "workspace" && '/' !in "lab" && '/' !in "kind";
  }

  lemma PartIsPlain(b: Bundle, k: nat)
    requires k < |Payloads.Parts(b)|
    requires forall j :: 0 <= j < |b.scenarios| ==> DirNames.IsDirName(b.scenarios[j].name)
    ensures PlainPath(Payloads.Parts(b)[k].dst)
  {
    hide IsFileName, DirNames.IsDirName;
    StagedNames();
    Payloads.PartAt(b, k);
    if k < |b.scenarios| {
      NameIsFileName(b.scenarios[k].name);
    }
  }

  lemma NameIsFileName(name: string)
    requires DirNames.IsDirName(name)
    ensures IsFileName(name)
  {
    DirNames.DirNameChars(name, false);
    assert forall k :: 0 <= k < |name| ==> name[k] != '/';
  }

  /** Files written beside the payload, and the kubeconfigs in it, hide nothing. */
  lemma AddingKeepsBundle(t: Tree, b: Bundle, p: Path, n: Node)
    requires HoldsBundle(t, b) && (p == OVERRIDE || p == KUBECONFIG || p == ADMIN)
    ensures HoldsBundle(t[p := n], b)
  {
    assert "override.yaml"[0] != "payload"[0];
    assert "kubeconfig"[0] != "workspace"[0] && "kubeconfig"[0] != "lab"[0];
    assert "kubeconfig.admin"[0] != "workspace"[0] && "kubeconfig.admin"[0] != "lab"[0];
    assert p != ["payload"] && p != ["payload", "workspace"] && p != ["payload", "lab"] && p != SETUP;
  }

  lemma OverrideKeepsForm(t: Tree, n: Node)
    requires WellFormed(t) && n.File? && !IsDir(t, OVERRIDE)
    ensures WellFormed(t[OVERRIDE := n])
  {
    var r := t[OVERRIDE := n];
    assert IsFileName("override.yaml") by { assert '/' !in "override.yaml"; }
    assert OVERRIDE[..0] == [];
    forall p | p in r ensures HasPlace(r, p) {
      if p != OVERRIDE {
        assert HasPlace(t, p);
        assert p[..|p| - 1] != OVERRIDE;
      }
    }
  }

  /** Pushing and unpacking the payload gives the VM what the engine staged. */
  lemma PushedHoldsBundle(host: Tree, b: Bundle)
    requires WellFormed(host) && HoldsBundle(host, b)
    ensures HoldsBundle(WithPayload(PushedStack(host), host), b)
    ensures forall p :: p == [] || p[0] != "payload" ==>
      At(WithPayload(PushedStack(host), host), p) == At(PushedStack(host), p)
  {
    var vm := PushedStack(host);
    PushedIsUnstaged(host);
    PayloadTar.UnpackingRebuildsTheTree(vm, host, ["payload"]);
    var now := WithPayload(vm, host);
    hide WellFormed, PayloadTar.UnpackAll, PayloadTar.TarOf, PushedStack;
    assert PayloadTar.Rebuilt(now, vm, host, ["payload"]);
    SameBelowPayload(now, vm, host, ["payload"]);
    SameBelowPayload(now, vm, host, ["payload", "workspace"]);
    SameBelowPayload(now, vm, host, ["payload", "lab"]);
    SameBelowPayload(now, vm, host, SETUP);
  }

  lemma SameBelowPayload(now: Tree, vm: Tree, host: Tree, p: Path)
    requires PayloadTar.Rebuilt(now, vm, host, ["payload"]) && p != [] && p[0] == "payload"
    ensures At(now, p) == At(host, p)
  {
    assert ["payload"] + p[1..] == p;
  }

  lemma PushedIsUnstaged(host: Tree)
    ensures Payloads.Unstaged(PushedStack(host))
  {
    assert COMPOSE[0][0] == 'c' && OVERRIDE[0][0] == 'o' && Payloads.PAYLOAD[0] == 'p';
  }

  /** What is known to have worked when compose starts the stack. */
  predicate ReadyForUp(i: Lifecycle.Inputs, worked: set<Lifecycle.Step>) {
    && Lifecycle.StageFiles in worked
    && (i.cloud ==> Lifecycle.PushCompose in worked)
    && (i.cloud && i.bundle.Some? ==> Lifecycle.PushTar in worked)
    && (Lifecycle.HasKind(i) ==> Lifecycle.MakeCluster in worked)
  }

  lemma UpMeansReady(i: Lifecycle.Inputs, slug: string, at: int, o: Lifecycle.Oracle)
    requires Lifecycle.Attempted(Lifecycle.UpStack)
          in Lifecycle.Launched(LaunchRuns.Begun(i, slug, at), i, o).0.out.log
    ensures ReadyForUp(i, Worked(Lifecycle.Launched(LaunchRuns.Begun(i, slug, at), i, o).0.out.log, o.breaks))
  {
    NeedsOfUp(i);
    hide Lifecycle.Launched, LaunchRuns.Begun, LaunchRuns.Needs, Lifecycle.HasKind;
    LaunchRuns.StepsWaitForTheirNeeds(i, slug, at, o, Lifecycle.UpStack, Sessions.Stage, Lifecycle.StageFiles);
    if i.cloud {
      LaunchRuns.StepsWaitForTheirNeeds(i, slug, at, o, Lifecycle.UpStack, Sessions.PushStack, Lifecycle.PushCompose);
      if i.bundle.Some? {
        LaunchRuns.StepsWaitForTheirNeeds(i, slug, at, o, Lifecycle.UpStack, Sessions.PushPayload, Lifecycle.PushTar);
      }
    }
    if Lifecycle.HasKind(i) {
      LaunchRuns.StepsWaitForTheirNeeds(i, slug, at, o, Lifecycle.UpStack, Sessions.CreateCluster, Lifecycle.MakeCluster);
    }
  }

  lemma NeedsOfUp(i: Lifecycle.Inputs)
    ensures var n := LaunchRuns.Needs(i, Lifecycle.UpStack);
      && Sessions.Stage in n && (i.cloud ==> Sessions.PushStack in n)
      && (i.cloud && i.bundle.Some? ==> Sessions.PushPayload in n)
      && (Lifecycle.HasKind(i) ==> Sessions.CreateCluster in n)
  {
  }

  /** What loading guarantees about one bundle, and that staging it works. */
  ghost predicate Picked(fs: Tree, d: PackLoad.Decoders, b: Bundle, compose: string) {
    && WellFormed(fs) && PackLoad.BundleOk(fs, d, b.name) && PackLoad.DescribesBundle(fs, d, b)
    && Payloads.StagedParts(map[COMPOSE := Plain(compose)], fs, Payloads.Parts(b)).1
  }

  /** A bundle of a pack that was accepted and loaded as `p`, and staged. */
  ghost predicate Selected(fs: Tree, d: PackLoad.Decoders, p: Pack, b: Bundle, compose: string) {
    && WellFormed(fs) && PackLoad.Acceptable(fs, d) && PackLoad.DescribesPack(fs, d, p) && b in p.bundles
    && Payloads.StagedParts(map[COMPOSE := Plain(compose)], fs, Payloads.Parts(b)).1
  }

  lemma SelectedIsPicked(fs: Tree, d: PackLoad.Decoders, p: Pack, b: Bundle, compose: string)
    requires Selected(fs, d, p, b, compose)
    ensures Picked(fs, d, b, compose)
  {
    hide WellFormed, PackLoad.Acceptable, PackLoad.DescribesPack, Payloads.StagedParts;
    var k :| 0 <= k < |p.bundles| && p.bundles[k] == b;
    PackLoad.BundlesOfPackShip(fs, d, p, k);
  }

  lemma HostHoldsBundle(fs: Tree, d: PackLoad.Decoders, b: Bundle, compose: string)
    requires Picked(fs, d, b, compose)
    ensures var host := StagedStack(fs, Some(b), compose);
      && WellFormed(host) && HoldsBundle(host, b) && IsFile(host, COMPOSE)
      && At(host, OVERRIDE) == Some(Plain(Override.Unlines(Override.OverrideLines(true, b.hasLab, b.hasKind))))
  {
    var base: Tree := map[COMPOSE := Plain(compose)];
    var t := Payloads.StagedParts(base, fs, Payloads.Parts(b)).0;
    var text := Plain(Override.Unlines(Override.OverrideLines(true, b.hasLab, b.hasKind)));
    PickedParts(fs, d, b, compose);
    StackIs(fs, b, compose);
    hide *;
    BaseIsUnstaged(compose);
    StagedHoldsBundle(fs, d, b, base);
    PackLoad.LoadedBundleShips(fs, d, b);
    StagedIsWellFormed(fs, b, base);
    BesidePayload(fs, b, base);
    BaseFiles(compose);
    AddedOverride(t, text, compose);
    OverrideKeepsForm(t, text);
    AddingKeepsBundle(t, b, OVERRIDE, text);
  }

  lemma PickedParts(fs: Tree, d: PackLoad.Decoders, b: Bundle, compose: string)
    requires Picked(fs, d, b, compose)
    ensures WellFormed(fs) && PackLoad.BundleOk(fs, d, b.name) && PackLoad.DescribesBundle(fs, d, b)
    ensures Payloads.StagedParts(map[COMPOSE := Plain(compose)], fs, Payloads.Parts(b)).1
  {
    hide WellFormed, PackLoad.BundleOk, PackLoad.DescribesBundle, Payloads.StagedParts;
  }

  lemma StackIs(fs: Tree, b: Bundle, compose: string)
    ensures StagedStack(fs, Some(b), compose)
         == Payloads.StagedParts(map[COMPOSE := Plain(compose)], fs, Payloads.Parts(b)).0[OVERRIDE
              := Plain(Override.Unlines(Override.OverrideLines(true, b.hasLab, b.hasKind)))]
  {
    hide Payloads.StagedParts, Override.Unlines, Override.OverrideLines;
  }

  lemma BaseFiles(compose: string)
    ensures var base: Tree := map[COMPOSE := Plain(compose)];
      At(base, COMPOSE) == Some(Plain(compose)) && At(base, OVERRIDE).None?
  {
    assert "compose.yaml"[0] != "override.yaml"[0];
  }

  lemma AddedOverride(t: Tree, text: Node, compose: string)
    requires At(t, COMPOSE) == Some(Plain(compose)) && At(t, OVERRIDE).None?
    ensures !IsDir(t, OVERRIDE) && IsFile(t[OVERRIDE := text], COMPOSE) && At(t[OVERRIDE := text], OVERRIDE) == Some(text)
  {
    assert "compose.yaml"[0] != "override.yaml"[0];
  }

  /** Staging leaves what is not below `payload` alone. */
  lemma BesidePayload(fs: Tree, b: Bundle, base: Tree)
    requires Payloads.Ships(fs, b) && Payloads.Unstaged(base)
    requires Payloads.StagedParts(base, fs, Payloads.Parts(b)).1
    ensures var t := Payloads.StagedParts(base, fs, Payloads.Parts(b)).0;
      At(t, COMPOSE) == At(base, COMPOSE) && At(t, OVERRIDE) == At(base, OVERRIDE)
  {
    var parts := Payloads.Parts(b);
    Payloads.FreshPayload(base, fs, b);
    forall k | 0 <= k < |parts| ensures parts[k].dst != [] && parts[k].dst[0] == "payload" {
      Payloads.PartsAreFolders(fs, b, k);
    }
    hide Payloads.Ships, Payloads.Parts, Payloads.StagedParts, Payloads.Unstaged, Payloads.Clash;
    assert COMPOSE[0] != "payload" && OVERRIDE[0] != "payload" by {
      assert "compose.yaml"[0] == 'c' && "override.yaml"[0] == 'o' && "payload"[0] == 'p';
    }
    OutsideIsKept(base, fs, parts, COMPOSE);
    OutsideIsKept(base, fs, parts, OVERRIDE);
  }

  lemma {:induction false} OutsideIsKept(base: Tree, fs: Tree, parts: seq<Payloads.Part>, p: Path)
    requires p != [] && p[0] != "payload"
    requires forall k :: 0 <= k < |parts| ==> parts[k].dst != [] && parts[k].dst[0] == "payload"
    ensures Payloads.Expected(base, fs, parts, p) == At(base, p)
  {
    if parts != [] {
      var last := parts[|parts| - 1];
      assert last.dst[0] == "payload";
      OutsideIsKept(base, fs, parts[..|parts| - 1], p);
    }
  }

  /** The folder compose runs in is complete for a bundle. */
  ghost predicate Complete(t: Tree, b: Bundle) {
    && HoldsBundle(t, b) && IsFile(t, COMPOSE) && (b.hasKind ==> IsFile(t, KUBECONFIG))
    && At(t, OVERRIDE) == Some(Plain(Override.Unlines(Override.OverrideLines(true, b.hasLab, b.hasKind))))
  }

  /** What the folder compose runs in holds before the cluster's kubeconfig. */
  ghost function Arrived(i: Lifecycle.Inputs, host: Tree): Tree {
    if i.cloud then WithPayload(PushedStack(host), host) else host
  }

  function WithKubeconfig(i: Lifecycle.Inputs, t: Tree): Tree {
    if i.cloud then t[KUBECONFIG := Plain("")] else t[ADMIN := Plain("")][KUBECONFIG := Plain("")]
  }

  lemma FolderIs(i: Lifecycle.Inputs, fs: Tree, compose: string, worked: set<Lifecycle.Step>)
    requires i.bundle.Some? && ReadyForUp(i, worked)
    ensures var here := Arrived(i, StagedStack(fs, i.bundle, compose));
      StackFolder(i, fs, compose, worked) == if Lifecycle.MakeCluster in worked then WithKubeconfig(i, here) else here
  {
    hide StagedStack, PushedStack, WithPayload;
  }

  lemma FolderIsComplete(i: Lifecycle.Inputs, fs: Tree, d: PackLoad.Decoders, compose: string,
                         worked: set<Lifecycle.Step>)
    requires i.bundle.Some? && Picked(fs, d, i.bundle.value, compose) && ReadyForUp(i, worked)
    ensures Complete(StackFolder(i, fs, compose, worked), i.bundle.value)
  {
    var b, host := i.bundle.value, StagedStack(fs, i.bundle, compose);
    HostHoldsBundle(fs, d, b, compose);
    ArrivedHolds(i, host, b);
    FolderIs(i, fs, compose, worked);
    KubeconfigCompletes(i, Arrived(i, host), b);
    assert b.hasKind ==> Lifecycle.MakeCluster in worked;
    hide Picked, StagedStack, WellFormed, HoldsBundle, Arrived, StackFolder, WithKubeconfig, ReadyForUp, IsFile, At,
      Override.Unlines, Override.OverrideLines;
  }

  lemma ArrivedHolds(i: Lifecycle.Inputs, host: Tree, b: Bundle)
    requires WellFormed(host) && HoldsBundle(host, b) && IsFile(host, COMPOSE) && OVERRIDE in host
    ensures var t := Arrived(i, host);
      HoldsBundle(t, b) && At(t, COMPOSE) == At(host, COMPOSE) && At(t, OVERRIDE) == At(host, OVERRIDE)
  {
    PushedHoldsBundle(host, b);
    PushedFiles(host);
    hide WellFormed, HoldsBundle, PushedStack, WithPayload;
    assert COMPOSE[0] != "payload" && OVERRIDE[0] != "payload" by {
      assert "compose.yaml"[0] == 'c' && "override.yaml"[0] == 'o' && "payload"[0] == 'p';
    }
  }

  lemma KubeconfigCompletes(i: Lifecycle.Inputs, t: Tree, b: Bundle)
    requires HoldsBundle(t, b)
    ensures var r := WithKubeconfig(i, t);
      HoldsBundle(r, b) && IsFile(r, KUBECONFIG) && At(r, COMPOSE) == At(t, COMPOSE) && At(r, OVERRIDE) == At(t, OVERRIDE)
  {
    hide HoldsBundle;
    AddingKeepsBundle(t, b, KUBECONFIG, Plain(""));
    AddingKeepsBundle(t, b, ADMIN, Plain(""));
    AddingKeepsBundle(t[ADMIN := Plain("")], b, KUBECONFIG, Plain(""));
    KubeconfigsApart();
  }

  lemma PushedFiles(host: Tree)
    requires IsFile(host, COMPOSE) && OVERRIDE in host
    ensures At(PushedStack(host), COMPOSE) == At(host, COMPOSE)
    ensures At(PushedStack(host), OVERRIDE) == At(host, OVERRIDE)
  {
    assert "compose.yaml"[0] != "override.yaml"[0];
  }

  lemma KubeconfigsApart()
    ensures KUBECONFIG != COMPOSE && KUBECONFIG != OVERRIDE && ADMIN != COMPOSE && ADMIN != OVERRIDE
  {
  }

  /** The folder of a session, as a launch left it. */
  ghost function FolderAfter(i: Lifecycle.Inputs, slug: string, at: int, o: Lifecycle.Oracle,
                             fs: Tree, compose: string): Tree {
    StackFolder(i, fs, compose, Worked(Lifecycle.Launched(LaunchRuns.Begun(i, slug, at), i, o).0.out.log, o.breaks))
  }

  predicate Tried(i: Lifecycle.Inputs, slug: string, at: int, o: Lifecycle.Oracle, s: Lifecycle.Step) {
    Lifecycle.Attempted(s) in Lifecycle.Launched(LaunchRuns.Begun(i, slug, at), i, o).0.out.log
  }

  /** The mounts compose reads from the override of a folder. */
  function MountsOf(t: Tree): seq<Override.Mount> {
    if IsFile(t, OVERRIDE) then Override.Mounts(Split(At(t, OVERRIDE).value.data, '\n')) else []
  }

  lemma CompleteHasMounts(t: Tree, b: Bundle)
    requires Complete(t, b)
    ensures IsFile(t, OVERRIDE) && MountsOf(t) == Override.Wanted(true, b.hasLab, b.hasKind)
    ensures forall m :: m in MountsOf(t) ==> At(t, SourceOf(m)).Some?
  {
    hide SourceOf, Override.Mounts, Override.Unlines, Override.OverrideLines, Override.WORKSPACE, Override.LAB,
      Override.KUBECONFIG;
    Override.OverrideReads(true, b.hasLab, b.hasKind);
    Sources();
  }

  /** For every bundle of a pack that loads and every launch of it that gets to
      starting the stack: the override is where compose runs, and every host path
      that compose reads from it exists there. */
  lemma UpFindsItsMounts(i: Lifecycle.Inputs, slug: string, at: int, o: Lifecycle.Oracle,
                         fs: Tree, d: PackLoad.Decoders, p: Pack, compose: string)
    requires i.bundle.Some? && Selected(fs, d, p, i.bundle.value, compose)
    requires Tried(i, slug, at, o, Lifecycle.UpStack)
    ensures var b, t := i.bundle.value, FolderAfter(i, slug, at, o, fs, compose);
      && IsFile(t, OVERRIDE) && MountsOf(t) == Override.Wanted(true, b.hasLab, b.hasKind)
      && forall m :: m in MountsOf(t) ==> At(t, SourceOf(m)).Some?
  {
    hide *;
    SelectedIsPicked(fs, d, p, i.bundle.value, compose);
    UpIsComplete(i, slug, at, o, fs, d, compose);
    CompleteHasMounts(FolderAfter(i, slug, at, o, fs, compose), i.bundle.value);
  }

  lemma UpIsComplete(i: Lifecycle.Inputs, slug: string, at: int, o: Lifecycle.Oracle,
                     fs: Tree, d: PackLoad.Decoders, compose: string)
    requires i.bundle.Some? && Picked(fs, d, i.bundle.value, compose)
    requires Tried(i, slug, at, o, Lifecycle.UpStack)
    ensures Complete(FolderAfter(i, slug, at, o, fs, compose), i.bundle.value)
  {
    UpMeansReady(i, slug, at, o);
    hide Lifecycle.Launched, LaunchRuns.Begun, StackFolder, Picked, Worked, Complete, ReadyForUp;
    FolderIsComplete(i, fs, d, compose, Worked(Lifecycle.Launched(LaunchRuns.Begun(i, slug, at), i, o).0.out.log, o.breaks));
  }

  /** The command names the override file exactly when it is there. */
  lemma OverrideIsNamedWhenPresent(i: Lifecycle.Inputs, slug: string, at: int, o: Lifecycle.Oracle,
                                   fs: Tree, d: PackLoad.Decoders, p: Pack, compose: string)
    requires i.bundle.Some? ==> Selected(fs, d, p, i.bundle.value, compose)
    requires Tried(i, slug, at, o, Lifecycle.UpStack)
    ensures OVERRIDE in FolderAfter(i, slug, at, o, fs, compose)
        <==> Lifecycle.Launched(LaunchRuns.Begun(i, slug, at), i, o).0.mem.bundle != ""
  {
    hide *;
    BundleIsRecorded(i, slug, at, o);
    if i.bundle.Some? {
      UpFindsItsMounts(i, slug, at, o, fs, d, p, compose);
      FileIsPresent(FolderAfter(i, slug, at, o, fs, compose), OVERRIDE);
      SelectedIsPicked(fs, d, p, i.bundle.value, compose);
      NamedBundle(fs, d, i.bundle.value, compose);
    } else {
      BareFolder(i, slug, at, o, fs, compose);
    }
  }

  lemma FileIsPresent(t: Tree, p: Path)
    requires IsFile(t, p)
    ensures p in t
  {
  }

  lemma NamedBundle(fs: Tree, d: PackLoad.Decoders, b: Bundle, compose: string)
    requires Picked(fs, d, b, compose)
    ensures b.name != ""
  {
  }

  /** No command of a launch changes the bundle its metadata names. */
  lemma BundleIsRecorded(i: Lifecycle.Inputs, slug: string, at: int, o: Lifecycle.Oracle)
    ensures Lifecycle.Launched(LaunchRuns.Begun(i, slug, at), i, o).0.mem.bundle
         == if i.bundle.Some? then i.bundle.value.name else ""
  {
    var st := LaunchRuns.Begun(i, slug, at);
    RunKeepsBundle(st, Lifecycle.LaunchScript(i, o), o);
    assert st.mem.bundle == if i.bundle.Some? then i.bundle.value.name else "";
    hide Lifecycle.LaunchScript, Lifecycle.Run, LaunchRuns.Begun;
  }

  lemma {:induction false} RunKeepsBundle(st: Lifecycle.State, script: seq<Lifecycle.Command>, o: Lifecycle.Oracle)
    ensures Lifecycle.Run(st, script, o).0.mem.bundle == st.mem.bundle
    decreases |script|
  {
    if script != [] {
      var (next, ok) := Lifecycle.Execute(st, script[0], o);
      assert next.mem.bundle == st.mem.bundle;
      hide Lifecycle.Execute;
      if ok {
        RunKeepsBundle(next, script[1..], o);
      }
    }
  }

  lemma BareFolder(i: Lifecycle.Inputs, slug: string, at: int, o: Lifecycle.Oracle, fs: Tree, compose: string)
    requires i.bundle.None?
    ensures OVERRIDE !in FolderAfter(i, slug, at, o, fs, compose)
  {
    hide Lifecycle.Launched, LaunchRuns.Begun, Worked;
    assert "compose.yaml"[0] != "override.yaml"[0] && "compose.yaml"[0] != "payload"[0];
    KubeconfigsApart();
  }

  /** When the setup phase runs its script, the lab mount is in the override, and
      the script is below its source and executable. */
  lemma HookFindsItsScript(i: Lifecycle.Inputs, slug: string, at: int, o: Lifecycle.Oracle,
                           fs: Tree, d: PackLoad.Decoders, p: Pack, compose: string)
    requires i.bundle.Some? && Selected(fs, d, p, i.bundle.value, compose)
    requires Tried(i, slug, at, o, Lifecycle.RunHook)
    ensures var t := FolderAfter(i, slug, at, o, fs, compose);
      && Override.LAB in MountsOf(t) && SourceOf(Override.LAB) <= SETUP
      && At(t, SETUP).Some? && At(t, SETUP).value.File? && At(t, SETUP).value.exec
    ensures Override.LAB == Override.Mount("./payload/lab", "/opt/interview/lab", "ro")
    ensures SETUP == ["payload", "lab", "setup.sh"] && "/opt/interview/lab" + "/setup.sh" == "/opt/interview/lab/setup.sh"
  {
    LabTarget();
    hide *;
    SelectedIsPicked(fs, d, p, i.bundle.value, compose);
    HookComesAfterUp(i, slug, at, o);
    UpIsComplete(i, slug, at, o, fs, d, compose);
    SetupComesWithLab(i, fs, d, compose);
    CompleteHasHook(FolderAfter(i, slug, at, o, fs, compose), i.bundle.value);
  }

  lemma LabTarget()
    ensures Override.LAB == Override.Mount("./payload/lab", "/opt/interview/lab", "ro")
    ensures SETUP == ["payload", "lab", "setup.sh"] && "/opt/interview/lab" + "/setup.sh" == "/opt/interview/lab/setup.sh"
  {
  }

  lemma SetupComesWithLab(i: Lifecycle.Inputs, fs: Tree, d: PackLoad.Decoders, compose: string)
    requires i.bundle.Some? && Picked(fs, d, i.bundle.value, compose) && Lifecycle.HasSetup(i)
    ensures i.bundle.value.hasSetup && i.bundle.value.hasLab
  {
    hide WellFormed, PackLoad.BundleOk, PackLoad.DescribesBundle, Payloads.StagedParts, Payloads.Ships;
    PackLoad.LoadedBundleShips(fs, d, i.bundle.value);
  }

  lemma CompleteHasHook(t: Tree, b: Bundle)
    requires Complete(t, b) && b.hasSetup && b.hasLab
    ensures Override.LAB in MountsOf(t) && SourceOf(Override.LAB) <= SETUP
    ensures At(t, SETUP).Some? && At(t, SETUP).value.File? && At(t, SETUP).value.exec
  {
    hide *;
    CompleteHasMounts(t, b);
    LabSource();
    LabIsWanted(b.hasKind);
    HookIsThere(t, b);
    SetupIsInLab();
  }

  lemma LabIsWanted(kind: bool)
    ensures Override.LAB in Override.Wanted(true, true, kind)
  {
  }

  lemma HookIsThere(t: Tree, b: Bundle)
    requires Complete(t, b) && b.hasSetup
    ensures At(t, SETUP).Some? && At(t, SETUP).value.File? && At(t, SETUP).value.exec
  {
    hide Override.Unlines, Override.OverrideLines;
  }

  lemma SetupIsInLab()
    ensures ["payload", "lab"] <= SETUP
  {
    assert SETUP[..2] == ["payload", "lab"];
  }

  lemma HookComesAfterUp(i: Lifecycle.Inputs, slug: string, at: int, o: Lifecycle.Oracle)
    requires Tried(i, slug, at, o, Lifecycle.RunHook)
    ensures Tried(i, slug, at, o, Lifecycle.UpStack) && Lifecycle.HasSetup(i)
  {
    var t := LaunchRuns.Gate(i) + LaunchRuns.Timeline(LaunchRuns.Plan(i));
    NeedsOfHook(i);
    LaunchRuns.StepsWaitForTheirNeeds(i, slug, at, o, Lifecycle.RunHook, Sessions.ComposeUp, Lifecycle.UpStack);
    LaunchRuns.LaunchFollowsPlan(LaunchRuns.Begun(i, slug, at), i, o);
    LaunchRuns.BegunLog(i, slug, at);
    hide *;
    assert [] + LaunchRuns.Cut(t, o.breaks) == LaunchRuns.Cut(t, o.breaks);
    LaunchRuns.PhaseIsPlanned(i, Lifecycle.RunHook, o.breaks);
    LaunchRuns.OnlyWhenAsked(i, Lifecycle.RunHook);
  }

  lemma NeedsOfHook(i: Lifecycle.Inputs)
    ensures Sessions.ComposeUp in LaunchRuns.Needs(i, Lifecycle.RunHook)
    ensures Lifecycle.UpStack in LaunchRuns.StepsOf(Sessions.ComposeUp)
  {
  }
}
