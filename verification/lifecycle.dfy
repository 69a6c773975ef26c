/** The lifecycle of one session on values: the commands that launch and destroy
    consist of, what they do to metadata and to the outside world, and what
    every run of them keeps. */
module Lifecycle {
  import opened Options
  import opened Sessions
  import opened Bundles
  import LocalStack

  // ------------------------------------------------------ the outside world

  /** External work that may fail. */
  datatype Step =
    | ValidateImages | PluginCache | StageFiles | InitTerraform | ApplyTerraform | ReadOutputs
    | DialSsh | AwaitCloudInit | RedialSsh | PushCompose | PullImages | InstallKindTools
    | PushTar | MakeCluster | MintKey | UpStack | RunHook
    | FindHostBins | MakeFolder | GeneratePassword
    | LoadConfig | FindTerraform | InitDestroy | DestroyTerraform | DeleteCluster | DownStack | RevokeKey

  /** What is running, and costing money, for one session. */
  datatype Live = Live(vm: bool, cluster: bool, stack: bool, keys: set<string>)

  const NOTHING := Live(false, false, false, {})

  datatype Event = Entered(phase: Phase) | Attempted(step: Step)

  /** The resources of a session and everything done for it so far, in order:
      phases persisted and external steps attempted. */
  datatype Outside = Outside(live: Live, log: seq<Event>)

  const UNTOUCHED := Outside(NOTHING, [])

  /** How the outside answers during one command: the steps that break, those
      of them whose effect happened (or stayed) anyway, and the values returned. */
  datatype Oracle = Oracle(breaks: set<Step>, halfway: set<Step>, ip: string, fqdn: string,
                           hash: string, cap: real)

  /** The session object in memory, its folder on disk, and the outside. */
  datatype State = State(mem: Metadata, folder: Option<Folder>, out: Outside)

  // --------------------------------------------------------------- commands

  datatype Command =
    | Enter(phase: Phase)
    | Mark(status: Status)
    | SaveIp(ip: string)
    | SaveFqdn(fqdn: string)
    | SaveUrl(local: bool)
    | Save
    | Try(step: Step)

  /** Where the session's gateway answers: under its host name, or by address without one. */
  function SessionUrl(m: Metadata): string {
    if m.fqdn != "" then "http://" + m.fqdn else "http://" + m.ip
  }

  function Changed(m: Metadata, c: Command): Metadata {
    match c
    case Enter(p) => m.(phase := p)
    case Mark(s) => m.(status := s)
    case SaveIp(ip) => m.(ip := ip)
    case SaveFqdn(fqdn) => m.(fqdn := fqdn)
    case SaveUrl(local) => m.(url := if local then LocalStack.URL else SessionUrl(m))
    case _ => m
  }

  /** Writes the metadata file, provided the session folder is still there. */
  function Written(st: State): State {
    if st.folder.None? then st
    else st.(folder := Some(st.folder.value.(metadata := Some(st.mem))))
  }

  /** What is live after a step that worked. */
  function After(live: Live, s: Step, m: Metadata, o: Oracle): Live {
    match s
    case ApplyTerraform => live.(vm := true)
    case MakeCluster => live.(cluster := true)
    case MintKey => live.(keys := live.keys + {o.hash})
    case UpStack => live.(stack := true)
    case DestroyTerraform => live.(vm := false, cluster := false, stack := false)
    case DeleteCluster => live.(cluster := false)
    case DownStack => live.(stack := false)
    case RevokeKey => live.(keys := live.keys - {m.aiKeyHash})
    case _ => live
  }

  /** What may be live after a step that broke: a failed mint created no key,
      any other step may have had its effect or not. */
  function AfterBreak(live: Live, s: Step, m: Metadata, o: Oracle): Live {
    if s in o.halfway && s != MintKey then After(live, s, m, o) else live
  }

  /** An external step: what it does outside, and whether it worked. */
  function Stepped(out: Outside, s: Step, m: Metadata, o: Oracle): Outside {
    Outside(if s in o.breaks then AfterBreak(out.live, s, m, o) else After(out.live, s, m, o),
            out.log + [Attempted(s)])
  }

  /** A change of the object that is saved at once; phases are also logged. */
  function Updated(st: State, c: Command): State {
    var next := Written(st.(mem := Changed(st.mem, c)));
    if c.Enter? then next.(out := next.out.(log := next.out.log + [Entered(c.phase)])) else next
  }

  function Execute(st: State, c: Command, o: Oracle): (State, bool) {
    if !c.Try? then (Updated(st, c), true)
    else
      var out := Stepped(st.out, c.step, st.mem, o);
      if c.step in o.breaks then (st.(out := out), false)
      else
        (st.(out := out,
             mem := if c.step == MintKey then st.mem.(aiKeyHash := o.hash, aiCapUsd := o.cap) else st.mem),
         true)
  }

  /** Commands in order, stopping at the first that fails. */
  function Run(st: State, script: seq<Command>, o: Oracle): (State, bool)
    decreases |script|
  {
    if script == [] then (st, true)
    else
      var (next, ok) := Execute(st, script[0], o);
      if ok then Run(next, script[1..], o) else (next, false)
  }

  lemma {:induction false} RunConcat(st: State, a: seq<Command>, b: seq<Command>, o: Oracle)
    ensures Run(st, a + b, o) == if Run(st, a, o).1 then Run(Run(st, a, o).0, b, o) else Run(st, a, o)
    decreases |a|
  {
    if a == [] {
      assert a + b == b;
    } else {
      assert (a + b)[1..] == a[1..] + b;
      RunConcat(Execute(st, a[0], o).0, a[1..], b, o);
    }
  }

  // ----------------------------------------------------------------- launch

  /** What a launch was asked for. */
  datatype Inputs = Inputs(cloud: bool, vm: string, ai: Option<string>, access: Option<string>,
                           profile: string, pack: string, bundle: Option<Bundle>,
                           region: string, size: string, image: string, sshUser: string,
                           binary: string, version: string, password: string)

  predicate HasKind(i: Inputs) { i.bundle.Some? && i.bundle.value.hasKind }

  predicate HasSetup(i: Inputs) { i.bundle.Some? && i.bundle.value.hasSetup }

  /** Who serves each role: an access provider only matters to a VM. */
  function RolesOf(i: Inputs): map<string, string> {
    map["vm" := i.vm]
    + (if i.ai.Some? then map["ai" := i.ai.value] else map[])
    + (if i.cloud && i.access.Some? then map["access" := i.access.value] else map[])
  }

  /** The metadata of a new session, before anything about the launch is known. */
  function Blank(i: Inputs, slug: string, createdAt: int): Metadata {
    var m := Metadata(2, slug, createdAt, "", "", "", "", "", "", false, Some(RolesOf(i)), "",
                      "", "", "", "", "", 0.0, "", "", Launching, Created);
    if !i.cloud then m
    else m.(region := i.region, size := i.size, image := i.image, sshUser := i.sshUser,
            binary := i.binary, version := i.version)
  }

  /** The metadata a launch starts with. */
  function Fresh(i: Inputs, slug: string, createdAt: int): Metadata {
    var m := Blank(i, slug, createdAt).(profile := i.profile, gatewayPassword := if i.cloud then i.password else LocalStack.PASSWORD);
    if i.bundle.None? then m
    else m.(pack := i.pack, bundle := i.bundle.value.name, kind := i.bundle.value.hasKind)
  }

  function When(b: bool, script: seq<Command>): seq<Command> {
    if b then script else []
  }

  function StageScript(): seq<Command> {
    [Enter(Stage), Try(StageFiles)]
  }

  function ApplyScript(o: Oracle): seq<Command> {
    StageScript() + [Enter(TerraformInit), Try(InitTerraform)] + [Enter(TerraformApply), Try(ApplyTerraform)]
    + ([Enter(Outputs), Try(ReadOutputs)] + When(o.fqdn != "", [SaveFqdn(o.fqdn)]) + [SaveIp(o.ip)])
  }

  function BundleScript(i: Inputs): seq<Command> {
    When(HasKind(i), [Enter(InstallKind), Try(InstallKindTools)])
    + When(i.bundle.Some?, [Enter(PushPayload), Try(PushTar)])
    + When(HasKind(i), [Enter(CreateCluster), Try(MakeCluster)])
  }

  function MintScript(): seq<Command> {
    [Enter(AiMint), Try(MintKey), Save]
  }

  function UpScript(local: bool): seq<Command> {
    [Enter(ComposeUp), Try(UpStack), SaveUrl(local)]
  }

  function HookScript(): seq<Command> {
    [Enter(Setup), Try(RunHook)]
  }

  function SummaryScript(): seq<Command> {
    [Enter(Summary), Mark(Ready)]
  }

  function StackScript(i: Inputs): seq<Command> {
    [Enter(PushStack), Try(PushCompose)] + [Enter(PullStack), Try(PullImages)] + BundleScript(i)
    + When(i.ai.Some?, MintScript()) + UpScript(false) + When(HasSetup(i), HookScript())
  }

  function CloudScript(i: Inputs, o: Oracle): seq<Command> {
    [Try(PluginCache)] + ApplyScript(o) + [Enter(WaitSsh), Try(DialSsh)] + [Enter(CloudInit), Try(AwaitCloudInit)]
    + [Try(RedialSsh)] + StackScript(i) + SummaryScript()
  }

  function LocalScript(i: Inputs): seq<Command> {
    StageScript() + When(HasKind(i), [Enter(CreateCluster), Try(MakeCluster)])
    + When(i.ai.Some?, MintScript()) + UpScript(true) + When(HasSetup(i), HookScript()) + SummaryScript()
  }

  function LaunchScript(i: Inputs, o: Oracle): seq<Command> {
    if i.cloud then CloudScript(i, o) else [Try(ValidateImages)] + LocalScript(i)
  }

  /** A failed launch is marked as such. */
  function Launched(st: State, i: Inputs, o: Oracle): (State, bool) {
    var (next, ok) := Run(st, LaunchScript(i, o), o);
    (if ok then next else Execute(next, Mark(Failed), o).0, ok)
  }

  // ---------------------------------------------------------------- destroy

  /** The providers this build knows, by role. */
  datatype Registry = Registry(vms: set<string>, locals: set<string>, ais: set<string>, accesses: set<string>) {
    ghost predicate Valid() {
      vms !! locals && "" !in vms + locals + ais + accesses
    }
  }

  /** The providers of a launch come from the registry. */
  predicate Offered(reg: Registry, i: Inputs) {
    && (if i.cloud then i.vm in reg.vms else i.vm in reg.locals)
    && (i.ai.Some? ==> i.ai.value in reg.ais)
    && (i.access.Some? ==> i.access.value in reg.accesses)
  }

  predicate IsLocal(reg: Registry, m: Metadata) {
    Role(m, "vm") in reg.locals
  }

  function CloudTeardown(): seq<Command> {
    [Mark(Destroying), Try(InitDestroy), Try(DestroyTerraform)]
  }

  function LocalTeardown(m: Metadata): seq<Command> {
    [Mark(Destroying)] + When(m.kind, [Try(DeleteCluster)]) + [Try(DownStack)]
  }

  function Teardown(reg: Registry, m: Metadata): seq<Command> {
    if IsLocal(reg, m) then LocalTeardown(m) else CloudTeardown()
  }

  /** Revokes the key the object records, if any. */
  function Revoked(st: State, reg: Registry, o: Oracle): (State, bool) {
    if st.mem.aiKeyHash == "" then (st, true)
    else if Role(st.mem, "ai") !in reg.ais then (st, false)
    else Execute(st, Try(RevokeKey), o)
  }

  /** Whether a destroy starts at all. */
  predicate Prepared(reg: Registry, m: Metadata, o: Oracle) {
    LoadConfig !in o.breaks &&
    (IsLocal(reg, m) ||
      (&& FindTerraform !in o.breaks && PluginCache !in o.breaks
       && Role(m, "vm") in reg.vms
       && (Role(m, "access") != "" ==> Role(m, "access") in reg.accesses)))
  }

  /** The release half of a destroy; a failure is recorded. */
  function Released(st: State, reg: Registry, o: Oracle): (State, bool) {
    var (down, ok) := Run(st, Teardown(reg, st.mem), o);
    var (next, gone) := if ok then Revoked(down, reg, o) else (down, false);
    (if gone then next else Execute(next, Mark(FailedDestroy), o).0, gone)
  }

  // ---------------------------------------------- what every moment satisfies

  /** Facts about a session object and the outside that hold at every moment:
      a live key is the one the object records, a recorded key has a provider
      to revoke it, a local session has no VM and a cluster only when `kind`
      says so, and everything on a VM is gone when the VM is. */
  predicate Held(reg: Registry, m: Metadata, live: Live) {
    && live.keys <= {m.aiKeyHash} && "" !in live.keys
    && (m.aiKeyHash != "" ==> Role(m, "ai") in reg.ais)
    && (if IsLocal(reg, m) then !live.vm && (live.cluster ==> m.kind)
        else live.cluster || live.stack ==> live.vm)
  }

  /** The metadata file holds what the object holds. */
  predicate Synced(st: State) {
    st.folder.Some? && st.folder.value.metadata == Some(st.mem)
  }

  /** Which commands keep Held: `up` says the VM is known to run and `minted`
      that a key may be recorded already. */
  predicate Allowed(reg: Registry, m: Metadata, c: Command, up: bool, minted: bool, o: Oracle) {
    match c
    case Try(s) =>
      (match s
       case ApplyTerraform => !IsLocal(reg, m)
       case MakeCluster => if IsLocal(reg, m) then m.kind else up
       case UpStack => IsLocal(reg, m) || up
       case MintKey => !minted && o.hash != "" && Role(m, "ai") in reg.ais
       case _ => true)
    case _ => true
  }

  /** What a reader of a script knows between two commands: the VM is up, a key
      may be recorded, memory is ahead of the metadata file, and the status. */
  datatype Known = Known(up: bool, minted: bool, unsaved: bool, status: Status)

  /** Reads one command; None when it could break Held, or when an external step
      would run while the metadata file is behind. */
  function Read(reg: Registry, m: Metadata, k: Known, c: Command, o: Oracle): Option<Known> {
    match c
    case Try(s) =>
      if k.unsaved || !Allowed(reg, m, c, k.up, k.minted, o) then None
      else if s == MintKey then Some(k.(minted := true, unsaved := true))
      else Some(k.(up := s == ApplyTerraform || (k.up && s != DestroyTerraform)))
    case Mark(status) => Some(k.(unsaved := false, status := status))
    case _ => Some(k.(unsaved := false))
  }

  /** Reads a whole script. */
  function Judge(reg: Registry, m: Metadata, k: Known, script: seq<Command>, o: Oracle): Option<Known>
    decreases |script|
  {
    if script == [] then Some(k)
    else
      var next := Read(reg, m, k, script[0], o);
      if next.None? then None else Judge(reg, m, next.value, script[1..], o)
  }

  lemma {:induction false} JudgeConcat(reg: Registry, m: Metadata, k: Known, a: seq<Command>, b: seq<Command>, o: Oracle)
    ensures Judge(reg, m, k, a + b, o)
         == var mid := Judge(reg, m, k, a, o); if mid.None? then None else Judge(reg, m, mid.value, b, o)
    decreases |a|
  {
    if a == [] {
      assert a + b == b;
    } else {
      assert (a + b)[1..] == a[1..] + b;
      var next := Read(reg, m, k, a[0], o);
      if next.Some? {
        JudgeConcat(reg, m, next.value, a[1..], b, o);
      }
    }
  }

  /** What is known is true of a state. */
  predicate Fits(k: Known, st: State) {
    && (k.up ==> st.out.live.vm)
    && (!k.minted ==> st.mem.aiKeyHash == "")
    && (!k.unsaved ==> Synced(st))
    && st.folder.Some?
    && st.mem.status == k.status
  }

  /** The facts about an object that no command changes. */
  predicate SameIdentity(a: Metadata, b: Metadata) {
    a.roles == b.roles && a.kind == b.kind && a.slug == b.slug && a.bundle == b.bundle && a.schema == b.schema
  }

  lemma SameRoles(reg: Registry, a: Metadata, b: Metadata)
    requires a.roles == b.roles
    ensures IsLocal(reg, a) == IsLocal(reg, b) && Role(a, "ai") == Role(b, "ai")
  {
  }

  lemma StepKeepsHeld(reg: Registry, m: Metadata, live: Live, s: Step, up: bool, minted: bool, o: Oracle)
    requires Held(reg, m, live) && (up ==> live.vm) && (!minted ==> m.aiKeyHash == "")
    requires Allowed(reg, m, Try(s), up, minted, o)
    ensures Held(reg, if s == MintKey then m.(aiKeyHash := o.hash, aiCapUsd := o.cap) else m, After(live, s, m, o))
    ensures Held(reg, m, AfterBreak(live, s, m, o))
    ensures s == ApplyTerraform || (up && s != DestroyTerraform) ==> After(live, s, m, o).vm
  {
    if s == MintKey {
      MintKeepsHeld(reg, m, live, o);
    } else {
      EffectKeepsHeld(reg, m, live, s, up, minted, o);
    }
    UpStays(live, s, m, up, o);
    hide Held, After, Allowed;
  }

  lemma UpStays(live: Live, s: Step, m: Metadata, up: bool, o: Oracle)
    requires up ==> live.vm
    ensures s == ApplyTerraform || (up && s != DestroyTerraform) ==> After(live, s, m, o).vm
  {
  }

  lemma EffectKeepsHeld(reg: Registry, m: Metadata, live: Live, s: Step, up: bool, minted: bool, o: Oracle)
    requires Held(reg, m, live) && (up ==> live.vm) && s != MintKey && Allowed(reg, m, Try(s), up, minted, o)
    ensures Held(reg, m, After(live, s, m, o))
  {
    hide IsLocal, Role;
  }

  lemma MintKeepsHeld(reg: Registry, m: Metadata, live: Live, o: Oracle)
    requires Held(reg, m, live) && m.aiKeyHash == "" && o.hash != "" && Role(m, "ai") in reg.ais
    ensures Held(reg, m.(aiKeyHash := o.hash, aiCapUsd := o.cap), After(live, MintKey, m, o))
  {
    hide IsLocal, Role;
    SameRoles(reg, m, m.(aiKeyHash := o.hash, aiCapUsd := o.cap));
    assert live.keys == {};
  }

  lemma WriteKeepsHeld(reg: Registry, m: Metadata, live: Live, c: Command)
    requires Held(reg, m, live) && !c.Try?
    ensures SameIdentity(m, Changed(m, c)) && Held(reg, Changed(m, c), live)
    ensures Changed(m, c).aiKeyHash == m.aiKeyHash
    ensures Changed(m, c).status == if c.Mark? then c.status else m.status
  {
    hide IsLocal, Role, SessionUrl;
    SameRoles(reg, m, Changed(m, c));
  }

  lemma AllowedForSame(reg: Registry, a: Metadata, b: Metadata, c: Command, up: bool, minted: bool, o: Oracle)
    requires SameIdentity(a, b)
    ensures Allowed(reg, a, c, up, minted, o) == Allowed(reg, b, c, up, minted, o)
  {
    hide IsLocal, Role;
    SameRoles(reg, a, b);
  }

  lemma ExecuteKeepsHeld(reg: Registry, m: Metadata, st: State, c: Command, k: Known, o: Oracle)
    requires SameIdentity(m, st.mem) && Held(reg, st.mem, st.out.live) && Fits(k, st)
    requires Read(reg, m, k, c, o).Some?
    ensures var (next, ok) := Execute(st, c, o);
      && SameIdentity(m, next.mem) && Held(reg, next.mem, next.out.live) && next.folder.Some?
      && (if ok then Fits(Read(reg, m, k, c, o).value, next)
          else Synced(next) && next.mem == st.mem)
  {
    hide Held, Allowed, After, AfterBreak, Changed;
    AllowedForSame(reg, m, st.mem, c, k.up, k.minted, o);
    if c.Try? {
      StepKeepsHeld(reg, st.mem, st.out.live, c.step, k.up, k.minted, o);
    } else {
      WriteKeepsHeld(reg, st.mem, st.out.live, c);
    }
  }

  /** Every run of a script that reads well keeps Held, whatever breaks; when a
      step breaks, the metadata file is up to date. */
  lemma {:induction false} RunKeepsHeld(reg: Registry, m: Metadata, st: State, script: seq<Command>, k: Known, o: Oracle)
    requires SameIdentity(m, st.mem) && Held(reg, st.mem, st.out.live) && Fits(k, st)
    requires Judge(reg, m, k, script, o).Some?
    ensures var (next, ok) := Run(st, script, o);
      && SameIdentity(m, next.mem) && Held(reg, next.mem, next.out.live) && next.folder.Some?
      && (if ok then Fits(Judge(reg, m, k, script, o).value, next) else Synced(next))
    decreases |script|
  {
    if script != [] {
      var c := script[0];
      ExecuteKeepsHeld(reg, m, st, c, k, o);
      var (next, ok) := Execute(st, c, o);
      hide Held, Fits, SameIdentity, Execute, Read, Synced;
      if ok {
        RunKeepsHeld(reg, m, next, script[1..], Read(reg, m, k, c, o).value, o);
      }
    }
  }

  /** A beginning of a script that reads well reads well. */
  lemma JudgePrefix(reg: Registry, m: Metadata, k: Known, script: seq<Command>, n: nat, o: Oracle)
    requires n <= |script| && Judge(reg, m, k, script, o).Some?
    ensures Judge(reg, m, k, script[..n], o).Some?
  {
    assert script == script[..n] + script[n..];
    JudgeConcat(reg, m, k, script[..n], script[n..], o);
  }
}
