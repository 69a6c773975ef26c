/** What a launch writes down, field by field, and does, event by event, in terms of
    what was asked for and what the outside returned. */
module LaunchFacts {
  import opened Options
  import opened Sessions
  import opened Bundles
  import opened Lifecycle
  import opened LaunchRuns
  import opened DestroyRuns
  import opened Histories

  // ------------------------------------------------ what no command changes

  /** Everything but phase, status, address, key and URL. */
  predicate SameRequest(a: Metadata, b: Metadata) {
    b == a.(phase := b.phase, status := b.status, ip := b.ip, fqdn := b.fqdn, url := b.url,
            aiKeyHash := b.aiKeyHash, aiCapUsd := b.aiCapUsd)
  }

  lemma ExecuteKeepsRequest(st: State, c: Command, o: Oracle)
    ensures SameRequest(st.mem, Execute(st, c, o).0.mem)
  {
    hide SessionUrl, After, AfterBreak;
  }

  lemma {:induction false} RunKeepsRequest(st: State, script: seq<Command>, o: Oracle)
    ensures SameRequest(st.mem, Run(st, script, o).0.mem)
    decreases |script|
  {
    if script != [] {
      ExecuteKeepsRequest(st, script[0], o);
      hide Execute;
      if Execute(st, script[0], o).1 {
        RunKeepsRequest(Execute(st, script[0], o).0, script[1..], o);
      }
    }
  }

  lemma LaunchKeepsRequest(i: Inputs, slug: string, at: int, o: Oracle)
    ensures SameRequest(Fresh(i, slug, at), Launched(Begun(i, slug, at), i, o).0.mem)
  {
    var st, script := Begun(i, slug, at), LaunchScript(i, o);
    RunKeepsRequest(st, script, o);
    ExecuteKeepsRequest(Run(st, script, o).0, Mark(Failed), o);
    hide Run, LaunchScript, Execute, Fresh;
  }

  // -------------------------------------------------------------- the key

  /** The handle and cap of the key, once minting worked. */
  predicate MintFits(st: State, o: Oracle) {
    if Attempted(MintKey) in st.out.log && MintKey !in o.breaks
    then st.mem.aiKeyHash == o.hash && st.mem.aiCapUsd == o.cap
    else st.mem.aiKeyHash == "" && st.mem.aiCapUsd == 0.0
  }

  lemma ExecuteMints(st: State, c: Command, o: Oracle)
    requires MintFits(st, o)
    ensures MintFits(Execute(st, c, o).0, o)
  {
    hide SessionUrl, After, AfterBreak;
  }

  lemma {:induction false} RunMints(st: State, script: seq<Command>, o: Oracle)
    requires MintFits(st, o)
    ensures MintFits(Run(st, script, o).0, o)
    decreases |script|
  {
    if script != [] {
      ExecuteMints(st, script[0], o);
      hide MintFits, Execute;
      if Execute(st, script[0], o).1 {
        RunMints(Execute(st, script[0], o).0, script[1..], o);
      }
    }
  }

  lemma LaunchMints(i: Inputs, slug: string, at: int, o: Oracle)
    ensures MintFits(Launched(Begun(i, slug, at), i, o).0, o)
  {
    var st, script := Begun(i, slug, at), LaunchScript(i, o);
    assert MintFits(st, o);
    RunMints(st, script, o);
    ExecuteMints(Run(st, script, o).0, Mark(Failed), o);
    hide Run, LaunchScript, Execute, MintFits, Begun;
  }

  // -------------------------------------------------------------- the address

  predicate OutputsRead(st: State, o: Oracle) {
    Attempted(ReadOutputs) in st.out.log && ReadOutputs !in o.breaks
  }

  predicate Up(st: State, o: Oracle) {
    Attempted(UpStack) in st.out.log && UpStack !in o.breaks
  }

  /** The address is terraform's once its outputs were read, the URL recorded once the
      stack is up. */
  predicate Placed(st: State, cloud: bool, o: Oracle) {
    && st.mem.ip == (if OutputsRead(st, o) then o.ip else "")
    && st.mem.fqdn == (if OutputsRead(st, o) then o.fqdn else "")
    && st.mem.url == (if !Up(st, o) then ""
                      else if !cloud then "http://localhost:8080"
                      else "http://" + (if o.fqdn != "" then o.fqdn else o.ip))
  }

  /** A command that neither finds out nor records where the session answers. */
  predicate Plain(c: Command) {
    match c
    case SaveIp(_) => false
    case SaveFqdn(_) => false
    case SaveUrl(_) => false
    case Try(s) => s != ReadOutputs && s != UpStack
    case _ => true
  }

  predicate AllPlain(script: seq<Command>) {
    forall k :: 0 <= k < |script| ==> Plain(script[k])
  }

  lemma PlainBoth(a: seq<Command>, b: seq<Command>)
    requires AllPlain(a) && AllPlain(b)
    ensures AllPlain(a + b)
  {
  }

  lemma PlainMem(st: State, c: Command, o: Oracle)
    requires Plain(c)
    ensures var m := Execute(st, c, o).0.mem; m.ip == st.mem.ip && m.fqdn == st.mem.fqdn && m.url == st.mem.url
  {
    hide SessionUrl, After, AfterBreak;
  }

  lemma PlainLog(st: State, c: Command, o: Oracle)
    requires Plain(c)
    ensures var next := Execute(st, c, o).0;
      OutputsRead(next, o) == OutputsRead(st, o) && Up(next, o) == Up(st, o)
  {
    hide Changed, After, AfterBreak;
  }

  lemma ExecutePlain(st: State, c: Command, cloud: bool, o: Oracle)
    requires Placed(st, cloud, o) && Plain(c)
    ensures var next := Execute(st, c, o).0;
      Placed(next, cloud, o) && OutputsRead(next, o) == OutputsRead(st, o) && Up(next, o) == Up(st, o)
  {
    PlainMem(st, c, o);
    PlainLog(st, c, o);
    hide Execute, OutputsRead, Up, Plain;
  }

  lemma {:induction false} RunPlain(st: State, script: seq<Command>, cloud: bool, o: Oracle)
    requires Placed(st, cloud, o) && AllPlain(script)
    ensures var next := Run(st, script, o).0;
      Placed(next, cloud, o) && OutputsRead(next, o) == OutputsRead(st, o) && Up(next, o) == Up(st, o)
    decreases |script|
  {
    hide Placed, Read, Up, Execute, Plain;
    if script != [] {
      ExecutePlain(st, script[0], cloud, o);
      if Execute(st, script[0], o).1 {
        RunPlain(Execute(st, script[0], o).0, script[1..], cloud, o);
      }
    }
  }

  function OutputsScript(o: Oracle): seq<Command> {
    [Enter(Outputs), Try(ReadOutputs)] + When(o.fqdn != "", [SaveFqdn(o.fqdn)]) + [SaveIp(o.ip)]
  }

  /** Reading the outputs gives the session its address. */
  lemma RunOutputs(st: State, o: Oracle)
    requires Placed(st, true, o) && !Up(st, o) && !OutputsRead(st, o)
    ensures var (next, ok) := Run(st, OutputsScript(o), o);
      Placed(next, true, o) && !Up(next, o) && (ok ==> OutputsRead(next, o))
  {
    var entered := Execute(st, Enter(Outputs), o).0;
    ExecutePlain(st, Enter(Outputs), true, o);
    ReadStep(entered, o);
    var read := Execute(entered, Try(ReadOutputs), o).0;
    if ReadOutputs !in o.breaks {
      SavedAddress(read, o);
    }
    hide *;
    OutputsAre(st, o);
  }

  lemma ReadStep(st: State, o: Oracle)
    requires Placed(st, true, o) && !Up(st, o) && !OutputsRead(st, o)
    ensures var (next, ok) := Execute(st, Try(ReadOutputs), o);
      && ok == (ReadOutputs !in o.breaks) && !Up(next, o) && next.mem == st.mem
      && (ok ==> OutputsRead(next, o)) && (!ok ==> Placed(next, true, o))
      && st.mem.fqdn == st.mem.ip == st.mem.url == ""
  {
  }

  lemma SavedAddress(st: State, o: Oracle)
    requires OutputsRead(st, o) && !Up(st, o)
    ensures st.mem.fqdn == "" && st.mem.url == "" ==>
      var named := if o.fqdn != "" then Execute(st, SaveFqdn(o.fqdn), o).0 else st;
      var next := Execute(named, SaveIp(o.ip), o).0;
      Placed(next, true, o) && !Up(next, o) && OutputsRead(next, o)
  {
  }

  lemma OutputsAre(st: State, o: Oracle)
    ensures var entered := Execute(st, Enter(Outputs), o).0;
      var (read, ok) := Execute(entered, Try(ReadOutputs), o);
      var named := if o.fqdn != "" then Execute(read, SaveFqdn(o.fqdn), o).0 else read;
      Run(st, OutputsScript(o), o) == if ok then Execute(named, SaveIp(o.ip), o) else (read, false)
  {
    var a, f := [Enter(Outputs)] + [Try(ReadOutputs)], SaveFqdn(o.fqdn);
    assert OutputsScript(o) == if o.fqdn != "" then a + [f] + [SaveIp(o.ip)] else a + [SaveIp(o.ip)];
    SavesWork(Execute(st, Enter(Outputs), o).0, o);
    hide *;
    SavesWork(st, o);
    RunThree(st, Enter(Outputs), Try(ReadOutputs), f, o);
    SavesWork(Run(st, a, o).0, o);
    RunThen(st, a, SaveIp(o.ip), o);
    RunThen(st, a + [f], SaveIp(o.ip), o);
  }

  lemma SavesWork(st: State, o: Oracle)
    ensures Execute(st, Enter(Outputs), o).1 && Execute(st, SaveFqdn(o.fqdn), o).1
  {
  }

  /** Starting the stack records where it answers. */
  lemma RunUp(st: State, cloud: bool, o: Oracle)
    requires Placed(st, cloud, o) && !Up(st, o) && (cloud ==> OutputsRead(st, o))
    ensures var (next, ok) := Run(st, UpScript(!cloud), o);
      Placed(next, cloud, o) && OutputsRead(next, o) == OutputsRead(st, o) && (ok ==> Up(next, o))
  {
    var entered := Execute(st, Enter(ComposeUp), o).0;
    ExecutePlain(st, Enter(ComposeUp), cloud, o);
    UpStep(entered, cloud, o);
    hide *;
    UpIs(st, cloud, o);
    RunThree(st, Enter(ComposeUp), Try(UpStack), SaveUrl(!cloud), o);
  }

  lemma UpIs(st: State, cloud: bool, o: Oracle)
    ensures UpScript(!cloud) == [Enter(ComposeUp)] + [Try(UpStack)] + [SaveUrl(!cloud)]
    ensures Execute(st, Enter(ComposeUp), o).1
  {
  }

  lemma UpStep(st: State, cloud: bool, o: Oracle)
    requires Placed(st, cloud, o) && !Up(st, o) && (cloud ==> OutputsRead(st, o))
    ensures var (up, ok) := Execute(st, Try(UpStack), o);
      && OutputsRead(up, o) == OutputsRead(st, o) && (!ok ==> Placed(up, cloud, o))
      && (ok ==> var saved := Execute(up, SaveUrl(!cloud), o).0;
            Placed(saved, cloud, o) && Up(saved, o) && OutputsRead(saved, o) == OutputsRead(st, o))
  {
    hide After, AfterBreak;
  }

  // ------------------------------------------------------ the whole launch

  /** What a launch does before and after it reads terraform's outputs, and after the
      stack is up. */
  function BeforeOutputs(i: Inputs): seq<Command> {
    if i.cloud then
      [Try(PluginCache)] + StageScript() + [Enter(TerraformInit), Try(InitTerraform)] + [Enter(TerraformApply)]
      + [Try(ApplyTerraform)]
    else [Try(ValidateImages)] + StageScript()
  }

  function BeforeUp(i: Inputs): seq<Command> {
    if i.cloud then ReachScript() + BundleScript(i) + When(i.ai.Some?, MintScript())
    else When(HasKind(i), [Enter(CreateCluster), Try(MakeCluster)]) + When(i.ai.Some?, MintScript())
  }

  function AfterUp(i: Inputs): seq<Command> {
    When(HasSetup(i), HookScript()) + SummaryScript()
  }

  lemma LaunchParts(i: Inputs, o: Oracle)
    ensures LaunchScript(i, o)
         == BeforeOutputs(i) + (if i.cloud then OutputsScript(o) else []) + BeforeUp(i) + UpScript(!i.cloud) + AfterUp(i)
  {
    hide HasKind, HasSetup, StageScript, ReachScript, BundleScript, MintScript, UpScript, HookScript, SummaryScript, When;
    if i.cloud {
      CloudShape(i, o);
      ApplyScriptIs(o);
      hide LaunchScript, ApplyScript, OutputsScript;
      assert OutputsScript(o) == [Enter(Outputs), Try(ReadOutputs)] + When(o.fqdn != "", [SaveFqdn(o.fqdn)]) + [SaveIp(o.ip)]
        by { OutputsScriptIs(o); }
      var a, b, c := BeforeOutputs(i), OutputsScript(o), ReachScript() + BundleScript(i);
      var d, e, f := When(i.ai.Some?, MintScript()), UpScript(false), AfterUp(i);
      assert a + b + ReachScript() + BundleScript(i) + (d + e + f) == a + b + (c + d) + e + f;
    } else {
      LocalShape(i, o);
      hide LaunchScript;
      var a, c := BeforeOutputs(i), When(HasKind(i), [Enter(CreateCluster), Try(MakeCluster)]);
      var d, e, f := When(i.ai.Some?, MintScript()), UpScript(true), AfterUp(i);
      assert a + c + (d + e + f) == a + [] + (c + d) + e + f;
    }
  }

  lemma OutputsScriptIs(o: Oracle)
    ensures OutputsScript(o) == [Enter(Outputs), Try(ReadOutputs)] + When(o.fqdn != "", [SaveFqdn(o.fqdn)]) + [SaveIp(o.ip)]
  {
  }

  lemma PartsArePlain(i: Inputs)
    ensures AllPlain(BeforeOutputs(i)) && AllPlain(BeforeUp(i)) && AllPlain(AfterUp(i))
  {
    assert AllPlain(ReachScript());
    assert AllPlain(BundleScript(i)) by { BundleIsPlain(i); }
    assert AllPlain(When(i.ai.Some?, MintScript()));
    hide ReachScript, BundleScript, HasKind, HasSetup, MintScript;
    if i.cloud {
      PlainBoth(ReachScript(), BundleScript(i));
      PlainBoth(ReachScript() + BundleScript(i), When(i.ai.Some?, MintScript()));
    }
  }

  lemma BundleIsPlain(i: Inputs)
    ensures AllPlain(BundleScript(i))
  {
    hide HasKind;
  }

  lemma LaunchIsPlaced(i: Inputs, slug: string, at: int, o: Oracle)
    ensures var (next, ok) := Launched(Begun(i, slug, at), i, o);
      Placed(next, i.cloud, o) && (ok ==> Up(next, o) && (i.cloud ==> OutputsRead(next, o)))
  {
    var st, script := Begun(i, slug, at), LaunchScript(i, o);
    assert Placed(st, i.cloud, o) && !Up(st, o) && !OutputsRead(st, o);
    RunIsPlaced(st, i, o);
    ExecutePlain(Run(st, script, o).0, Mark(Failed), i.cloud, o);
    hide Run, LaunchScript, Execute, Placed, Up, OutputsRead, Begun;
  }

  lemma RunIsPlaced(st: State, i: Inputs, o: Oracle)
    requires Placed(st, i.cloud, o) && !Up(st, o) && !OutputsRead(st, o)
    ensures var (next, ok) := Run(st, LaunchScript(i, o), o);
      Placed(next, i.cloud, o) && (ok ==> Up(next, o) && (i.cloud ==> OutputsRead(next, o)))
  {
    hide *;
    var a, b, c, d, e := BeforeOutputs(i), if i.cloud then OutputsScript(o) else [], BeforeUp(i), UpScript(!i.cloud), AfterUp(i);
    LaunchParts(i, o);
    PartsArePlain(i);
    RunConcat(st, a, b, o);
    RunConcat(st, a + b, c, o);
    RunConcat(st, a + b + c, d, o);
    RunConcat(st, a + b + c + d, e, o);
    RunPlain(st, a, i.cloud, o);
    if Run(st, a, o).1 {
      var st1 := Run(st, a, o).0;
      if i.cloud {
        RunOutputs(st1, o);
      } else {
        RunNone(st1, o);
      }
      if Run(st1, b, o).1 {
        var st2 := Run(st1, b, o).0;
        RunPlain(st2, c, i.cloud, o);
        if Run(st2, c, o).1 {
          var st3 := Run(st2, c, o).0;
          RunUp(st3, i.cloud, o);
          RunPlain(Run(st3, d, o).0, e, i.cloud, o);
        }
      }
    }
  }

  lemma RunNone(st: State, o: Oracle)
    ensures Run(st, [], o) == (st, true)
  {
  }

  // -------------------------------------------------------------- theorems

  /** What the metadata of a new session says of the launch that was asked for, whatever
      became of it. */
  lemma LaunchRecordsTheRequest(i: Inputs, slug: string, at: int, o: Oracle)
    ensures var m := Launched(Begun(i, slug, at), i, o).0.mem;
      && m.schema == 2 && m.slug == slug && m.createdAt == at
      && (if i.cloud then
            && m.region == i.region && m.size == i.size && m.image == i.image && m.sshUser == i.sshUser
            && m.binary == i.binary && m.version == i.version && m.gatewayPassword == i.password
          else
            && m.region == "" && m.size == "" && m.image == "" && m.sshUser == ""
            && m.binary == "" && m.version == "" && m.gatewayPassword == "openbuzz")
      && m.profile == i.profile
      && m.pack == (if i.bundle.Some? then i.pack else "")
      && m.bundle == (if i.bundle.Some? then i.bundle.value.name else "")
      && m.kind == (i.bundle.Some? && i.bundle.value.hasKind)
  {
    LaunchKeepsRequest(i, slug, at, o);
    hide RolesOf, Launched, Begun;
  }

  /** Who serves each role: the VM always, an AI provider when one was picked, an access
      provider only for a VM. */
  lemma LaunchRecordsTheRoles(i: Inputs, slug: string, at: int, o: Oracle)
    ensures var m := Launched(Begun(i, slug, at), i, o).0.mem;
      && m.roles.Some?
      && "vm" in m.roles.value && m.roles.value["vm"] == i.vm
      && ("ai" in m.roles.value <==> i.ai.Some?) && (i.ai.Some? ==> m.roles.value["ai"] == i.ai.value)
      && ("access" in m.roles.value <==> i.cloud && i.access.Some?)
      && (i.cloud && i.access.Some? ==> m.roles.value["access"] == i.access.value)
      && (forall role :: role in m.roles.value ==> role == "vm" || role == "ai" || role == "access")
  {
    LaunchKeepsRequest(i, slug, at, o);
    FreshRoles(i, slug, at);
    hide Launched, Begun, Fresh;
  }

  lemma FreshRoles(i: Inputs, slug: string, at: int)
    ensures Fresh(i, slug, at).roles == Some(RolesOf(i))
  {
    hide RolesOf;
  }

  /** What a launch records of what it made.  Once terraform's outputs were read, its
      address and DNS name; once the stack is up, the URL it answers at; once a key was
      minted, its handle and cap; and until then nothing.  A ready session has its URL,
      and on a VM its address. */
  lemma LaunchRecordsTheResult(i: Inputs, slug: string, at: int, o: Oracle)
    ensures var (next, ok) := Launched(Begun(i, slug, at), i, o);
      var m, log := next.mem, next.out.log;
      var known := Attempted(ReadOutputs) in log && ReadOutputs !in o.breaks;
      var up := Attempted(UpStack) in log && UpStack !in o.breaks;
      var minted := Attempted(MintKey) in log && MintKey !in o.breaks;
      && m.ip == (if known then o.ip else "") && m.fqdn == (if known then o.fqdn else "")
      && m.url == (if !up then "" else if !i.cloud then "http://localhost:8080"
                   else "http://" + (if o.fqdn != "" then o.fqdn else o.ip))
      && m.aiKeyHash == (if minted then o.hash else "") && m.aiCapUsd == (if minted then o.cap else 0.0)
      && (ok ==> up && (i.cloud ==> known) && (minted <==> i.ai.Some?))
  {
    LaunchIsPlaced(i, slug, at, o);
    LaunchMints(i, slug, at, o);
    ReadyMinted(i, slug, at, o);
    hide Launched, Begun;
  }

  /** What a launch does, event by event: each phase is persisted, then its work is done,
      in this order, up to and including the first step that breaks. */
  lemma LaunchInOrder(st: State, i: Inputs, o: Oracle)
    ensures var kind, setup := i.bundle.Some? && i.bundle.value.hasKind, i.bundle.Some? && i.bundle.value.hasSetup;
      var cluster := if kind then [Entered(CreateCluster), Attempted(MakeCluster)] else [];
      Launched(st, i, o).0.out.log == st.out.log + Cut(
        (if i.cloud then
           [Attempted(PluginCache)]
           + [Entered(Stage), Attempted(StageFiles), Entered(TerraformInit), Attempted(InitTerraform),
              Entered(TerraformApply), Attempted(ApplyTerraform), Entered(Outputs), Attempted(ReadOutputs)]
           + [Entered(WaitSsh), Attempted(DialSsh), Entered(CloudInit), Attempted(AwaitCloudInit), Attempted(RedialSsh),
              Entered(PushStack), Attempted(PushCompose), Entered(PullStack), Attempted(PullImages)]
           + ((if kind then [Entered(InstallKind), Attempted(InstallKindTools)] else [])
              + (if i.bundle.Some? then [Entered(PushPayload), Attempted(PushTar)] else [])
              + cluster)
         else [Attempted(ValidateImages)] + [Entered(Stage), Attempted(StageFiles)] + cluster)
        + ((if i.ai.Some? then [Entered(AiMint), Attempted(MintKey)] else [])
           + [Entered(ComposeUp), Attempted(UpStack)]
           + (if setup then [Entered(Setup), Attempted(RunHook)] else [])
           + [Entered(Summary)]), o.breaks)
  {
    LaunchFollowsPlan(st, i, o);
    LaunchTimeline(i);
    hide *;
    EventsAre(i);
  }

  function ClusterEvents(i: Inputs): seq<Event> {
    if HasKind(i) then [Entered(CreateCluster), Attempted(MakeCluster)] else []
  }

  function StartEvents(i: Inputs): seq<Event> {
    if i.cloud then
      [Attempted(PluginCache)]
      + [Entered(Stage), Attempted(StageFiles), Entered(TerraformInit), Attempted(InitTerraform),
         Entered(TerraformApply), Attempted(ApplyTerraform), Entered(Outputs), Attempted(ReadOutputs)]
      + [Entered(WaitSsh), Attempted(DialSsh), Entered(CloudInit), Attempted(AwaitCloudInit), Attempted(RedialSsh),
         Entered(PushStack), Attempted(PushCompose), Entered(PullStack), Attempted(PullImages)]
      + ((if HasKind(i) then [Entered(InstallKind), Attempted(InstallKindTools)] else [])
         + (if i.bundle.Some? then [Entered(PushPayload), Attempted(PushTar)] else [])
         + ClusterEvents(i))
    else [Attempted(ValidateImages)] + [Entered(Stage), Attempted(StageFiles)] + ClusterEvents(i)
  }

  function EndEvents(i: Inputs): seq<Event> {
    (if i.ai.Some? then [Entered(AiMint), Attempted(MintKey)] else [])
    + [Entered(ComposeUp), Attempted(UpStack)]
    + (if HasSetup(i) then [Entered(Setup), Attempted(RunHook)] else [])
    + [Entered(Summary)]
  }

  /** The events above, in the groups of the plan. */
  lemma EventsAre(i: Inputs)
    ensures var kind, setup := i.bundle.Some? && i.bundle.value.hasKind, i.bundle.Some? && i.bundle.value.hasSetup;
      var cluster := if kind then [Entered(CreateCluster), Attempted(MakeCluster)] else [];
      StartEvents(i) + EndEvents(i) ==
        (if i.cloud then
           [Attempted(PluginCache)]
           + [Entered(Stage), Attempted(StageFiles), Entered(TerraformInit), Attempted(InitTerraform),
              Entered(TerraformApply), Attempted(ApplyTerraform), Entered(Outputs), Attempted(ReadOutputs)]
           + [Entered(WaitSsh), Attempted(DialSsh), Entered(CloudInit), Attempted(AwaitCloudInit), Attempted(RedialSsh),
              Entered(PushStack), Attempted(PushCompose), Entered(PullStack), Attempted(PullImages)]
           + ((if kind then [Entered(InstallKind), Attempted(InstallKindTools)] else [])
              + (if i.bundle.Some? then [Entered(PushPayload), Attempted(PushTar)] else [])
              + cluster)
         else [Attempted(ValidateImages)] + [Entered(Stage), Attempted(StageFiles)] + cluster)
        + ((if i.ai.Some? then [Entered(AiMint), Attempted(MintKey)] else [])
           + [Entered(ComposeUp), Attempted(UpStack)]
           + (if setup then [Entered(Setup), Attempted(RunHook)] else [])
           + [Entered(Summary)])
  {
  }

  lemma LaunchTimeline(i: Inputs)
    ensures Gate(i) + Timeline(Plan(i)) == StartEvents(i) + EndEvents(i)
  {
    GateIs(i);
    TailTimeline(i);
    hide *;
    if i.cloud {
      CloudTimeline(i);
    } else {
      LocalTimeline(i);
    }
  }

  lemma GateIs(i: Inputs)
    ensures Gate(i) == if i.cloud then [Attempted(PluginCache)] else [Attempted(ValidateImages)]
  {
  }

  lemma PhaseTimeline(p: Phase, s: Step, b: bool)
    requires StepsOf(p) == [s]
    ensures Timeline([p]) == [Entered(p), Attempted(s)]
    ensures Timeline(Optional(b, p)) == if b then [Entered(p), Attempted(s)] else []
  {
    TimelineOne(p);
    assert Attempts([s]) == [Attempted(s)];
  }

  lemma TimelineFour(p: Phase, q: Phase, r: Phase, t: Phase)
    ensures Timeline([p, q, r, t]) == Timeline([p]) + Timeline([q]) + Timeline([r]) + Timeline([t])
  {
    hide *;
    TimelineAppend([p], [q]);
    TimelineAppend([p] + [q], [r]);
    TimelineAppend([p] + [q] + [r], [t]);
    assert [p] + [q] + [r] + [t] == [p, q, r, t];
  }

  lemma ApplyPlanIs()
    ensures APPLY_PLAN == [Stage, TerraformInit, TerraformApply, Outputs]
  {
  }

  lemma ReachPlanIs()
    ensures REACH_PLAN == [WaitSsh, CloudInit, PushStack, PullStack]
  {
  }

  lemma ApplyTimeline()
    ensures Timeline(APPLY_PLAN)
         == [Entered(Stage), Attempted(StageFiles), Entered(TerraformInit), Attempted(InitTerraform),
             Entered(TerraformApply), Attempted(ApplyTerraform), Entered(Outputs), Attempted(ReadOutputs)]
  {
    PhaseTimeline(Stage, StageFiles, true);
    PhaseTimeline(TerraformInit, InitTerraform, true);
    PhaseTimeline(TerraformApply, ApplyTerraform, true);
    PhaseTimeline(Outputs, ReadOutputs, true);
    hide *;
    ApplyPlanIs();
    TimelineFour(Stage, TerraformInit, TerraformApply, Outputs);
  }

  lemma CloudInitTimeline()
    ensures Timeline([CloudInit]) == [Entered(CloudInit), Attempted(AwaitCloudInit), Attempted(RedialSsh)]
  {
    TimelineOne(CloudInit);
    assert Attempts(StepsOf(CloudInit)) == [Attempted(AwaitCloudInit), Attempted(RedialSsh)];
  }

  lemma ReachTimeline()
    ensures Timeline(REACH_PLAN)
         == [Entered(WaitSsh), Attempted(DialSsh), Entered(CloudInit), Attempted(AwaitCloudInit), Attempted(RedialSsh),
             Entered(PushStack), Attempted(PushCompose), Entered(PullStack), Attempted(PullImages)]
  {
    PhaseTimeline(WaitSsh, DialSsh, true);
    CloudInitTimeline();
    PhaseTimeline(PushStack, PushCompose, true);
    PhaseTimeline(PullStack, PullImages, true);
    hide *;
    ReachPlanIs();
    TimelineFour(WaitSsh, CloudInit, PushStack, PullStack);
  }

  lemma BundleTimeline(i: Inputs)
    ensures Timeline(BundlePlan(i))
         == (if HasKind(i) then [Entered(InstallKind), Attempted(InstallKindTools)] else [])
            + (if i.bundle.Some? then [Entered(PushPayload), Attempted(PushTar)] else []) + ClusterEvents(i)
  {
    PhaseTimeline(InstallKind, InstallKindTools, HasKind(i));
    PhaseTimeline(PushPayload, PushTar, i.bundle.Some?);
    PhaseTimeline(CreateCluster, MakeCluster, HasKind(i));
    hide Timeline, StepsOf, HasKind, Optional;
    var a, b, c := Optional(HasKind(i), InstallKind), Optional(i.bundle.Some?, PushPayload), Optional(HasKind(i), CreateCluster);
    TimelineAppend(a, b);
    TimelineAppend(a + b, c);
  }

  lemma TailTimeline(i: Inputs)
    ensures Timeline(TailPlan(i)) == EndEvents(i)
  {
    PhaseTimeline(AiMint, MintKey, i.ai.Some?);
    PhaseTimeline(ComposeUp, UpStack, true);
    PhaseTimeline(Setup, RunHook, HasSetup(i));
    TimelineOne(Summary);
    assert Timeline([Summary]) == [Entered(Summary)];
    hide Timeline, StepsOf, HasSetup, Optional;
    var a, c := Optional(i.ai.Some?, AiMint), Optional(HasSetup(i), Setup);
    TimelineAppend(a, [ComposeUp]);
    TimelineAppend(c, [Summary]);
    TimelineAppend(a + [ComposeUp], c + [Summary]);
    hide *;
    Four(Timeline(a), Timeline([ComposeUp]), Timeline(c), Timeline([Summary]));
  }

  lemma Four<T>(a: seq<T>, b: seq<T>, c: seq<T>, d: seq<T>)
    ensures a + b + (c + d) == a + b + c + d && a + (b + c + d) == a + b + c + d
  {
  }

  lemma CloudTimeline(i: Inputs)
    requires i.cloud
    ensures [Attempted(PluginCache)] + Timeline(Plan(i)) == StartEvents(i) + Timeline(TailPlan(i))
  {
    CloudShape(i, Oracle({}, {}, "", "", "", 0.0));
    ApplyTimeline();
    ReachTimeline();
    BundleTimeline(i);
    hide Plan, Timeline, BundlePlan, TailPlan, LaunchScript, HasKind, ClusterEvents;
    var a, r, b, t := APPLY_PLAN, REACH_PLAN, BundlePlan(i), TailPlan(i);
    TimelineAppend(a, r);
    TimelineAppend(a + r, b);
    TimelineAppend(a + r + b, t);
    hide APPLY_PLAN, REACH_PLAN;
    Associate([Attempted(PluginCache)], Timeline(a), Timeline(r), Timeline(b), Timeline(t));
  }

  lemma LocalTimeline(i: Inputs)
    requires !i.cloud
    ensures [Attempted(ValidateImages)] + Timeline(Plan(i)) == StartEvents(i) + Timeline(TailPlan(i))
  {
    LocalShape(i, Oracle({}, {}, "", "", "", 0.0));
    PhaseTimeline(Stage, StageFiles, true);
    PhaseTimeline(CreateCluster, MakeCluster, HasKind(i));
    hide Plan, Timeline, TailPlan, LaunchScript, HasKind, Optional, StepsOf;
    var k, t := Optional(HasKind(i), CreateCluster), TailPlan(i);
    TimelineAppend([Stage], k);
    TimelineAppend([Stage] + k, t);
    Four([Attempted(ValidateImages)], Timeline([Stage]), Timeline(k), Timeline(t));
  }

  // ------------------------------------------------- every moment of a launch

  predicate NoMarks(script: seq<Command>) {
    forall k :: 0 <= k < |script| ==> !script[k].Mark?
  }

  lemma {:induction false} RunKeepsStatus(st: State, script: seq<Command>, o: Oracle)
    requires NoMarks(script)
    ensures Run(st, script, o).0.mem.status == st.mem.status
    decreases |script|
  {
    if script != [] {
      assert Execute(st, script[0], o).0.mem.status == st.mem.status by {
        hide SessionUrl, After, AfterBreak;
      }
      hide Execute;
      if Execute(st, script[0], o).1 {
        RunKeepsStatus(Execute(st, script[0], o).0, script[1..], o);
      }
    }
  }

  lemma NoMarksBoth(a: seq<Command>, b: seq<Command>)
    requires NoMarks(a) && NoMarks(b)
    ensures NoMarks(a + b)
  {
  }

  lemma EarlyScriptsHaveNoMarks(i: Inputs, o: Oracle)
    ensures NoMarks(BeforeOutputs(i)) && NoMarks(OutputsScript(o)) && NoMarks(ReachScript()) && NoMarks(BundleScript(i))
  {
    hide HasKind;
  }

  lemma LateScriptsHaveNoMarks(i: Inputs)
    ensures NoMarks(When(i.ai.Some?, MintScript())) && NoMarks(When(HasKind(i), [Enter(CreateCluster), Try(MakeCluster)]))
    ensures NoMarks(UpScript(!i.cloud)) && NoMarks(When(HasSetup(i), HookScript()) + [Enter(Summary)])
  {
    hide HasKind, HasSetup;
  }

  lemma BeforeUpHasNoMarks(i: Inputs, o: Oracle)
    ensures NoMarks(BeforeUp(i))
  {
    EarlyScriptsHaveNoMarks(i, o);
    LateScriptsHaveNoMarks(i);
    var k, m := When(HasKind(i), [Enter(CreateCluster), Try(MakeCluster)]), When(i.ai.Some?, MintScript());
    NoMarksBoth(k, m);
    NoMarksBoth(ReachScript(), BundleScript(i));
    NoMarksBoth(ReachScript() + BundleScript(i), m);
    hide NoMarks, ReachScript, BundleScript, When, HasKind, MintScript;
  }

  lemma AfterUpIs(i: Inputs)
    ensures AfterUp(i) == When(HasSetup(i), HookScript()) + [Enter(Summary)] + [Mark(Ready)]
  {
    hide HasSetup, HookScript, When;
  }

  /** Only the last command of a launch changes the status. */
  lemma OnlyTheLastMarks(i: Inputs, o: Oracle)
    ensures var script := LaunchScript(i, o);
      script != [] && script[|script| - 1] == Mark(Ready) && NoMarks(script[..|script| - 1])
  {
    hide *;
    var a, b, c, d := BeforeOutputs(i), if i.cloud then OutputsScript(o) else [], BeforeUp(i), UpScript(!i.cloud);
    var e := When(HasSetup(i), HookScript()) + [Enter(Summary)];
    LaunchParts(i, o);
    AfterUpIs(i);
    EarlyScriptsHaveNoMarks(i, o);
    LateScriptsHaveNoMarks(i);
    BeforeUpHasNoMarks(i, o);
    NoneMarks();
    NoMarksBoth(a, b);
    NoMarksBoth(a + b, c);
    NoMarksBoth(a + b + c, d);
    NoMarksBoth(a + b + c + d, e);
    var x := a + b + c + d;
    assert x + (e + [Mark(Ready)]) == x + e + [Mark(Ready)];
    assert (x + e + [Mark(Ready)])[..|x + e|] == x + e;
  }

  lemma NoneMarks()
    ensures NoMarks([])
  {
  }

  /** A launch is marked launching until its last command, and at every moment the
      phase it reports is the last one its log entered. */
  lemma LaunchingUntilTheEnd(i: Inputs, slug: string, at: int, o: Oracle, n: nat)
    requires n < |LaunchScript(i, o)|
    ensures var st := Run(Begun(i, slug, at), LaunchScript(i, o)[..n], o).0;
      st.mem.status == Launching && st.mem.phase == Reported(st.out.log)
  {
    hide *;
    var script, prefix := LaunchScript(i, o), LaunchScript(i, o)[..n];
    OnlyTheLastMarks(i, o);
    BeginsWithoutMarks(script, n);
    BegunStatus(i, slug, at);
    BegunReports(i, slug, at);
    RunKeepsStatus(Begun(i, slug, at), prefix, o);
    RunReports(Begun(i, slug, at), prefix, o);
  }

  lemma BegunStatus(i: Inputs, slug: string, at: int)
    ensures Begun(i, slug, at).mem.status == Launching
  {
  }

  lemma BeginsWithoutMarks(script: seq<Command>, n: nat)
    requires n < |script| && NoMarks(script[..|script| - 1])
    ensures NoMarks(script[..n])
  {
    assert forall k :: 0 <= k < n ==> script[..n][k] == script[..|script| - 1][k];
  }

  // ------------------------------------------------------ launch on a machine

  /** What a launch comes to on a machine, in each case.  It is refused for a taken name,
      for this machine while a session on it is listed, or without the tools of a local
      cluster; then nothing changes.  When the folder cannot be made complete, or a VM's
      session gets no password, the session is there with nothing running and no password;
      otherwise as launched, with what it records saved.  Nothing else changes. */
  lemma LaunchCases(reg: Registry, sys: System, i: Inputs, slug: string, at: int, o: Oracle)
    requires reg.Valid() && Offered(reg, i) && o.hash != ""
    ensures var (next, sessions) := (LaunchOn(reg, sys, i, slug, at, o), sys.shelves.sessions);
      var localListed := exists n :: n in sessions && LocalIsListed(reg, sessions, n);
      var kind := i.bundle.Some? && i.bundle.value.hasKind;
      var refused := slug in sessions || slug in sys.shelves.archive
                     || (!i.cloud && (localListed || (kind && FindHostBins in o.breaks)));
      && (refused ==> next == sys)
      && (!refused ==> OnlyAdded(sys, next, slug) && LaunchLeft(next, i, slug, at, o))
  {
    hide *;
    LaunchOutcome(reg, i, slug, at, o);
    RefusedIs(reg, sys, i, slug, o);
    LaunchOnIs(reg, sys, i, slug, at, o);
  }

  predicate LocalIsListed(reg: Registry, sessions: map<string, Folder>, name: string) {
    name in sessions && sessions[name].metadata.Some? && Role(Loaded(sessions[name].metadata.value), "vm") in reg.locals
  }

  /** One session is new; the others, what runs for them and the archive are the same. */
  predicate OnlyAdded(before: System, after: System, slug: string) {
    && slug in after.shelves.sessions && slug in after.outs
    && after.shelves.sessions - {slug} == before.shelves.sessions
    && after.outs - {slug} == before.outs - {slug}
    && after.shelves.archive == before.shelves.archive
  }

  /** The folder and the outside of a session after its launch was not refused. */
  predicate LaunchLeft(sys: System, i: Inputs, slug: string, at: int, o: Oracle) {
    slug in sys.shelves.sessions && slug in sys.outs &&
    var folder, out := sys.shelves.sessions[slug], sys.outs[slug];
    if MakeFolder in o.breaks then folder == Folder(None, None) && out == Outside(Live(false, false, false, {}), [])
    else if i.cloud && GeneratePassword in o.breaks then
      && out == Outside(Live(false, false, false, {}), [])
      && folder.logs == Some(map[]) && folder.metadata.Some?
      && folder.metadata.value.gatewayPassword == "" && folder.metadata.value.slug == slug
      && folder.metadata.value.status == Launching && folder.metadata.value.phase == Created
    else
      var st := Launched(Begun(i, slug, at), i, o).0;
      out == st.out && folder == Folder(Some(st.mem), Some(map[]))
  }

  lemma RefusedIs(reg: Registry, sys: System, i: Inputs, slug: string, o: Oracle)
    ensures var sessions := sys.shelves.sessions;
      && (Taken(sys, slug) <==> slug in sessions || slug in sys.shelves.archive)
      && (HasLocal(reg, sys) <==> exists n :: n in sessions && LocalIsListed(reg, sessions, n))
      && (HasKind(i) <==> i.bundle.Some? && i.bundle.value.hasKind)
  {
    hide Loaded, Role;
    forall n ensures IsListedLocal(reg, sys, n) <==> LocalIsListed(reg, sys.shelves.sessions, n) {
    }
  }

  lemma LaunchOnIs(reg: Registry, sys: System, i: Inputs, slug: string, at: int, o: Oracle)
    requires Synced(Launched(Begun(i, slug, at), i, o).0)
    ensures var refused := Taken(sys, slug) || (!i.cloud && (HasLocal(reg, sys) || (HasKind(i) && FindHostBins in o.breaks)));
      var (next, sessions) := (LaunchOn(reg, sys, i, slug, at, o), sys.shelves.sessions);
      && (refused ==> next == sys)
      && (!refused ==> OnlyAdded(sys, next, slug) && LaunchLeft(next, i, slug, at, o))
  {
    BeginsWithLogs(i, slug, at, o);
    BlankIs(i, slug, at);
    hide Launched, Begun, Blank, HasLocal, HasKind, Put, OnlyAdded;
    forall st: State | slug !in sys.shelves.sessions && st.folder.Some?
      ensures var next := Put(sys, slug, st);
        && OnlyAdded(sys, next, slug) && slug in next.shelves.sessions && slug in next.outs
        && next.shelves.sessions[slug] == st.folder.value && next.outs[slug] == st.out
    {
      PutAdds(sys, slug, st);
    }
  }

  lemma PutAdds(sys: System, slug: string, st: State)
    requires slug !in sys.shelves.sessions && st.folder.Some?
    ensures var next := Put(sys, slug, st);
      && OnlyAdded(sys, next, slug) && slug in next.shelves.sessions && slug in next.outs
      && next.shelves.sessions[slug] == st.folder.value && next.outs[slug] == st.out
  {
  }

  lemma BeginsWithLogs(i: Inputs, slug: string, at: int, o: Oracle)
    ensures var f := Launched(Begun(i, slug, at), i, o).0.folder; f.Some? && f.value.logs == Some(map[])
  {
    var st, script := Begun(i, slug, at), LaunchScript(i, o);
    hide LaunchScript, Run, Execute, Fresh;
    RunKeepsLogs(st, script, o);
    ExecuteKeepsLogs(Run(st, script, o).0, Mark(Failed), o);
  }

  lemma BlankIs(i: Inputs, slug: string, at: int)
    ensures var m := Blank(i, slug, at);
      m.gatewayPassword == "" && m.slug == slug && m.status == Launching && m.phase == Created
  {
    hide RolesOf;
  }
}
