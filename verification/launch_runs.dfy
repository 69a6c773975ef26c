/** What every run of a launch does: the order of its phases, what it leaves
    behind when a step breaks, and when it hands a key out. */
module LaunchRuns {
  import opened Options
  import opened Sessions
  import opened Bundles
  import opened Lifecycle

  // ---------------------------------------------------------------- the plan

  function Optional(b: bool, p: Phase): seq<Phase> {
    if b then [p] else []
  }

  /** The phases of a launch, from what was asked for alone. */
  function Plan(i: Inputs): seq<Phase> {
    if i.cloud then
      [Stage, TerraformInit, TerraformApply, Outputs, WaitSsh, CloudInit, PushStack, PullStack]
      + Optional(HasKind(i), InstallKind) + Optional(i.bundle.Some?, PushPayload)
      + Optional(HasKind(i), CreateCluster) + Optional(i.ai.Some?, AiMint) + [ComposeUp]
      + Optional(HasSetup(i), Setup) + [Summary]
    else
      [Stage] + Optional(HasKind(i), CreateCluster) + Optional(i.ai.Some?, AiMint) + [ComposeUp]
      + Optional(HasSetup(i), Setup) + [Summary]
  }

  /** The external steps a phase consists of. */
  function StepsOf(p: Phase): seq<Step> {
    match p
    case Created => []
    case Stage => [StageFiles]
    case TerraformInit => [InitTerraform]
    case TerraformApply => [ApplyTerraform]
    case Outputs => [ReadOutputs]
    case WaitSsh => [DialSsh]
    case CloudInit => [AwaitCloudInit, RedialSsh]
    case PushStack => [PushCompose]
    case PullStack => [PullImages]
    case InstallKind => [InstallKindTools]
    case PushPayload => [PushTar]
    case CreateCluster => [MakeCluster]
    case AiMint => [MintKey]
    case ComposeUp => [UpStack]
    case Setup => [RunHook]
    case Summary => []
  }

  function Attempts(steps: seq<Step>): seq<Event> {
    seq(|steps|, k requires 0 <= k < |steps| => Attempted(steps[k]))
  }

  /** Each phase persisted, then its steps. */
  function Timeline(plan: seq<Phase>): seq<Event> {
    if plan == [] then [] else [Entered(plan[0])] + Attempts(StepsOf(plan[0])) + Timeline(plan[1..])
  }

  /** The step before the first phase. */
  function Gate(i: Inputs): seq<Event> {
    [Attempted(if i.cloud then PluginCache else ValidateImages)]
  }

  predicate Clean(es: seq<Event>, breaks: set<Step>) {
    forall k :: 0 <= k < |es| && es[k].Attempted? ==> es[k].step !in breaks
  }

  /** The events up to and including the first step that breaks. */
  function Cut(es: seq<Event>, breaks: set<Step>): seq<Event> {
    if es == [] then []
    else if es[0].Attempted? && es[0].step in breaks then [es[0]]
    else [es[0]] + Cut(es[1..], breaks)
  }

  lemma {:induction false} CutClean(es: seq<Event>, breaks: set<Step>)
    ensures Cut(es, breaks) <= es
    ensures Cut(es, breaks) == es <== Clean(es, breaks)
    ensures !Clean(es, breaks) ==>
      var c := Cut(es, breaks);
      c != [] && c[|c| - 1].Attempted? && c[|c| - 1].step in breaks && Clean(c[..|c| - 1], breaks)
  {
    if es != [] {
      CutClean(es[1..], breaks);
      var c := Cut(es[1..], breaks);
      assert es == [es[0]] + es[1..];
      CleanNext(es[0], es[1..], breaks);
      if es[0].Attempted? && es[0].step in breaks {
      } else if !Clean(es[1..], breaks) {
        assert ([es[0]] + c)[..|c|] == [es[0]] + c[..|c| - 1];
        CleanNext(es[0], c[..|c| - 1], breaks);
        hide Clean;
      }
    }
  }

  lemma CleanNext(e: Event, es: seq<Event>, breaks: set<Step>)
    ensures Clean([e] + es, breaks) <==> Clean(es, breaks) && (e.Attempted? ==> e.step !in breaks)
  {
    var all := [e] + es;
    assert all[0] == e && forall k :: 0 <= k < |es| ==> all[k + 1] == es[k];
  }

  lemma {:induction false} CutAppend(a: seq<Event>, b: seq<Event>, breaks: set<Step>)
    ensures Cut(a + b, breaks) == if Clean(a, breaks) then a + Cut(b, breaks) else Cut(a, breaks)
    decreases |a|
  {
    if a == [] {
      assert a + b == b;
    } else {
      assert (a + b)[1..] == a[1..] + b;
      CutAppend(a[1..], b, breaks);
      assert Clean(a, breaks) <==> Clean(a[..1], breaks) && Clean(a[1..], breaks) by {
        assert a == a[..1] + a[1..];
      }
    }
  }

  lemma {:induction false} TimelineAppend(a: seq<Phase>, b: seq<Phase>)
    ensures Timeline(a + b) == Timeline(a) + Timeline(b)
    decreases |a|
  {
    if a == [] {
      assert a + b == b;
    } else {
      assert (a + b)[1..] == a[1..] + b;
      TimelineAppend(a[1..], b);
    }
  }

  // ------------------------------------------------- runs follow the plan

  /** The events a script would log. */
  function Events(script: seq<Command>): seq<Event> {
    if script == [] then []
    else
      var rest := Events(script[1..]);
      match script[0]
      case Enter(p) => [Entered(p)] + rest
      case Try(s) => [Attempted(s)] + rest
      case _ => rest
  }

  lemma {:induction false} EventsAppend(a: seq<Command>, b: seq<Command>)
    ensures Events(a + b) == Events(a) + Events(b)
    decreases |a|
  {
    if a == [] {
      assert a + b == b;
    } else {
      assert (a + b)[1..] == a[1..] + b;
      EventsAppend(a[1..], b);
    }
  }

  lemma ExecuteLogs(st: State, c: Command, o: Oracle)
    ensures var (next, ok) := Execute(st, c, o);
      && next.out.log == st.out.log + Events([c])
      && (ok <==> Clean(Events([c]), o.breaks))
    ensures Cut(Events([c]), o.breaks) == Events([c])
  {
    EventsOne(c);
    var es := Events([c]);
    if es != [] {
      assert es[1..] == [];
      assert es[0].Attempted? <==> c.Try?;
    }
  }

  /** A run logs exactly the events of its script up to the first broken step. */
  lemma {:induction false} RunLogs(st: State, script: seq<Command>, o: Oracle)
    ensures var (next, ok) := Run(st, script, o);
      && next.out.log == st.out.log + Cut(Events(script), o.breaks)
      && (ok <==> Clean(Events(script), o.breaks))
    decreases |script|
  {
    if script == [] {
      assert st.out.log + [] == st.out.log;
    } else {
      var c, rest := script[0], script[1..];
      RunUnfolds(st, script, o);
      hide *;
      ExecuteLogs(st, c, o);
      if Execute(st, c, o).1 {
        RunLogs(Execute(st, c, o).0, rest, o);
      }
      EventsAppend([c], rest);
      assert [c] + rest == script;
      CutBegins(st.out.log, Events([c]), Events(rest), o.breaks);
    }
  }

  lemma RunUnfolds(st: State, script: seq<Command>, o: Oracle)
    requires script != []
    ensures Run(st, script, o)
         == if Execute(st, script[0], o).1 then Run(Execute(st, script[0], o).0, script[1..], o)
            else (Execute(st, script[0], o).0, false)
  {
  }

  /** How a log grows by a first command's events, and then by the rest. */
  lemma CutBegins(log: seq<Event>, e: seq<Event>, es: seq<Event>, breaks: set<Step>)
    requires Cut(e, breaks) == e
    ensures Clean(e + es, breaks) <==> Clean(e, breaks) && Clean(es, breaks)
    ensures log + Cut(e + es, breaks) == if Clean(e, breaks) then log + e + Cut(es, breaks) else log + e
  {
    hide *;
    CutAppend(e, es, breaks);
    CleanAppend(e, es, breaks);
    assert log + e + Cut(es, breaks) == log + (e + Cut(es, breaks));
  }

  lemma CleanAppend(a: seq<Event>, b: seq<Event>, breaks: set<Step>)
    ensures Clean(a + b, breaks) <==> Clean(a, breaks) && Clean(b, breaks)
  {
    assert forall k :: 0 <= k < |a| ==> (a + b)[k] == a[k];
    assert forall k :: 0 <= k < |b| ==> (a + b)[|a| + k] == b[k];
  }

  lemma TimelineOne(p: Phase)
    ensures Timeline([p]) == [Entered(p)] + Attempts(StepsOf(p))
  {
    assert [p][1..] == [];
    assert [Entered(p)] + Attempts(StepsOf(p)) + [] == [Entered(p)] + Attempts(StepsOf(p));
  }

  lemma EventsTwo(c: Command, d: Command)
    ensures Events([c, d]) == Events([c]) + Events([d])
  {
    EventsAppend([c], [d]);
    assert [c] + [d] == [c, d];
  }

  lemma EventsOne(c: Command)
    ensures Events([c]) == match c case Enter(p) => [Entered(p)] case Try(s) => [Attempted(s)] case _ => []
  {
    assert [c][1..] == [];
  }

  lemma PhaseEvents(p: Phase, s: Step)
    requires StepsOf(p) == [s]
    ensures Events([Enter(p), Try(s)]) == Timeline([p])
  {
    EventsTwo(Enter(p), Try(s));
    EventsOne(Enter(p));
    EventsOne(Try(s));
    TimelineOne(p);
    assert Attempts([s]) == [Attempted(s)];
  }

  lemma WhenEvents(b: bool, script: seq<Command>, p: Phase)
    requires Events(script) == Timeline([p])
    ensures Events(When(b, script)) == Timeline(Optional(b, p))
  {
  }

  lemma QuietEvents(c: Command)
    requires !c.Enter? && !c.Try?
    ensures Events([c]) == []
  {
    EventsOne(c);
  }

  lemma PhaseEventsThen(p: Phase, s: Step, c: Command)
    requires StepsOf(p) == [s] && !c.Enter? && !c.Try?
    ensures Events([Enter(p), Try(s), c]) == Timeline([p])
  {
    PhaseEvents(p, s);
    QuietEvents(c);
    EventsAppend([Enter(p), Try(s)], [c]);
    assert [Enter(p), Try(s)] + [c] == [Enter(p), Try(s), c];
    assert Timeline([p]) + [] == Timeline([p]);
  }

  lemma HookAndSummaryEvents(i: Inputs)
    ensures Events(When(HasSetup(i), HookScript()) + SummaryScript())
         == Timeline(Optional(HasSetup(i), Setup) + [Summary])
  {
    PhaseEvents(Setup, RunHook);
    WhenEvents(HasSetup(i), HookScript(), Setup);
    EventsTwo(Enter(Summary), Mark(Ready));
    EventsOne(Enter(Summary));
    QuietEvents(Mark(Ready));
    TimelineOne(Summary);
    assert Attempts([]) == [];
    EventsAppend(When(HasSetup(i), HookScript()), SummaryScript());
    TimelineAppend(Optional(HasSetup(i), Setup), [Summary]);
  }

  /** The tail both kinds of launch share: mint, up, hook, summary. */
  function TailPlan(i: Inputs): seq<Phase> {
    Optional(i.ai.Some?, AiMint) + [ComposeUp] + (Optional(HasSetup(i), Setup) + [Summary])
  }

  function TailScript(i: Inputs, local: bool): seq<Command> {
    When(i.ai.Some?, MintScript()) + UpScript(local) + (When(HasSetup(i), HookScript()) + SummaryScript())
  }

  lemma TailEvents(i: Inputs, local: bool)
    ensures Events(TailScript(i, local)) == Timeline(TailPlan(i))
  {
    HookAndSummaryEvents(i);
    PhaseEventsThen(AiMint, MintKey, Save);
    WhenEvents(i.ai.Some?, MintScript(), AiMint);
    PhaseEventsThen(ComposeUp, UpStack, SaveUrl(local));
    hide Events, Timeline, When, Optional, HasSetup;
    var m, mp := When(i.ai.Some?, MintScript()), Optional(i.ai.Some?, AiMint);
    var h, hp := When(HasSetup(i), HookScript()) + SummaryScript(), Optional(HasSetup(i), Setup) + [Summary];
    EventsAppend(m, UpScript(local));
    EventsAppend(m + UpScript(local), h);
    TimelineAppend(mp, [ComposeUp]);
    TimelineAppend(mp + [ComposeUp], hp);
  }

  function BundlePlan(i: Inputs): seq<Phase> {
    Optional(HasKind(i), InstallKind) + Optional(i.bundle.Some?, PushPayload) + Optional(HasKind(i), CreateCluster)
  }

  lemma BundleEvents(i: Inputs)
    ensures Events(BundleScript(i)) == Timeline(BundlePlan(i))
  {
    PhaseEvents(InstallKind, InstallKindTools);
    PhaseEvents(PushPayload, PushTar);
    PhaseEvents(CreateCluster, MakeCluster);
    WhenEvents(HasKind(i), [Enter(InstallKind), Try(InstallKindTools)], InstallKind);
    WhenEvents(i.bundle.Some?, [Enter(PushPayload), Try(PushTar)], PushPayload);
    WhenEvents(HasKind(i), [Enter(CreateCluster), Try(MakeCluster)], CreateCluster);
    hide Events, Timeline, When, Optional, HasKind;
    var a, ap := When(HasKind(i), [Enter(InstallKind), Try(InstallKindTools)]), Optional(HasKind(i), InstallKind);
    var b, bp := When(i.bundle.Some?, [Enter(PushPayload), Try(PushTar)]), Optional(i.bundle.Some?, PushPayload);
    var c, cp := When(HasKind(i), [Enter(CreateCluster), Try(MakeCluster)]), Optional(HasKind(i), CreateCluster);
    EventsAppend(a, b);
    EventsAppend(a + b, c);
    TimelineAppend(ap, bp);
    TimelineAppend(ap + bp, cp);
  }

  lemma OutputsEvents(o: Oracle)
    ensures Events([Enter(Outputs), Try(ReadOutputs)] + When(o.fqdn != "", [SaveFqdn(o.fqdn)]) + [SaveIp(o.ip)])
         == Timeline([Outputs])
  {
    PhaseEvents(Outputs, ReadOutputs);
    QuietEvents(SaveFqdn(o.fqdn));
    QuietEvents(SaveIp(o.ip));
    var a, f := [Enter(Outputs), Try(ReadOutputs)], When(o.fqdn != "", [SaveFqdn(o.fqdn)]);
    EventsAppend(a, f);
    EventsAppend(a + f, [SaveIp(o.ip)]);
    assert Events(f) == [];
    assert Timeline([Outputs]) + [] + [] == Timeline([Outputs]);
  }

  lemma ApplyEvents(o: Oracle)
    ensures Events(ApplyScript(o)) == Timeline([Stage, TerraformInit, TerraformApply, Outputs])
  {
    PhaseEvents(Stage, StageFiles);
    PhaseEvents(TerraformInit, InitTerraform);
    PhaseEvents(TerraformApply, ApplyTerraform);
    OutputsEvents(o);
    hide Events, Timeline;
    var a, b, c := StageScript(), [Enter(TerraformInit), Try(InitTerraform)], [Enter(TerraformApply), Try(ApplyTerraform)];
    var d := [Enter(Outputs), Try(ReadOutputs)] + When(o.fqdn != "", [SaveFqdn(o.fqdn)]) + [SaveIp(o.ip)];
    EventsAppend(a, b);
    EventsAppend(a + b, c);
    EventsAppend(a + b + c, d);
    TimelineAppend([Stage], [TerraformInit]);
    TimelineAppend([Stage] + [TerraformInit], [TerraformApply]);
    TimelineAppend([Stage] + [TerraformInit] + [TerraformApply], [Outputs]);
    assert [Stage] + [TerraformInit] + [TerraformApply] + [Outputs] == [Stage, TerraformInit, TerraformApply, Outputs];
  }

  lemma CloudInitEvents()
    ensures Events([Enter(CloudInit), Try(AwaitCloudInit)] + [Try(RedialSsh)]) == Timeline([CloudInit])
  {
    EventsAppend([Enter(CloudInit), Try(AwaitCloudInit)], [Try(RedialSsh)]);
    EventsTwo(Enter(CloudInit), Try(AwaitCloudInit));
    EventsOne(Enter(CloudInit));
    EventsOne(Try(AwaitCloudInit));
    EventsOne(Try(RedialSsh));
    TimelineOne(CloudInit);
    assert Attempts([AwaitCloudInit, RedialSsh]) == [Attempted(AwaitCloudInit)] + [Attempted(RedialSsh)];
  }

  /** From the VM's address to the images on it. */
  lemma ReachEvents()
    ensures Events([Enter(WaitSsh), Try(DialSsh)] + ([Enter(CloudInit), Try(AwaitCloudInit)] + [Try(RedialSsh)])
                   + [Enter(PushStack), Try(PushCompose)] + [Enter(PullStack), Try(PullImages)])
         == Timeline([WaitSsh, CloudInit, PushStack, PullStack])
  {
    PhaseEvents(WaitSsh, DialSsh);
    CloudInitEvents();
    PhaseEvents(PushStack, PushCompose);
    PhaseEvents(PullStack, PullImages);
    hide Events, Timeline;
    var a, b := [Enter(WaitSsh), Try(DialSsh)], [Enter(CloudInit), Try(AwaitCloudInit)] + [Try(RedialSsh)];
    var c, d := [Enter(PushStack), Try(PushCompose)], [Enter(PullStack), Try(PullImages)];
    EventsAppend(a, b);
    EventsAppend(a + b, c);
    EventsAppend(a + b + c, d);
    TimelineAppend([WaitSsh], [CloudInit]);
    TimelineAppend([WaitSsh] + [CloudInit], [PushStack]);
    TimelineAppend([WaitSsh] + [CloudInit] + [PushStack], [PullStack]);
    assert [WaitSsh] + [CloudInit] + [PushStack] + [PullStack] == [WaitSsh, CloudInit, PushStack, PullStack];
  }

  const APPLY_PLAN := [Stage, TerraformInit, TerraformApply, Outputs]
  const REACH_PLAN := [WaitSsh, CloudInit, PushStack, PullStack]

  function ReachScript(): seq<Command> {
    [Enter(WaitSsh), Try(DialSsh)] + ([Enter(CloudInit), Try(AwaitCloudInit)] + [Try(RedialSsh)])
    + [Enter(PushStack), Try(PushCompose)] + [Enter(PullStack), Try(PullImages)]
  }

  lemma CloudShape(i: Inputs, o: Oracle)
    requires i.cloud
    ensures LaunchScript(i, o)
         == [Try(PluginCache)] + ApplyScript(o) + ReachScript() + BundleScript(i) + TailScript(i, false)
    ensures Plan(i) == APPLY_PLAN + REACH_PLAN + BundlePlan(i) + TailPlan(i)
  {
    hide ApplyScript, BundleScript, HasKind, HasSetup, When, Optional, MintScript, UpScript, HookScript, SummaryScript;
    Regroup(ApplyScript(o), [Enter(WaitSsh), Try(DialSsh)], [Enter(CloudInit), Try(AwaitCloudInit)], [Try(RedialSsh)],
            [Enter(PushStack), Try(PushCompose)], [Enter(PullStack), Try(PullImages)], BundleScript(i),
            When(i.ai.Some?, MintScript()), UpScript(false), When(HasSetup(i), HookScript()), SummaryScript(),
            [Try(PluginCache)]);
  }

  lemma Regroup<T>(a: seq<T>, b: seq<T>, c: seq<T>, d: seq<T>, e: seq<T>, f: seq<T>, g: seq<T>, h: seq<T>,
                   j: seq<T>, k: seq<T>, l: seq<T>, z: seq<T>)
    ensures z + a + b + c + d + (e + f + g + h + j + k) + l
         == z + a + (b + (c + d) + e + f) + g + (h + j + (k + l))
  {
  }

  /** The events of a launch, read off its script, are the gate and then the
      plan's phases, each with its own steps. */
  lemma LaunchEvents(i: Inputs, o: Oracle)
    ensures Events(LaunchScript(i, o)) == Gate(i) + Timeline(Plan(i))
  {
    hide *;
    if i.cloud {
      CloudEvents(i, o);
    } else {
      LocalEvents(i, o);
    }
  }

  lemma CloudEvents(i: Inputs, o: Oracle)
    requires i.cloud
    ensures Events(LaunchScript(i, o)) == Gate(i) + Timeline(Plan(i))
  {
    EventsOne(Try(PluginCache));
    ApplyEvents(o);
    ReachEvents();
    BundleEvents(i);
    TailEvents(i, false);
    CloudShape(i, o);
    hide Events, Timeline, LaunchScript, Plan, ApplyScript, BundleScript, TailScript, TailPlan, BundlePlan;
    var g, a, r, b, t := [Try(PluginCache)], ApplyScript(o), ReachScript(), BundleScript(i), TailScript(i, false);
    EventsAppend(g, a);
    EventsAppend(g + a, r);
    EventsAppend(g + a + r, b);
    EventsAppend(g + a + r + b, t);
    TimelineAppend(APPLY_PLAN, REACH_PLAN);
    TimelineAppend(APPLY_PLAN + REACH_PLAN, BundlePlan(i));
    TimelineAppend(APPLY_PLAN + REACH_PLAN + BundlePlan(i), TailPlan(i));
    Associate(Gate(i), Timeline(APPLY_PLAN), Timeline(REACH_PLAN), Timeline(BundlePlan(i)), Timeline(TailPlan(i)));
  }

  lemma Associate<T>(a: seq<T>, b: seq<T>, c: seq<T>, d: seq<T>, e: seq<T>)
    ensures a + b + c + d + e == a + (b + c + d + e)
  {
  }

  lemma LocalEvents(i: Inputs, o: Oracle)
    requires !i.cloud
    ensures Events(LaunchScript(i, o)) == Gate(i) + Timeline(Plan(i))
  {
    PhaseEvents(Stage, StageFiles);
    PhaseEvents(CreateCluster, MakeCluster);
    WhenEvents(HasKind(i), [Enter(CreateCluster), Try(MakeCluster)], CreateCluster);
    TailEvents(i, true);
    LocalShape(i, o);
    hide *;
    GateEvents(i);
    LocalJoin([Try(ValidateImages)], StageScript(), When(HasKind(i), [Enter(CreateCluster), Try(MakeCluster)]),
              TailScript(i, true), [Stage], Optional(HasKind(i), CreateCluster), TailPlan(i));
  }

  lemma GateEvents(i: Inputs)
    ensures Events([Try(if i.cloud then PluginCache else ValidateImages)]) == Gate(i)
  {
    EventsOne(Try(PluginCache));
    EventsOne(Try(ValidateImages));
  }

  lemma LocalJoin(g: seq<Command>, s: seq<Command>, k: seq<Command>, t: seq<Command>,
                  sp: seq<Phase>, kp: seq<Phase>, tp: seq<Phase>)
    requires Events(s) == Timeline(sp) && Events(k) == Timeline(kp) && Events(t) == Timeline(tp)
    ensures Events(g + s + k + t) == Events(g) + Timeline(sp + kp + tp)
  {
    hide *;
    EventsAppend(g, s);
    EventsAppend(g + s, k);
    EventsAppend(g + s + k, t);
    TimelineAppend(sp, kp);
    TimelineAppend(sp + kp, tp);
    Associate(Events(g), Timeline(sp), Timeline(kp), Timeline(tp), []);
  }

  lemma LocalShape(i: Inputs, o: Oracle)
    requires !i.cloud
    ensures LaunchScript(i, o) == [Try(ValidateImages)] + StageScript()
              + When(HasKind(i), [Enter(CreateCluster), Try(MakeCluster)]) + TailScript(i, true)
    ensures Plan(i) == [Stage] + Optional(HasKind(i), CreateCluster) + TailPlan(i)
  {
  }

  // ------------------------------------------------------------- theorems

  /** The main result on launches: whatever breaks, the log of a launch is its
      plan up to and including the first step that broke, and it succeeds
      exactly when no step of the plan breaks. */
  lemma LaunchFollowsPlan(st: State, i: Inputs, o: Oracle)
    ensures var (next, ok) := Launched(st, i, o);
      && next.out.log == st.out.log + Cut(Gate(i) + Timeline(Plan(i)), o.breaks)
      && (ok <==> Clean(Gate(i) + Timeline(Plan(i)), o.breaks))
  {
    hide LaunchScript, Events, Cut, Clean, Timeline, Plan, Gate;
    RunLogs(st, LaunchScript(i, o), o);
    LaunchEvents(i, o);
  }

  /** The phases a log persisted, in order. */
  function Phases(es: seq<Event>): seq<Phase> {
    if es == [] then []
    else
      var rest := Phases(es[1..]);
      if es[0].Entered? then [es[0].phase] + rest else rest
  }

  lemma {:induction false} PhasesAppend(a: seq<Event>, b: seq<Event>)
    ensures Phases(a + b) == Phases(a) + Phases(b)
    decreases |a|
  {
    if a == [] {
      assert a + b == b;
    } else {
      assert (a + b)[1..] == a[1..] + b;
      PhasesAppend(a[1..], b);
    }
  }

  lemma {:induction false} NoPhases(es: seq<Event>)
    requires forall k :: 0 <= k < |es| ==> es[k].Attempted?
    ensures Phases(es) == []
  {
    if es != [] {
      NoPhases(es[1..]);
    }
  }

  lemma {:induction false} PhasesOfTimeline(plan: seq<Phase>)
    ensures Phases(Timeline(plan)) == plan
  {
    if plan != [] {
      var e, t := [Entered(plan[0])], Attempts(StepsOf(plan[0]));
      NoPhases(t);
      PhasesOfTimeline(plan[1..]);
      PhasesAppend(e, t);
      PhasesAppend(e + t, Timeline(plan[1..]));
      assert e[1..] == [];
      assert [plan[0]] + [] + plan[1..] == plan;
    }
  }

  lemma PrefixPhases(a: seq<Event>, b: seq<Event>)
    requires a <= b
    ensures Phases(a) <= Phases(b)
  {
    assert b == a + b[|a|..];
    PhasesAppend(a, b[|a|..]);
  }

  /** The phases a fresh launch persists are a prefix of its plan, and the whole
      plan exactly when it succeeds. */
  lemma PersistedPhasesArePlanned(st: State, i: Inputs, o: Oracle)
    requires st.out.log == []
    ensures var (next, ok) := Launched(st, i, o);
      && Phases(next.out.log) <= Plan(i)
      && (ok <==> Phases(next.out.log) == Plan(i))
  {
    NoPhases(Gate(i));
    hide *;
    var t := Gate(i) + Timeline(Plan(i));
    var log := Cut(t, o.breaks);
    LaunchFollowsPlan(st, i, o);
    assert [] + log == log;
    CutClean(t, o.breaks);
    PrefixPhases(log, t);
    PhasesAppend(Gate(i), Timeline(Plan(i)));
    PhasesOfTimeline(Plan(i));
    assert [] + Plan(i) == Plan(i);
    if !Clean(t, o.breaks) {
      SummaryIsLast(i);
      CutMissesTheEnd(t, o.breaks);
    }
  }

  lemma SummaryIsLast(i: Inputs)
    ensures var t := Gate(i) + Timeline(Plan(i)); t != [] && t[|t| - 1] == Entered(Summary)
  {
    var p := Plan(i);
    var n := |p| - 1;
    assert p[n] == Summary;
    hide Plan, Gate;
    assert p == p[..n] + [Summary];
    TimelineAppend(p[..n], [Summary]);
    TimelineOne(Summary);
  }

  lemma CutMissesTheEnd(t: seq<Event>, breaks: set<Step>)
    requires t != [] && t[|t| - 1].Entered? && !Clean(t, breaks)
    ensures |Phases(Cut(t, breaks))| < |Phases(t)|
  {
    CutClean(t, breaks);
    var c, n := Cut(t, breaks), |t| - 1;
    assert c <= t[..n] by {
      assert c[|c| - 1] == t[|c| - 1];
    }
    PrefixPhases(c, t[..n]);
    assert t == t[..n] + [t[n]];
    PhasesAppend(t[..n], [t[n]]);
    assert [t[n]][1..] == [];
  }

  // ------------------------------------------- every moment of a launch

  /** Commands that neither create anything nor change the status. */
  predicate Quiet(c: Command) {
    !c.Mark? && (c.Try? ==> c.step !in {ApplyTerraform, MakeCluster, MintKey, UpStack, DestroyTerraform})
  }

  lemma {:induction false} JudgeQuiet(reg: Registry, m: Metadata, k: Known, script: seq<Command>, o: Oracle)
    requires !k.unsaved && forall n :: 0 <= n < |script| ==> Quiet(script[n])
    ensures Judge(reg, m, k, script, o) == Some(k)
    decreases |script|
  {
    if script != [] {
      JudgeQuiet(reg, m, k, script[1..], o);
    }
  }

  /** A quiet beginning, one command of interest, and the rest. */
  lemma JudgeVia(reg: Registry, m: Metadata, k: Known, quiet: seq<Command>, c: Command, o: Oracle)
    requires !k.unsaved && forall n :: 0 <= n < |quiet| ==> Quiet(quiet[n])
    ensures Judge(reg, m, k, quiet + [c], o) == Read(reg, m, k, c, o)
  {
    JudgeQuiet(reg, m, k, quiet, o);
    JudgeConcat(reg, m, k, quiet, [c], o);
    assert [c][1..] == [];
  }

  lemma JudgeBoth(reg: Registry, m: Metadata, k: Known, mid: Known, a: seq<Command>, b: seq<Command>, o: Oracle)
    requires Judge(reg, m, k, a, o) == Some(mid)
    ensures Judge(reg, m, k, a + b, o) == Judge(reg, m, mid, b, o)
  {
    JudgeConcat(reg, m, k, a, b, o);
  }

  lemma QuietOutputs(o: Oracle)
    ensures var s := [Enter(Outputs), Try(ReadOutputs)] + When(o.fqdn != "", [SaveFqdn(o.fqdn)]) + [SaveIp(o.ip)];
      forall n :: 0 <= n < |s| ==> Quiet(s[n])
  {
  }

  lemma QuietReach()
    ensures forall n :: 0 <= n < |ReachScript()| ==> Quiet(ReachScript()[n])
  {
  }

  lemma JudgeApply(reg: Registry, m: Metadata, k: Known, o: Oracle)
    requires !k.unsaved && !IsLocal(reg, m)
    ensures Judge(reg, m, k, [Try(PluginCache)] + ApplyScript(o), o) == Some(k.(up := true))
  {
    hide *;
    var quiet := [Try(PluginCache)] + StageScript() + [Enter(TerraformInit), Try(InitTerraform)] + [Enter(TerraformApply)];
    var outputs := [Enter(Outputs), Try(ReadOutputs)] + When(o.fqdn != "", [SaveFqdn(o.fqdn)]) + [SaveIp(o.ip)];
    QuietOutputs(o);
    QuietBeforeApply();
    ApplyAllowed(reg, m, k, o);
    ApplyScriptIs(o);
    JudgeVia(reg, m, k, quiet, Try(ApplyTerraform), o);
    JudgeQuiet(reg, m, k.(up := true), outputs, o);
    JudgeBoth(reg, m, k, k.(up := true), quiet + [Try(ApplyTerraform)], outputs, o);
  }

  lemma QuietBeforeApply()
    ensures var s := [Try(PluginCache)] + StageScript() + [Enter(TerraformInit), Try(InitTerraform)] + [Enter(TerraformApply)];
      forall n :: 0 <= n < |s| ==> Quiet(s[n])
  {
  }

  lemma ApplyAllowed(reg: Registry, m: Metadata, k: Known, o: Oracle)
    requires !k.unsaved && !IsLocal(reg, m)
    ensures Read(reg, m, k, Try(ApplyTerraform), o) == Some(k.(up := true))
  {
    hide IsLocal;
  }

  lemma ApplyScriptIs(o: Oracle)
    ensures [Try(PluginCache)] + ApplyScript(o)
         == [Try(PluginCache)] + StageScript() + [Enter(TerraformInit), Try(InitTerraform)] + [Enter(TerraformApply)]
            + [Try(ApplyTerraform)]
            + ([Enter(Outputs), Try(ReadOutputs)] + When(o.fqdn != "", [SaveFqdn(o.fqdn)]) + [SaveIp(o.ip)])
  {
    hide When, StageScript;
  }

  lemma JudgeCluster(reg: Registry, m: Metadata, k: Known, b: bool, quiet: seq<Command>, o: Oracle)
    requires !k.unsaved && (b ==> if IsLocal(reg, m) then m.kind else k.up)
    requires forall n :: 0 <= n < |quiet| ==> Quiet(quiet[n])
    ensures Judge(reg, m, k, quiet + When(b, [Enter(CreateCluster), Try(MakeCluster)]), o) == Some(k)
  {
    if b {
      JudgeVia(reg, m, k, quiet + [Enter(CreateCluster)], Try(MakeCluster), o);
      assert quiet + [Enter(CreateCluster)] + [Try(MakeCluster)] == quiet + [Enter(CreateCluster), Try(MakeCluster)];
    } else {
      JudgeQuiet(reg, m, k, quiet, o);
      assert quiet + [] == quiet;
    }
  }

  lemma JudgeMint(reg: Registry, m: Metadata, k: Known, b: bool, o: Oracle)
    requires !k.unsaved && (b ==> !k.minted && o.hash != "" && Role(m, "ai") in reg.ais)
    ensures Judge(reg, m, k, When(b, MintScript()), o) == Some(k.(minted := k.minted || b))
  {
    if b {
      JudgeVia(reg, m, k, [Enter(AiMint)], Try(MintKey), o);
      var next := k.(minted := true, unsaved := true);
      assert Read(reg, m, k, Try(MintKey), o) == Some(next);
      assert [Save][1..] == [];
      assert Judge(reg, m, next, [Save], o) == Some(next.(unsaved := false));
      JudgeBoth(reg, m, k, next, [Enter(AiMint)] + [Try(MintKey)], [Save], o);
      assert [Enter(AiMint)] + [Try(MintKey)] + [Save] == MintScript();
    }
  }

  lemma JudgeUp(reg: Registry, m: Metadata, k: Known, i: Inputs, local: bool, o: Oracle)
    requires !k.unsaved && (IsLocal(reg, m) || k.up)
    ensures Judge(reg, m, k, UpScript(local) + (When(HasSetup(i), HookScript()) + SummaryScript()), o)
         == Some(k.(status := Ready))
  {
    var tail := [SaveUrl(local)] + When(HasSetup(i), HookScript()) + [Enter(Summary)];
    QuietTail(i, local);
    UpScriptIs(i, local);
    UpAllowed(reg, m, k, o);
    hide *;
    JudgeVia(reg, m, k, [Enter(ComposeUp)], Try(UpStack), o);
    JudgeVia(reg, m, k, tail, Mark(Ready), o);
    JudgeBoth(reg, m, k, k, [Enter(ComposeUp)] + [Try(UpStack)], tail + [Mark(Ready)], o);
  }

  lemma QuietTail(i: Inputs, local: bool)
    ensures Quiet(Enter(ComposeUp))
    ensures var tail := [SaveUrl(local)] + When(HasSetup(i), HookScript()) + [Enter(Summary)];
      forall n :: 0 <= n < |tail| ==> Quiet(tail[n])
  {
    hide HasSetup;
  }

  lemma UpScriptIs(i: Inputs, local: bool)
    ensures UpScript(local) + (When(HasSetup(i), HookScript()) + SummaryScript())
         == [Enter(ComposeUp)] + [Try(UpStack)]
            + ([SaveUrl(local)] + When(HasSetup(i), HookScript()) + [Enter(Summary)] + [Mark(Ready)])
  {
    hide When, HookScript, HasSetup;
  }

  lemma UpAllowed(reg: Registry, m: Metadata, k: Known, o: Oracle)
    requires !k.unsaved && (IsLocal(reg, m) || k.up)
    ensures Read(reg, m, k, Try(UpStack), o) == Some(k)
    ensures Read(reg, m, k, Mark(Ready), o) == Some(k.(status := Ready))
  {
    hide IsLocal;
  }

  lemma JudgeTail(reg: Registry, m: Metadata, k: Known, i: Inputs, local: bool, o: Oracle)
    requires !k.unsaved && !k.minted && (IsLocal(reg, m) || k.up)
    requires i.ai.Some? ==> o.hash != "" && Role(m, "ai") in reg.ais
    ensures Judge(reg, m, k, TailScript(i, local), o) == Some(k.(minted := i.ai.Some?, status := Ready))
  {
    var mint := When(i.ai.Some?, MintScript());
    var rest := UpScript(local) + (When(HasSetup(i), HookScript()) + SummaryScript());
    JudgeMint(reg, m, k, i.ai.Some?, o);
    JudgeUp(reg, m, k.(minted := i.ai.Some?), i, local, o);
    JudgeBoth(reg, m, k, k.(minted := i.ai.Some?), mint, rest, o);
    hide Judge, When, HasSetup, MintScript, UpScript, HookScript, SummaryScript;
    assert TailScript(i, local) == mint + rest;
  }

  const START := Known(false, false, false, Launching)

  function Finish(i: Inputs): Known {
    Known(i.cloud, i.ai.Some?, false, Ready)
  }

  /** What the fresh metadata of a launch says about it. */
  lemma FreshFacts(reg: Registry, i: Inputs, slug: string, at: int)
    requires reg.Valid() && Offered(reg, i)
    ensures var m := Fresh(i, slug, at);
      && IsLocal(reg, m) == !i.cloud
      && (i.ai.Some? ==> Role(m, "ai") in reg.ais)
      && (Role(m, "ai") != "" <==> i.ai.Some?)
      && m.kind == HasKind(i) && m.slug == slug && m.aiKeyHash == "" && m.status == Launching && m.phase == Created
  {
  }

  /** The launch script reads well, for everything that can be asked for. */
  lemma LaunchReadsWell(reg: Registry, i: Inputs, slug: string, at: int, o: Oracle)
    requires reg.Valid() && Offered(reg, i) && o.hash != ""
    ensures Judge(reg, Fresh(i, slug, at), START, LaunchScript(i, o), o) == Some(Finish(i))
  {
    var m := Fresh(i, slug, at);
    FreshFacts(reg, i, slug, at);
    if i.cloud {
      CloudReadsWell(reg, m, i, o);
    } else {
      LocalReadsWell(reg, m, i, o);
    }
  }

  lemma CloudReadsWell(reg: Registry, m: Metadata, i: Inputs, o: Oracle)
    requires i.cloud && !IsLocal(reg, m)
    requires i.ai.Some? ==> o.hash != "" && Role(m, "ai") in reg.ais
    ensures Judge(reg, m, START, LaunchScript(i, o), o) == Some(Finish(i))
  {
    var up := START.(up := true);
    var a, r, t := [Try(PluginCache)] + ApplyScript(o), ReachScript(), TailScript(i, false);
    var tools := When(HasKind(i), [Enter(InstallKind), Try(InstallKindTools)])
                 + When(i.bundle.Some?, [Enter(PushPayload), Try(PushTar)]);
    var make := When(HasKind(i), [Enter(CreateCluster), Try(MakeCluster)]);
    JudgeApply(reg, m, START, o);
    QuietReach();
    JudgeQuiet(reg, m, up, r, o);
    JudgeCluster(reg, m, up, HasKind(i), tools, o);
    JudgeTail(reg, m, up, i, false, o);
    CloudShape(i, o);
    assert BundleScript(i) == tools + make;
    hide *;
    JudgeBoth(reg, m, START, up, a, r, o);
    JudgeBoth(reg, m, START, up, a + r, BundleScript(i), o);
    JudgeBoth(reg, m, START, up, a + r + BundleScript(i), t, o);
    assert Finish(i) == up.(minted := i.ai.Some?, status := Ready) by { FinishIs(i); }
  }

  lemma FinishIs(i: Inputs)
    ensures Finish(i) == Known(i.cloud, i.ai.Some?, false, Ready)
    ensures START.(up := i.cloud, minted := i.ai.Some?, status := Ready) == Finish(i)
  {
  }

  lemma LocalReadsWell(reg: Registry, m: Metadata, i: Inputs, o: Oracle)
    requires !i.cloud && IsLocal(reg, m) && m.kind == HasKind(i)
    requires i.ai.Some? ==> o.hash != "" && Role(m, "ai") in reg.ais
    ensures Judge(reg, m, START, LaunchScript(i, o), o) == Some(Finish(i))
  {
    var s := [Try(ValidateImages)] + StageScript();
    var make := When(HasKind(i), [Enter(CreateCluster), Try(MakeCluster)]);
    JudgeCluster(reg, m, START, HasKind(i), s, o);
    JudgeTail(reg, m, START, i, true, o);
    LocalShape(i, o);
    FinishIs(i);
    hide *;
    JudgeBoth(reg, m, START, START, s + make, TailScript(i, true), o);
  }

  /** A new session: its metadata saved, nothing running, nothing done. */
  function Begun(i: Inputs, slug: string, at: int): State {
    var m := Fresh(i, slug, at);
    State(m, Some(Folder(Some(m), Some(map[]))), UNTOUCHED)
  }

  lemma BegunFits(reg: Registry, i: Inputs, slug: string, at: int)
    requires reg.Valid() && Offered(reg, i)
    ensures var st := Begun(i, slug, at);
      SameIdentity(Fresh(i, slug, at), st.mem) && Held(reg, st.mem, st.out.live) && Fits(START, st)
  {
    hide IsLocal, Role, Fresh;
    FreshFacts(reg, i, slug, at);
  }

  lemma JudgeUnsaved(reg: Registry, m: Metadata, k: Known, script: seq<Command>, o: Oracle)
    requires !k.unsaved && Judge(reg, m, k, script, o).Some? && Judge(reg, m, k, script, o).value.unsaved
    ensures script != [] && script[|script| - 1] == Try(MintKey)
  {
    if script != [] {
      var n := |script| - 1;
      assert script == script[..n] + [script[n]];
      JudgeConcat(reg, m, k, script[..n], [script[n]], o);
      assert [script[n]][1..] == [];
    }
  }

  /** At every moment of every launch the session is consistent with what is
      running, and the metadata file is up to date except in the instant after a
      key was minted, before the next command saves its hash. */
  lemma EveryMomentOfALaunch(reg: Registry, i: Inputs, slug: string, at: int, o: Oracle, n: nat)
    requires reg.Valid() && Offered(reg, i) && o.hash != "" && n <= |LaunchScript(i, o)|
    ensures var script := LaunchScript(i, o);
      var st := Run(Begun(i, slug, at), script[..n], o).0;
      && Held(reg, st.mem, st.out.live)
      && SameIdentity(Fresh(i, slug, at), st.mem)
      && (Synced(st) || (n > 0 && script[n - 1] == Try(MintKey)))
  {
    hide Judge, Run, Held, LaunchScript, SameIdentity, Fresh, Begun, Synced;
    var m, st, prefix := Fresh(i, slug, at), Begun(i, slug, at), LaunchScript(i, o)[..n];
    LaunchReadsWell(reg, i, slug, at, o);
    JudgePrefix(reg, m, START, LaunchScript(i, o), n, o);
    BegunFits(reg, i, slug, at);
    RunKeepsHeld(reg, m, st, prefix, START, o);
    if Judge(reg, m, START, prefix, o).value.unsaved {
      JudgeUnsaved(reg, m, START, prefix, o);
    }
  }

  // ------------------------------------------------------- keys and the log

  /** A key exists, and is recorded, exactly when minting was attempted and worked. */
  predicate KeyFits(st: State, o: Oracle) {
    if Attempted(MintKey) in st.out.log && MintKey !in o.breaks
    then st.out.live.keys == {o.hash} && st.mem.aiKeyHash == o.hash
    else st.out.live.keys == {} && st.mem.aiKeyHash == ""
  }

  lemma ExecuteKeys(st: State, c: Command, o: Oracle)
    requires KeyFits(st, o) && c != Try(RevokeKey)
    ensures KeyFits(Execute(st, c, o).0, o)
  {
    hide SessionUrl;
  }

  lemma {:induction false} RunKeys(st: State, script: seq<Command>, o: Oracle)
    requires KeyFits(st, o) && Attempted(RevokeKey) !in Events(script)
    ensures KeyFits(Run(st, script, o).0, o)
    decreases |script|
  {
    if script != [] {
      ExecuteKeys(st, script[0], o);
      hide KeyFits, Execute;
      if Execute(st, script[0], o).1 {
        RunKeys(Execute(st, script[0], o).0, script[1..], o);
      }
    }
  }

  /** The phase each step belongs to. */
  lemma {:induction false} StepsInTimeline(plan: seq<Phase>, s: Step)
    ensures Attempted(s) in Timeline(plan) <==> exists p :: p in plan && s in StepsOf(p)
  {
    if plan != [] {
      var p := plan[0];
      StepsInTimeline(plan[1..], s);
      assert Attempted(s) in Attempts(StepsOf(p)) <==> s in StepsOf(p) by {
        if s in StepsOf(p) {
          var k :| 0 <= k < |StepsOf(p)| && StepsOf(p)[k] == s;
          assert Attempts(StepsOf(p))[k] == Attempted(s);
        }
      }
      assert forall q :: q in plan <==> q == p || q in plan[1..];
    }
  }

  lemma NoRevokeInLaunch(i: Inputs, o: Oracle)
    ensures Attempted(RevokeKey) !in Events(LaunchScript(i, o))
  {
    LaunchEvents(i, o);
    StepsInTimeline(Plan(i), RevokeKey);
    hide Events, LaunchScript, Plan, Timeline;
    assert forall p :: RevokeKey !in StepsOf(p);
    assert Attempted(RevokeKey) !in Gate(i);
  }

  /** The phase a log reports. */
  function Reported(log: seq<Event>): Phase {
    var ps := Phases(log);
    if ps == [] then Created else ps[|ps| - 1]
  }

  lemma ExecuteReports(st: State, c: Command, o: Oracle)
    requires st.mem.phase == Reported(st.out.log)
    ensures var next := Execute(st, c, o).0; next.mem.phase == Reported(next.out.log)
  {
    hide Reported, SessionUrl, After, AfterBreak;
    if c.Enter? {
      ReportedNext(st.out.log, Entered(c.phase));
    } else if c.Try? {
      ReportedNext(st.out.log, Attempted(c.step));
    }
  }

  lemma ReportedNext(log: seq<Event>, e: Event)
    ensures Reported(log + [e]) == if e.Entered? then e.phase else Reported(log)
  {
    PhasesAppend(log, [e]);
    assert [e][1..] == [];
    assert Phases([e]) == if e.Entered? then [e.phase] else [];
    hide Phases;
    assert Phases(log) + [] == Phases(log);
  }

  lemma {:induction false} RunReports(st: State, script: seq<Command>, o: Oracle)
    requires st.mem.phase == Reported(st.out.log)
    ensures var next := Run(st, script, o).0; next.mem.phase == Reported(next.out.log)
    decreases |script|
  {
    if script != [] {
      ExecuteReports(st, script[0], o);
      hide Reported, Execute;
      if Execute(st, script[0], o).1 {
        RunReports(Execute(st, script[0], o).0, script[1..], o);
      }
    }
  }

  lemma {:induction false} BreaksInItsPhase(plan: seq<Phase>, breaks: set<Step>)
    requires !Clean(Timeline(plan), breaks)
    ensures var c := Cut(Timeline(plan), breaks);
      && c != [] && c[|c| - 1].Attempted? && c[|c| - 1].step in breaks
      && Phases(c) != [] && c[|c| - 1].step in StepsOf(Reported(c))
  {
    var p, rest := plan[0], plan[1..];
    var e, a, t := [Entered(p)], Attempts(StepsOf(p)), Timeline(rest);
    CutAppend(e + a, t, breaks);
    CutAppend(e, a, breaks);
    CleanAppend(e + a, t, breaks);
    CleanAppend(e, a, breaks);
    assert e[1..] == [];
    assert Clean(e, breaks);
    if Clean(a, breaks) {
      BreaksInItsPhase(rest, breaks);
      BreaksLater(e + a, Cut(t, breaks), breaks);
    } else {
      BreaksAmongSteps(p, breaks);
    }
    hide Clean, StepsOf, Reported, Phases, Attempts;
  }

  /** What a log says of its last event when something came before. */
  lemma BreaksLater(early: seq<Event>, late: seq<Event>, breaks: set<Step>)
    requires late != [] && late[|late| - 1].Attempted? && late[|late| - 1].step in breaks
    requires Phases(late) != [] && late[|late| - 1].step in StepsOf(Reported(late))
    ensures var c := early + late;
      && c[|c| - 1].Attempted? && c[|c| - 1].step in breaks
      && Phases(c) != [] && c[|c| - 1].step in StepsOf(Reported(c))
  {
    hide Phases, StepsOf;
    PhasesAppend(early, late);
  }

  lemma BreaksAmongSteps(p: Phase, breaks: set<Step>)
    requires !Clean(Attempts(StepsOf(p)), breaks)
    ensures var c := [Entered(p)] + Cut(Attempts(StepsOf(p)), breaks);
      && c[|c| - 1].Attempted? && c[|c| - 1].step in breaks
      && Phases(c) == [p] && c[|c| - 1].step in StepsOf(p)
  {
    var e, a := [Entered(p)], Attempts(StepsOf(p));
    CutClean(a, breaks);
    var c := Cut(a, breaks);
    NoPhases(c);
    PhasesAppend(e, c);
    assert e[1..] == [];
    assert c[|c| - 1] == a[|c| - 1];
  }

  /** What every launch comes to.  It is ready exactly when it went through its
      whole plan; otherwise it is marked failed, and the phase it reports is the
      last one begun, which the broken step belongs to.  A key exists exactly
      when minting was attempted and worked, and the saved metadata records it. */
  lemma LaunchOutcome(reg: Registry, i: Inputs, slug: string, at: int, o: Oracle)
    requires reg.Valid() && Offered(reg, i) && o.hash != ""
    ensures var (next, ok) := Launched(Begun(i, slug, at), i, o);
      && Held(reg, next.mem, next.out.live) && Synced(next) && SameIdentity(Fresh(i, slug, at), next.mem)
      && next.mem.status == (if ok then Ready else Failed)
      && next.mem.phase == Reported(next.out.log)
      && KeyFits(next, o)
      && (ok ==> (next.mem.aiKeyHash != "" <==> i.ai.Some?))
  {
    hide *;
    LaunchHolds(reg, i, slug, at, o);
    LaunchReports(i, slug, at, o);
    LaunchKeys(i, slug, at, o);
  }

  lemma LaunchHolds(reg: Registry, i: Inputs, slug: string, at: int, o: Oracle)
    requires reg.Valid() && Offered(reg, i) && o.hash != ""
    ensures var (next, ok) := Launched(Begun(i, slug, at), i, o);
      && Held(reg, next.mem, next.out.live) && Synced(next) && SameIdentity(Fresh(i, slug, at), next.mem)
      && next.mem.status == (if ok then Ready else Failed)
  {
    hide Judge, Run, Held, LaunchScript, SameIdentity, Fresh, Begun, Execute, Synced;
    var m, st, script := Fresh(i, slug, at), Begun(i, slug, at), LaunchScript(i, o);
    LaunchReadsWell(reg, i, slug, at, o);
    BegunFits(reg, i, slug, at);
    RunKeepsHeld(reg, m, st, script, START, o);
    var (next, ok) := Run(st, script, o);
    MarkKeeps(reg, m, next, Failed, o);
  }

  lemma MarkKeeps(reg: Registry, m: Metadata, st: State, status: Status, o: Oracle)
    requires SameIdentity(m, st.mem) && Held(reg, st.mem, st.out.live) && st.folder.Some?
    ensures var next := Execute(st, Mark(status), o).0;
      && SameIdentity(m, next.mem) && Held(reg, next.mem, next.out.live) && Synced(next)
      && next.mem.status == status && next.out == st.out && next.mem == st.mem.(status := status)
  {
    hide Held;
    WriteKeepsHeld(reg, st.mem, st.out.live, Mark(status));
  }

  lemma LaunchReports(i: Inputs, slug: string, at: int, o: Oracle)
    ensures var next := Launched(Begun(i, slug, at), i, o).0;
      next.mem.phase == Reported(next.out.log)
  {
    var st, script := Begun(i, slug, at), LaunchScript(i, o);
    BegunReports(i, slug, at);
    hide LaunchScript, Run, Reported, Execute, Begun;
    RunReports(st, script, o);
    ExecuteReports(Run(st, script, o).0, Mark(Failed), o);
  }

  lemma BegunReports(i: Inputs, slug: string, at: int)
    ensures var st := Begun(i, slug, at); st.mem.phase == Reported(st.out.log)
  {
  }

  lemma LaunchKeys(i: Inputs, slug: string, at: int, o: Oracle)
    requires o.hash != ""
    ensures var (next, ok) := Launched(Begun(i, slug, at), i, o);
      KeyFits(next, o) && (ok ==> (next.mem.aiKeyHash != "" <==> i.ai.Some?))
  {
    hide LaunchScript, Run, Execute, Events, Begun;
    var st, script := Begun(i, slug, at), LaunchScript(i, o);
    NoRevokeInLaunch(i, o);
    BegunKeys(i, slug, at, o);
    RunKeys(st, script, o);
    ExecuteKeys(Run(st, script, o).0, Mark(Failed), o);
    ReadyMinted(i, slug, at, o);
  }

  lemma BegunKeys(i: Inputs, slug: string, at: int, o: Oracle)
    ensures KeyFits(Begun(i, slug, at), o)
  {
  }

  lemma ReadyMinted(i: Inputs, slug: string, at: int, o: Oracle)
    ensures var (next, ok) := Launched(Begun(i, slug, at), i, o);
      ok ==> (Attempted(MintKey) in next.out.log && MintKey !in o.breaks <==> i.ai.Some?)
  {
    var st, t := Begun(i, slug, at), Gate(i) + Timeline(Plan(i));
    LaunchFollowsPlan(st, i, o);
    MintIsPlanned(i);
    CutClean(t, o.breaks);
    BegunLog(i, slug, at);
    hide LaunchScript, Run, Execute, Cut, Timeline, Plan, Gate, Begun, Launched;
    assert [] + Cut(t, o.breaks) == Cut(t, o.breaks);
    if Clean(t, o.breaks) && i.ai.Some? {
      var k :| 0 <= k < |t| && t[k] == Attempted(MintKey);
      assert MintKey !in o.breaks;
    }
  }

  lemma BegunLog(i: Inputs, slug: string, at: int)
    ensures Begun(i, slug, at).out.log == []
  {
  }

  /** Minting is part of the plan exactly when an AI provider is active. */
  lemma MintIsPlanned(i: Inputs)
    ensures Attempted(MintKey) in Gate(i) + Timeline(Plan(i)) <==> i.ai.Some?
  {
    StepsInTimeline(Plan(i), MintKey);
    hide Timeline;
    assert MintKey in StepsOf(AiMint) && forall p :: MintKey in StepsOf(p) ==> p == AiMint;
    assert AiMint in Plan(i) <==> i.ai.Some?;
    assert Attempted(MintKey) !in Gate(i);
  }

  /** The step a log ends with broke, and belongs to the phase reported; before
      the first phase that step is the gate. */
  predicate Blames(log: seq<Event>, reported: Phase, i: Inputs, breaks: set<Step>) {
    && log != [] && log[|log| - 1].Attempted? && log[|log| - 1].step in breaks
    && (if reported == Created then log == Gate(i) else log[|log| - 1].step in StepsOf(reported))
  }

  /** A launch that fails reports the phase of the step that broke. */
  lemma FailedLaunchBlamesItsPhase(i: Inputs, slug: string, at: int, o: Oracle)
    ensures var (next, ok) := Launched(Begun(i, slug, at), i, o);
      !ok ==> Blames(next.out.log, next.mem.phase, i, o.breaks)
  {
    hide *;
    var es := Cut(Gate(i) + Timeline(Plan(i)), o.breaks);
    LaunchFollowsPlan(Begun(i, slug, at), i, o);
    LaunchReports(i, slug, at, o);
    BegunLog(i, slug, at);
    assert [] + es == es;
    if !Clean(Gate(i) + Timeline(Plan(i)), o.breaks) {
      CutBlames(i, o.breaks);
    }
  }

  lemma CutBlames(i: Inputs, breaks: set<Step>)
    requires !Clean(Gate(i) + Timeline(Plan(i)), breaks)
    ensures var es := Cut(Gate(i) + Timeline(Plan(i)), breaks); Blames(es, Reported(es), i, breaks)
  {
    GateIsOneStep(i, breaks);
    CreatedHasNoSteps();
    hide Gate, Timeline, Plan, Cut, Clean, Reported, Phases, StepsOf;
    CutAppend(Gate(i), Timeline(Plan(i)), breaks);
    CleanAppend(Gate(i), Timeline(Plan(i)), breaks);
    if Clean(Gate(i), breaks) {
      BreaksInItsPhase(Plan(i), breaks);
      var c := Cut(Timeline(Plan(i)), breaks);
      ReportedAfterGate(i, c);
      assert (Gate(i) + c)[|Gate(i) + c| - 1] == c[|c| - 1];
    }
  }

  lemma CreatedHasNoSteps()
    ensures StepsOf(Created) == []
  {
  }

  lemma ReportedAfterGate(i: Inputs, c: seq<Event>)
    requires Phases(c) != []
    ensures Reported(Gate(i) + c) == Reported(c)
  {
    GateHasNoPhases(i);
    hide Phases, Gate;
    PhasesAppend(Gate(i), c);
    assert [] + Phases(c) == Phases(c);
  }

  lemma GateHasNoPhases(i: Inputs)
    ensures Phases(Gate(i)) == []
  {
    NoPhases(Gate(i));
  }

  lemma GateIsOneStep(i: Inputs, breaks: set<Step>)
    ensures !Clean(Gate(i), breaks) ==>
      && Cut(Gate(i), breaks) == Gate(i) && |Gate(i)| == 1
      && Gate(i)[0].Attempted? && Gate(i)[0].step in breaks && Reported(Gate(i)) == Created
  {
    NoPhases(Gate(i));
  }

  // -------------------------------------------------- what comes before what

  /** The phase a step belongs to. */
  function PhaseOf(s: Step): Phase {
    match s
    case StageFiles => Stage
    case InitTerraform => TerraformInit
    case ApplyTerraform => TerraformApply
    case ReadOutputs => Outputs
    case DialSsh => WaitSsh
    case AwaitCloudInit => CloudInit
    case RedialSsh => CloudInit
    case PushCompose => PushStack
    case PullImages => PullStack
    case InstallKindTools => InstallKind
    case PushTar => PushPayload
    case MakeCluster => CreateCluster
    case MintKey => AiMint
    case UpStack => ComposeUp
    case RunHook => Setup
    case _ => Created
  }

  lemma StepsHaveOnePhase(p: Phase, s: Step)
    ensures s in StepsOf(p) <==> p == PhaseOf(s) && p != Created
  {
  }

  /** When a step of phase `p` was attempted, every phase the plan lists before
      `p` was entered and all its steps were attempted and worked. */
  lemma AttemptMeansEarlierWorked(g: seq<Event>, a: seq<Phase>, p: Phase, b: seq<Phase>, s: Step, breaks: set<Step>)
    requires s in StepsOf(p) && p !in a && Attempted(s) !in g
    requires Attempted(s) in Cut(g + Timeline(a + [p] + b), breaks)
    ensures Clean(g + Timeline(a), breaks)
    ensures g + Timeline(a) <= Cut(g + Timeline(a + [p] + b), breaks)
  {
    NotEarlier(a, p, s);
    hide *;
    NotInBoth(g, Timeline(a), Attempted(s));
    TimelineSplit(g, a, p, b);
    CutPast(g + Timeline(a), Timeline([p] + b), Attempted(s), breaks);
  }

  lemma TimelineSplit(g: seq<Event>, a: seq<Phase>, p: Phase, b: seq<Phase>)
    ensures g + Timeline(a + [p] + b) == g + Timeline(a) + Timeline([p] + b)
  {
    hide *;
    assert a + [p] + b == a + ([p] + b);
    TimelineAppend(a, [p] + b);
  }

  /** A log that contains an event of the later part contains all of the earlier. */
  lemma CutPast(early: seq<Event>, late: seq<Event>, e: Event, breaks: set<Step>)
    requires e !in early && e in Cut(early + late, breaks)
    ensures Clean(early, breaks) && early <= Cut(early + late, breaks)
  {
    hide *;
    CutAppend(early, late, breaks);
    CutClean(early, breaks);
    NotInPrefix(Cut(early, breaks), early, e);
  }

  lemma NotInBoth<T>(a: seq<T>, b: seq<T>, x: T)
    requires x !in a && x !in b
    ensures x !in a + b
  {
  }

  lemma NotInPrefix<T>(a: seq<T>, b: seq<T>, x: T)
    requires a <= b && x !in b
    ensures x !in a
  {
    assert b == a + b[|a|..];
  }

  lemma NotEarlier(a: seq<Phase>, p: Phase, s: Step)
    requires s in StepsOf(p) && p !in a
    ensures Attempted(s) !in Timeline(a)
  {
    StepsInTimeline(a, s);
    hide Timeline;
    forall q | q in a ensures s !in StepsOf(q) {
      StepsHaveOnePhase(q, s);
      StepsHaveOnePhase(p, s);
    }
  }

  /** The phases that must have succeeded before a step runs. */
  function Needs(i: Inputs, s: Step): set<Phase> {
    match s
    case MakeCluster => {Stage} + (if i.cloud then {TerraformApply, InstallKind, PushPayload} else {})
    case MintKey =>
      {Stage} + (if i.cloud then {TerraformApply, PullStack} else {}) + (if HasKind(i) then {CreateCluster} else {})
    case UpStack =>
      {Stage} + (if i.cloud then {TerraformApply, PushStack, PullStack} else {})
      + (if i.cloud && i.bundle.Some? then {PushPayload} else {})
      + (if HasKind(i) then {CreateCluster} else {}) + (if i.ai.Some? then {AiMint} else {})
    case RunHook => {Stage, ComposeUp} + (if i.cloud then {PushPayload} else {})
    case _ => {}
  }

  function StartPlan(i: Inputs): seq<Phase> {
    if i.cloud then APPLY_PLAN + REACH_PLAN else [Stage]
  }

  function ToolsPlan(i: Inputs): seq<Phase> {
    if i.cloud then Optional(HasKind(i), InstallKind) + Optional(i.bundle.Some?, PushPayload) else []
  }

  /** The phases a plan lists before the one of a step. */
  function PlanBefore(i: Inputs, s: Step): seq<Phase> {
    var kind, ai := Optional(HasKind(i), CreateCluster), Optional(i.ai.Some?, AiMint);
    match s
    case MakeCluster => StartPlan(i) + ToolsPlan(i)
    case MintKey => StartPlan(i) + ToolsPlan(i) + kind
    case UpStack => StartPlan(i) + ToolsPlan(i) + kind + ai
    case _ => StartPlan(i) + ToolsPlan(i) + kind + ai + [ComposeUp]
  }

  function PlanAfter(i: Inputs, s: Step): seq<Phase> {
    var ai, hook := Optional(i.ai.Some?, AiMint), Optional(HasSetup(i), Setup);
    match s
    case MakeCluster => ai + [ComposeUp] + hook + [Summary]
    case MintKey => [ComposeUp] + hook + [Summary]
    case UpStack => hook + [Summary]
    case _ => [Summary]
  }

  lemma PlanParts(i: Inputs)
    ensures Plan(i) == StartPlan(i) + ToolsPlan(i) + Optional(HasKind(i), CreateCluster)
              + Optional(i.ai.Some?, AiMint) + [ComposeUp] + Optional(HasSetup(i), Setup) + [Summary]
  {
    hide HasKind, HasSetup, Optional;
    assert [Stage] + [] == [Stage];
  }

  lemma PlanAround(i: Inputs, s: Step)
    requires s in {MakeCluster, MintKey, UpStack, RunHook}
    requires (s == MakeCluster ==> HasKind(i)) && (s == RunHook ==> HasSetup(i)) && (s == MintKey ==> i.ai.Some?)
    ensures Plan(i) == PlanBefore(i, s) + [PhaseOf(s)] + PlanAfter(i, s)
  {
    PlanParts(i);
    hide Plan, StartPlan, ToolsPlan, HasKind, HasSetup;
    var x, k, a, h := StartPlan(i) + ToolsPlan(i), Optional(HasKind(i), CreateCluster), Optional(i.ai.Some?, AiMint),
                      Optional(HasSetup(i), Setup);
    match s {
      case MakeCluster => assert k == [CreateCluster]; hide Optional; Regroup3(x, k, a, [ComposeUp], h, [Summary]);
      case MintKey => assert a == [AiMint]; hide Optional; Regroup3(x + k, a, [ComposeUp], h, [Summary], []);
      case UpStack => hide Optional; Regroup3(x + k + a, [ComposeUp], h, [Summary], [], []);
      case RunHook => assert h == [Setup];
    }
  }

  lemma Regroup3<T>(x: seq<T>, p: seq<T>, a: seq<T>, b: seq<T>, c: seq<T>, d: seq<T>)
    ensures x + p + a + b + c + d == x + p + (a + b + c + d)
    ensures x + p + a + b + c == x + p + (a + b + c)
    ensures x + p + a + b == x + p + (a + b)
  {
  }

  lemma StartHasNoLatePhase(i: Inputs)
    ensures forall q :: q in {CreateCluster, AiMint, ComposeUp, Setup} ==> q !in StartPlan(i) + ToolsPlan(i)
  {
    hide HasKind;
  }

  lemma NotListedBefore(i: Inputs, s: Step)
    requires s in {MakeCluster, MintKey, UpStack, RunHook}
    ensures PhaseOf(s) !in PlanBefore(i, s)
  {
    hide StartPlan, ToolsPlan, HasKind;
    StartHasNoLatePhase(i);
  }

  /** The phases a plan starts with that later steps need. */
  lemma StartHasNeeds(i: Inputs)
    ensures var start := StartPlan(i) + ToolsPlan(i);
      && Stage in start
      && (i.cloud ==> TerraformApply in start && PushStack in start && PullStack in start)
      && (i.cloud && HasKind(i) ==> InstallKind in start)
      && (i.cloud && i.bundle.Some? ==> PushPayload in start)
  {
    hide HasKind;
    if i.cloud {
      assert APPLY_PLAN + REACH_PLAN <= StartPlan(i) + ToolsPlan(i);
    }
  }

  lemma NeedsListedBefore(i: Inputs, s: Step)
    requires s in {MakeCluster, MintKey, UpStack, RunHook} && (s == MakeCluster ==> HasKind(i))
    requires s == RunHook ==> HasSetup(i)
    ensures forall q :: q in Needs(i, s) ==> q in PlanBefore(i, s)
  {
    hide StartPlan, ToolsPlan, HasKind, HasSetup;
    StartHasNeeds(i);
    KindHasBundle(i);
  }

  lemma KindHasBundle(i: Inputs)
    ensures HasKind(i) || HasSetup(i) ==> i.bundle.Some?
  {
  }

  lemma NeedsComeBefore(i: Inputs, s: Step)
    requires s in {MakeCluster, MintKey, UpStack, RunHook} && (s == MakeCluster ==> HasKind(i))
    requires s == RunHook ==> HasSetup(i)
    ensures PhaseOf(s) !in PlanBefore(i, s)
    ensures forall q :: q in Needs(i, s) ==> q in PlanBefore(i, s)
  {
    hide *;
    NotListedBefore(i, s);
    NeedsListedBefore(i, s);
  }

  /** Cluster, key, stack and setup hook each wait for what they depend on: when
      one of these steps was attempted in a launch, every phase it needs had been
      entered and all of that phase's steps had worked. */
  lemma StepsWaitForTheirNeeds(i: Inputs, slug: string, at: int, o: Oracle, s: Step, q: Phase, t: Step)
    requires s in {MakeCluster, MintKey, UpStack, RunHook}
    requires Attempted(s) in Launched(Begun(i, slug, at), i, o).0.out.log
    requires q in Needs(i, s) && t in StepsOf(q)
    ensures t !in o.breaks
    ensures Attempted(t) in Launched(Begun(i, slug, at), i, o).0.out.log
    ensures Entered(q) in Launched(Begun(i, slug, at), i, o).0.out.log
  {
    hide *;
    var es := Cut(Gate(i) + Timeline(Plan(i)), o.breaks);
    LaunchFollowsPlan(Begun(i, slug, at), i, o);
    BegunLog(i, slug, at);
    assert [] + es == es;
    PlanWaits(i, o.breaks, s, q, t);
  }

  lemma PlanWaits(i: Inputs, breaks: set<Step>, s: Step, q: Phase, t: Step)
    requires s in {MakeCluster, MintKey, UpStack, RunHook}
    requires Attempted(s) in Cut(Gate(i) + Timeline(Plan(i)), breaks)
    requires q in Needs(i, s) && t in StepsOf(q)
    ensures t !in breaks
    ensures Attempted(t) in Cut(Gate(i) + Timeline(Plan(i)), breaks)
    ensures Entered(q) in Cut(Gate(i) + Timeline(Plan(i)), breaks)
  {
    hide *;
    PhaseIsPlanned(i, s, breaks);
    OnlyWhenAsked(i, s);
    PlanAround(i, s);
    NeedsComeBefore(i, s);
    GateIsNot(i, s);
    var a, es := PlanBefore(i, s), Cut(Gate(i) + Timeline(Plan(i)), breaks);
    AttemptMeansEarlierWorked(Gate(i), a, PhaseOf(s), PlanAfter(i, s), s, breaks);
    EarlierPhaseWorked(Gate(i), a, q, t, breaks);
    if Attempted(t) !in es {
      NotInPrefix(Gate(i) + Timeline(a), es, Attempted(t));
    }
    if Entered(q) !in es {
      NotInPrefix(Gate(i) + Timeline(a), es, Entered(q));
    }
  }

  /** A launch hands a key out exactly when one was asked for and the minting
      worked, and so did everything planned before it: on a VM the image pull, and
      for a kind bundle the cluster. */
  lemma KeyComesLast(i: Inputs, slug: string, at: int, o: Oracle)
    requires o.hash != ""
    ensures Launched(Begun(i, slug, at), i, o).0.out.live.keys != {} <==>
      && i.ai.Some? && MintKey !in o.breaks
      && Clean(Gate(i) + Timeline(PlanBefore(i, MintKey)), o.breaks)
    ensures (i.cloud ==> PullStack in PlanBefore(i, MintKey))
         && (HasKind(i) ==> CreateCluster in PlanBefore(i, MintKey))
  {
    hide *;
    var es := Cut(Gate(i) + Timeline(Plan(i)), o.breaks);
    LaunchFollowsPlan(Begun(i, slug, at), i, o);
    BegunLog(i, slug, at);
    assert [] + es == es;
    LaunchKeyFits(i, slug, at, o);
    MintReached(i, o.breaks);
    NeedsOfMint(i);
    NeedsComeBefore(i, MintKey);
  }

  lemma NeedsOfMint(i: Inputs)
    ensures i.cloud ==> PullStack in Needs(i, MintKey)
    ensures HasKind(i) ==> CreateCluster in Needs(i, MintKey)
  {
  }

  lemma LaunchKeyFits(i: Inputs, slug: string, at: int, o: Oracle)
    requires o.hash != ""
    ensures var next := Launched(Begun(i, slug, at), i, o).0;
      next.out.live.keys != {} <==> Attempted(MintKey) in next.out.log && MintKey !in o.breaks
  {
    hide Launched, Begun;
    LaunchKeys(i, slug, at, o);
  }

  /** Minting is attempted exactly when it is planned and all before it worked. */
  lemma MintReached(i: Inputs, breaks: set<Step>)
    ensures Attempted(MintKey) in Cut(Gate(i) + Timeline(Plan(i)), breaks)
        <==> i.ai.Some? && Clean(Gate(i) + Timeline(PlanBefore(i, MintKey)), breaks)
  {
    var t := Gate(i) + Timeline(Plan(i));
    MintIsPlanned(i);
    MintOpens();
    hide *;
    CutClean(t, breaks);
    var before, after := PlanBefore(i, MintKey), PlanAfter(i, MintKey);
    if Attempted(MintKey) !in t {
      NotInPrefix(Cut(t, breaks), t, Attempted(MintKey));
    } else {
      PlanAround(i, MintKey);
      NeedsComeBefore(i, MintKey);
      GateIsNot(i, MintKey);
      MintPhase();
      if Attempted(MintKey) in Cut(t, breaks) {
        AttemptMeansEarlierWorked(Gate(i), before, AiMint, after, MintKey, breaks);
      } else {
        TimelineSplit(Gate(i), before, AiMint, after);
        TimelineAppend([AiMint], after);
        CutAppend(Gate(i) + Timeline(before), Timeline([AiMint] + after), breaks);
        MintIsCut(Timeline(after), breaks);
      }
    }
  }

  lemma MintPhase()
    ensures PhaseOf(MintKey) == AiMint && MintKey in StepsOf(AiMint)
  {
  }

  lemma MintOpens()
    ensures Timeline([AiMint]) == [Entered(AiMint), Attempted(MintKey)]
  {
    TimelineOne(AiMint);
  }

  lemma MintIsCut(rest: seq<Event>, breaks: set<Step>)
    ensures Attempted(MintKey) in Cut(Timeline([AiMint]) + rest, breaks)
  {
    MintOpens();
    var es := Timeline([AiMint]) + rest;
    assert es[0] == Entered(AiMint) && es[1] == Attempted(MintKey);
    hide Timeline;
    var c := Cut(es, breaks);
    assert c == [es[0]] + Cut(es[1..], breaks);
    assert es[1..][0] == Attempted(MintKey);
    assert Cut(es[1..], breaks)[0] == Attempted(MintKey);
    assert c[1] == Attempted(MintKey);
  }

  lemma GateIsNot(i: Inputs, s: Step)
    requires s in {MakeCluster, MintKey, UpStack, RunHook}
    ensures Attempted(s) !in Gate(i) && s in StepsOf(PhaseOf(s))
  {
  }

  lemma OnlyWhenAsked(i: Inputs, s: Step)
    requires s in {MakeCluster, MintKey, UpStack, RunHook} && PhaseOf(s) in Plan(i)
    ensures (s == MakeCluster ==> HasKind(i)) && (s == RunHook ==> HasSetup(i)) && (s == MintKey ==> i.ai.Some?)
  {
  }

  lemma PhaseIsPlanned(i: Inputs, s: Step, breaks: set<Step>)
    requires s in {MakeCluster, MintKey, UpStack, RunHook}
    requires Attempted(s) in Cut(Gate(i) + Timeline(Plan(i)), breaks)
    ensures PhaseOf(s) in Plan(i)
  {
    CutClean(Gate(i) + Timeline(Plan(i)), breaks);
    StepsInTimeline(Plan(i), s);
    assert Attempted(s) !in Gate(i);
    forall p | p in Plan(i) && s in StepsOf(p) ensures p == PhaseOf(s) {
      StepsHaveOnePhase(p, s);
    }
    hide Plan, Timeline, Cut, StepsOf, PhaseOf, Gate;
    var es := Gate(i) + Timeline(Plan(i));
    assert Attempted(s) in es;
  }

  lemma {:induction false} EnteredInTimeline(plan: seq<Phase>, p: Phase)
    requires p in plan
    ensures Entered(p) in Timeline(plan)
  {
    if plan[0] != p {
      EnteredInTimeline(plan[1..], p);
    }
  }

  lemma EarlierPhaseWorked(g: seq<Event>, a: seq<Phase>, q: Phase, t: Step, breaks: set<Step>)
    requires q in a && t in StepsOf(q) && Clean(g + Timeline(a), breaks)
    ensures t !in breaks
    ensures Attempted(t) in g + Timeline(a) && Entered(q) in g + Timeline(a)
  {
    StepsInTimeline(a, t);
    EnteredInTimeline(a, q);
    hide Timeline, StepsOf;
    var es := g + Timeline(a);
    assert Attempted(t) in es;
    var k :| 0 <= k < |es| && es[k] == Attempted(t);
    assert es[k].step !in breaks;
  }
}
