/** The commands themselves: they change a session object, its metadata file and
    the outside step by step, and come to what Lifecycle and Histories say. */
module Engine {
  import opened Options
  import opened Sessions
  import opened Bundles
  import LocalStack
  import opened Lifecycle
  import opened LaunchRuns
  import opened DestroyRuns
  import opened Histories

  /** The machine: the state folder and what runs outside. */
  class Machine {
    const home: StateDir
    var outs: map<string, Outside>

    constructor ()
      ensures fresh(home) && View() == NEW_MACHINE
    {
      home := new StateDir();
      outs := map[];
    }

    ghost function View(): System
      reads this, home
    {
      System(home.View(), outs)
    }

    /** One external step of a session. */
    method Attempt(name: string, m: Metadata, s: Step, o: Oracle) returns (ok: bool)
      requires name in outs
      modifies `outs
      ensures outs == old(outs)[name := Stepped(old(outs[name]), s, m, o)]
      ensures ok == (s !in o.breaks)
    {
      outs := outs[name := Stepped(outs[name], s, m, o)];
      ok := s !in o.breaks;
    }
  }

  lemma PutPut(sys: System, name: string, a: State, b: State)
    requires b.folder.Some?
    ensures Put(Put(sys, name, a), name, b) == Put(sys, name, b)
  {
  }

  /** Running on from where a first run came to. */
  lemma Chain(sys: System, name: string, st: State, a: seq<Command>, b: seq<Command>, o: Oracle, mid: State)
    requires Run(st, a, o) == (mid, true) && st.folder.Some?
    ensures Run(st, a + b, o) == Run(mid, b, o)
    ensures Put(Put(sys, name, mid), name, Run(mid, b, o).0) == Put(sys, name, Run(mid, b, o).0)
  {
    RunConcat(st, a, b, o);
    RunKeepsLogs(st, a, o);
    RunKeepsLogs(mid, b, o);
    PutPut(sys, name, mid, Run(mid, b, o).0);
  }

  /** One session object: the metadata it holds for the folder `name`. */
  class Session {
    const name: string
    var meta: Metadata

    constructor (name: string, meta: Metadata)
      ensures this.name == name && this.meta == meta
    {
      this.name, this.meta := name, meta;
    }

    ghost function View(m: Machine): State
      reads this, m, m.home
    {
      Sight(m.View(), name, meta)
    }

    ghost predicate Open(m: Machine)
      reads m, m.home
    {
      name in m.outs && name in m.home.sessions
    }

    /** This session is at `st` and the rest of the machine is as in `sys`. */
    ghost predicate At(m: Machine, sys: System, st: State)
      reads this, m, m.home
    {
      Open(m) && View(m) == st && m.View() == Put(sys, name, st)
    }

    /** A run of `script` from `st` in `sys` brought the machine here. */
    ghost predicate Ran(m: Machine, sys: System, st: State, script: seq<Command>, o: Oracle, ok: bool)
      reads this, m, m.home
    {
      At(m, sys, Run(st, script, o).0) && ok == Run(st, script, o).1
    }

    method Save(m: Machine)
      requires Open(m)
      modifies m.home
      ensures At(m, old(m.View()), Written(old(View(m))))
      ensures m.home.archive == old(m.home.archive)
    {
      m.home.sessions := m.home.sessions[name := m.home.sessions[name].(metadata := Some(meta))];
      assert m.outs == m.outs[name := m.outs[name]];
    }

    method SetPhase(m: Machine, p: Phase)
      requires Open(m)
      modifies this, m, m.home
      ensures At(m, old(m.View()), Updated(old(View(m)), Enter(p)))
    {
      meta := meta.(phase := p);
      Save(m);
      m.outs := m.outs[name := m.outs[name].(log := m.outs[name].log + [Entered(p)])];
    }

    method SetStatus(m: Machine, s: Status)
      requires Open(m)
      modifies this, m.home
      ensures At(m, old(m.View()), Updated(old(View(m)), Mark(s)))
    {
      meta := meta.(status := s);
      Save(m);
    }

    /** SetIP, SetFQDN, SetURL and a bare Save: one field, saved at once. */
    method Set(m: Machine, c: Command)
      requires Open(m) && (c.SaveIp? || c.SaveFqdn? || c.SaveUrl? || c.Save?)
      modifies this, m.home
      ensures At(m, old(m.View()), Updated(old(View(m)), c))
    {
      match c {
        case SaveIp(ip) => meta := meta.(ip := ip);
        case SaveFqdn(fqdn) => meta := meta.(fqdn := fqdn);
        case SaveUrl(local) =>
          if local {
            meta := meta.(url := LocalStack.URL);
          } else if meta.fqdn != "" {
            meta := meta.(url := "http://" + meta.fqdn);
          } else {
            meta := meta.(url := "http://" + meta.ip);
          }
        case _ =>
      }
      Save(m);
    }

    /** An external step that returns nothing the object keeps. */
    method Do(m: Machine, s: Step, o: Oracle) returns (ok: bool)
      requires Open(m) && s != MintKey
      modifies m
      ensures Ran(m, old(m.View()), old(View(m)), [Try(s)], o, ok)
    {
      RunOne(View(m), Try(s), o);
      ok := m.Attempt(name, meta, s, o);
    }

    // ------------------------------------------------------ composing runs

    /** A failed beginning is the failure of the whole. */
    lemma Stops(m: Machine, sys: System, st: State, a: seq<Command>, whole: seq<Command>, o: Oracle)
      requires Ran(m, sys, st, a, o, false) && a <= whole
      ensures Ran(m, sys, st, whole, o, false)
    {
      hide Run, At;
      RunConcat(st, a, whole[|a|..], o);
      assert a + whole[|a|..] == whole;
    }

    /** A run that goes on from a first one that came to `mid`. */
    lemma Follows(m: Machine, sys: System, st: State, a: seq<Command>, b: seq<Command>, o: Oracle, mid: State, ok: bool)
      requires Run(st, a, o) == (mid, true) && st.folder.Some?
      requires Ran(m, Put(sys, name, mid), mid, b, o, ok)
      ensures Ran(m, sys, st, a + b, o, ok)
    {
      hide Run, Put, View;
      Chain(sys, name, st, a, b, o, mid);
    }

    /** The same for one change of the object. */
    lemma FollowsOne(m: Machine, sys: System, st: State, a: seq<Command>, c: Command, o: Oracle, mid: State)
      requires Run(st, a, o) == (mid, true) && st.folder.Some? && !c.Try?
      requires At(m, Put(sys, name, mid), Updated(mid, c))
      ensures Ran(m, sys, st, a + [c], o, true)
    {
      RunOne(mid, c, o);
      Follows(m, sys, st, a, [c], o, mid, true);
    }

    lemma StartsWith(m: Machine, sys: System, st: State, c: Command, o: Oracle)
      requires !c.Try? && At(m, sys, Updated(st, c))
      ensures Ran(m, sys, st, [c], o, true)
    {
      RunOne(st, c, o);
    }

    // ------------------------------------------------------------ launching

    /** A phase that is one external step: it is persisted, then the step runs. */
    method Phase(m: Machine, p: Phase, s: Step, o: Oracle) returns (ok: bool)
      requires Open(m) && s != MintKey
      modifies this, m, m.home
      ensures Ran(m, old(m.View()), old(View(m)), [Enter(p), Try(s)], o, ok)
    {
      ghost var sys, st := m.View(), View(m);
      SetPhase(m, p);
      StartsWith(m, sys, st, Enter(p), o);
      ghost var mid := View(m);
      ok := Do(m, s, o);
      Follows(m, sys, st, [Enter(p)], [Try(s)], o, mid, ok);
      assert [Enter(p)] + [Try(s)] == [Enter(p), Try(s)];
    }

    /** Has a key minted and puts its handle in the object, not yet in the file. */
    method Mint(m: Machine, o: Oracle) returns (ok: bool)
      requires Open(m)
      modifies this, m
      ensures Ran(m, old(m.View()), old(View(m)), [Try(MintKey)], o, ok)
    {
      RunOne(View(m), Try(MintKey), o);
      ok := m.Attempt(name, meta, MintKey, o);
      if ok {
        meta := meta.(aiKeyHash := o.hash, aiCapUsd := o.cap);
      }
    }

    lemma AtIs(m: Machine, sys: System, st: State)
      requires At(m, sys, st)
      ensures m.View() == Put(sys, name, st)
    {
    }

    lemma OpenHasFolder(m: Machine)
      requires Open(m)
      ensures View(m).folder.Some?
    {
    }

    lemma MintScriptIs()
      ensures MintScript() == [Enter(AiMint)] + [Try(MintKey)] + [Command.Save]
      ensures [Enter(AiMint)] + [Try(MintKey)] <= MintScript()
    {
    }

    /** Mints the key and saves its handle before anything else can fail. */
    method MintAiKey(m: Machine, o: Oracle) returns (ok: bool)
      requires Open(m)
      modifies this, m, m.home
      ensures Ran(m, old(m.View()), old(View(m)), MintScript(), o, ok)
    {
      hide *;
      MintScriptIs();
      OpenHasFolder(m);
      ghost var sys, st := m.View(), View(m);
      ghost var a := [Enter(AiMint)] + [Try(MintKey)];
      SetPhase(m, AiMint);
      StartsWith(m, sys, st, Enter(AiMint), o);
      ghost var mid := View(m);
      RanGoesOn(m, sys, st, [Enter(AiMint)], o);
      ok := Mint(m, o);
      Follows(m, sys, st, [Enter(AiMint)], [Try(MintKey)], o, mid, ok);
      if !ok {
        Stops(m, sys, st, a, MintScript(), o);
        return;
      }
      ghost var minted := View(m);
      RanGoesOn(m, sys, st, a, o);
      Set(m, Command.Save);
      FollowsOne(m, sys, st, a, Command.Save, o, minted);
    }

    /** Starts the stack and saves where it answers. */
    method UpStack(m: Machine, local: bool, o: Oracle) returns (ok: bool)
      requires Open(m)
      modifies this, m, m.home
      ensures Ran(m, old(m.View()), old(View(m)), UpScript(local), o, ok)
    {
      ghost var sys, st := m.View(), View(m);
      ghost var a := [Enter(ComposeUp), Try(Step.UpStack)];
      assert a + [SaveUrl(local)] == UpScript(local);
      ok := Phase(m, ComposeUp, Step.UpStack, o);
      if !ok {
        Stops(m, sys, st, a, UpScript(local), o);
        return;
      }
      ghost var mid := View(m);
      Set(m, SaveUrl(local));
      FollowsOne(m, sys, st, a, SaveUrl(local), o, mid);
    }

    /** Reads terraform's outputs and saves the address, and the DNS name if any. */
    method FetchIp(m: Machine, o: Oracle) returns (ok: bool)
      requires Open(m)
      modifies this, m, m.home
      ensures Ran(m, old(m.View()), old(View(m)),
                  [Enter(Outputs), Try(ReadOutputs)] + When(o.fqdn != "", [SaveFqdn(o.fqdn)]) + [SaveIp(o.ip)], o, ok)
    {
      ghost var sys, st := m.View(), View(m);
      ghost var a, b := [Enter(Outputs), Try(ReadOutputs)], When(o.fqdn != "", [SaveFqdn(o.fqdn)]);
      ok := Phase(m, Outputs, ReadOutputs, o);
      if !ok {
        Stops(m, sys, st, a, a + b + [SaveIp(o.ip)], o);
        return;
      }
      ghost var mid := View(m);
      if o.fqdn != "" {
        Set(m, SaveFqdn(o.fqdn));
        FollowsOne(m, sys, st, a, SaveFqdn(o.fqdn), o, mid);
      } else {
        assert a + [] == a;
      }
      assert Ran(m, sys, st, a + b, o, true);
      ghost var named := View(m);
      Set(m, SaveIp(o.ip));
      FollowsOne(m, sys, st, a + b, SaveIp(o.ip), o, named);
    }

    /** Stage, terraform init, terraform apply and its outputs. */
    method ApplyPhases(m: Machine, o: Oracle) returns (ok: bool)
      requires Open(m)
      modifies this, m, m.home
      ensures Ran(m, old(m.View()), old(View(m)), ApplyScript(o), o, ok)
    {
      ghost var sys, st := m.View(), View(m);
      ghost var a, b := StageScript(), [Enter(TerraformInit), Try(InitTerraform)];
      ghost var c := [Enter(TerraformApply), Try(ApplyTerraform)];
      ghost var d := [Enter(Outputs), Try(ReadOutputs)] + When(o.fqdn != "", [SaveFqdn(o.fqdn)]) + [SaveIp(o.ip)];
      assert ApplyScript(o) == a + b + c + d && StageScript() == [Enter(Stage), Try(StageFiles)];
      hide *;
      OpenHasFolder(m);
      Beginnings(a, b, c, d, []);
      ok := Phase(m, Stage, StageFiles, o);
      if !ok {
        Stops(m, sys, st, a, a + b + c + d, o);
        return;
      }
      ghost var mid := View(m);
      RanGoesOn(m, sys, st, a, o);
      ok := Phase(m, TerraformInit, InitTerraform, o);
      Follows(m, sys, st, a, b, o, mid, ok);
      if !ok {
        Stops(m, sys, st, a + b, a + b + c + d, o);
        return;
      }
      mid := View(m);
      RanGoesOn(m, sys, st, a + b, o);
      ok := Phase(m, TerraformApply, ApplyTerraform, o);
      Follows(m, sys, st, a + b, c, o, mid, ok);
      if !ok {
        Stops(m, sys, st, a + b + c, a + b + c + d, o);
        return;
      }
      mid := View(m);
      RanGoesOn(m, sys, st, a + b + c, o);
      ok := FetchIp(m, o);
      Follows(m, sys, st, a + b + c, d, o, mid, ok);
    }

    /** After a successful run the machine is where the run came to. */
    lemma RanGoesOn(m: Machine, sys: System, st: State, a: seq<Command>, o: Oracle)
      requires Ran(m, sys, st, a, o, true)
      ensures Run(st, a, o) == (View(m), true) && m.View() == Put(sys, name, View(m)) && Open(m)
      ensures View(m).folder.Some?
    {
    }

    /** Install kind, push the payload, create the cluster; a bare launch does
        none of them. */
    method BundlePhases(m: Machine, i: Inputs, o: Oracle) returns (ok: bool)
      requires Open(m)
      modifies this, m, m.home
      ensures Ran(m, old(m.View()), old(View(m)), BundleScript(i), o, ok)
    {
      ghost var sys, st := m.View(), View(m);
      ghost var a := When(HasKind(i), [Enter(InstallKind), Try(InstallKindTools)]);
      ghost var b := When(i.bundle.Some?, [Enter(PushPayload), Try(PushTar)]);
      ghost var c := When(HasKind(i), [Enter(CreateCluster), Try(MakeCluster)]);
      assert BundleScript(i) == a + b + c;
      BundleScriptParts(i);
      hide *;
      NothingRun(m, sys, st, o);
      OpenHasFolder(m);
      if i.bundle.None? {
        assert a + b + c == [];
        return true;
      }
      if i.bundle.value.hasKind {
        ok := Phase(m, InstallKind, InstallKindTools, o);
        if !ok {
          Stops(m, sys, st, a, a + b + c, o);
          return;
        }
      }
      ghost var mid := View(m);
      RanGoesOn(m, sys, st, a, o);
      ok := Phase(m, PushPayload, PushTar, o);
      Follows(m, sys, st, a, b, o, mid, ok);
      if !ok {
        Stops(m, sys, st, a + b, a + b + c, o);
        return;
      }
      if i.bundle.value.hasKind {
        mid := View(m);
        RanGoesOn(m, sys, st, a + b, o);
        ok := Phase(m, CreateCluster, MakeCluster, o);
        Follows(m, sys, st, a + b, c, o, mid, ok);
      } else {
        assert a + b + c == a + b;
      }
    }

    lemma BundleScriptParts(i: Inputs)
      ensures When(i.bundle.Some?, [Enter(PushPayload), Try(PushTar)])
           == if i.bundle.Some? then [Enter(PushPayload), Try(PushTar)] else []
      ensures forall script: seq<Command> ::
        When(HasKind(i), script) == if i.bundle.Some? && i.bundle.value.hasKind then script else []
    {
    }

    lemma NothingRun(m: Machine, sys: System, st: State, o: Oracle)
      requires Open(m) && View(m) == st && m.View() == sys
      ensures Ran(m, sys, st, [], o, true)
    {
      assert sys == Put(sys, name, st);
    }

    /** Compose push, image pull, the bundle's phases, the key, compose up and the
        hook: pulling comes before minting, so that a failed pull never leaves a key. */
    method StackPhases(m: Machine, i: Inputs, o: Oracle) returns (ok: bool)
      requires Open(m)
      modifies this, m, m.home
      ensures Ran(m, old(m.View()), old(View(m)), StackScript(i), o, ok)
    {
      ghost var sys, st := m.View(), View(m);
      ghost var before := [Enter(PushStack), Try(PushCompose)] + [Enter(PullStack), Try(PullImages)];
      ghost var c, d, e := BundleScript(i), When(i.ai.Some?, MintScript()), UpScript(false);
      ghost var f := When(HasSetup(i), HookScript());
      assert StackScript(i) == before + c + d + e + f;
      hide *;
      OpenHasFolder(m);
      Beginnings(before, c, d, e, f);
      ok := PushAndPull(m, o);
      if !ok {
        Stops(m, sys, st, before, before + c + d + e + f, o);
        return;
      }
      ghost var mid := View(m);
      RanGoesOn(m, sys, st, before, o);
      ok := BundlePhases(m, i, o);
      Follows(m, sys, st, before, c, o, mid, ok);
      if !ok {
        Stops(m, sys, st, before + c, before + c + d + e + f, o);
        return;
      }
      ok := TailPhases(m, sys, st, before + c, i, false, o);
    }

    lemma Beginnings(a: seq<Command>, b: seq<Command>, c: seq<Command>, d: seq<Command>, e: seq<Command>)
      ensures a <= a + b + c + d + e && a + b <= a + b + c + d + e && a + b + c <= a + b + c + d + e
      ensures a + b + c + d <= a + b + c + d + e
      ensures a + b + c + d + [] == a + b + c + d
    {
    }

    /** Sends the stack files and pulls the images. */
    method PushAndPull(m: Machine, o: Oracle) returns (ok: bool)
      requires Open(m)
      modifies this, m, m.home
      ensures Ran(m, old(m.View()), old(View(m)),
                  [Enter(PushStack), Try(PushCompose)] + [Enter(PullStack), Try(PullImages)], o, ok)
    {
      ghost var sys, st := m.View(), View(m);
      ghost var a, b := [Enter(PushStack), Try(PushCompose)], [Enter(PullStack), Try(PullImages)];
      hide Run, At, View;
      ok := Phase(m, PushStack, PushCompose, o);
      if !ok {
        Stops(m, sys, st, a, a + b, o);
        return;
      }
      ghost var mid := View(m);
      RanGoesOn(m, sys, st, a, o);
      ok := Phase(m, PullStack, PullImages, o);
      Follows(m, sys, st, a, b, o, mid, ok);
    }

    /** The part both pipelines share, after the script `before`: key, compose up
        and the bundle's hook. */
    method TailPhases(m: Machine, ghost sys: System, ghost st: State, ghost before: seq<Command>,
                      i: Inputs, local: bool, o: Oracle) returns (ok: bool)
      requires Ran(m, sys, st, before, o, true) && st.folder.Some?
      modifies this, m, m.home
      ensures Ran(m, sys, st, before + When(i.ai.Some?, MintScript()) + UpScript(local) + When(HasSetup(i), HookScript()),
                  o, ok)
    {
      ghost var d, e, f := When(i.ai.Some?, MintScript()), UpScript(local), When(HasSetup(i), HookScript());
      ghost var whole := before + d + e + f;
      hide MintScript, UpScript, Run, At, View, HookScript;
      ghost var mid := View(m);
      RanGoesOn(m, sys, st, before, o);
      if i.ai.Some? {
        ok := MintAiKey(m, o);
        Follows(m, sys, st, before, d, o, mid, ok);
        if !ok {
          Stops(m, sys, st, before + d, whole, o);
          return;
        }
      } else {
        assert before + d == before;
      }
      mid := View(m);
      RanGoesOn(m, sys, st, before + d, o);
      ok := UpStack(m, local, o);
      Follows(m, sys, st, before + d, e, o, mid, ok);
      if !ok {
        Stops(m, sys, st, before + d + e, whole, o);
        return;
      }
      mid := View(m);
      RanGoesOn(m, sys, st, before + d + e, o);
      ok := RunSetup(m, i, o);
      Follows(m, sys, st, before + d + e, f, o, mid, ok);
    }

    /** Runs the bundle's hook, when it has one. */
    method RunSetup(m: Machine, i: Inputs, o: Oracle) returns (ok: bool)
      requires Open(m)
      modifies this, m, m.home
      ensures Ran(m, old(m.View()), old(View(m)), When(HasSetup(i), HookScript()), o, ok)
    {
      NothingRun(m, m.View(), View(m), o);
      if i.bundle.None? || !i.bundle.value.hasSetup {
        return true;
      }
      ok := Phase(m, Setup, RunHook, o);
    }

    method PrintLaunchSummary(m: Machine, o: Oracle)
      requires Open(m)
      modifies this, m, m.home
      ensures Ran(m, old(m.View()), old(View(m)), SummaryScript(), o, true)
    {
      ghost var sys, st := m.View(), View(m);
      SetPhase(m, Summary);
      StartsWith(m, sys, st, Enter(Summary), o);
      ghost var mid := View(m);
      SetStatus(m, Ready);
      FollowsOne(m, sys, st, [Enter(Summary)], Mark(Ready), o, mid);
      assert [Enter(Summary)] + [Mark(Ready)] == SummaryScript();
    }

    /** The cloud pipeline. */
    method RunLaunch(m: Machine, i: Inputs, o: Oracle) returns (ok: bool)
      requires Open(m)
      modifies this, m, m.home
      ensures Ran(m, old(m.View()), old(View(m)), CloudScript(i, o), o, ok)
    {
      ghost var sys, st := m.View(), View(m);
      ghost var a, b := [Try(PluginCache)], ApplyScript(o);
      CloudScriptIs(i, o);
      hide *;
      ok := Do(m, PluginCache, o);
      if !ok {
        Stops(m, sys, st, a, a + b + ReachedScript(i), o);
        return;
      }
      ghost var mid := View(m);
      RanGoesOn(m, sys, st, a, o);
      ok := ApplyPhases(m, o);
      Follows(m, sys, st, a, b, o, mid, ok);
      if !ok {
        Stops(m, sys, st, a + b, a + b + ReachedScript(i), o);
        return;
      }
      ok := ReachVm(m, sys, st, a + b, i, o);
    }

    // What follows once the VM is ready, answers, exists.

    ghost function HandOverScript(i: Inputs): seq<Command> {
      StackScript(i) + SummaryScript()
    }

    ghost function ReadyScript(i: Inputs): seq<Command> {
      [Enter(CloudInit), Try(AwaitCloudInit)] + ([Try(RedialSsh)] + HandOverScript(i))
    }

    ghost function ReachedScript(i: Inputs): seq<Command> {
      [Enter(WaitSsh), Try(DialSsh)] + ReadyScript(i)
    }

    lemma CloudScriptIs(i: Inputs, o: Oracle)
      ensures CloudScript(i, o) == [Try(PluginCache)] + ApplyScript(o) + ReachedScript(i)
    {
      hide ApplyScript, StackScript, SummaryScript;
    }

    lemma Regroup(a: seq<Command>, b: seq<Command>, c: seq<Command>)
      ensures a + b + c == a + (b + c) && a + b <= a + (b + c)
    {
    }

    /** From a VM that exists to one that answers. */
    method ReachVm(m: Machine, ghost sys: System, ghost st: State, ghost before: seq<Command>,
                   i: Inputs, o: Oracle) returns (ok: bool)
      requires Ran(m, sys, st, before, o, true) && st.folder.Some?
      modifies this, m, m.home
      ensures Ran(m, sys, st, before + ReachedScript(i), o, ok)
    {
      ghost var c, rest := [Enter(WaitSsh), Try(DialSsh)], ReadyScript(i);
      assert ReachedScript(i) == c + rest;
      hide *;
      Regroup(before, c, rest);
      ghost var mid := View(m);
      RanGoesOn(m, sys, st, before, o);
      ok := Phase(m, WaitSsh, DialSsh, o);
      Follows(m, sys, st, before, c, o, mid, ok);
      if !ok {
        Stops(m, sys, st, before + c, before + (c + rest), o);
        return;
      }
      ok := AwaitVm(m, sys, st, before + c, i, o);
    }

    /** From a VM that answers to one that is ready. */
    method AwaitVm(m: Machine, ghost sys: System, ghost st: State, ghost before: seq<Command>,
                   i: Inputs, o: Oracle) returns (ok: bool)
      requires Ran(m, sys, st, before, o, true) && st.folder.Some?
      modifies this, m, m.home
      ensures Ran(m, sys, st, before + ReadyScript(i), o, ok)
    {
      ghost var d, e, rest := [Enter(CloudInit), Try(AwaitCloudInit)], [Try(RedialSsh)], HandOverScript(i);
      assert ReadyScript(i) == d + (e + rest);
      hide *;
      Regroup(before, d, e + rest);
      Regroup(before + d, e, rest);
      ghost var mid := View(m);
      RanGoesOn(m, sys, st, before, o);
      ok := Phase(m, CloudInit, AwaitCloudInit, o);
      Follows(m, sys, st, before, d, o, mid, ok);
      if !ok {
        Stops(m, sys, st, before + d, before + (d + (e + rest)), o);
        return;
      }
      mid := View(m);
      RanGoesOn(m, sys, st, before + d, o);
      ok := Do(m, RedialSsh, o);
      Follows(m, sys, st, before + d, e, o, mid, ok);
      if !ok {
        Stops(m, sys, st, before + d + e, before + d + (e + rest), o);
        return;
      }
      ok := HandOver(m, sys, st, before + d + e, i, o);
    }

    /** From a VM that is ready to the handover. */
    method HandOver(m: Machine, ghost sys: System, ghost st: State, ghost before: seq<Command>,
                    i: Inputs, o: Oracle) returns (ok: bool)
      requires Ran(m, sys, st, before, o, true) && st.folder.Some?
      modifies this, m, m.home
      ensures Ran(m, sys, st, before + HandOverScript(i), o, ok)
    {
      ghost var f, rest := StackScript(i), SummaryScript();
      assert HandOverScript(i) == f + rest;
      hide *;
      Regroup(before, f, rest);
      ghost var mid := View(m);
      RanGoesOn(m, sys, st, before, o);
      ok := StackPhases(m, i, o);
      Follows(m, sys, st, before, f, o, mid, ok);
      if !ok {
        Stops(m, sys, st, before + f, before + (f + rest), o);
        return;
      }
      mid := View(m);
      RanGoesOn(m, sys, st, before + f, o);
      PrintLaunchSummary(m, o);
      Follows(m, sys, st, before + f, rest, o, mid, true);
    }

    /** Stages the stack and creates the bundle's cluster, if any. */
    method StageAndCluster(m: Machine, i: Inputs, o: Oracle) returns (ok: bool)
      requires Open(m)
      modifies this, m, m.home
      ensures Ran(m, old(m.View()), old(View(m)),
                  StageScript() + When(HasKind(i), [Enter(CreateCluster), Try(MakeCluster)]), o, ok)
    {
      ghost var sys, st := m.View(), View(m);
      ghost var a, b := StageScript(), When(HasKind(i), [Enter(CreateCluster), Try(MakeCluster)]);
      hide Run, At, View;
      ok := Phase(m, Stage, StageFiles, o);
      if !ok {
        Stops(m, sys, st, a, a + b, o);
      } else if i.bundle.Some? && i.bundle.value.hasKind {
        ghost var mid := View(m);
        RanGoesOn(m, sys, st, a, o);
        ok := Phase(m, CreateCluster, MakeCluster, o);
        Follows(m, sys, st, a, b, o, mid, ok);
      } else {
        assert a + b == a;
      }
    }

    /** The local pipeline, after the image references were checked. */
    method RunLocalStack(m: Machine, i: Inputs, o: Oracle) returns (ok: bool)
      requires Open(m)
      modifies this, m, m.home
      ensures Ran(m, old(m.View()), old(View(m)), LocalScript(i), o, ok)
    {
      ghost var sys, st := m.View(), View(m);
      ghost var before := StageScript() + When(HasKind(i), [Enter(CreateCluster), Try(MakeCluster)]);
      ghost var d, e, f := When(i.ai.Some?, MintScript()), UpScript(true), When(HasSetup(i), HookScript());
      assert LocalScript(i) == before + d + e + f + SummaryScript();
      hide *;
      OpenHasFolder(m);
      Beginnings(before, d, e, f, SummaryScript());
      ok := StageAndCluster(m, i, o);
      if !ok {
        Stops(m, sys, st, before, before + d + e + f + SummaryScript(), o);
        return;
      }
      ok := TailPhases(m, sys, st, before, i, true, o);
      if !ok {
        Stops(m, sys, st, before + d + e + f, before + d + e + f + SummaryScript(), o);
        return;
      }
      ghost var last := View(m);
      RanGoesOn(m, sys, st, before + d + e + f, o);
      PrintLaunchSummary(m, o);
      Follows(m, sys, st, before + d + e + f, SummaryScript(), o, last, true);
    }

    /** A launch of either kind; a failure is recorded. */
    method LaunchAll(m: Machine, i: Inputs, o: Oracle) returns (ok: bool)
      requires Open(m)
      modifies this, m, m.home
      ensures At(m, old(m.View()), Launched(old(View(m)), i, o).0) && ok == Launched(old(View(m)), i, o).1
    {
      ghost var sys, st := m.View(), View(m);
      hide CloudScript, LocalScript, Run;
      if i.cloud {
        ok := RunLaunch(m, i, o);
      } else {
        ghost var a := [Try(ValidateImages)];
        ok := Do(m, ValidateImages, o);
        if !ok {
          Stops(m, sys, st, a, a + LocalScript(i), o);
        } else {
          ghost var mid := View(m);
          RanGoesOn(m, sys, st, a, o);
          ok := RunLocalStack(m, i, o);
          Follows(m, sys, st, a, LocalScript(i), o, mid, ok);
        }
      }
      assert Ran(m, sys, st, LaunchScript(i, o), o, ok);
      if !ok {
        FailWith(m, sys, Failed, o);
      }
    }

    /** FailLaunch and FailDestroy: only the status changes. */
    method FailWith(m: Machine, ghost sys: System, s: Status, ghost o: Oracle)
      requires At(m, sys, View(m))
      modifies this, m.home
      ensures At(m, sys, Execute(old(View(m)), Mark(s), o).0)
    {
      ghost var mid := View(m);
      SetStatus(m, s);
      PutPut(sys, name, mid, Updated(mid, Mark(s)));
    }

    // ----------------------------------------------------------- destroying

    /** Deletes what runs: on this machine, or with terraform. */
    method TakeDown(m: Machine, reg: Registry, o: Oracle) returns (ok: bool)
      requires Open(m)
      modifies this, m, m.home
      ensures Ran(m, old(m.View()), old(View(m)), Teardown(reg, old(meta)), o, ok)
    {
      ghost var sys, st := m.View(), View(m);
      ghost var a := [Mark(Destroying)];
      var local := IsLocal(reg, meta);
      var kind := meta.kind;
      SetStatus(m, Destroying);
      StartsWith(m, sys, st, Mark(Destroying), o);
      ghost var mid := View(m);
      hide Run, At, View;
      if !local {
        assert CloudTeardown() == a + [Try(InitDestroy)] + [Try(DestroyTerraform)];
        ok := TakeTwo(m, sys, st, a, InitDestroy, DestroyTerraform, o);
      } else if kind {
        assert LocalTeardown(st.mem) == a + [Try(DeleteCluster)] + [Try(DownStack)];
        ok := TakeTwo(m, sys, st, a, DeleteCluster, DownStack, o);
      } else {
        assert LocalTeardown(st.mem) == a + [Try(DownStack)];
        RanGoesOn(m, sys, st, a, o);
        ok := Do(m, DownStack, o);
        Follows(m, sys, st, a, [Try(DownStack)], o, mid, ok);
      }
    }

    /** Two external steps after the script `a`. */
    method TakeTwo(m: Machine, ghost sys: System, ghost st: State, ghost a: seq<Command>,
                   s: Step, t: Step, o: Oracle) returns (ok: bool)
      requires Ran(m, sys, st, a, o, true) && st.folder.Some? && s != MintKey && t != MintKey
      modifies m
      ensures Ran(m, sys, st, a + [Try(s)] + [Try(t)], o, ok)
    {
      hide Run, At, View;
      ghost var here := View(m);
      RanGoesOn(m, sys, st, a, o);
      ok := Do(m, s, o);
      Follows(m, sys, st, a, [Try(s)], o, here, ok);
      if !ok {
        Stops(m, sys, st, a + [Try(s)], a + [Try(s)] + [Try(t)], o);
        return;
      }
      here := View(m);
      RanGoesOn(m, sys, st, a + [Try(s)], o);
      ok := Do(m, t, o);
      Follows(m, sys, st, a + [Try(s)], [Try(t)], o, here, ok);
    }

    /** Revokes the key the object records; without one there is nothing to do. */
    method RevokeAiKey(m: Machine, reg: Registry, o: Oracle) returns (ok: bool)
      requires Open(m)
      modifies m
      ensures At(m, old(m.View()), Revoked(old(View(m)), reg, o).0) && ok == Revoked(old(View(m)), reg, o).1
    {
      NothingRun(m, m.View(), View(m), o);
      if meta.aiKeyHash == "" {
        return true;
      }
      if Role(meta, "ai") !in reg.ais {
        return false;
      }
      ghost var st := View(m);
      RunOne(st, Try(RevokeKey), o);
      ok := Do(m, RevokeKey, o);
    }

    /** The release half of RunDestroy and RunLocalDestroy; a failure is recorded. */
    method Release(m: Machine, reg: Registry, o: Oracle) returns (gone: bool)
      requires Open(m)
      modifies this, m, m.home
      ensures At(m, old(m.View()), Released(old(View(m)), reg, o).0) && gone == Released(old(View(m)), reg, o).1
    {
      ghost var sys, st := m.View(), View(m);
      hide Run, Teardown, Revoked;
      gone := TakeDown(m, reg, o);
      if gone {
        ghost var down := View(m);
        gone := RevokeAiKey(m, reg, o);
        PutPut(sys, name, down, View(m));
      }
      if !gone {
        FailWith(m, sys, FailedDestroy, o);
      }
    }
  }

  // -------------------------------------------------------------- commands

  /** Looks for a listed session on this machine, as a local launch does. */
  method LiveLocalSession(m: Machine, reg: Registry) returns (found: bool)
    ensures found == HasLocal(reg, m.View())
  {
    var names := m.home.sessions.Keys;
    while names != {}
      invariant names <= m.home.sessions.Keys
      invariant forall n :: n in m.home.sessions && n !in names ==> !IsListedLocal(reg, m.View(), n)
      decreases names
    {
      var n :| n in names;
      var meta := m.home.Get(n);
      if meta.Some? && IsLocal(reg, meta.value) {
        return true;
      }
      names := names - {n};
    }
    found := false;
  }

  /** Why a launch may not even draw a slug. */
  predicate LaunchRefused(reg: Registry, sys: System, i: Inputs, o: Oracle) {
    !i.cloud && (HasLocal(reg, sys) || (HasKind(i) && FindHostBins in o.breaks))
  }

  /** `interview launch`, from the session's creation on.  No slug comes back when
      the launch is refused, or while every name drawn so far is taken.  That no
      name outlives its folder and archive entry is part of Histories.Inv. */
  method LaunchCommand(m: Machine, reg: Registry, i: Inputs, draws: seq<string>, at: int, o: Oracle)
    returns (slug: Option<string>)
    requires forall n :: n in m.outs ==> Taken(m.View(), n)
    modifies m, m.home
    ensures slug.None? ==>
      && m.View() == old(m.View())
      && (LaunchRefused(reg, old(m.View()), i, o) || forall d :: d in draws ==> Taken(old(m.View()), d))
    ensures slug.Some? ==>
      && slug.value in draws && !Taken(old(m.View()), slug.value) && !LaunchRefused(reg, old(m.View()), i, o)
      && m.View() == LaunchOn(reg, old(m.View()), i, slug.value, at, o)
  {
    ghost var sys := m.View();
    if !i.cloud {
      var live := LiveLocalSession(m, reg);
      if live || (i.bundle.Some? && i.bundle.value.hasKind && FindHostBins in o.breaks) {
        return None;
      }
    }
    slug := m.home.NewSlug(draws);
    if slug.None? {
      return;
    }
    CreateAndRun(m, reg, i, slug.value, at, o);
  }

  /** What a launch under a free name comes to, by how far it gets. */
  lemma LaunchOnNew(reg: Registry, sys: System, i: Inputs, name: string, at: int, o: Oracle)
    requires !Taken(sys, name) && !LaunchRefused(reg, sys, i, o)
    ensures LaunchOn(reg, sys, i, name, at, o)
         == if MakeFolder in o.breaks then Put(sys, name, State(Blank(i, name, at), Some(EMPTY), UNTOUCHED))
            else if i.cloud && GeneratePassword in o.breaks then
              Put(sys, name, State(Blank(i, name, at), Some(Folder(Some(Blank(i, name, at)), Some(map[]))), UNTOUCHED))
            else Put(sys, name, Launched(Begun(i, name, at), i, o).0)
  {
    hide Launched, Begun, Blank, HasLocal, Put;
  }

  method CreateAndRun(m: Machine, reg: Registry, i: Inputs, name: string, at: int, o: Oracle)
    requires !Taken(m.View(), name) && name !in m.outs && !LaunchRefused(reg, m.View(), i, o)
    modifies m, m.home
    ensures m.View() == LaunchOn(reg, old(m.View()), i, name, at, o)
  {
    ghost var sys := m.View();
    LaunchOnNew(reg, sys, i, name, at, o);
    hide Taken, LaunchRefused, LaunchOn, Launched, Begun, Blank, Put;
    MakeHome(m, name, Blank(i, name, at));
    if MakeFolder in o.breaks {
      return;
    }
    var s := Create(m, sys, name, Blank(i, name, at));
    if i.cloud && GeneratePassword in o.breaks {
      return;
    }
    RunCreated(m, s, sys, i, at, o);
  }

  /** Makes the session's folder, still empty. */
  method MakeHome(m: Machine, name: string, ghost meta: Metadata)
    modifies m, m.home
    ensures m.View() == Put(old(m.View()), name, State(meta, Some(EMPTY), UNTOUCHED))
  {
    m.outs := m.outs[name := UNTOUCHED];
    m.home.sessions := m.home.sessions[name := EMPTY];
  }

  /** Puts the first metadata and the logs folder into it. */
  method Create(m: Machine, ghost sys: System, name: string, meta: Metadata) returns (s: Session)
    requires m.View() == Put(sys, name, State(meta, Some(EMPTY), UNTOUCHED))
    modifies m.home
    ensures fresh(s) && s.name == name && s.meta == meta
    ensures s.At(m, sys, State(meta, Some(Folder(Some(meta), Some(map[]))), UNTOUCHED))
    ensures m.View() == Put(sys, name, State(meta, Some(Folder(Some(meta), Some(map[]))), UNTOUCHED))
  {
    s := new Session(name, meta);
    m.home.sessions := m.home.sessions[name := Folder(Some(meta), Some(map[]))];
  }

  /** Completes the metadata of a session just created, and launches it. */
  method RunCreated(m: Machine, s: Session, ghost sys: System, i: Inputs, at: int, o: Oracle)
    requires s.meta == Blank(i, s.name, at)
    requires s.At(m, sys, State(s.meta, Some(Folder(Some(s.meta), Some(map[]))), UNTOUCHED))
    modifies s, m, m.home
    ensures m.View() == Put(sys, s.name, Launched(Begun(i, s.name, at), i, o).0)
  {
    ghost var blank, begun := s.View(m), Begun(i, s.name, at);
    s.meta := s.meta.(profile := i.profile, gatewayPassword := if i.cloud then i.password else LocalStack.PASSWORD);
    if i.bundle.Some? {
      s.meta := s.meta.(pack := i.pack, bundle := i.bundle.value.name, kind := i.bundle.value.hasKind);
    }
    s.Save(m);
    PutPut(sys, s.name, blank, begun);
    assert s.At(m, sys, begun);
    hide *;
    var ok := s.LaunchAll(m, i, o);
    LaunchKeepsFolder(begun, i, o);
    PutPut(sys, s.name, begun, Launched(begun, i, o).0);
    s.AtIs(m, Put(sys, s.name, begun), Launched(begun, i, o).0);
  }

  lemma LaunchKeepsFolder(st: State, i: Inputs, o: Oracle)
    requires st.folder.Some?
    ensures Launched(st, i, o).0.folder.Some?
  {
    hide LaunchScript, Run, Execute;
    RunKeepsLogs(st, LaunchScript(i, o), o);
    ExecuteKeepsLogs(Run(st, LaunchScript(i, o), o).0, Mark(Failed), o);
  }

  /** `interview destroy`, from the session being resolved on. */
  method DestroyCommand(m: Machine, reg: Registry, name: string, o: Oracle, faults: ArchiveFaults)
    returns (result: Result)
    requires forall n :: n in m.home.sessions ==> n in m.outs
    modifies m, m.home
    ensures (m.View(), result) == DestroyOn(reg, old(m.View()), name, o, faults)
  {
    var meta := m.home.Get(name);
    if meta.None? {
      return NotFound;
    }
    var s := new Session(name, meta.value);
    if LoadConfig in o.breaks {
      return Refused;
    }
    if !IsLocal(reg, s.meta) {
      if FindTerraform in o.breaks || Role(s.meta, "vm") !in reg.vms
         || (Role(s.meta, "access") != "" && Role(s.meta, "access") !in reg.accesses) || PluginCache in o.breaks {
        return Refused;
      }
    }
    var gone := s.Release(m, reg, o);
    if !gone {
      return ReleaseFailed;
    }
    var ok := m.home.Archive(name, s.meta.slug, faults);
    result := if ok then Destroyed else NotArchived;
  }
}
