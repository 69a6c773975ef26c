/** What every attempt to destroy a session does: what it releases, what it
    records, and when it leaves something running. */
module DestroyRuns {
  import opened Options
  import opened Sessions
  import opened Lifecycle
  import opened LaunchRuns

  /** The external steps of the release half, in order. */
  function TeardownSteps(reg: Registry, m: Metadata): seq<Step> {
    if IsLocal(reg, m) then (if m.kind then [DeleteCluster] else []) + [DownStack]
    else [InitDestroy, DestroyTerraform]
  }

  function ReleaseSteps(reg: Registry, m: Metadata): seq<Step> {
    TeardownSteps(reg, m) + if m.aiKeyHash != "" then [RevokeKey] else []
  }

  predicate AllWork(steps: seq<Step>, o: Oracle) {
    forall k :: 0 <= k < |steps| ==> steps[k] !in o.breaks
  }

  /** What is left running after everything in the teardown worked. */
  function Left(reg: Registry, m: Metadata, live: Live): Live {
    if IsLocal(reg, m) then live.(stack := false, cluster := live.cluster && !m.kind)
    else Live(false, false, false, live.keys)
  }

  lemma RunOne(st: State, c: Command, o: Oracle)
    ensures Run(st, [c], o) == Execute(st, c, o)
  {
    assert [c][1..] == [];
    var (next, ok) := Execute(st, c, o);
    assert Run(next, [], o) == (next, true);
  }

  lemma RunThen(st: State, a: seq<Command>, c: Command, o: Oracle)
    ensures Run(st, a + [c], o) == if Run(st, a, o).1 then Execute(Run(st, a, o).0, c, o) else Run(st, a, o)
  {
    RunConcat(st, a, [c], o);
    RunOne(Run(st, a, o).0, c, o);
  }

  /** Two and three commands, one after another. */
  lemma RunThree(st: State, a: Command, b: Command, c: Command, o: Oracle)
    ensures Run(st, [a] + [b], o) == if Execute(st, a, o).1 then Execute(Execute(st, a, o).0, b, o) else Execute(st, a, o)
    ensures Run(st, [a] + [b] + [c], o)
         == if Run(st, [a] + [b], o).1 then Execute(Run(st, [a] + [b], o).0, c, o) else Run(st, [a] + [b], o)
  {
    hide *;
    RunOne(st, a, o);
    RunThen(st, [a], b, o);
    RunThen(st, [a] + [b], c, o);
  }

  /** The status is saved; nothing outside changes. */
  lemma MarkOnly(st: State, status: Status, o: Oracle)
    ensures var (next, ok) := Execute(st, Mark(status), o);
      && ok && next.mem == st.mem.(status := status) && (st.folder.Some? ==> Synced(next))
      && next.out == st.out
  {
  }

  /** A step of a teardown leaves object, file and keys alone. */
  lemma TryOnly(st: State, s: Step, o: Oracle)
    requires s in {InitDestroy, DestroyTerraform, DeleteCluster, DownStack}
    ensures var (next, ok) := Execute(st, Try(s), o);
      && next.mem == st.mem && next.folder == st.folder && (ok <==> s !in o.breaks)
      && (Synced(st) ==> Synced(next))
      && (ok ==> next.out.live == After(st.out.live, s, st.mem, o))
      && next.out.live.keys == st.out.live.keys
      && next.out.log == st.out.log + [Attempted(s)]
  {
  }

  /** Steps attempted in order, up to and including the first that breaks. */
  function UpToBreak(steps: seq<Step>, breaks: set<Step>): seq<Event> {
    if steps == [] then []
    else [Attempted(steps[0])] + if steps[0] in breaks then [] else UpToBreak(steps[1..], breaks)
  }

  lemma {:induction false} UpToBreakJoins(a: seq<Step>, b: seq<Step>, o: Oracle)
    ensures UpToBreak(a + b, o.breaks)
         == UpToBreak(a, o.breaks) + if AllWork(a, o) then UpToBreak(b, o.breaks) else []
    decreases |a|
  {
    hide AllWork;
    AllWorkNext(a, o);
    if a == [] {
      assert a + b == b;
    } else {
      assert (a + b)[1..] == a[1..] + b;
      UpToBreakJoins(a[1..], b, o);
    }
  }

  lemma AllWorkNext(a: seq<Step>, o: Oracle)
    ensures AllWork(a, o) <==> (a == [] || (a[0] !in o.breaks && AllWork(a[1..], o)))
  {
    if a != [] {
      assert forall k :: 0 < k < |a| ==> a[k] == a[1..][k - 1];
    }
  }

  lemma UpToTwo(s: Step, t: Step, o: Oracle)
    ensures UpToBreak([s], o.breaks) == [Attempted(s)]
    ensures UpToBreak([s, t], o.breaks) == [Attempted(s)] + if s in o.breaks then [] else [Attempted(t)]
  {
    assert [s][1..] == [] && [s, t][1..] == [t] && [t][1..] == [];
  }

  lemma LogGrows(log: seq<Event>, a: Event, b: Event)
    ensures log + [a] + [b] == log + ([a] + [b]) && log + ([a] + []) == log + [a]
  {
  }

  lemma BothWork(s: Step, t: Step, o: Oracle)
    ensures AllWork([s, t], o) <==> s !in o.breaks && t !in o.breaks
    ensures AllWork([s], o) <==> s !in o.breaks
  {
    assert [s, t][0] == s && [s, t][1] == t && [s][0] == s;
  }

  lemma CloudTornDown(st: State, o: Oracle)
    ensures var (next, ok) := Run(st, CloudTeardown(), o);
      && next.mem == st.mem.(status := Destroying) && (st.folder.Some? ==> Synced(next))
      && (ok <==> AllWork([InitDestroy, DestroyTerraform], o))
      && (ok ==> next.out.live == Live(false, false, false, st.out.live.keys))
      && next.out.live.keys == st.out.live.keys
      && next.out.log == st.out.log + UpToBreak([InitDestroy, DestroyTerraform], o.breaks)
  {
    hide *;
    var marked := Execute(st, Mark(Destroying), o).0;
    CloudTeardownIs();
    RunThree(st, Mark(Destroying), Try(InitDestroy), Try(DestroyTerraform), o);
    BothWork(InitDestroy, DestroyTerraform, o);
    UpToTwo(InitDestroy, DestroyTerraform, o);
    LogGrows(st.out.log, Attempted(InitDestroy), Attempted(DestroyTerraform));
    MarkOnly(st, Destroying, o);
    TryOnly(marked, InitDestroy, o);
    TryOnly(Execute(marked, Try(InitDestroy), o).0, DestroyTerraform, o);
    EffectsOfTeardown(st.out.live, st.mem, o);
    EffectsOfTeardown(marked.out.live, st.mem.(status := Destroying), o);
  }

  lemma CloudTeardownIs()
    ensures CloudTeardown() == [Mark(Destroying)] + [Try(InitDestroy)] + [Try(DestroyTerraform)]
  {
  }

  lemma EffectsOfTeardown(live: Live, m: Metadata, o: Oracle)
    ensures After(live, InitDestroy, m, o) == live
    ensures After(live, DestroyTerraform, m, o) == Live(false, false, false, live.keys)
    ensures After(live, DeleteCluster, m, o) == live.(cluster := false)
    ensures After(live, DownStack, m, o) == live.(stack := false)
  {
  }

  lemma LocalTornDown(st: State, o: Oracle)
    ensures var (next, ok) := Run(st, LocalTeardown(st.mem), o);
      && next.mem == st.mem.(status := Destroying) && (st.folder.Some? ==> Synced(next))
      && (ok <==> AllWork((if st.mem.kind then [DeleteCluster] else []) + [DownStack], o))
      && (ok ==> next.out.live == st.out.live.(stack := false, cluster := st.out.live.cluster && !st.mem.kind))
      && next.out.live.keys == st.out.live.keys
      && next.out.log == st.out.log + UpToBreak((if st.mem.kind then [DeleteCluster] else []) + [DownStack], o.breaks)
  {
    hide *;
    var marked := Execute(st, Mark(Destroying), o).0;
    var clear := Execute(marked, Try(DeleteCluster), o).0;
    LocalTeardownIs(st.mem);
    RunThree(st, Mark(Destroying), Try(DeleteCluster), Try(DownStack), o);
    RunThree(st, Mark(Destroying), Try(DownStack), Try(DownStack), o);
    BothWork(DeleteCluster, DownStack, o);
    BothWork(DownStack, DownStack, o);
    UpToTwo(DeleteCluster, DownStack, o);
    UpToTwo(DownStack, DownStack, o);
    LogGrows(st.out.log, Attempted(DeleteCluster), Attempted(DownStack));
    MarkOnly(st, Destroying, o);
    TryOnly(marked, DeleteCluster, o);
    TryOnly(clear, DownStack, o);
    TryOnly(marked, DownStack, o);
    EffectsOfTeardown(marked.out.live, marked.mem, o);
    EffectsOfTeardown(clear.out.live, clear.mem, o);
  }

  lemma LocalTeardownIs(m: Metadata)
    ensures LocalTeardown(m)
         == if m.kind then [Mark(Destroying)] + [Try(DeleteCluster)] + [Try(DownStack)]
            else [Mark(Destroying)] + [Try(DownStack)]
    ensures (if m.kind then [DeleteCluster] else []) + [DownStack]
         == if m.kind then [DeleteCluster, DownStack] else [DownStack]
  {
  }

  lemma TornDown(reg: Registry, st: State, o: Oracle)
    ensures var (next, ok) := Run(st, Teardown(reg, st.mem), o);
      && next.mem == st.mem.(status := Destroying) && (st.folder.Some? ==> Synced(next))
      && (ok <==> AllWork(TeardownSteps(reg, st.mem), o))
      && (ok ==> next.out.live == Left(reg, st.mem, st.out.live))
      && next.out.live.keys == st.out.live.keys
      && next.out.log == st.out.log + UpToBreak(TeardownSteps(reg, st.mem), o.breaks)
  {
    hide Run, IsLocal, LocalTeardown, CloudTeardown, Synced;
    if IsLocal(reg, st.mem) {
      LocalTornDown(st, o);
    } else {
      CloudTornDown(st, o);
    }
  }

  lemma AllWorkBoth(a: seq<Step>, b: seq<Step>, o: Oracle)
    ensures AllWork(a + b, o) <==> AllWork(a, o) && AllWork(b, o)
  {
    assert forall k :: 0 <= k < |a| ==> (a + b)[k] == a[k];
    assert forall k :: 0 <= k < |b| ==> (a + b)[|a| + k] == b[k];
  }

  /** The keys an object records. */
  function Recorded(m: Metadata): set<string> {
    if m.aiKeyHash == "" then {} else {m.aiKeyHash}
  }

  /** The revoke is tried when a key is recorded and its provider known. */
  function RevokeSteps(reg: Registry, m: Metadata): seq<Step> {
    if m.aiKeyHash != "" && Role(m, "ai") in reg.ais then [RevokeKey] else []
  }

  lemma RevokedExactly(reg: Registry, st: State, o: Oracle)
    ensures var (next, gone) := Revoked(st, reg, o);
      && next.mem == st.mem && next.folder == st.folder
      && (gone <==> st.mem.aiKeyHash == "" || (Role(st.mem, "ai") in reg.ais && RevokeKey !in o.breaks))
      && (gone ==> next.out.live == st.out.live.(keys := st.out.live.keys - Recorded(st.mem)))
      && next.out.live == st.out.live.(keys := next.out.live.keys)
      && st.out.live.keys - Recorded(st.mem) <= next.out.live.keys <= st.out.live.keys
      && (RevokeSteps(reg, st.mem) != [] && RevokeKey !in o.breaks ==> st.mem.aiKeyHash !in next.out.live.keys)
      && next.out.log == st.out.log + UpToBreak(RevokeSteps(reg, st.mem), o.breaks)
  {
    UpToTwo(RevokeKey, RevokeKey, o);
    hide Role;
  }

  /** A release attempt, described completely.  It succeeds exactly when each of
      its steps works and a recorded key has a known provider.  Of the object it
      changes the status alone.  What survives a successful release are keys the
      object does not record and, locally, a cluster it does not know of. */
  lemma ReleasedExactly(reg: Registry, st: State, o: Oracle)
    requires st.folder.Some?
    ensures var (next, gone) := Released(st, reg, o);
      && next.mem == st.mem.(status := if gone then Destroying else FailedDestroy) && Synced(next)
      && (gone <==> AllWork(ReleaseSteps(reg, st.mem), o)
                    && (st.mem.aiKeyHash != "" ==> Role(st.mem, "ai") in reg.ais))
      && (gone ==> var left := Left(reg, st.mem, st.out.live);
            next.out.live == left.(keys := left.keys - Recorded(st.mem)))
  {
    var (down, ok) := Run(st, Teardown(reg, st.mem), o);
    TornDown(reg, st, o);
    RevokedExactly(reg, down, o);
    AllWorkBoth(TeardownSteps(reg, st.mem), if st.mem.aiKeyHash != "" then [RevokeKey] else [], o);
    SameRoles(reg, st.mem, down.mem);
    assert AllWork([RevokeKey], o) <==> [RevokeKey][0] !in o.breaks;
    assert AllWork([], o);
    hide Run, Teardown, TeardownSteps, AllWork, Left, Revoked, Role;
  }

  /** A release in order, whatever breaks.  What it does outside is, step by step and up
      to the first that breaks: for a VM terraform init and destroy, on this machine the
      cluster if there is one and the stack; and only then the key, if one is recorded
      and its provider known.  So once the teardown worked nothing but keys is left, even
      when the revoke failed; and until it has, every key is. */
  lemma ReleaseInOrder(reg: Registry, st: State, o: Oracle)
    ensures var next := Released(st, reg, o).0;
      var here := Role(st.mem, "vm") in reg.locals;
      var down := if !here then [InitDestroy, DestroyTerraform]
                  else if st.mem.kind then [DeleteCluster, DownStack] else [DownStack];
      var key := st.mem.aiKeyHash != "" && Role(st.mem, "ai") in reg.ais;
      && next.out.log == st.out.log + UpToBreak(down + (if key then [RevokeKey] else []), o.breaks)
      && ((forall s :: s in down ==> s !in o.breaks) ==>
            && next.out.live == Live(here && st.out.live.vm, here && !st.mem.kind && st.out.live.cluster,
                                     false, next.out.live.keys)
            && next.out.live.keys <= st.out.live.keys <= next.out.live.keys + {st.mem.aiKeyHash}
            && (key && RevokeKey !in o.breaks ==> st.mem.aiKeyHash !in next.out.live.keys))
      && ((exists s :: s in down && s in o.breaks) ==> next.out.live.keys == st.out.live.keys)
  {
    hide *;
    ReleasedInSteps(reg, st, o);
    ReleaseStepsAre(reg, st.mem);
    AllWorkIs(TeardownSteps(reg, st.mem), o);
    LeftIs(reg, st.mem, st.out.live);
    RecordedIs(st.mem);
  }

  lemma RecordedIs(m: Metadata)
    ensures Recorded(m) <= {m.aiKeyHash}
  {
  }

  lemma ReleasedInSteps(reg: Registry, st: State, o: Oracle)
    ensures var (out, steps) := (Released(st, reg, o).0.out, TeardownSteps(reg, st.mem));
      && out.log == st.out.log + UpToBreak(steps + RevokeSteps(reg, st.mem), o.breaks)
      && (AllWork(steps, o) ==>
            && out.live == Left(reg, st.mem, st.out.live).(keys := out.live.keys)
            && out.live.keys <= st.out.live.keys <= out.live.keys + Recorded(st.mem)
            && (RevokeSteps(reg, st.mem) != [] && RevokeKey !in o.breaks ==> st.mem.aiKeyHash !in out.live.keys))
      && (!AllWork(steps, o) ==> out.live.keys == st.out.live.keys)
  {
    hide *;
    var (down, ok) := Run(st, Teardown(reg, st.mem), o);
    var steps, revoke := TeardownSteps(reg, st.mem), RevokeSteps(reg, st.mem);
    ReleasedIs(reg, st, o);
    TornDown(reg, st, o);
    RevokedExactly(reg, down, o);
    SameRelease(reg, st.mem, down.mem);
    LeftKeeps(reg, st.mem, st.out.live);
    UpToBreakJoins(steps, revoke, o);
    Joined(st.out.log, UpToBreak(steps, o.breaks), UpToBreak(revoke, o.breaks));
  }

  lemma Joined(log: seq<Event>, a: seq<Event>, b: seq<Event>)
    ensures log + a + b == log + (a + b) && log + (a + []) == log + a
  {
  }

  lemma LeftKeeps(reg: Registry, m: Metadata, live: Live)
    ensures Left(reg, m, live).keys == live.keys
  {
    hide IsLocal;
  }

  lemma ReleasedIs(reg: Registry, st: State, o: Oracle)
    ensures var (down, ok) := Run(st, Teardown(reg, st.mem), o);
      var next := if ok then Revoked(down, reg, o).0 else down;
      Released(st, reg, o).0.out == next.out
  {
    var (down, ok) := Run(st, Teardown(reg, st.mem), o);
    MarkOnly(if ok then Revoked(down, reg, o).0 else down, FailedDestroy, o);
    hide Run, Teardown, Revoked, Execute;
  }

  lemma ReleaseStepsAre(reg: Registry, m: Metadata)
    ensures TeardownSteps(reg, m)
         == if Role(m, "vm") !in reg.locals then [InitDestroy, DestroyTerraform]
            else if m.kind then [DeleteCluster, DownStack] else [DownStack]
    ensures RevokeSteps(reg, m) == if m.aiKeyHash != "" && Role(m, "ai") in reg.ais then [RevokeKey] else []
  {
    hide Role;
  }

  lemma AllWorkIs(steps: seq<Step>, o: Oracle)
    ensures AllWork(steps, o) <==> forall s :: s in steps ==> s !in o.breaks
  {
  }

  lemma SameRelease(reg: Registry, a: Metadata, b: Metadata)
    requires b == a.(status := b.status)
    ensures RevokeSteps(reg, a) == RevokeSteps(reg, b) && Recorded(a) == Recorded(b) <= {a.aiKeyHash}
  {
    SameRoles(reg, a, b);
    hide Role;
  }

  lemma LeftIs(reg: Registry, m: Metadata, live: Live)
    ensures var here := Role(m, "vm") in reg.locals;
      Left(reg, m, live) == Live(here && live.vm, here && !m.kind && live.cluster, false, live.keys)
  {
    hide Role;
  }

  /** From every state a session can be in, loaded fresh, a successful release
      leaves nothing running. */
  lemma ReleaseLeavesNothing(reg: Registry, st: State, o: Oracle)
    requires st.folder.Some? && Held(reg, st.mem, st.out.live)
    ensures var (next, gone) := Released(st, reg, o);
      && (gone <==> AllWork(ReleaseSteps(reg, st.mem), o))
      && (gone ==> next.out.live == NOTHING)
  {
    hide Released, ReleaseSteps, AllWork, Role, IsLocal;
    ReleasedExactly(reg, st, o);
  }

  /** Whatever a failed attempt left behind, the next one starts from a
      consistent session: the object still accounts for everything running. */
  lemma FailedReleaseStaysConsistent(reg: Registry, st: State, o: Oracle)
    requires st.folder.Some? && Held(reg, st.mem, st.out.live)
    ensures var next := Released(st, reg, o).0; Held(reg, next.mem, next.out.live)
  {
    var m, k := st.mem, Known(false, true, true, st.mem.status);
    var (down, ok) := Run(st, Teardown(reg, m), o);
    TeardownReadsWell(reg, m, k, o);
    assert Fits(k, st);
    RunKeepsHeld(reg, m, st, Teardown(reg, m), k, o);
    RevokeKeepsHeld(reg, down, o);
    var next := if ok then Revoked(down, reg, o).0 else down;
    MarkKeeps(reg, next.mem, next, FailedDestroy, o);
    hide Run, Teardown, Held, Execute, Revoked, Judge, Fits, Synced;
  }

  lemma RevokeKeepsHeld(reg: Registry, st: State, o: Oracle)
    requires Held(reg, st.mem, st.out.live) && st.folder.Some?
    ensures var next := Revoked(st, reg, o).0; Held(reg, next.mem, next.out.live) && next.folder.Some?
  {
    hide IsLocal, Role;
  }

  lemma TeardownReadsWell(reg: Registry, m: Metadata, k: Known, o: Oracle)
    requires !k.up
    ensures Judge(reg, m, k, Teardown(reg, m), o).Some?
  {
    var next := k.(unsaved := false, status := Destroying);
    assert Read(reg, m, k, Mark(Destroying), o) == Some(next);
    assert forall s :: s in {InitDestroy, DestroyTerraform, DeleteCluster, DownStack}
                       ==> Read(reg, m, next, Try(s), o) == Some(next);
    if IsLocal(reg, m) {
      if m.kind {
        JudgeThree(reg, m, k, next, DeleteCluster, DownStack, o);
        assert [Mark(Destroying)] + [Try(DeleteCluster)] + [Try(DownStack)]
            == [Mark(Destroying), Try(DeleteCluster), Try(DownStack)];
      } else {
        JudgeTwo(reg, m, k, next, DownStack, o);
        assert [Mark(Destroying)] + [] + [Try(DownStack)] == [Mark(Destroying), Try(DownStack)];
      }
    } else {
      JudgeThree(reg, m, k, next, InitDestroy, DestroyTerraform, o);
    }
  }

  lemma JudgeTwo(reg: Registry, m: Metadata, k: Known, next: Known, s: Step, o: Oracle)
    requires Read(reg, m, k, Mark(Destroying), o) == Some(next) && Read(reg, m, next, Try(s), o) == Some(next)
    ensures Judge(reg, m, k, [Mark(Destroying), Try(s)], o) == Some(next)
  {
    hide Read;
    assert [Mark(Destroying), Try(s)][1..] == [Try(s)] && [Try(s)][1..] == [];
    assert Judge(reg, m, next, [Try(s)], o) == Some(next);
  }

  lemma JudgeThree(reg: Registry, m: Metadata, k: Known, next: Known, s: Step, t: Step, o: Oracle)
    requires Read(reg, m, k, Mark(Destroying), o) == Some(next)
    requires Read(reg, m, next, Try(s), o) == Some(next) && Read(reg, m, next, Try(t), o) == Some(next)
    ensures Judge(reg, m, k, [Mark(Destroying), Try(s), Try(t)], o) == Some(next)
  {
    JudgeTwo(reg, m, k, next, s, o);
    hide Read;
    JudgeConcat(reg, m, k, [Mark(Destroying), Try(s)], [Try(t)], o);
    assert [Mark(Destroying), Try(s)] + [Try(t)] == [Mark(Destroying), Try(s), Try(t)];
    assert [Try(t)][1..] == [];
    assert Judge(reg, m, next, [Try(t)], o) == Some(next);
  }

  /** A command of a teardown: the status it is marked with, or a step other than a mint. */
  predicate Releases(c: Command) {
    c == Mark(Destroying) || (c.Try? && c.step != MintKey)
  }

  lemma TeardownReleases(reg: Registry, m: Metadata)
    ensures Teardown(reg, m) != [] && Teardown(reg, m)[0] == Mark(Destroying)
    ensures forall k :: 0 <= k < |Teardown(reg, m)| ==> Releases(Teardown(reg, m)[k])
  {
    hide IsLocal;
  }

  lemma ReleaseKeepsRecord(st: State, c: Command, o: Oracle)
    requires Synced(st) && Releases(c)
    ensures var next := Execute(st, c, o).0;
      Synced(next) && next.mem == st.mem.(status := if c.Mark? then Destroying else st.mem.status)
  {
    hide After, AfterBreak;
  }

  lemma {:induction false} ReleasesKeepRecord(st: State, script: seq<Command>, o: Oracle)
    requires Synced(st) && forall k :: 0 <= k < |script| ==> Releases(script[k])
    ensures var next := Run(st, script, o).0;
      && Synced(next) && next.mem == st.mem.(status := next.mem.status)
      && (next.mem.status == Destroying
          || (next.mem.status == st.mem.status && (script == [] || script[0] != Mark(Destroying))))
    decreases |script|
  {
    hide Synced, Execute;
    if script != [] {
      ReleaseKeepsRecord(st, script[0], o);
      if Execute(st, script[0], o).1 {
        ReleasesKeepRecord(Execute(st, script[0], o).0, script[1..], o);
      }
    }
  }

  /** At every moment of every release, from a consistent session read afresh, the
      session still accounts for everything running and the metadata file says what
      the object says, the key's hash included: a process killed there leaves a
      session that another destroy can finish. */
  lemma EveryMomentOfARelease(reg: Registry, st: State, o: Oracle, n: nat)
    requires Synced(st) && Held(reg, st.mem, st.out.live) && n <= |Teardown(reg, st.mem)|
    ensures var next := Run(st, Teardown(reg, st.mem)[..n], o).0;
      && Held(reg, next.mem, next.out.live) && Synced(next)
      && next.mem == st.mem.(status := if n > 0 then Destroying else st.mem.status)
    ensures var down := Run(st, Teardown(reg, st.mem), o).0;
      var next := Revoked(down, reg, o).0;
      Held(reg, next.mem, next.out.live) && Synced(next) && next.mem == st.mem.(status := Destroying)
  {
    TeardownReleases(reg, st.mem);
    hide Run, Teardown, Held, Revoked;
    MomentOfTeardown(reg, st, o, n);
    MomentOfTeardown(reg, st, o, |Teardown(reg, st.mem)|);
    assert Teardown(reg, st.mem)[..|Teardown(reg, st.mem)|] == Teardown(reg, st.mem);
    var down := Run(st, Teardown(reg, st.mem), o).0;
    RevokeKeepsHeld(reg, down, o);
    RevokedExactly(reg, down, o);
  }

  lemma MomentOfTeardown(reg: Registry, st: State, o: Oracle, n: nat)
    requires Synced(st) && Held(reg, st.mem, st.out.live) && n <= |Teardown(reg, st.mem)|
    ensures var next := Run(st, Teardown(reg, st.mem)[..n], o).0;
      && Held(reg, next.mem, next.out.live) && Synced(next)
      && next.mem == st.mem.(status := if n > 0 then Destroying else st.mem.status)
  {
    var m, k, script := st.mem, Known(false, true, false, st.mem.status), Teardown(reg, st.mem)[..n];
    TeardownReleases(reg, m);
    ReleasesKeepRecord(st, script, o);
    TeardownReadsWell(reg, m, k, o);
    JudgePrefix(reg, m, k, Teardown(reg, m), n, o);
    assert Fits(k, st);
    hide Run, Teardown, Held, Judge, Fits, Synced, Releases;
    RunKeepsHeld(reg, m, st, script, k, o);
  }

  // ------------------------------------------------------- stale handles

  /** A handle loaded before the previous command finished: same identity as the
      metadata file, possibly without what was recorded since. */
  predicate Stale(handle: Metadata, saved: Metadata) {
    handle.roles == saved.roles && handle.slug == saved.slug
  }

  /** The handle records the live key and knows of a local cluster. */
  predicate AccountsFor(reg: Registry, handle: Metadata, live: Live) {
    live.keys <= {handle.aiKeyHash} && (IsLocal(reg, handle) && live.cluster ==> handle.kind)
  }

  /** A successful release through a stale handle leaves nothing running exactly
      when the handle accounts for what is live. */
  lemma StaleReleaseExactly(reg: Registry, st: State, saved: Metadata, o: Oracle)
    requires st.folder.Some? && Held(reg, saved, st.out.live) && Stale(st.mem, saved)
    ensures var (next, gone) := Released(st, reg, o);
      gone ==> (next.out.live == NOTHING <==> AccountsFor(reg, st.mem, st.out.live))
  {
    hide Released, ReleaseSteps, AllWork, Role, IsLocal;
    ReleasedExactly(reg, st, o);
    SameRoles(reg, st.mem, saved);
  }

  /** A handle that does not: destroy reads the session while a launch is still
      running, takes the lock after the key was minted, succeeds in every step, and
      the key stays live, recorded nowhere. */
  lemma StaleHandleLosesTheKey(reg: Registry, i: Inputs, slug: string, at: int, o: Oracle, d: Oracle)
    requires reg.Valid() && Offered(reg, i) && i.cloud && i.ai.Some? && o.hash != "" && o.breaks == {} && d.breaks == {}
    ensures var ready := Launched(Begun(i, slug, at), i, o).0;
      var stale := ready.(mem := Fresh(i, slug, at));
      var (next, gone) := Released(stale, reg, d);
      && gone && next.out.live.keys == {o.hash}
      && next.folder.Some? && next.folder.value.metadata.Some? && next.folder.value.metadata.value.aiKeyHash == ""
  {
    hide *;
    CleanLaunchMints(reg, i, slug, at, o);
    FreshIsCloud(reg, i, slug, at, d);
    var ready := Launched(Begun(i, slug, at), i, o).0;
    StaleCloudRelease(reg, ready.(mem := Fresh(i, slug, at)), d);
  }

  lemma FreshIsCloud(reg: Registry, i: Inputs, slug: string, at: int, d: Oracle)
    requires reg.Valid() && Offered(reg, i) && i.cloud && d.breaks == {}
    ensures var m := Fresh(i, slug, at);
      !IsLocal(reg, m) && m.aiKeyHash == "" && AllWork(ReleaseSteps(reg, m), d)
  {
    hide Fresh, Role, IsLocal, ReleaseSteps, Offered;
    FreshFacts(reg, i, slug, at);
  }

  /** Releasing a VM through an object that records no key keeps every key. */
  lemma StaleCloudRelease(reg: Registry, st: State, o: Oracle)
    requires st.folder.Some? && !IsLocal(reg, st.mem) && st.mem.aiKeyHash == ""
    requires AllWork(ReleaseSteps(reg, st.mem), o)
    ensures var (next, gone) := Released(st, reg, o);
      && gone && next.out.live.keys == st.out.live.keys
      && next.folder.Some? && next.folder.value.metadata.Some? && next.folder.value.metadata.value.aiKeyHash == ""
  {
    hide Released, Role, IsLocal, ReleaseSteps, AllWork;
    ReleasedExactly(reg, st, o);
  }

  lemma CleanLaunchMints(reg: Registry, i: Inputs, slug: string, at: int, o: Oracle)
    requires reg.Valid() && Offered(reg, i) && i.ai.Some? && o.hash != "" && o.breaks == {}
    ensures var (ready, ok) := Launched(Begun(i, slug, at), i, o);
      ok && ready.folder.Some? && ready.out.live.keys == {o.hash}
  {
    hide Launched, Begun, Plan, Timeline, Gate, Cut, Clean, Held, SameIdentity, Reported, Offered;
    LaunchOutcome(reg, i, slug, at, o);
    LaunchFollowsPlan(Begun(i, slug, at), i, o);
    NothingBreaks(Gate(i) + Timeline(Plan(i)), o);
  }

  lemma NothingBreaks(es: seq<Event>, o: Oracle)
    requires o.breaks == {}
    ensures Clean(es, o.breaks)
  {
  }
}
