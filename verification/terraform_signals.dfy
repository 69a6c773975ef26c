/** Whom the signals of a cancelled terraform run reach, and what is reported then. */
module TerraformSignals {
  import opened TerraformRunner

  // ------------------------------------------------- whom the signals reach

  predicate Signals(a: Action) {
    a == SendInt || a == SendKill
  }

  /** The child was waited for: its process id, and so its group, is no longer its own. */
  predicate WaitedFor(s: State) {
    s.waiter.Holding? || s.waiter == Finished
  }

  lemma WaitStep(s: State, a: Action)
    requires Inv(s) && Enabled(s, a)
    ensures WaitedFor(Next(s, a)) <==> WaitedFor(s) || a == WaitReturns
  {
  }

  lemma {:induction false} WaitedForAfter(s: State, acts: seq<Action>)
    requires Inv(s) && IsRun(s, acts)
    ensures WaitedFor(After(s, acts)) <==> WaitedFor(s) || WaitReturns in acts
    decreases |acts|
  {
    if acts != [] {
      InvStep(s, acts[0]);
      WaitStep(s, acts[0]);
      hide Inv, Enabled, Next, WaitedFor;
      WaitedForAfter(Next(s, acts[0]), acts[1..]);
      assert acts == [acts[0]] + acts[1..];
    }
  }

  /** A run up to action `j`, and the action. */
  lemma {:induction false} RunUpTo(s: State, acts: seq<Action>, j: nat)
    requires IsRun(s, acts) && j < |acts|
    ensures IsRun(s, acts[..j]) && Enabled(After(s, acts[..j]), acts[j])
    ensures IsRun(Next(After(s, acts[..j]), acts[j]), acts[j + 1..])
    ensures After(s, acts) == After(Next(After(s, acts[..j]), acts[j]), acts[j + 1..])
    decreases |acts|
  {
    hide Enabled, Next;
    if j > 0 {
      RunUpTo(Next(s, acts[0]), acts[1..], j - 1);
      assert acts[..j][1..] == acts[1..][..j - 1];
      assert acts[1..][j..] == acts[j + 1..];
    } else {
      assert acts[..0] == [];
    }
  }

  /** What no later step takes back: a signal that was sent, and a child that is gone. */
  lemma {:induction false} StaysDecided(s: State, acts: seq<Action>)
    requires Inv(s) && IsRun(s, acts)
    ensures var t := After(s, acts); s.sent <= t.sent && (s.child.Gone? ==> t.child == s.child)
    decreases |acts|
  {
    if acts != [] {
      InvStep(s, acts[0]);
      StaysDecidedStep(s, acts[0]);
      hide Inv, Enabled, Next;
      StaysDecided(Next(s, acts[0]), acts[1..]);
    }
  }

  lemma StaysDecidedStep(s: State, a: Action)
    requires Inv(s) && Enabled(s, a)
    ensures s.sent <= Next(s, a).sent && (s.child.Gone? ==> Next(s, a).child == s.child)
  {
  }

  /** The context is cancelled exactly once that happened. */
  lemma {:induction false} CancelledAfter(s: State, acts: seq<Action>)
    requires IsRun(s, acts)
    ensures After(s, acts).cancelled <==> s.cancelled || Cancel in acts
    decreases |acts|
  {
    if acts != [] {
      CancelledStep(s, acts[0]);
      hide Enabled, Next;
      CancelledAfter(Next(s, acts[0]), acts[1..]);
      assert acts == [acts[0]] + acts[1..];
    }
  }

  lemma CancelledStep(s: State, a: Action)
    requires Enabled(s, a)
    ensures Next(s, a).cancelled <==> s.cancelled || a == Cancel
  {
  }

  predicate Exited(acts: seq<Action>) {
    ChildExits(Clean) in acts || ChildExits(Broken) in acts
  }

  /** The child is gone exactly once it exited. */
  lemma {:induction false} GoneAfter(s: State, acts: seq<Action>)
    requires Inv(s) && IsRun(s, acts)
    ensures After(s, acts).child.Gone? <==> s.child.Gone? || Exited(acts)
    decreases |acts|
  {
    if acts != [] {
      InvStep(s, acts[0]);
      GoneStep(s, acts[0]);
      hide Inv, Enabled, Next;
      GoneAfter(Next(s, acts[0]), acts[1..]);
      assert acts == [acts[0]] + acts[1..];
    }
  }

  lemma GoneStep(s: State, a: Action)
    requires Inv(s) && Enabled(s, a)
    ensures Next(s, a).child.Gone? <==> s.child.Gone? || a == ChildExits(Clean) || a == ChildExits(Broken)
  {
    if a.ChildExits? {
      assert a.exit == Clean || a.exit == Broken;
    }
  }

  /** A signal of the run is among those sent at its end. */
  lemma SignalStays(acts: seq<Action>, j: nat)
    requires IsRun(INITIAL, acts) && j < |acts| && Signals(acts[j])
    ensures After(INITIAL, acts).sent != []
  {
    RunUpTo(INITIAL, acts, j);
    var s := After(INITIAL, acts[..j]);
    InvRun(INITIAL, acts[..j]);
    InvStep(s, acts[j]);
    SignalIsSent(s, acts[j]);
    StaysDecided(Next(s, acts[j]), acts[j + 1..]);
    hide *;
  }

  /** The caller has decided, and sends nothing more. */
  predicate Decided(s: State, r: Result, sent: seq<Signal>) {
    (s.main == Returning(r) || s.main == Returned(r)) && s.sent == sent
  }

  lemma {:induction false} DecisionStays(s: State, acts: seq<Action>, r: Result, sent: seq<Signal>)
    requires IsRun(s, acts) && Decided(s, r, sent)
    ensures Decided(After(s, acts), r, sent)
    decreases |acts|
  {
    if acts != [] {
      DecisionStep(s, acts[0], r, sent);
      hide Enabled, Next, Decided;
      DecisionStays(Next(s, acts[0]), acts[1..], r, sent);
    }
  }

  lemma DecisionStep(s: State, a: Action, r: Result, sent: seq<Signal>)
    requires Enabled(s, a) && Decided(s, r, sent)
    ensures Decided(Next(s, a), r, sent)
  {
  }

  /** Without a cancellation before the exit status is taken, no signal is sent in the
      whole run, and the caller reports how the child ended by itself. */
  lemma NoSignalWithoutCancel(acts: seq<Action>, k: nat)
    requires IsRun(INITIAL, acts) && k < |acts| && Receives(acts[k]) && Cancel !in acts[..k]
    ensures forall j :: 0 <= j < |acts| ==> !Signals(acts[j])
    ensures var end := After(INITIAL, acts);
      end.child.Gone? && Decided(end, FromChild(end.child.exit), [])
  {
    RunUpTo(INITIAL, acts, k);
    var s := After(INITIAL, acts[..k]);
    InvRun(INITIAL, acts[..k]);
    CancelledAfter(INITIAL, acts[..k]);
    TakenFromChild(s, acts[k]);
    var next := Next(s, acts[k]);
    InvStep(s, acts[k]);
    StaysDecided(next, acts[k + 1..]);
    assert !INITIAL.cancelled;
    hide *;
    DecisionStays(next, acts[k + 1..], FromChild(s.child.exit), []);
    NothingSent(acts, FromChild(s.child.exit));
  }

  lemma TakenFromChild(s: State, a: Action)
    requires Inv(s) && Enabled(s, a) && Receives(a) && !s.cancelled
    ensures s.child.Gone? && Next(s, a).child == s.child && Decided(Next(s, a), FromChild(s.child.exit), [])
  {
    WaitIsOver(s, a);
  }

  lemma NothingSent(acts: seq<Action>, r: Result)
    requires IsRun(INITIAL, acts) && Decided(After(INITIAL, acts), r, [])
    ensures forall j :: 0 <= j < |acts| ==> !Signals(acts[j])
  {
    hide IsRun, After, INITIAL, Signals;
    forall j | 0 <= j < |acts| ensures !Signals(acts[j]) {
      if Signals(acts[j]) {
        SignalStays(acts, j);
      }
    }
  }

  /** Whom a signal of a run reaches.  Before the child exits, the child.  After that
      the caller reports the cancelled context though it receives the child's status.
      An interrupt is the first signal, so a child gone before it ended by itself; a
      kill follows an interrupt, which may be what the child ended of. */
  lemma WhomASignalReaches(acts: seq<Action>, j: nat)
    requires IsRun(INITIAL, acts) && j < |acts| && Signals(acts[j])
    ensures IsRun(INITIAL, acts[..j])
    ensures var s, end := After(INITIAL, acts[..j]), After(INITIAL, acts);
      && (if Exited(acts[..j]) then s.child.Gone? else s.child == Running && !WaitedFor(s))
      && (s.child.Gone? ==> end.child == s.child)
      && (end.main.Returned? && s.child.Gone? ==> end.main.result == ContextError && end.received == [s.child.exit])
    ensures acts[j] == SendInt ==> forall i :: 0 <= i < j ==> !Signals(acts[i])
    ensures acts[j] == SendKill ==> exists i :: 0 <= i < j && acts[i] == SendInt
  {
    RunUpTo(INITIAL, acts, j);
    var s := After(INITIAL, acts[..j]);
    InvRun(INITIAL, acts[..j]);
    GoneAfter(INITIAL, acts[..j]);
    InvStep(s, acts[j]);
    SignalIsSent(s, acts[j]);
    StaysDecided(Next(s, acts[j]), acts[j + 1..]);
    EveryInterleaving(acts);
    OrderOfSignals(acts[..j], acts[j]);
    assert !INITIAL.child.Gone?;
    hide *;
    assert forall i :: 0 <= i < j ==> acts[..j][i] == acts[i];
  }

  /** Of the signals before a next one. */
  lemma OrderOfSignals(acts: seq<Action>, a: Action)
    requires IsRun(INITIAL, acts) && Enabled(After(INITIAL, acts), a) && Signals(a)
    ensures a == SendInt ==> forall i :: 0 <= i < |acts| ==> !Signals(acts[i])
    ensures a == SendKill ==> exists i :: 0 <= i < |acts| && acts[i] == SendInt
  {
    InvRun(INITIAL, acts);
    var s := After(INITIAL, acts);
    assert a == SendInt ==> s.sent == [];
    assert a == SendKill ==> s.sent == [SigInt];
    assert INITIAL.sent == [];
    hide IsRun, After, INITIAL, Signals, Inv, Enabled;
    if a == SendKill {
      InterruptIsThere(INITIAL, acts);
    }
    forall i | 0 <= i < |acts| ensures a == SendInt ==> !Signals(acts[i]) {
      if Signals(acts[i]) {
        SignalStays(acts, i);
      }
    }
  }

  lemma {:induction false} InterruptIsThere(s: State, acts: seq<Action>)
    requires IsRun(s, acts) && SigInt !in s.sent && SigInt in After(s, acts).sent
    ensures exists i :: 0 <= i < |acts| && acts[i] == SendInt
    decreases |acts|
  {
    InterruptStep(s, acts[0]);
    hide Enabled, Next;
    if acts[0] != SendInt {
      InterruptIsThere(Next(s, acts[0]), acts[1..]);
      var i :| 0 <= i < |acts[1..]| && acts[1..][i] == SendInt;
      assert acts[i + 1] == SendInt;
    }
  }

  lemma InterruptStep(s: State, a: Action)
    requires Enabled(s, a) && SigInt !in s.sent
    ensures a != SendInt ==> SigInt !in Next(s, a).sent
  {
  }

  // ---------------------------------------------- when a signal may be stray

  ghost predicate ProgramOnly(acts: seq<Action>) {
    forall j :: 0 <= j < |acts| ==> acts[j].IsProgram()
  }

  /** With no help from outside, the program can come to send `a` to a group whose
      leader was already waited for. */
  ghost predicate CanStray(s: State, a: Action) {
    exists more: seq<Action> :: ProgramOnly(more) && StraysAfter(s, more, a)
  }

  ghost predicate StraysAfter(s: State, more: seq<Action>, a: Action) {
    IsRun(s, more) && Enabled(After(s, more), a) && WaitedFor(After(s, more))
  }

  /** The child is gone while the caller is about to send `a`, or free to decide so. */
  predicate Late(s: State, a: Action) {
    s.child.Gone? &&
    (if a == SendInt then s.main == Interrupting || (s.main == Selecting && s.cancelled)
     else s.main == Killing || (s.main == Grace && s.timer))
  }

  /** The timer runs in the grace period only. */
  predicate TimerInGrace(s: State) {
    s.timer ==> s.main !in {Opening, Starting, Selecting, Interrupting}
  }

  lemma TimerStep(s: State, a: Action)
    requires TimerInGrace(s) && Enabled(s, a)
    ensures TimerInGrace(Next(s, a))
  {
  }

  lemma {:induction false} TimerRun(s: State, acts: seq<Action>)
    requires TimerInGrace(s) && IsRun(s, acts)
    ensures TimerInGrace(After(s, acts))
    decreases |acts|
  {
    if acts != [] {
      TimerStep(s, acts[0]);
      hide Enabled, Next, TimerInGrace;
      TimerRun(Next(s, acts[0]), acts[1..]);
    }
  }

  lemma LateBefore(s: State, a: Action, step: Action)
    requires Inv(s) && TimerInGrace(s) && Enabled(s, step) && step.IsProgram() && Signals(a) && Late(Next(s, step), a)
    ensures Late(s, a)
  {
  }

  lemma LateNow(s: State, a: Action)
    requires Inv(s) && Enabled(s, a) && Signals(a) && WaitedFor(s)
    ensures Late(s, a)
  {
  }

  lemma {:induction false} StrayMeansLate(s: State, more: seq<Action>, a: Action)
    requires Inv(s) && TimerInGrace(s) && Signals(a) && ProgramOnly(more) && StraysAfter(s, more, a)
    ensures Late(s, a)
    decreases |more|
  {
    if more == [] {
      LateNow(s, a);
    } else {
      InvStep(s, more[0]);
      TimerStep(s, more[0]);
      hide Inv, TimerInGrace, Enabled, Next, WaitedFor, Late, Signals;
      StrayMeansLate(Next(s, more[0]), more[1..], a);
      LateBefore(s, a, more[0]);
    }
  }

  lemma OneMoreStep(s: State, acts: seq<Action>, a: Action)
    requires IsRun(s, acts) && Enabled(After(s, acts), a)
    ensures IsRun(s, acts + [a]) && After(s, acts + [a]) == Next(After(s, acts), a)
  {
    OneStepFirst(After(s, acts), a, Next(After(s, acts), a), []);
    assert [a] + [] == [a];
    hide Enabled, Next;
    RunsJoin(s, acts, [a]);
  }

  /** From where the caller may decide so, the steps up to the signal. */
  lemma StrayAhead(s: State, a: Action) returns (more: seq<Action>)
    requires Inv(s) && Signals(a) && Late(s, a)
    ensures ProgramOnly(more) && StraysAfter(s, more, a) && Inv(After(s, more))
  {
    more := [];
    if s.waiter == Waiting {
      OneMoreStep(s, more, WaitReturns);
      more := more + [WaitReturns];
    }
    assert WaitedFor(After(s, more)) && Late(After(s, more), a);
    if s.main == Selecting {
      OneMoreStep(s, more, SelectCancelled);
      more := more + [SelectCancelled];
    } else if s.main == Grace {
      OneMoreStep(s, more, GraceTimeout);
      more := more + [GraceTimeout];
    }
    InvRun(s, more);
  }

  /** The rest of the run, once the signal is sent. */
  lemma ToTheEnd(s: State) returns (more: seq<Action>)
    requires Inv(s) && WaitedFor(s) && (s.main == Grace || s.main == Draining)
    ensures ProgramOnly(more) && IsRun(s, more)
    ensures After(s, more).main == Returned(ContextError)
  {
    more := [];
    if s.waiter.Holding? {
      OneMoreStep(s, more, WaiterSends);
      more := more + [WaiterSends];
    }
    var take := if s.main == Grace then GraceDone else Drain;
    OneMoreStep(s, more, take);
    more := more + [take];
    OneMoreStep(s, more, Return);
    more := more + [Return];
  }

  /** After any run, the program alone may send a stray interrupt exactly when the child
      is gone and the context cancelled with the caller still at its select, or past it;
      and a stray kill exactly when the child is gone and the timer has fired with the
      caller still in its grace period, or past it. */
  lemma StraySignalsExactly(acts: seq<Action>)
    requires IsRun(INITIAL, acts)
    ensures var s := After(INITIAL, acts);
      && (CanStray(s, SendInt) <==>
            s.child.Gone? && (s.main == Interrupting || (s.main == Selecting && s.cancelled)))
      && (CanStray(s, SendKill) <==>
            s.child.Gone? && (s.main == Killing || (s.main == Grace && s.timer)))
  {
    hide IsRun, After, Inv;
    CanStrayIsLate(acts, SendInt);
    CanStrayIsLate(acts, SendKill);
  }

  lemma CanStrayIsLate(acts: seq<Action>, a: Action)
    requires IsRun(INITIAL, acts) && Signals(a)
    ensures CanStray(After(INITIAL, acts), a) <==> Late(After(INITIAL, acts), a)
  {
    var s := After(INITIAL, acts);
    InvRun(INITIAL, acts);
    TimerRun(INITIAL, acts);
    hide IsRun, After, Inv, INITIAL, Late, TimerInGrace, StraysAfter, ProgramOnly, Signals;
    if CanStray(s, a) {
      var more :| ProgramOnly(more) && StraysAfter(s, more, a);
      StrayMeansLate(s, more, a);
    }
    if Late(s, a) {
      var more := StrayAhead(s, a);
      assert ProgramOnly(more) && StraysAfter(s, more, a);
    }
  }

  /** And then it may go on to the end, and report the cancelled context. */
  lemma StrayRunEnds(acts: seq<Action>, a: Action) returns (before: seq<Action>, after: seq<Action>)
    requires IsRun(INITIAL, acts) && Signals(a) && Late(After(INITIAL, acts), a)
    ensures ProgramOnly(before) && ProgramOnly(after)
    ensures IsRun(INITIAL, acts + before) && WaitedFor(After(INITIAL, acts + before))
    ensures IsRun(INITIAL, acts + before + [a] + after)
    ensures After(INITIAL, acts + before + [a] + after).main == Returned(ContextError)
  {
    var s := After(INITIAL, acts);
    InvRun(INITIAL, acts);
    before := StrayAhead(s, a);
    var t := After(s, before);
    InvStep(t, a);
    SignalSent(t, a);
    after := ToTheEnd(Next(t, a));
    hide *;
    StraysAfterIs(s, before, a);
    RunsJoin(INITIAL, acts, before);
    OneMoreStep(INITIAL, acts + before, a);
    RunsJoin(INITIAL, acts + before + [a], after);
  }

  lemma StraysAfterIs(s: State, more: seq<Action>, a: Action)
    requires StraysAfter(s, more, a)
    ensures IsRun(s, more) && Enabled(After(s, more), a) && WaitedFor(After(s, more))
  {
  }

  lemma SignalSent(s: State, a: Action)
    requires Inv(s) && Enabled(s, a) && Signals(a) && WaitedFor(s)
    ensures WaitedFor(Next(s, a)) && (Next(s, a).main == Grace || Next(s, a).main == Draining)
  {
  }

  /** A child that ends of the interrupt may still be killed late: once it was
      interrupted, any exit and the timer leave the program free to send a stray kill. */
  lemma KilledAfterInterrupt(acts: seq<Action>, exit: Exit) returns (more: seq<Action>)
    requires IsRun(INITIAL, acts) && After(INITIAL, acts).main == Grace && After(INITIAL, acts).child == Running
    ensures IsRun(INITIAL, acts + more) && CanStray(After(INITIAL, acts + more), SendKill)
    ensures After(INITIAL, acts + more).child == Gone(exit) && After(INITIAL, acts + more).sent == [SigInt]
  {
    var s := After(INITIAL, acts);
    OneMoreStep(INITIAL, acts, ChildExits(exit));
    more := [ChildExits(exit)];
    if !s.timer {
      OneMoreStep(INITIAL, acts + more, TimerFires);
      assert acts + more + [TimerFires] == acts + (more + [TimerFires]);
      more := more + [TimerFires];
    }
    InvRun(INITIAL, acts + more);
    assert Late(After(INITIAL, acts + more), SendKill);
    hide IsRun, After, Late;
    CanStrayIsLate(acts + more, SendKill);
  }

  lemma SignalIsSent(s: State, a: Action)
    requires Inv(s) && Enabled(s, a) && Signals(a)
    ensures Next(s, a).sent != [] && Next(s, a).child == s.child && s.child != NotStarted
    ensures !WaitedFor(s) ==> s.waiter == Waiting
    ensures WaitedFor(s) ==> s.child.Gone?
  {
  }

  lemma OneStepFirst(s: State, a: Action, next: State, rest: seq<Action>)
    requires Enabled(s, a) && Next(s, a) == next && IsRun(next, rest)
    ensures IsRun(s, [a] + rest) && After(s, [a] + rest) == After(next, rest)
  {
    assert ([a] + rest)[1..] == rest;
  }

  /** The child ends, and is waited for, before the cancellation comes. */
  const EARLY_EXIT := [OpenLog(true)] + ([Start(true)] + ([ChildExits(Clean)] + ([WaitReturns] + ([WaiterSends] + [Cancel]))))

  /** The caller takes the cancellation all the same. */
  const LATE_CANCEL := [SelectCancelled] + ([SendInt] + ([GraceDone] + [Return]))

  /** Both ready for the select: the exit status and the cancellation. */
  const BOTH_READY := State(Selecting, Finished, Gone(Clean), true, false, [Clean], [], [], Open)

  lemma EarlyExitRuns()
    ensures IsRun(INITIAL, EARLY_EXIT) && After(INITIAL, EARLY_EXIT) == BOTH_READY
  {
    var s1 := INITIAL.(main := Starting, log := Open);
    var s2 := s1.(main := Selecting, waiter := Waiting, child := Running);
    var s3 := s2.(child := Gone(Clean));
    var s4 := s3.(waiter := Holding(Clean));
    var s5 := s4.(waiter := Finished, done := [Clean]);
    OneStepFirst(s5, Cancel, BOTH_READY, []);
    assert [Cancel] + [] == [Cancel] && [] + [Clean] == [Clean];
    hide IsRun, After;
    OneStepFirst(s4, WaiterSends, s5, [Cancel]);
    OneStepFirst(s3, WaitReturns, s4, [WaiterSends] + [Cancel]);
    OneStepFirst(s2, ChildExits(Clean), s3, [WaitReturns] + ([WaiterSends] + [Cancel]));
    OneStepFirst(s1, Start(true), s2, [ChildExits(Clean)] + ([WaitReturns] + ([WaiterSends] + [Cancel])));
    OneStepFirst(INITIAL, OpenLog(true), s1,
                 [Start(true)] + ([ChildExits(Clean)] + ([WaitReturns] + ([WaiterSends] + [Cancel]))));
  }

  lemma LateCancelRuns()
    ensures IsRun(BOTH_READY, LATE_CANCEL)
    ensures After(BOTH_READY, LATE_CANCEL)
         == State(Returned(ContextError), Finished, Gone(Clean), true, false, [], [Clean], [SigInt], Closed)
  {
    var s1 := BOTH_READY.(main := Interrupting);
    var s2 := s1.(main := Grace, sent := [SigInt]);
    var s3 := s2.(main := Returning(ContextError), done := [], received := [Clean]);
    var s4 := s3.(main := Returned(ContextError), log := Closed);
    assert [Clean][1..] == [] && [] + [Clean] == [Clean] && [] + [SigInt] == [SigInt];
    OneStepFirst(s3, Return, s4, []);
    assert [Return] + [] == [Return];
    hide IsRun, After;
    OneStepFirst(s2, GraceDone, s3, [Return]);
    OneStepFirst(s1, SendInt, s2, [GraceDone] + [Return]);
    OneStepFirst(BOTH_READY, SelectCancelled, s1, [SendInt] + ([GraceDone] + [Return]));
  }

  lemma {:induction false} RunsJoin(s: State, a: seq<Action>, b: seq<Action>)
    requires IsRun(s, a) && IsRun(After(s, a), b)
    ensures IsRun(s, a + b) && After(s, a + b) == After(After(s, a), b)
    decreases |a|
  {
    hide Enabled, Next;
    if a == [] {
      assert a + b == b;
    } else {
      RunsJoin(Next(s, a[0]), a[1..], b);
      OneStepFirst(s, a[0], Next(s, a[0]), a[1..] + b);
      assert [a[0]] + (a[1..] + b) == a + b;
    }
  }

  lemma InterruptIsLate()
    ensures |EARLY_EXIT| == 6 && (EARLY_EXIT + LATE_CANCEL)[7] == SendInt
    ensures WaitReturns in (EARLY_EXIT + LATE_CANCEL)[..7]
  {
    assert (EARLY_EXIT + LATE_CANCEL)[..7][3] == WaitReturns;
  }

  /** It happens: with the exit status and the cancellation both there, the select may
      take the cancellation.  The interrupt is stray, and a clean exit is reported as a
      cancelled context. */
  lemma LateCancelIsStray()
    ensures var acts := EARLY_EXIT + LATE_CANCEL;
      && IsRun(INITIAL, acts) && |acts| == 10 && acts[7] == SendInt && WaitReturns in acts[..7]
      && After(INITIAL, acts).main == Returned(ContextError)
      && After(INITIAL, acts).received == [Clean] && After(INITIAL, acts).sent == [SigInt]
  {
    InterruptIsLate();
    EarlyExitRuns();
    LateCancelRuns();
    assert |LATE_CANCEL| == 4;
    hide IsRun, After, INITIAL, EARLY_EXIT, LATE_CANCEL, BOTH_READY;
    RunsJoin(INITIAL, EARLY_EXIT, LATE_CANCEL);
  }
}
