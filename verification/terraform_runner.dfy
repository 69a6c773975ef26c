/** One run of a terraform child process: the calling goroutine, the waiter
    goroutine, the child's process group, the cancelled context and the grace
    timer, as a state machine whose steps may interleave in any order. */
module TerraformRunner {

  datatype Signal = SigInt | SigKill

  /** What the child's wait yields: a clean exit or an error. */
  datatype Exit = Clean | Broken

  datatype Result = LogError | StartError | FromChild(exit: Exit) | ContextError

  /** Where the calling goroutine stands. */
  datatype Main =
    | Opening             // open the log file
    | Starting            // start the child
    | Selecting           // select on done and ctx.Done
    | Interrupting        // about to send SIGINT
    | Grace               // select on done and the timer
    | Killing             // about to send SIGKILL
    | Draining            // receive from done
    | Returning(result: Result)
    | Returned(result: Result)

  /** Where the waiter goroutine stands. */
  datatype Waiter = Absent | Waiting | Holding(exit: Exit) | Finished

  datatype Child = NotStarted | Running | Gone(exit: Exit)

  datatype Log = Unopened | Open | Closed

  /** `done` is the channel's buffer, of capacity one; `received` lists what
      the caller took from it and `sent` the signals it sent. */
  datatype State = State(main: Main, waiter: Waiter, child: Child, cancelled: bool, timer: bool,
                         done: seq<Exit>, received: seq<Exit>, sent: seq<Signal>, log: Log)

  const CAPACITY := 1

  const INITIAL := State(Opening, Absent, NotStarted, false, false, [], [], [], Unopened)

  datatype Action =
    // the environment
    | ChildExits(exit: Exit) | Cancel | TimerFires
    // the calling goroutine
    | OpenLog(ok: bool) | Start(ok: bool)
    | SelectDone | SelectCancelled | SendInt
    | GraceDone | GraceTimeout | SendKill | Drain | Return
    // the waiter goroutine
    | WaitReturns | WaiterSends
  {
    predicate IsProgram() {
      !ChildExits? && !Cancel? && !TimerFires?
    }
  }

  predicate Enabled(s: State, a: Action) {
    match a
    case ChildExits(_) => s.child == Running
    case Cancel => !s.cancelled
    case TimerFires => s.main == Grace && !s.timer
    case OpenLog(_) => s.main == Opening
    case Start(_) => s.main == Starting
    case SelectDone => s.main == Selecting && s.done != []
    case SelectCancelled => s.main == Selecting && s.cancelled
    case SendInt => s.main == Interrupting
    case GraceDone => s.main == Grace && s.done != []
    case GraceTimeout => s.main == Grace && s.timer
    case SendKill => s.main == Killing
    case Drain => s.main == Draining && s.done != []
    case Return => s.main.Returning?
    case WaitReturns => s.waiter == Waiting && s.child.Gone?
    case WaiterSends => s.waiter.Holding? && |s.done| < CAPACITY
  }

  function Take(s: State, main: Main): State
    requires s.done != []
  {
    s.(main := main, done := s.done[1..], received := s.received + [s.done[0]])
  }

  function Next(s: State, a: Action): State
    requires Enabled(s, a)
  {
    match a
    case ChildExits(exit) => s.(child := Gone(exit))
    case Cancel => s.(cancelled := true)
    case TimerFires => s.(timer := true)
    case OpenLog(ok) =>
      if ok then s.(main := Starting, log := Open) else s.(main := Returning(LogError))
    case Start(ok) =>
      if ok then s.(main := Selecting, waiter := Waiting, child := Running)
      else s.(main := Returning(StartError))
    case SelectDone => Take(s, Returning(FromChild(s.done[0])))
    case SelectCancelled => s.(main := Interrupting)
    case SendInt => s.(main := Grace, sent := s.sent + [SigInt])
    case GraceDone => Take(s, Returning(ContextError))
    case GraceTimeout => s.(main := Killing)
    case SendKill => s.(main := Draining, sent := s.sent + [SigKill])
    case Drain => Take(s, Returning(ContextError))
    case Return => s.(main := Returned(s.main.result), log := if s.log == Open then Closed else s.log)
    case WaitReturns => s.(waiter := Holding(s.child.exit))
    case WaiterSends => s.(waiter := Finished, done := s.done + [s.waiter.exit])
  }

  ghost predicate IsRun(s: State, acts: seq<Action>)
    decreases |acts|
  {
    acts == [] || (Enabled(s, acts[0]) && IsRun(Next(s, acts[0]), acts[1..]))
  }

  ghost function After(s: State, acts: seq<Action>): State
    requires IsRun(s, acts)
    decreases |acts|
  {
    if acts == [] then s else After(Next(s, acts[0]), acts[1..])
  }

  /** What every interleaving keeps. */
  ghost predicate Inv(s: State) {
    // the exit status travels child, waiter, channel, caller, once and unchanged
    && |s.done| + |s.received| == (if s.waiter == Finished then 1 else 0)
    && (s.waiter.Holding? ==> s.child == Gone(s.waiter.exit))
    && (s.waiter == Finished ==> s.child.Gone? && s.done + s.received == [s.child.exit])
    && (s.waiter == Absent <==> s.child == NotStarted)
    // the caller
    && (match s.main
        case Opening => s.child == NotStarted && s.sent == [] && s.log == Unopened
        case Starting => s.child == NotStarted && s.sent == [] && s.log == Open
        case Selecting => s.child != NotStarted && s.received == [] && s.sent == [] && s.log == Open
        case Interrupting =>
          s.child != NotStarted && s.received == [] && s.sent == [] && s.cancelled && s.log == Open
        case Grace =>
          s.child != NotStarted && s.received == [] && s.sent == [SigInt] && s.cancelled && s.log == Open
        case Killing =>
          && s.child != NotStarted && s.received == [] && s.sent == [SigInt]
          && s.cancelled && s.timer && s.log == Open
        case Draining =>
          && s.child != NotStarted && s.received == [] && s.sent == [SigInt, SigKill]
          && s.cancelled && s.timer && s.log == Open
        case Returning(r) => Outcome(s, r) && s.log == (if r == LogError then Unopened else Open)
        case Returned(r) => Outcome(s, r) && s.log == (if r == LogError then Unopened else Closed))
  }

  /** What is known when the caller has decided on `r`. */
  ghost predicate Outcome(s: State, r: Result) {
    match r
    case LogError => s.child == NotStarted && s.sent == []
    case StartError => s.child == NotStarted && s.sent == []
    case FromChild(exit) => s.sent == [] && s.received == [exit] && s.child == Gone(exit)
    case ContextError =>
      && s.cancelled && s.child.Gone? && s.received == [s.child.exit]
      && (s.sent == [SigInt] || (s.sent == [SigInt, SigKill] && s.timer))
  }

  /** Actions that take the exit status out of the channel. */
  predicate Receives(a: Action) {
    a == SelectDone || a == GraceDone || a == Drain
  }

  lemma InvReceive(s: State, a: Action)
    requires Inv(s) && Enabled(s, a) && Receives(a)
    ensures Inv(Next(s, a))
  {
    WaitIsOver(s, a);
    TakesAll(s.done);
    hide Inv;
    assert Next(s, a).done == [] && Next(s, a).received == [s.child.exit];
    ReceivedAll(s, a);
  }

  lemma TakesAll(done: seq<Exit>)
    requires |done| == 1
    ensures done[1..] == [] && [] + [done[0]] == done
  {
  }

  /** When the caller can receive, the status of the child is all there is. */
  lemma WaitIsOver(s: State, a: Action)
    requires Inv(s) && Enabled(s, a) && Receives(a)
    ensures s.waiter == Finished && s.child.Gone? && s.done == [s.child.exit] && s.received == []
  {
    assert |s.done| == 1 && s.received == [];
    assert s.done + s.received == s.done;
  }

  lemma ReceivedAll(s: State, a: Action)
    requires Inv(s) && Enabled(s, a) && Receives(a) && s.waiter == Finished && s.child.Gone?
    requires Next(s, a).done == [] && Next(s, a).received == [s.child.exit] && s.done[0] == s.child.exit
    ensures Inv(Next(s, a))
  {
  }

  /** Actions of the waiter goroutine. */
  predicate Waits(a: Action) {
    a == WaitReturns || a == WaiterSends
  }

  lemma InvWait(s: State, a: Action)
    requires Inv(s) && Enabled(s, a) && Waits(a)
    ensures Inv(Next(s, a))
  {
    assert s.done == [] && s.received == [];
  }

  lemma InvEnvironment(s: State, a: Action)
    requires Inv(s) && Enabled(s, a) && !a.IsProgram()
    ensures Inv(Next(s, a))
  {
  }

  lemma InvCaller(s: State, a: Action)
    requires Inv(s) && Enabled(s, a) && a.IsProgram() && !Waits(a) && !Receives(a)
    ensures Inv(Next(s, a))
  {
  }

  lemma InvStep(s: State, a: Action)
    requires Inv(s) && Enabled(s, a)
    ensures Inv(Next(s, a))
  {
    hide Inv, Enabled, Next;
    if Receives(a) {
      InvReceive(s, a);
    } else if Waits(a) {
      InvWait(s, a);
    } else if a.IsProgram() {
      InvCaller(s, a);
    } else {
      InvEnvironment(s, a);
    }
  }

  lemma {:induction false} InvRun(s: State, acts: seq<Action>)
    requires Inv(s) && IsRun(s, acts)
    ensures Inv(After(s, acts))
    decreases |acts|
  {
    if acts != [] {
      InvStep(s, acts[0]);
      InvRun(Next(s, acts[0]), acts[1..]);
    }
  }

  /** In every interleaving: once the child has started, the caller returns
      only after the wait completed and its status was received exactly once;
      it closes the log only then; SIGKILL only ever follows SIGINT and a
      timeout; and it reports the child's own status exactly when it sent no
      signal. */
  lemma EveryInterleaving(acts: seq<Action>)
    requires IsRun(INITIAL, acts)
    ensures var s := After(INITIAL, acts);
      && (s.main.Returned? && s.child != NotStarted ==>
            s.waiter == Finished && s.child.Gone? && s.received == [s.child.exit] && s.done == [])
      && (s.log == Closed ==> s.main.Returned?)
      && (s.main.Returned? ==> s.log != Open)
      && (SigKill in s.sent ==> s.sent == [SigInt, SigKill] && s.timer && s.cancelled)
      && (s.sent != [] ==> s.sent[0] == SigInt && s.cancelled)
      && (s.main.Returned? && s.child != NotStarted ==>
            (s.main.result == if s.sent == [] then FromChild(s.child.exit) else ContextError))
  {
    InvRun(INITIAL, acts);
  }

  /** The waiter goroutine is never stuck on a full channel. */
  lemma WaiterNeverBlocks(acts: seq<Action>)
    requires IsRun(INITIAL, acts)
    ensures var s := After(INITIAL, acts);
            s.waiter.Holding? ==> Enabled(s, WaiterSends)
  {
    InvRun(INITIAL, acts);
  }

  /** The calling goroutine and the waiter can both not move in exactly these
      states: everything is over, or the live child has to act first. */
  ghost predicate Resting(s: State) {
    || (s.main.Returned? && (s.waiter == Absent || s.waiter == Finished))
    || (s.child == Running && (|| (s.main == Selecting && !s.cancelled)
                               || (s.main == Grace && !s.timer)
                               || s.main == Draining))
  }

  ghost predicate Stuck(s: State) {
    forall a: Action :: a.IsProgram() ==> !Enabled(s, a)
  }

  lemma RestingIsStuck(s: State, a: Action)
    requires Inv(s) && Resting(s) && a.IsProgram()
    ensures !Enabled(s, a)
  {
  }

  /** Whenever the program is not at rest, here is a step it can take. */
  lemma NextMove(s: State) returns (a: Action)
    requires Inv(s) && !Resting(s)
    ensures a.IsProgram() && Enabled(s, a)
  {
    if s.waiter == Waiting && s.child.Gone? {
      return WaitReturns;
    }
    if s.waiter.Holding? {
      return WaiterSends;
    }
    match s.main
    case Opening => a := OpenLog(true);
    case Starting => a := Start(true);
    case Selecting => a := if s.cancelled then SelectCancelled else SelectDone;
    case Interrupting => a := SendInt;
    case Grace => a := if s.timer then GraceTimeout else GraceDone;
    case Killing => a := SendKill;
    case Draining => a := Drain;
    case Returning(_) => a := Return;
    case Returned(_) => assert false;
  }

  lemma StuckMeansResting(acts: seq<Action>)
    requires IsRun(INITIAL, acts)
    ensures Stuck(After(INITIAL, acts)) <==> Resting(After(INITIAL, acts))
  {
    var s := After(INITIAL, acts);
    InvRun(INITIAL, acts);
    if !Resting(s) {
      var a := NextMove(s);
    }
    if Resting(s) {
      forall a: Action | a.IsProgram() ensures !Enabled(s, a) {
        RestingIsStuck(s, a);
      }
    }
  }

  function MainRank(m: Main): nat {
    match m
    case Opening => 8
    case Starting => 7
    case Selecting => 6
    case Interrupting => 5
    case Grace => 4
    case Killing => 3
    case Draining => 2
    case Returning(_) => 1
    case Returned(_) => 0
  }

  /** How many steps the program can still take. */
  function Rank(s: State): nat {
    MainRank(s.main) + (match s.waiter case Absent => 2 case Waiting => 2 case Holding(_) => 1 case Finished => 0)
  }

  lemma RankStep(s: State, a: Action)
    requires Inv(s) && Enabled(s, a)
    ensures Rank(Next(s, a)) <= Rank(s) - (if a.IsProgram() then 1 else 0)
  {
    hide Inv;
    if s.main == Starting {
      StartHasNoWaiter(s);
    }
  }

  lemma StartHasNoWaiter(s: State)
    requires Inv(s) && s.main == Starting
    ensures s.waiter == Absent
  {
  }

  function ProgramSteps(acts: seq<Action>): nat {
    if acts == [] then 0 else (if acts[0].IsProgram() then 1 else 0) + ProgramSteps(acts[1..])
  }

  lemma {:induction false} StepsLeft(s: State, acts: seq<Action>)
    requires Inv(s) && IsRun(s, acts)
    ensures ProgramSteps(acts) + Rank(After(s, acts)) <= Rank(s)
    decreases |acts|
  {
    if acts != [] {
      RankStep(s, acts[0]);
      InvStep(s, acts[0]);
      StepsLeft(Next(s, acts[0]), acts[1..]);
    }
  }

  /** The program takes at most ten steps in any run, so a run that lets it
      move comes to rest; and at rest the child is still alive, or the caller
      has returned and the waiter is finished. */
  lemma RunsComeToRest(acts: seq<Action>)
    requires IsRun(INITIAL, acts)
    ensures ProgramSteps(acts) <= 10
    ensures var s := After(INITIAL, acts);
            s.child.Gone? && Stuck(s) ==> s.main.Returned? && s.waiter == Finished
  {
    StepsLeft(INITIAL, acts);
    StuckMeansResting(acts);
    InvRun(INITIAL, acts);
  }
}
