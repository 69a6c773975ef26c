/** The limiter as the gateway runs it: requests read the clock before they wait for
    the lock, so their readings arrive out of order, with sweeps among them. */
module LateCalls {
  import opened LoginLimiter

  // -------------------------------------------- readings at most `d` late

  /** No reading of the clock is more than `d` behind an earlier one. */
  ghost predicate LateBy(h: seq<Event>, d: real) {
    forall i, j :: 0 <= i < j < |h| ==> h[i].at - d <= h[j].at
  }

  ghost predicate NotBefore(h: seq<Event>, low: Instant) {
    forall i :: 0 <= i < |h| ==> low <= h[i].at
  }

  function Max(a: real, b: real): real {
    if a >= b then a else b
  }

  lemma EarnedGrows(c: Config, since: Instant, t: Instant, u: Instant)
    requires c.Valid() && t <= u
    ensures Earned(c, since, t) <= Earned(c, since, u) && Earned(c, u, since) <= Earned(c, t, since)
  {
    EarnedAdds(c, since, t, u);
    EarnedAdds(c, t, u, since);
    EarnedNotNegative(c, t, u);
  }

  /** A bucket whose latest reading so far is `top`: it was used at most `d` before
      that, and what it owes is earned by then. */
  ghost predicate Solvent(c: Config, lv: Level, top: Instant, d: real) {
    lv.last <= top <= lv.last + d && lv.tokens + Earned(c, lv.last, top) >= 0.0
  }

  lemma TouchStaysSolvent(c: Config, lv: Level, top: Instant, d: real, at: Instant)
    requires c.Valid() && Solvent(c, lv, top, d) && top - d <= at && d >= 0.0
    ensures Solvent(c, Touch(c, lv, at).0, Max(top, at), d)
  {
    var m := Max(top, at);
    EarnedAdds(c, lv.last, at, m);
    EarnedGrows(c, lv.last, top, m);
    EarnedNotNegative(c, at, m);
    hide Earned;
  }

  lemma FreshIsSolvent(c: Config, at: Instant, d: real)
    requires c.Valid() && d >= 0.0
    ensures Solvent(c, Touch(c, Fresh(c, at), at).0, at, d)
  {
    EarnedNothing(c, at);
    JustTouched(c, c.burst as real, at);
    hide Refilled, Earned;
  }

  /** What a sweep drops had a full bucket coming for every reading still to come. */
  lemma DropIsPaidFor(c: Config, lv: Level, top: Instant, d: real, now: Instant, low: Instant)
    requires c.Valid() && Solvent(c, lv, top, d) && 2.0 * d <= c.window
    requires now - lv.last > 2.0 * c.window && low >= now - d
    ensures c.burst as real <= lv.tokens + Earned(c, lv.last, low)
  {
    EarnedInWindow(c, top, low);
    EarnedAdds(c, lv.last, top, low);
    hide Earned;
  }

  /** What is known of a key's bucket while every reading to come is `low` or later. */
  ghost predicate Within(c: Config, st: Levels, key: string, d: real, top: Instant, low: Instant) {
    key in st ==> Solvent(c, st[key], top, d) && top - d <= low
  }

  function Next(c: Config, st: Levels, e: Event): Levels {
    match e
    case Call(j, at) => AllowStep(c, st, j, at).0
    case Tick(at) => SweepStep(c, st, at)
  }

  /** The key's latest reading after one more event. */
  function NextTop(st: Levels, e: Event, key: string, top: Instant): Instant {
    if e.Call? && e.key == key then (if key in st then Max(top, e.at) else e.at) else top
  }

  lemma StaysWithin(c: Config, st: Levels, e: Event, key: string, d: real, top: Instant, low: Instant)
    requires c.Valid() && d >= 0.0 && Within(c, st, key, d, top, low) && low <= e.at
    ensures Within(c, Next(c, st, e), key, d, NextTop(st, e, key, top), Max(low, e.at - d))
  {
    hide Solvent, Touch;
    if e.Call? && e.key == key {
      if key in st {
        TouchStaysSolvent(c, st[key], top, d, e.at);
      } else {
        FreshIsSolvent(c, e.at, d);
      }
    }
  }

  lemma RestIsLate(h: seq<Event>, d: real, low: Instant)
    requires LateBy(h, d) && NotBefore(h, low) && h != []
    ensures LateBy(h[1..], d) && NotBefore(h[1..], Max(low, h[0].at - d)) && low <= h[0].at
  {
  }

  /** What a key can still get by `u`: what its bucket could hold by then, or a full
      one from the next reading on. */
  ghost function Due(c: Config, st: Levels, key: string, low: Instant, u: Instant): real {
    if key in st then st[key].tokens + Earned(c, st[key].last, u) else c.burst as real + Earned(c, low, u)
  }

  /** One event and what comes after it. */
  lemma EventIsPaidFor(c: Config, st: Levels, e: Event, key: string, d: real, top: Instant, low: Instant,
                       u: Instant, more: nat)
    requires c.Valid() && d >= 0.0 && 2.0 * d <= c.window && Within(c, st, key, d, top, low) && low <= e.at
    requires e.Call? && e.key == key ==> e.at <= u
    requires more == 0 || more as real <= Due(c, Next(c, st, e), key, Max(low, e.at - d), u)
    ensures var n := more + (if e.Call? && e.key == key && AllowStep(c, st, key, e.at).1 then 1 else 0);
      n == 0 || n as real <= Due(c, st, key, low, u)
  {
    hide Solvent, Earned, Touch;
    if e.Call? && e.key == key {
      CallIsPaidFor(c, if key in st then st[key] else Fresh(c, e.at), e.at, u, more);
      EarnedGrows(c, u, low, e.at);
    } else if key !in st {
      EarnedGrows(c, u, low, Max(low, e.at - d));
    } else if key !in Next(c, st, e) {
      DropIsPaidFor(c, st[key], top, d, e.at, Max(low, e.at - d));
      EarnedAdds(c, st[key].last, Max(low, e.at - d), u);
    }
  }

  lemma AnswersNext(c: Config, st: Levels, h: seq<Event>, key: string)
    requires h != []
    ensures var own := h[0].Call? && h[0].key == key;
      var rest := Answers(c, Next(c, st, h[0]), h[1..], key);
      && Admitted(Answers(c, st, h, key))
           == Admitted(rest) + (if own && AllowStep(c, st, key, h[0].at).1 then 1 else 0)
  {
    hide AllowStep, SweepStep;
    var rest := Answers(c, Next(c, st, h[0]), h[1..], key);
    if h[0].Call? && h[0].key == key {
      OneMoreAnswer(AllowStep(c, st, key, h[0].at).1, rest);
    } else {
      assert [] + rest == rest;
    }
  }

  lemma {:induction false} LateSpending(c: Config, st: Levels, h: seq<Event>, key: string, d: real,
                                        top: Instant, low: Instant, s: Instant, u: Instant)
    requires c.Valid() && d >= 0.0 && 2.0 * d <= c.window && Within(c, st, key, d, top, low)
    requires LateBy(h, d) && NotBefore(h, low) && CallsWithin(h, key, s, u)
    ensures var n := Admitted(Answers(c, st, h, key)); n == 0 || n as real <= Due(c, st, key, low, u)
    decreases |h|
  {
    hide Within, Due, Next, NextTop, AllowStep, LateBy, NotBefore, CallsWithin, Answers, Admitted;
    if h == [] {
      NothingAnswered(c, st, key);
    } else {
      var e, next := h[0], Next(c, st, h[0]);
      RestIsLate(h, d, low);
      LaterCallsWithin(h, key, s, u);
      StaysWithin(c, st, e, key, d, top, low);
      AnswersNext(c, st, h, key);
      LateSpending(c, next, h[1..], key, d, NextTop(st, e, key, top), Max(low, e.at - d), s, u);
      EventIsPaidFor(c, st, e, key, d, top, low, u, Admitted(Answers(c, next, h[1..], key)));
    }
  }

  lemma NothingAnswered(c: Config, st: Levels, key: string)
    ensures Admitted(Answers(c, st, [], key)) == 0
  {
  }

  /** The same from the first call on, in terms of the span alone. */
  lemma {:induction false} LateSpan(c: Config, st: Levels, h: seq<Event>, key: string, d: real,
                                    top: Instant, low: Instant, s: Instant, u: Instant)
    requires c.Valid() && d >= 0.0 && 2.0 * d <= c.window && Within(c, st, key, d, top, low) && s <= u
    requires LateBy(h, d) && NotBefore(h, low) && CallsWithin(h, key, s, u)
    ensures Admitted(Answers(c, st, h, key)) as real <= c.burst as real + Earned(c, s, u)
    decreases |h|
  {
    hide Within, Due, Next, NextTop, AllowStep, LateBy, NotBefore, CallsWithin, Answers, Admitted, Earned;
    EarnedNotNegative(c, s, u);
    if h == [] {
      NothingAnswered(c, st, key);
    } else {
      var e, next := h[0], Next(c, st, h[0]);
      var later, upper := Max(low, e.at - d), NextTop(st, e, key, top);
      RestIsLate(h, d, low);
      LaterCallsWithin(h, key, s, u);
      StaysWithin(c, st, e, key, d, top, low);
      AnswersNext(c, st, h, key);
      if e.Call? && e.key == key {
        LateSpending(c, next, h[1..], key, d, upper, later, s, u);
        OwnCallWithin(c, st, key, e.at, s, u, later, Admitted(Answers(c, next, h[1..], key)));
      } else {
        LateSpan(c, next, h[1..], key, d, upper, later, s, u);
      }
    }
  }

  lemma OwnCallWithin(c: Config, st: Levels, key: string, at: Instant, s: Instant, u: Instant, low: Instant, more: nat)
    requires c.Valid() && s <= at <= u
    requires more == 0 || more as real <= Due(c, Next(c, st, Call(key, at)), key, low, u)
    ensures (more + (if AllowStep(c, st, key, at).1 then 1 else 0)) as real <= c.burst as real + Earned(c, s, u)
  {
    CallIsPaidFor(c, if key in st then st[key] else Fresh(c, at), at, u, more);
    EarnedGrows(c, u, s, at);
    EarnedAdds(c, s, at, u);
    EarnedNotNegative(c, s, at);
    hide Earned, Touch;
  }

  lemma {:induction false} WithinAfter(c: Config, st: Levels, h: seq<Event>, rest: seq<Event>, key: string, d: real,
                                       top: Instant, low: Instant) returns (top': Instant, low': Instant)
    requires c.Valid() && d >= 0.0 && Within(c, st, key, d, top, low)
    requires LateBy(h + rest, d) && NotBefore(h + rest, low)
    ensures Within(c, After(c, st, h), key, d, top', low') && LateBy(rest, d) && NotBefore(rest, low')
    decreases |h|
  {
    hide Within, Next, NextTop, LateBy, NotBefore;
    if h == [] {
      assert h + rest == rest;
      top', low' := top, low;
    } else {
      var e := h[0];
      assert (h + rest)[0] == e && (h + rest)[1..] == h[1..] + rest;
      RestIsLate(h + rest, d, low);
      StaysWithin(c, st, e, key, d, top, low);
      AfterNext(c, st, h);
      top', low' := WithinAfter(c, Next(c, st, e), h[1..], rest, key, d, NextTop(st, e, key, top), Max(low, e.at - d));
    }
  }

  lemma AfterNext(c: Config, st: Levels, h: seq<Event>)
    requires h != []
    ensures After(c, st, h) == After(c, Next(c, st, h[0]), h[1..])
  {
    hide AllowStep, SweepStep;
  }

  lemma FirstBoundsAll(h: seq<Event>, d: real) returns (low: Instant)
    requires LateBy(h, d) && d >= 0.0
    ensures NotBefore(h, low)
  {
    low := if h == [] then 0.0 else h[0].at - d;
  }

  /** The gateway as it runs: requests whose clock readings reach the limiter late, and
      in any order, with sweeps among them.  While no reading is more than half a
      window behind an earlier one, the calls of a key that say they happened between
      `s` and `u` are admitted at most `burst + rate * (u - s)` times, after any
      earlier history. */
  lemma LateAdmissionBound(c: Config, earlier: seq<Event>, h: seq<Event>, key: string, d: real, s: Instant, u: Instant)
    requires c.Valid() && d >= 0.0 && 2.0 * d <= c.window && s <= u
    requires LateBy(earlier + h, d) && CallsWithin(h, key, s, u)
    ensures Admitted(Answers(c, After(c, map[], earlier), h, key)) as real <= c.burst as real + Earned(c, s, u)
  {
    var low := FirstBoundsAll(earlier + h, d);
    var top', low' := WithinAfter(c, map[], earlier, h, key, d, 0.0, low);
    hide *;
    LateSpan(c, After(c, map[], earlier), h, key, d, top', low', s, u);
  }

  // ------------------------------------------------- later than half a window

  ghost predicate NotAfter(h: seq<Event>, high: Instant) {
    forall i :: 0 <= i < |h| ==> h[i].at <= high
  }

  /** Every event is at one instant between the two, and so are the key's calls. */
  ghost predicate Spans(h: seq<Event>, key: string, d: real, low: Instant, high: Instant, u: Instant) {
    LateBy(h, d) && NotBefore(h, low) && NotAfter(h, high) && CallsWithin(h, key, 0.0, u)
  }

  lemma SpansJoin(a: seq<Event>, b: seq<Event>, key: string, d: real, lowA: Instant, highA: Instant,
                  lowB: Instant, highB: Instant, low: Instant, high: Instant, u: Instant)
    requires Spans(a, key, d, lowA, highA, u) && Spans(b, key, d, lowB, highB, u) && highA - d <= lowB
    requires low <= lowA && low <= lowB && highA <= high && highB <= high
    ensures Spans(a + b, key, d, low, high, u)
  {
    var h := a + b;
    assert forall i :: 0 <= i < |h| ==> h[i] == if i < |a| then a[i] else b[i - |a|];
    forall i, j | 0 <= i < j < |h| ensures h[i].at - d <= h[j].at {
      assert i >= |a| ==> b[i - |a|].at - d <= b[j - |a|].at;
    }
  }

  lemma {:induction false} CallsSpan(key: string, at: Instant, n: nat, d: real, u: Instant)
    requires d >= 0.0 && 0.0 <= at <= u
    ensures Spans(Calls(key, at, n), key, d, at, at, u)
  {
    if n > 0 {
      CallsSpan(key, at, n - 1, d, u);
      SpansJoin([Call(key, at)], Calls(key, at, n - 1), key, d, at, at, at, at, at, at, u);
    }
  }

  /** Two full bursts a window apart, a reading `e` late, a sweep, and a third burst
      whose readings are again `e` late. */
  function LateStart(c: Config, key: string): seq<Event>
    requires c.burst >= 0
  {
    Calls(key, 0.0, c.burst) + Calls(key, c.window, c.burst)
  }

  function LateEnd(c: Config, key: string, e: real): seq<Event>
    requires c.burst >= 0
  {
    [Call(key, c.window - e)] + ([Tick(2.5 * c.window)] + Calls(key, 2.5 * c.window - e, c.burst))
  }

  lemma LateHistorySpans(c: Config, key: string, e: real)
    requires c.Valid() && 0.0 <= e <= c.window
    ensures var v := 2.5 * c.window - e;
      LateBy(LateStart(c, key) + LateEnd(c, key, e), e) && CallsWithin(LateStart(c, key) + LateEnd(c, key, e), key, 0.0, v)
  {
    var v := 2.5 * c.window - e;
    WindowIsLong(c);
    hide *;
    LateStartSpans(c, key, e, v);
    LateEndSpans(c, key, e);
    SpansJoin(LateStart(c, key), LateEnd(c, key, e), key, e, 0.0, c.window, c.window - e, 2.5 * c.window,
              0.0, 2.5 * c.window, v);
    SpansMeans(LateStart(c, key) + LateEnd(c, key, e), key, e, 0.0, 2.5 * c.window, v);
  }

  lemma LateStartSpans(c: Config, key: string, d: real, u: Instant)
    requires c.Valid() && 0.0 <= d && c.window <= u
    ensures Spans(LateStart(c, key), key, d, 0.0, c.window, u)
  {
    WindowIsLong(c);
    hide *;
    LatePartsAre(c, key, d);
    CallsSpan(key, 0.0, c.burst, d, u);
    CallsSpan(key, c.window, c.burst, d, u);
    SpansJoin(Calls(key, 0.0, c.burst), Calls(key, c.window, c.burst), key, d, 0.0, 0.0, c.window, c.window,
              0.0, c.window, u);
  }

  lemma LateEndSpans(c: Config, key: string, e: real)
    requires c.Valid() && 0.0 <= e <= c.window
    ensures Spans(LateEnd(c, key, e), key, e, c.window - e, 2.5 * c.window, 2.5 * c.window - e)
  {
    var at, x, v := c.window - e, 2.5 * c.window, 2.5 * c.window - e;
    WindowIsLong(c);
    hide *;
    LatePartsAre(c, key, e);
    CallsSpan(key, v, c.burst, e, v);
    OneCallSpans(key, at, e, v);
    OneTickSpans(key, x, e, v);
    SpansJoin([Tick(x)], Calls(key, v, c.burst), key, e, x, x, v, v, v, x, v);
    SpansJoin([Call(key, at)], [Tick(x)] + Calls(key, v, c.burst), key, e, at, at, v, x, at, x, v);
  }

  lemma WindowIsLong(c: Config)
    requires c.Valid()
    ensures c.window > 0.0 && c.burst >= 0
  {
  }

  lemma LatePartsAre(c: Config, key: string, e: real)
    requires c.burst >= 0
    ensures LateStart(c, key) == Calls(key, 0.0, c.burst) + Calls(key, c.window, c.burst)
    ensures LateEnd(c, key, e)
         == [Call(key, c.window - e)] + ([Tick(2.5 * c.window)] + Calls(key, 2.5 * c.window - e, c.burst))
  {
    hide Calls;
  }

  lemma OneCallSpans(key: string, at: Instant, d: real, u: Instant)
    requires 0.0 <= at <= u
    ensures Spans([Call(key, at)], key, d, at, at, u)
  {
  }

  lemma OneTickSpans(key: string, at: Instant, d: real, u: Instant)
    ensures Spans([Tick(at)], key, d, at, at, u)
  {
  }

  lemma SpansMeans(h: seq<Event>, key: string, d: real, low: Instant, high: Instant, u: Instant)
    requires Spans(h, key, d, low, high, u)
    ensures LateBy(h, d) && CallsWithin(h, key, 0.0, u)
  {
  }

  /** Each of the two bursts finds a full bucket. */
  lemma LateStartAdmits(c: Config, key: string)
    requires c.Valid() && c.burst >= 1
    ensures Admitted(Answers(c, map[], LateStart(c, key), key)) == 2 * c.burst
    ensures After(c, map[], LateStart(c, key)) == map[key := Level(0.0, c.window)]
  {
    var a, b, st := Calls(key, 0.0, c.burst), Calls(key, c.window, c.burst), map[key := Level(0.0, 0.0)];
    CallsDrain(c, map[], key, 0.0, c.burst);
    IdleIsFull(c, Level(0.0, 0.0), c.window);
    CallsDrain(c, st, key, c.window, c.burst);
    assert st[key := Level(0.0, c.window)] == map[key := Level(0.0, c.window)];
    hide Calls, Answers, After, Admitted, Refilled;
    HistoryJoins(c, map[], a, b, key);
    AdmittedJoins(Answers(c, map[], a, key), Answers(c, st, b, key));
  }

  lemma LateCallIsRefused(c: Config, key: string, e: real)
    requires c.Valid() && c.burst >= 1 && e >= 0.0
    ensures var st, at := map[key := Level(0.0, c.window)], c.window - e;
      && After(c, st, [Call(key, at)]) == map[key := Level(Earned(c, c.window, at), at)]
      && Answers(c, st, [Call(key, at)], key) == [false]
  {
    var st, at := map[key := Level(0.0, c.window)], c.window - e;
    EarnedGrows(c, c.window, at, c.window);
    EarnedNothing(c, c.window);
    hide Earned;
    var owing := Level(Earned(c, c.window, at), at);
    assert Touch(c, st[key], at) == (owing, false);
    assert st[key := owing] == map[key := owing];
    assert AllowStep(c, st, key, at) == (map[key := owing], false);
    hide AllowStep;
    AfterCall(c, st, key, at, []);
    AnswersToCall(c, st, key, at, []);
    assert [Call(key, at)] + [] == [Call(key, at)] && [false] + [] == [false];
  }

  /** After the sweep the third burst finds a new bucket. */
  lemma LateEndAdmits(c: Config, key: string, e: real)
    requires c.Valid() && c.burst >= 1 && e >= 0.0 && 2.0 * e > c.window
    ensures Admitted(Answers(c, map[key := Level(0.0, c.window)], LateEnd(c, key, e), key)) == c.burst
  {
    hide *;
    var w, at, v := c.window, c.window - e, 2.5 * c.window - e;
    var st, lv := map[key := Level(0.0, w)], Level(Earned(c, w, at), at);
    var swept := [Tick(2.5 * w)] + Calls(key, v, c.burst);
    LatePartsAre(c, key, e);
    LateCallIsRefused(c, key, e);
    SweptThenFull(c, key, lv, 2.5 * w, v);
    HistoryJoins(c, st, [Call(key, at)], swept, key);
    OneMoreAnswer(false, Answers(c, map[key := lv], swept, key));
  }

  lemma ThreeBurstsAreTooMany(c: Config, e: real)
    requires c.Valid() && c.burst >= 1 && 2.0 * e > c.window
    ensures 3.0 * c.burst as real > c.burst as real + Earned(c, 0.0, 2.5 * c.window - e)
  {
    var spare := e - 0.5 * c.window;
    assert Earned(c, 0.0, 2.5 * c.window - e) == 2.0 * (c.window * c.rate) - spare * c.rate;
    assert c.rate > 0.0;
    assert spare * c.rate > 0.0;
  }

  ghost predicate Bounded(c: Config, h: seq<Event>, key: string, s: Instant, u: Instant) {
    Admitted(Answers(c, map[], h, key)) as real <= c.burst as real + Earned(c, s, u)
  }

  /** Readings later than half a window break the bound, for every limiter that admits
      anything. */
  lemma LaterBreaksTheBound(c: Config, key: string, d: real) returns (h: seq<Event>, u: Instant)
    requires c.Valid() && c.burst >= 1 && 2.0 * d > c.window
    ensures LateBy(h, d) && 0.0 <= u && CallsWithin(h, key, 0.0, u) && !Bounded(c, h, key, 0.0, u)
  {
    var e := if d <= c.window then d else c.window;
    var a, b := LateStart(c, key), LateEnd(c, key, e);
    h, u := a + b, 2.5 * c.window - e;
    LateHistorySpans(c, key, e);
    LateStartAdmits(c, key);
    LateEndAdmits(c, key, e);
    ThreeBurstsAreTooMany(c, e);
    hide Answers, After, Admitted, LateStart, LateEnd, Earned;
    HistoryJoins(c, map[], a, b, key);
    AdmittedJoins(Answers(c, map[], a, key), Answers(c, After(c, map[], a), b, key));
  }

  /** So half a window is exactly how late readings may be: the bound holds of every
      history of readings at most `d` late if and only if `d` is at most that. */
  lemma HalfAWindowExactly(c: Config, key: string, d: real)
    requires c.Valid() && c.burst >= 1 && d >= 0.0
    ensures (forall h, s, u :: LateBy(h, d) && s <= u && CallsWithin(h, key, s, u) ==> Bounded(c, h, key, s, u))
      <==> 2.0 * d <= c.window
  {
    hide LateBy, CallsWithin, Earned, Answers, Admitted, After;
    if 2.0 * d <= c.window {
      forall h, s, u | LateBy(h, d) && s <= u && CallsWithin(h, key, s, u) ensures Bounded(c, h, key, s, u) {
        assert [] + h == h;
        LateAdmissionBound(c, [], h, key, d, s, u);
        NothingHappened(c);
      }
    } else {
      var h, u := LaterBreaksTheBound(c, key, d);
    }
  }

  lemma NothingHappened(c: Config)
    ensures After(c, map[], []) == map[]
  {
  }
}
