/** The gateway's login limiter: one token bucket per client key, refilled
    linearly up to `burst` over `window`, with stale buckets swept away.

    Time is a real number of seconds.  The class mirrors the map of mutable
    buckets; the functions give the same behaviour on values, and the lemmas
    show that the whole map behaves like one private, never-swept bucket per
    key. */
module LoginLimiter {
  import opened Options

  type Instant = real

  /** The limiter's fixed fields: `burst` tokens refill over `window` seconds,
      at `rate` tokens a second. */
  datatype Config = Config(burst: int, rate: real, window: real) {
    ghost predicate Valid() {
      burst >= 0 && Consistent() && rate >= 0.0
    }

    ghost predicate Consistent() {
      window > 0.0 && rate * window == burst as real
    }
  }

  /** The two fields of a bucket, as a value. */
  datatype Level = Level(tokens: real, last: Instant)

  type Levels = map<string, Level>

  function Min(a: real, b: real): real {
    if a <= b then a else b
  }

  // ---------------------------------------------------------------- values

  /** The tokens that trickle in between two instants. */
  function Earned(c: Config, since: Instant, now: Instant): real {
    (now - since) * c.rate
  }

  /** What a bucket holds at `now`, before anything is spent. */
  function Refilled(c: Config, lv: Level, now: Instant): real {
    Min(c.burst as real, lv.tokens + Earned(c, lv.last, now))
  }

  /** Refill, then spend one token when there is one. */
  function Touch(c: Config, lv: Level, now: Instant): (Level, bool)
  {
    var tokens := Refilled(c, lv, now);
    if tokens >= 1.0 then (Level(tokens - 1.0, now), true) else (Level(tokens, now), false)
  }

  function Fresh(c: Config, now: Instant): Level {
    Level(c.burst as real, now)
  }

  function AllowStep(c: Config, st: Levels, key: string, now: Instant): (Levels, bool)
  {
    var (lv, ok) := Touch(c, if key in st then st[key] else Fresh(c, now), now);
    (st[key := lv], ok)
  }

  function SweepStep(c: Config, st: Levels, now: Instant): Levels {
    map k | k in st && now - st[k].last <= 2.0 * c.window :: st[k]
  }

  // ---------------------------------------------------------- the class

  class Bucket {
    var tokens: real
    var last: Instant

    constructor (tokens: real, last: Instant)
      ensures this.tokens == tokens && this.last == last
    {
      this.tokens, this.last := tokens, last;
    }

    ghost function View(): Level
      reads this
    {
      Level(tokens, last)
    }

    /** Refills the bucket and takes a token when there is one. */
    method Spend(c: Config, now: Instant) returns (ok: bool)
      modifies this
      ensures (View(), ok) == Touch(c, old(View()), now)
    {
      tokens := Refilled(c, Level(tokens, last), now);
      last := now;
      ok := false;
      if tokens >= 1.0 {
        tokens := tokens - 1.0;
        ok := true;
      }
    }
  }

  class Limiter {
    const config: Config
    var buckets: map<string, Bucket>

    /** Distinct keys never share a bucket object. */
    ghost predicate Valid()
      reads this
    {
      && config.Consistent()
      && (forall j, k :: j in buckets && k in buckets && j != k ==> buckets[j] != buckets[k])
    }

    ghost function View(): Levels
      reads this, buckets.Values
    {
      map k | k in buckets :: buckets[k].View()
    }

    constructor (burst: int, window: real)
      requires window > 0.0
      ensures Valid() && View() == map[]
      ensures config.burst == burst && config.window == window
    {
      config := Config(burst, burst as real / window, window);
      buckets := map[];
    }

    method Allow(key: string, now: Instant) returns (ok: bool)
      requires Valid()
      modifies this`buckets, buckets.Values
      ensures Valid()
      ensures fresh(buckets.Values - old(buckets.Values))
      ensures (View(), ok) == AllowStep(config, old(View()), key, now)
    {
      ghost var before := View();
      var b := Find(key, now);
      ghost var at, found := View(), b.View();
      assert found == at[key];
      ok := b.Spend(config, now);
      hide Touch;
      assert View() == at[key := b.View()];
      assert at[key := b.View()] == before[key := b.View()];
    }

    /** The key's bucket; a new one is full. */
    method Find(key: string, now: Instant) returns (b: Bucket)
      requires Valid()
      modifies this`buckets
      ensures Valid() && key in buckets && buckets[key] == b
      ensures fresh(buckets.Values - old(buckets.Values))
      ensures View() == old(View())[key := if key in old(buckets) then old(View())[key] else Fresh(config, now)]
    {
      if key in buckets {
        b := buckets[key];
      } else {
        b := new Bucket(config.burst as real, now);
        buckets := buckets[key := b];
      }
    }

    method Sweep(now: Instant)
      requires Valid()
      modifies this`buckets
      ensures Valid()
      ensures buckets.Values <= old(buckets.Values)
      ensures View() == SweepStep(config, old(View()), now)
    {
      ghost var before := View();
      var limit, rest := 2.0 * config.window, buckets.Keys;
      while rest != {}
        invariant Valid()
        invariant rest <= buckets.Keys <= old(buckets.Keys)
        invariant forall k :: k in buckets ==> buckets[k] == old(buckets)[k]
        invariant forall k :: k in before && k !in rest ==> (k in buckets <==> now - before[k].last <= limit)
        decreases rest
      {
        var k :| k in rest;
        rest := rest - {k};
        assert before[k].last == buckets[k].last;
        if now - buckets[k].last > limit {
          buckets := buckets - {k};
        }
      }
      SweptAre(config, before, View(), now);
    }

    method Size() returns (n: nat)
      requires Valid()
      ensures n == |View()|
    {
      n := |buckets|;
      assert View().Keys == buckets.Keys;
    }
  }

  lemma SweptAre(c: Config, before: Levels, after: Levels, now: Instant)
    requires after.Keys <= before.Keys && forall k :: k in after ==> after[k] == before[k]
    requires forall k :: k in before ==> (k in after <==> now - before[k].last <= 2.0 * c.window)
    ensures after == SweepStep(c, before, now)
  {
  }

  // ------------------------------------------------------------- histories

  datatype Event = Call(key: string, at: Instant) | Tick(at: Instant)

  function After(c: Config, st: Levels, h: seq<Event>): Levels
    decreases |h|
  {
    if h == [] then st
    else match h[0]
      case Call(key, at) => After(c, AllowStep(c, st, key, at).0, h[1..])
      case Tick(at) => After(c, SweepStep(c, st, at), h[1..])
  }

  /** The answers one key receives while the whole map runs through `h`. */
  function Answers(c: Config, st: Levels, h: seq<Event>, key: string): seq<bool>
    decreases |h|
  {
    if h == [] then []
    else match h[0]
      case Call(j, at) =>
        var (st', ok) := AllowStep(c, st, j, at);
        (if j == key then [ok] else []) + Answers(c, st', h[1..], key)
      case Tick(at) => Answers(c, SweepStep(c, st, at), h[1..], key)
  }

  /** The instants at which one key calls. */
  function CallsOf(h: seq<Event>, key: string): seq<Instant> {
    if h == [] then []
    else (if h[0].Call? && h[0].key == key then [h[0].at] else []) + CallsOf(h[1..], key)
  }

  /** A bucket of its own: created at its first call, never shared, never swept. */
  function Alone(c: Config, lv: Option<Level>, calls: seq<Instant>): seq<bool>
    decreases |calls|
  {
    if calls == [] then []
    else
      var (lv', ok) := Touch(c, if lv.Some? then lv.value else Fresh(c, calls[0]), calls[0]);
      [ok] + Alone(c, Some(lv'), calls[1..])
  }

  /** The clock starts at `t` or later and never goes back. */
  ghost predicate Forward(h: seq<Event>, t: Instant) {
    && (forall i :: 0 <= i < |h| ==> t <= h[i].at)
    && (forall i, j :: 0 <= i < j < |h| ==> h[i].at <= h[j].at)
  }

  ghost predicate InRange(c: Config, lv: Level, t: Instant) {
    0.0 <= lv.tokens <= c.burst as real && lv.last <= t
  }

  /** Every bucket holds between 0 and `burst` tokens and was used by time `t`. */
  ghost predicate Sound(c: Config, st: Levels, t: Instant) {
    forall k :: k in st ==> InRange(c, st[k], t)
  }

  lemma EarnedNotNegative(c: Config, since: Instant, now: Instant)
    requires c.Valid() && since <= now
    ensures Earned(c, since, now) >= 0.0
  {
  }

  lemma EarnedNothing(c: Config, now: Instant)
    ensures Earned(c, now, now) == 0.0
  {
  }

  lemma EarnedAdds(c: Config, a: Instant, b: Instant, d: Instant)
    ensures Earned(c, a, b) + Earned(c, b, d) == Earned(c, a, d)
  {
  }

  lemma EarnedInWindow(c: Config, since: Instant, now: Instant)
    requires c.Valid() && now - since >= c.window
    ensures Earned(c, since, now) >= c.burst as real
  {
    EarnedAdds(c, since, since + c.window, now);
    EarnedNotNegative(c, since + c.window, now);
    assert Earned(c, since, since + c.window) == c.window * c.rate;
  }

  /** One touch keeps the bucket in range exactly when the clock has not gone
      back by more than the tokens in the bucket can pay for. */
  lemma TouchInRange(c: Config, lv: Level, now: Instant)
    requires c.Valid() && 0.0 <= lv.tokens <= c.burst as real
    ensures InRange(c, Touch(c, lv, now).0, now) <==> Earned(c, now, lv.last) <= lv.tokens
    ensures lv.last <= now ==> InRange(c, Touch(c, lv, now).0, now)
  {
    EarnedAdds(c, now, lv.last, now);
    EarnedNothing(c, now);
    if lv.last <= now {
      EarnedNotNegative(c, lv.last, now);
    }
  }

  /** With a clock that steps back, a bucket can go below zero. */
  lemma ClockGoingBackOverdraws()
    ensures var c := Config(1, 0.1, 10.0);
            c.Valid() && Touch(c, Level(0.0, 20.0), 10.0) == (Level(-1.0, 10.0), false)
  {
    assert (10.0 - 20.0) * 0.1 == -1.0;
  }

  lemma {:induction false} SoundAfter(c: Config, st: Levels, h: seq<Event>, t: Instant, u: Instant)
    requires c.Valid() && Sound(c, st, t) && Forward(h, t)
    requires t <= u && forall i :: 0 <= i < |h| ==> h[i].at <= u
    ensures Sound(c, After(c, st, h), u)
    decreases |h|
  {
    if h != [] {
      var at := h[0].at;
      if h[0].Call? {
        var lv := if h[0].key in st then st[h[0].key] else Fresh(c, at);
        TouchInRange(c, lv, at);
        SoundAfter(c, AllowStep(c, st, h[0].key, at).0, h[1..], at, u);
      } else {
        SoundAfter(c, SweepStep(c, st, at), h[1..], at, u);
      }
    }
  }

  // ------------------------------------------- refinement of private buckets

  /** The shared map agrees with a private bucket: it holds the same level, or
      it has dropped a level that is full again by time `t`. */
  ghost predicate Agrees(c: Config, st: Levels, key: string, lone: Option<Level>, t: Instant)
  {
    && Sound(c, st, t)
    && (lone.Some? ==> InRange(c, lone.value, t))
    && (key in st ==> lone == Some(st[key]))
    && (key !in st && lone.Some? ==> Refilled(c, lone.value, t) == c.burst as real)
  }

  lemma StaysFull(c: Config, lv: Level, t: Instant, u: Instant)
    requires c.Valid() && t <= u && Refilled(c, lv, t) == c.burst as real
    ensures Refilled(c, lv, u) == c.burst as real
  {
    EarnedNotNegative(c, t, u);
    EarnedAdds(c, lv.last, t, u);
  }

  lemma IdleIsFull(c: Config, lv: Level, now: Instant)
    requires c.Valid() && lv.tokens >= 0.0 && now - lv.last >= c.window
    ensures Refilled(c, lv, now) == c.burst as real
  {
    EarnedInWindow(c, lv.last, now);
  }

  lemma AgreesAfterOwnCall(c: Config, st: Levels, key: string, lone: Option<Level>, t: Instant, at: Instant)
    requires c.Valid() && t <= at && Agrees(c, st, key, lone, t)
    ensures var (st', ok) := AllowStep(c, st, key, at);
            var (lv, alone) := Touch(c, if lone.Some? then lone.value else Fresh(c, at), at);
            ok == alone && Agrees(c, st', key, Some(lv), at)
  {
    TouchInRange(c, if key in st then st[key] else Fresh(c, at), at);
    if lone.Some? && key !in st {
      StaysFull(c, lone.value, t, at);
    }
    EarnedNothing(c, at);
  }

  lemma AgreesAfterOtherCall(c: Config, st: Levels, key: string, lone: Option<Level>, t: Instant,
                             j: string, at: Instant)
    requires c.Valid() && t <= at && Agrees(c, st, key, lone, t) && j != key
    ensures Agrees(c, AllowStep(c, st, j, at).0, key, lone, at)
  {
    TouchInRange(c, if j in st then st[j] else Fresh(c, at), at);
    if lone.Some? && key !in st {
      StaysFull(c, lone.value, t, at);
    }
  }

  lemma AgreesAfterTick(c: Config, st: Levels, key: string, lone: Option<Level>, t: Instant, at: Instant)
    requires c.Valid() && t <= at && Agrees(c, st, key, lone, t)
    ensures Agrees(c, SweepStep(c, st, at), key, lone, at)
  {
    if key in st {
      if at - st[key].last > 2.0 * c.window {
        IdleIsFull(c, st[key], at);
      }
    } else if lone.Some? {
      StaysFull(c, lone.value, t, at);
    }
  }

  lemma {:induction false} MapRefinesPrivateBucket(c: Config, st: Levels, h: seq<Event>, key: string,
                                                   lone: Option<Level>, t: Instant)
    requires c.Valid() && Forward(h, t) && Agrees(c, st, key, lone, t)
    ensures Answers(c, st, h, key) == Alone(c, lone, CallsOf(h, key))
    decreases |h|
  {
    if h != [] {
      var at, rest := h[0].at, CallsOf(h[1..], key);
      match h[0] {
        case Tick(_) =>
          AgreesAfterTick(c, st, key, lone, t, at);
          MapRefinesPrivateBucket(c, SweepStep(c, st, at), h[1..], key, lone, at);
          assert CallsOf(h, key) == rest;
        case Call(j, _) =>
          var st' := AllowStep(c, st, j, at).0;
          if j == key {
            AgreesAfterOwnCall(c, st, key, lone, t, at);
            var lv := Touch(c, if lone.Some? then lone.value else Fresh(c, at), at).0;
            MapRefinesPrivateBucket(c, st', h[1..], key, Some(lv), at);
            assert CallsOf(h, key) == [at] + rest && ([at] + rest)[1..] == rest;
          } else {
            AgreesAfterOtherCall(c, st, key, lone, t, j, at);
            MapRefinesPrivateBucket(c, st', h[1..], key, lone, at);
            assert CallsOf(h, key) == rest;
          }
      }
    }
  }

  /** From an empty map, whatever other keys do and whenever the map is swept,
      each key is answered as by a private bucket that is never swept. */
  lemma EachKeyHasItsOwnBucket(c: Config, h: seq<Event>, key: string, t: Instant)
    requires c.Valid() && Forward(h, t)
    ensures Answers(c, map[], h, key) == Alone(c, None, CallsOf(h, key))
  {
    MapRefinesPrivateBucket(c, map[], h, key, None, t);
  }

  /** What other keys do, and when the map is swept, makes no difference. */
  lemma OnlyOwnCallsMatter(c: Config, h: seq<Event>, g: seq<Event>, key: string, t: Instant)
    requires c.Valid() && Forward(h, t) && Forward(g, t) && CallsOf(h, key) == CallsOf(g, key)
    ensures Answers(c, map[], h, key) == Answers(c, map[], g, key)
  {
    EachKeyHasItsOwnBucket(c, h, key, t);
    EachKeyHasItsOwnBucket(c, g, key, t);
  }

  // -------------------------------------------------------- admission bounds

  function Admitted(answers: seq<bool>): nat {
    if answers == [] then 0 else (if answers[0] then 1 else 0) + Admitted(answers[1..])
  }

  /** What a key could spend at once at time `t`. */
  function Available(c: Config, st: Levels, key: string, t: Instant): real
  {
    if key in st then Refilled(c, st[key], t) else c.burst as real
  }

  lemma AvailableGrows(c: Config, st: Levels, key: string, t: Instant, u: Instant)
    requires c.Valid() && t <= u
    ensures Available(c, st, key, u) <= Available(c, st, key, t) + Earned(c, t, u)
  {
    EarnedNotNegative(c, t, u);
    if key in st {
      EarnedAdds(c, st[key].last, t, u);
    }
  }

  lemma CallSpends(c: Config, st: Levels, key: string, j: string, at: Instant)
    requires c.Valid() && Sound(c, st, at)
    ensures var (st', ok) := AllowStep(c, st, j, at);
            && Sound(c, st', at)
            && Available(c, st', key, at)
                 == Available(c, st, key, at) - (if ok && j == key then 1.0 else 0.0)
  {
    TouchInRange(c, if j in st then st[j] else Fresh(c, at), at);
    if key == j {
      var lv := AllowStep(c, st, j, at).0[j];
      JustTouched(c, lv.tokens, at);
      if j !in st {
        JustTouched(c, c.burst as real, at);
      }
    }
  }

  lemma JustTouched(c: Config, tokens: real, at: Instant)
    requires tokens <= c.burst as real
    ensures Refilled(c, Level(tokens, at), at) == tokens
  {
    EarnedNothing(c, at);
  }

  lemma TickSpendsNothing(c: Config, st: Levels, key: string, at: Instant)
    requires c.Valid() && Sound(c, st, at)
    ensures Sound(c, SweepStep(c, st, at), at)
    ensures Available(c, SweepStep(c, st, at), key, at) == Available(c, st, key, at)
  {
    if key in st && at - st[key].last > 2.0 * c.window {
      IdleIsFull(c, st[key], at);
    }
  }

  lemma AvailableNotNegative(c: Config, st: Levels, key: string, t: Instant)
    requires c.Valid() && Sound(c, st, t)
    ensures 0.0 <= Available(c, st, key, t) <= c.burst as real
  {
    if key in st {
      EarnedNotNegative(c, st[key].last, t);
    }
  }

  lemma {:induction false} SpendingBound(c: Config, st: Levels, h: seq<Event>, key: string,
                                         t: Instant, u: Instant)
    requires c.Valid() && Sound(c, st, t) && Forward(h, t)
    requires t <= u && forall i :: 0 <= i < |h| ==> h[i].at <= u
    ensures Admitted(Answers(c, st, h, key)) as real <= Available(c, st, key, t) + Earned(c, t, u)
    decreases |h|
  {
    if h == [] {
      EarnedNotNegative(c, t, u);
      AvailableNotNegative(c, st, key, t);
    } else {
      var at := h[0].at;
      AvailableGrows(c, st, key, t, at);
      EarnedAdds(c, t, at, u);
      match h[0] {
        case Tick(_) =>
          TickSpendsNothing(c, st, key, at);
          SpendingBound(c, SweepStep(c, st, at), h[1..], key, at, u);
        case Call(j, _) =>
          var (st', ok) := AllowStep(c, st, j, at);
          CallSpends(c, st, key, j, at);
          SpendingBound(c, st', h[1..], key, at, u);
          var rest := Answers(c, st', h[1..], key);
          assert ([ok] + rest)[1..] == rest && [] + rest == rest;
      }
    }
  }

  /** After any earlier history, the calls of one key that fall between `s` and
      `u` are admitted at most `burst + rate * (u - s)` times. */
  lemma AdmissionBound(c: Config, earlier: seq<Event>, h: seq<Event>, key: string,
                       t: Instant, s: Instant, u: Instant)
    requires c.Valid() && t <= s <= u
    requires Forward(earlier, t) && (forall i :: 0 <= i < |earlier| ==> earlier[i].at <= s)
    requires Forward(h, s) && (forall i :: 0 <= i < |h| ==> h[i].at <= u)
    ensures Admitted(Answers(c, After(c, map[], earlier), h, key)) as real
              <= c.burst as real + Earned(c, s, u)
  {
    SoundAfter(c, map[], earlier, t, s);
    SpendingBound(c, After(c, map[], earlier), h, key, s, u);
    AvailableNotNegative(c, After(c, map[], earlier), key, s);
  }

  // ------------------------------------------------------- calls in any order

  /** No sweep of the history drops the bucket of `key`. */
  predicate NeverDropped(c: Config, st: Levels, h: seq<Event>, key: string)
    decreases |h|
  {
    h == [] ||
    match h[0]
    case Call(j, at) => NeverDropped(c, AllowStep(c, st, j, at).0, h[1..], key)
    case Tick(at) =>
      (key in st ==> key in SweepStep(c, st, at)) && NeverDropped(c, SweepStep(c, st, at), h[1..], key)
  }

  ghost predicate CallsWithin(h: seq<Event>, key: string, s: Instant, u: Instant) {
    forall i :: 0 <= i < |h| && h[i].Call? && h[i].key == key ==> s <= h[i].at <= u
  }

  lemma LaterCallsWithin(h: seq<Event>, key: string, s: Instant, u: Instant)
    requires CallsWithin(h, key, s, u) && h != []
    ensures CallsWithin(h[1..], key, s, u)
    ensures h[0].Call? && h[0].key == key ==> s <= h[0].at <= u
  {
  }

  lemma RefillsAtMost(c: Config, lv: Level, at: Instant)
    ensures Refilled(c, lv, at) <= lv.tokens + Earned(c, lv.last, at) && Refilled(c, lv, at) <= c.burst as real
  {
  }

  /** A call and what comes after it, whatever its clock says: what a bucket could
      hold by `u` pays for both. */
  lemma CallIsPaidFor(c: Config, lv: Level, at: Instant, u: Instant, more: nat)
    requires c.Valid() && at <= u
    requires var next := Touch(c, lv, at).0; more == 0 || more as real <= next.tokens + Earned(c, next.last, u)
    ensures var total := more + if Touch(c, lv, at).1 then 1 else 0;
      && (total == 0 || total as real <= lv.tokens + Earned(c, lv.last, u))
      && total as real <= c.burst as real + Earned(c, at, u)
  {
    hide Refilled, Earned;
    RefillsAtMost(c, lv, at);
    EarnedAdds(c, lv.last, at, u);
    EarnedNotNegative(c, at, u);
  }

  lemma OneMoreAnswer(ok: bool, rest: seq<bool>)
    ensures Admitted([ok] + rest) == Admitted(rest) + if ok then 1 else 0
  {
    assert ([ok] + rest)[1..] == rest;
  }

  /** What a key still gets from the bucket it has. */
  lemma {:induction false} OwnBucketPays(c: Config, st: Levels, h: seq<Event>, key: string, s: Instant, u: Instant)
    requires c.Valid() && key in st && NeverDropped(c, st, h, key) && CallsWithin(h, key, s, u)
    ensures var n := Admitted(Answers(c, st, h, key));
      n == 0 || n as real <= st[key].tokens + Earned(c, st[key].last, u)
    decreases |h|
  {
    hide Earned, Refilled, Touch, CallsWithin;
    if h != [] {
      LaterCallsWithin(h, key, s, u);
      match h[0] {
        case Tick(at) =>
          OwnBucketPays(c, SweepStep(c, st, at), h[1..], key, s, u);
        case Call(j, at) =>
          var (next, ok) := AllowStep(c, st, j, at);
          var rest := Answers(c, next, h[1..], key);
          OwnBucketPays(c, next, h[1..], key, s, u);
          if j == key {
            CallIsPaidFor(c, st[key], at, u, Admitted(rest));
            OneMoreAnswer(ok, rest);
          } else {
            assert [] + rest == rest;
          }
      }
    }
  }

  /** Calls that read the clock before they wait for the lock can come in any order.
      Even then, from any state of the map, the calls of a key that say they happened
      between `s` and `u` are admitted at most `burst + rate * (u - s)` times, unless
      a sweep among them drops the key's bucket. */
  lemma {:induction false} AnyOrderBound(c: Config, st: Levels, h: seq<Event>, key: string, s: Instant, u: Instant)
    requires c.Valid() && s <= u && NeverDropped(c, st, h, key) && CallsWithin(h, key, s, u)
    ensures Admitted(Answers(c, st, h, key)) as real <= c.burst as real + Earned(c, s, u)
    decreases |h|
  {
    EarnedNotNegative(c, s, u);
    hide Earned, Refilled, Touch, CallsWithin;
    if h != [] {
      LaterCallsWithin(h, key, s, u);
      match h[0] {
        case Tick(at) =>
          AnyOrderBound(c, SweepStep(c, st, at), h[1..], key, s, u);
        case Call(j, at) =>
          var (next, ok) := AllowStep(c, st, j, at);
          var rest := Answers(c, next, h[1..], key);
          if j == key {
            OwnBucketPays(c, next, h[1..], key, s, u);
            CallIsPaidFor(c, if key in st then st[key] else Fresh(c, at), at, u, Admitted(rest));
            OneMoreAnswer(ok, rest);
            EarnedAdds(c, s, at, u);
            EarnedNotNegative(c, s, at);
          } else {
            AnyOrderBound(c, next, h[1..], key, s, u);
            assert [] + rest == rest;
          }
      }
    }
  }

  // ------------------------------------------------ bursts at one instant

  /** `n` calls at one instant. */
  function Calls(key: string, at: Instant, n: nat): seq<Event> {
    if n == 0 then [] else [Call(key, at)] + Calls(key, at, n - 1)
  }

  lemma {:induction false} HistoryJoins(c: Config, st: Levels, a: seq<Event>, b: seq<Event>, key: string)
    ensures After(c, st, a + b) == After(c, After(c, st, a), b)
    ensures Answers(c, st, a + b, key) == Answers(c, st, a, key) + Answers(c, After(c, st, a), b, key)
    decreases |a|
  {
    hide AllowStep, SweepStep;
    if a == [] {
      assert a + b == b;
    } else {
      assert (a + b)[1..] == a[1..] + b;
      match a[0]
      case Call(j, at) => HistoryJoins(c, AllowStep(c, st, j, at).0, a[1..], b, key);
      case Tick(at) => HistoryJoins(c, SweepStep(c, st, at), a[1..], b, key);
    }
  }

  lemma {:induction false} AdmittedJoins(a: seq<bool>, b: seq<bool>)
    ensures Admitted(a + b) == Admitted(a) + Admitted(b)
  {
    if a == [] {
      assert a + b == b;
    } else {
      assert (a + b)[1..] == a[1..] + b;
      AdmittedJoins(a[1..], b);
    }
  }

  /** The bucket of a key that has `n` tokens at an instant, after `n` calls then. */
  lemma {:induction false} CallsDrain(c: Config, st: Levels, key: string, at: Instant, n: nat)
    requires n <= c.burst && Available(c, st, key, at) == n as real
    ensures Admitted(Answers(c, st, Calls(key, at, n), key)) == n
    ensures n > 0 ==> After(c, st, Calls(key, at, n)) == st[key := Level(0.0, at)]
    decreases n
  {
    if n > 0 {
      CallTakesOne(c, st, key, at);
      var next := st[key := Level((n - 1) as real, at)];
      JustTouched(c, (n - 1) as real, at);
      CallsDrain(c, next, key, at, n - 1);
      hide AllowStep, Refilled;
      AnswersToCall(c, st, key, at, Calls(key, at, n - 1));
      OneMoreAnswer(true, Answers(c, next, Calls(key, at, n - 1), key));
      AfterCall(c, st, key, at, Calls(key, at, n - 1));
      assert n - 1 > 0 ==> next[key := Level(0.0, at)] == st[key := Level(0.0, at)];
    }
  }

  lemma CallTakesOne(c: Config, st: Levels, key: string, at: Instant)
    requires Available(c, st, key, at) >= 1.0
    ensures AllowStep(c, st, key, at) == (st[key := Level(Available(c, st, key, at) - 1.0, at)], true)
  {
    if key !in st {
      JustTouched(c, c.burst as real, at);
    }
  }

  lemma AnswersToCall(c: Config, st: Levels, key: string, at: Instant, h: seq<Event>)
    ensures var (next, ok) := AllowStep(c, st, key, at);
      Answers(c, st, [Call(key, at)] + h, key) == [ok] + Answers(c, next, h, key)
  {
    assert ([Call(key, at)] + h)[1..] == h;
    hide AllowStep;
  }

  lemma AfterCall(c: Config, st: Levels, key: string, at: Instant, h: seq<Event>)
    ensures After(c, st, [Call(key, at)] + h) == After(c, AllowStep(c, st, key, at).0, h)
  {
    assert ([Call(key, at)] + h)[1..] == h;
    hide AllowStep;
  }

  lemma OneTick(c: Config, st: Levels, key: string, at: Instant)
    ensures After(c, st, [Tick(at)]) == SweepStep(c, st, at) && Answers(c, st, [Tick(at)], key) == []
  {
    assert [Tick(at)][1..] == [];
    hide SweepStep;
  }

  lemma SweptAway(c: Config, key: string, lv: Level, now: Instant)
    requires now - lv.last > 2.0 * c.window
    ensures SweepStep(c, map[key := lv], now) == map[]
  {
  }

  lemma NewIsFull(c: Config, key: string, at: Instant)
    ensures Available(c, map[], key, at) == c.burst as real
  {
  }

  /** Once the bucket is swept a whole burst passes, whatever the calls' clocks say. */
  lemma SweptThenFull(c: Config, key: string, lv: Level, now: Instant, at: Instant)
    requires c.burst >= 0 && now - lv.last > 2.0 * c.window
    ensures Admitted(Answers(c, map[key := lv], [Tick(now)] + Calls(key, at, c.burst), key)) == c.burst
  {
    hide *;
    var calls := Calls(key, at, c.burst);
    NewIsFull(c, key, at);
    SweptAway(c, key, lv, now);
    OneTick(c, map[key := lv], key, now);
    CallsDrain(c, map[], key, at, c.burst);
    HistoryJoins(c, map[key := lv], [Tick(now)], calls, key);
    assert [] + Answers(c, map[], calls, key) == Answers(c, map[], calls, key);
  }

  /** With one such sweep it fails, for every limiter that admits anything: calls that
      wait for the lock while their key's bucket is swept find a full bucket for an
      instant that was already spent. */
  lemma SweepBetweenLateCalls(c: Config, key: string, at: Instant)
    requires c.Valid() && c.burst >= 1
    ensures var h := Calls(key, at, c.burst) + ([Tick(at + 3.0 * c.window)] + Calls(key, at, c.burst));
      Earned(c, at, at) == 0.0 && Admitted(Answers(c, map[], h, key)) == 2 * c.burst
  {
    var calls, tick := Calls(key, at, c.burst), [Tick(at + 3.0 * c.window)];
    var spent := map[key := Level(0.0, at)];
    EarnedNothing(c, at);
    CallsDrain(c, map[], key, at, c.burst);
    SweptThenFull(c, key, Level(0.0, at), at + 3.0 * c.window, at);
    hide Earned, SweepStep, Calls, Answers, After, Admitted;
    HistoryJoins(c, map[], calls, tick + calls, key);
    AdmittedJoins(Answers(c, map[], calls, key), Answers(c, spent, tick + calls, key));
  }

  // ------------------------------------------------------- patient callers

  /** A key whose last call lies at least window/burst back is admitted. */
  lemma PatientCallerIsAdmitted(c: Config, st: Levels, key: string, now: Instant)
    requires c.Valid() && c.burst >= 1 && Sound(c, st, now)
    requires key in st ==> (now - st[key].last) * c.burst as real >= c.window
    ensures AllowStep(c, st, key, now).1
  {
    if key in st {
      PatientRefill(c, st[key].last, now);
    }
  }

  lemma MonotoneFactor(a: real, b: real, w: real)
    requires w > 0.0 && a * w <= b * w
    ensures a <= b
  {
  }

  lemma PatientRefill(c: Config, since: Instant, now: Instant)
    requires c.Valid() && c.burst >= 1 && (now - since) * c.burst as real >= c.window
    ensures Earned(c, since, now) >= 1.0
  {
    var d := now - since;
    calc {
      (d * c.rate) * c.window;
      d * (c.rate * c.window);
      d * c.burst as real;
    >=
      c.window;
    }
    MonotoneFactor(1.0, d * c.rate, c.window);
  }

  lemma {:induction false} DrainsOneByOne(c: Config, st: Levels, key: string, now: Instant, level: nat, n: nat)
    requires c.Valid() && level <= c.burst
    requires Available(c, st, key, now) == level as real
    ensures Answers(c, st, seq(n, _ => Call(key, now)), key) == seq(n, i => i < level)
    decreases n
  {
    var h := seq(n, _ => Call(key, now));
    if n > 0 {
      var (st', ok) := AllowStep(c, st, key, now);
      EarnedNothing(c, now);
      assert ok == (level >= 1);
      var level' := if ok then level - 1 else level;
      assert Available(c, st', key, now) == level' as real;
      assert h[1..] == seq(n - 1, _ => Call(key, now));
      DrainsOneByOne(c, st', key, now, level', n - 1);
      assert Answers(c, st, h, key) == [ok] + seq(n - 1, i => i < level');
    }
  }

  /** After an idle window (or on a first call) exactly `burst` of any number
      of calls at one instant are admitted, and they come first. */
  lemma FullWindowRestoresBurst(c: Config, st: Levels, key: string, now: Instant, n: nat)
    requires c.Valid() && Sound(c, st, now)
    requires key in st ==> now - st[key].last >= c.window
    ensures Answers(c, st, seq(n, _ => Call(key, now)), key) == seq(n, i => i < c.burst)
  {
    if key in st {
      IdleIsFull(c, st[key], now);
    }
    DrainsOneByOne(c, st, key, now, c.burst, n);
  }

  /** What a sweep at `now` leaves was used within the last two windows, so the
      map never outgrows the set of recent callers. */
  lemma SweepKeepsRecentCallers(c: Config, h: seq<Event>, now: Instant)
    ensures forall k :: k in SweepStep(c, After(c, map[], h), now) ==>
      exists i :: 0 <= i < |h| && h[i].Call? && h[i].key == k && now - h[i].at <= 2.0 * c.window
  {
    LastUseIsACall(c, map[], h, []);
    assert [] + h == h;
  }

  ghost predicate UsedIn(lv: Level, k: string, h: seq<Event>) {
    exists i :: 0 <= i < |h| && h[i] == Call(k, lv.last)
  }

  lemma {:induction false} LastUseIsACall(c: Config, st: Levels, h: seq<Event>, before: seq<Event>)
    requires forall k :: k in st ==> UsedIn(st[k], k, before)
    ensures forall k :: k in After(c, st, h) ==> UsedIn(After(c, st, h)[k], k, before + h)
    decreases |h|
  {
    if h == [] {
      assert before + h == before;
    } else {
      var seen := before + [h[0]];
      assert seen[|before|] == h[0];
      assert forall lv, k :: UsedIn(lv, k, before) ==> UsedIn(lv, k, seen) by {
        assert forall i :: 0 <= i < |before| ==> seen[i] == before[i];
      }
      assert seen + h[1..] == before + h;
      match h[0]
      case Call(j, at) => LastUseIsACall(c, AllowStep(c, st, j, at).0, h[1..], seen);
      case Tick(at) => LastUseIsACall(c, SweepStep(c, st, at), h[1..], seen);
    }
  }
}
