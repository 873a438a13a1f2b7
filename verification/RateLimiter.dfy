/**
 The adaptive token bucket of telegram/ratelimit.go. Times and intervals are integer
 nanoseconds, tokens are real. Every operation runs under the mutex and reads the clock
 there, so a run is a sequence of operations with nondecreasing times.
 */
module RateLimiter {
  import opened Bytes

  type Time = int

  const MILLISECOND: int := 1_000_000
  const MIN_INTERVAL := 800 * MILLISECOND
  const MAX_INTERVAL := 30_000 * MILLISECOND
  const DECREASE_STEP := 50 * MILLISECOND
  const BURST_CAPACITY := 2.0

  datatype Config = Config(minInterval: int, maxInterval: int, decreaseStep: int, burst: real)

  const DEFAULT := Config(MIN_INTERVAL, MAX_INTERVAL, DECREASE_STEP, BURST_CAPACITY)

  datatype Bucket = Bucket(interval: int, tokens: real, lastRefill: Option<Time>)

  /** Go's integer division truncates toward zero. */
  function Quot(a: int, b: int): int requires b > 0 {
    if a >= 0 then a / b else -(-a / b)
  }

  function Refill(c: Config, b: Bucket, now: Time): Bucket
    requires b.interval > 0
  {
    match b.lastRefill
    case None => b.(lastRefill := Some(now))
    case Some(last) =>
      if now < last then b.(lastRefill := Some(now))
      else
        var tokens := b.tokens + (now - last) as real / b.interval as real;
        Bucket(b.interval, if tokens > c.burst then c.burst else tokens, Some(now))
  }

  /** One round of the Wait loop: a token is taken, or the bucket is left refilled. */
  function TryTake(c: Config, b: Bucket, now: Time): (Bucket, bool)
    requires b.interval > 0
  {
    var r := Refill(c, b, now);
    if r.tokens >= 1.0 then (r.(tokens := r.tokens - 1.0), true) else (r, false)
  }

  /** How long Wait sleeps after a failed round. */
  function SleepFor(b: Bucket): int {
    ((1.0 - b.tokens) * b.interval as real).Floor
  }

  function Lowered(c: Config, interval: int): int {
    var share := Quot(interval - c.minInterval, 10);
    var step := if share < c.decreaseStep then c.decreaseStep else share;
    if interval - step < c.minInterval then c.minInterval else interval - step
  }

  function Raised(c: Config, interval: int): int {
    var up := Quot(interval * 3, 2);
    if up > c.maxInterval then c.maxInterval else up
  }

  function RecordSend(c: Config, b: Bucket, now: Time): Bucket
    requires b.interval > 0
  {
    var r := Refill(c, b, now);
    r.(interval := Lowered(c, r.interval))
  }

  function RecordRetryAfter(c: Config, b: Bucket, now: Time): Bucket {
    Bucket(Raised(c, b.interval), 0.0, Some(now))
  }

  ghost predicate ValidConfig(c: Config) {
    0 < c.minInterval <= c.maxInterval && c.decreaseStep > 0 && c.burst >= 0.0
  }

  /** Tokens stay within the burst and the interval within its bounds. */
  ghost predicate Inv(c: Config, b: Bucket) {
    && ValidConfig(c)
    && c.minInterval <= b.interval <= c.maxInterval
    && 0.0 <= b.tokens <= c.burst
  }

  // ---------------------------------------------------------------- the object

  class Limiter {
    const cfg: Config
    var interval: int
    var tokens: real
    var lastRefill: Option<Time>

    ghost function State(): Bucket reads this { Bucket(interval, tokens, lastRefill) }

    ghost predicate Valid() reads this { Inv(cfg, State()) }

    constructor (cfg: Config, initial: int, now: Time)
      requires ValidConfig(cfg) && cfg.minInterval <= initial <= cfg.maxInterval
      ensures Valid() && this.cfg == cfg && State() == Bucket(initial, cfg.burst, Some(now))
    {
      this.cfg := cfg;
      interval, tokens, lastRefill := initial, cfg.burst, Some(now);
    }

    method Fill(now: Time)
      requires Valid()
      modifies this
      ensures Valid() && State() == Refill(cfg, old(State()), now)
    {
      RefillInv(cfg, State(), now);
      if lastRefill == None {
        lastRefill := Some(now);
        return;
      }
      if now < lastRefill.value {
        lastRefill := Some(now);
        return;
      }
      tokens := tokens + (now - lastRefill.value) as real / interval as real;
      if tokens > cfg.burst {
        tokens := cfg.burst;
      }
      lastRefill := Some(now);
    }

    /** The Wait loop over the clock readings of its rounds, until one of them gets a token. */
    method Wait(readings: seq<Time>) returns (granted: bool, rounds: nat)
      requires Valid()
      modifies this
      ensures Valid() && rounds <= |readings|
      ensures State() == After(cfg, old(State()), Takes(readings[..rounds]))
      ensures Granted(cfg, old(State()), Takes(readings[..rounds])) == (if granted then 1 else 0)
      ensures !granted ==> rounds == |readings|
    {
      granted, rounds := false, 0;
      ghost var b := State();
      while rounds < |readings|
        invariant Valid() && rounds <= |readings|
        invariant State() == After(cfg, b, Takes(readings[..rounds]))
        invariant Granted(cfg, b, Takes(readings[..rounds])) == 0
      {
        var now := readings[rounds];
        TakesAppend(readings, rounds);
        RunAppend(cfg, b, Takes(readings[..rounds]), Take(now));
        rounds := rounds + 1;
        Fill(now);
        if tokens >= 1.0 {
          tokens := tokens - 1.0;
          return true, rounds;
        }
      }
    }

    method Sent(now: Time)
      requires Valid()
      modifies this
      ensures Valid() && State() == RecordSend(cfg, old(State()), now)
    {
      StepInv(cfg, State(), Send(now));
      Fill(now);
      var step := Quot(interval - cfg.minInterval, 10);
      if step < cfg.decreaseStep {
        step := cfg.decreaseStep;
      }
      interval := interval - step;
      if interval < cfg.minInterval {
        interval := cfg.minInterval;
      }
    }

    method Limited(now: Time)
      requires Valid()
      modifies this
      ensures Valid() && State() == RecordRetryAfter(cfg, old(State()), now)
    {
      StepInv(cfg, State(), Retry(now));
      interval := Quot(interval * 3, 2);
      if interval > cfg.maxInterval {
        interval := cfg.maxInterval;
      }
      tokens := 0.0;
      lastRefill := Some(now);
    }
  }

  // ---------------------------------------------------------------- runs

  datatype Event = Take(t: Time) | Send(t: Time) | Retry(t: Time)

  function Step(c: Config, b: Bucket, ev: Event): Bucket
    requires b.interval > 0
  {
    match ev
    case Take(t) => TryTake(c, b, t).0
    case Send(t) => RecordSend(c, b, t)
    case Retry(t) => RecordRetryAfter(c, b, t)
  }

  function Grants(c: Config, b: Bucket, ev: Event): nat
    requires b.interval > 0
  {
    if ev.Take? && TryTake(c, b, ev.t).1 then 1 else 0
  }

  lemma QuotientNonNegative(a: int, b: int)
    requires a >= 0 && b > 0
    ensures a as real / b as real >= 0.0
  {}

  lemma RefillInv(c: Config, b: Bucket, now: Time)
    requires Inv(c, b)
    ensures Inv(c, Refill(c, b, now)) && Refill(c, b, now).lastRefill == Some(now)
      && Refill(c, b, now).interval == b.interval
  {
    if b.lastRefill.Some? && b.lastRefill.value <= now {
      QuotientNonNegative(now - b.lastRefill.value, b.interval);
    }
  }

  lemma StepInv(c: Config, b: Bucket, ev: Event)
    requires Inv(c, b)
    ensures Inv(c, Step(c, b, ev)) && Step(c, b, ev).lastRefill == Some(ev.t)
  {
    RefillInv(c, b, ev.t);
  }

  /** The state after a run. */
  function After(c: Config, b: Bucket, evs: seq<Event>): (r: Bucket)
    requires Inv(c, b)
    ensures Inv(c, r)
    decreases |evs|
  {
    if evs == [] then b else StepInv(c, b, evs[0]); After(c, Step(c, b, evs[0]), evs[1..])
  }

  /** How many Wait calls return in a run. */
  function Granted(c: Config, b: Bucket, evs: seq<Event>): nat
    requires Inv(c, b)
    decreases |evs|
  {
    if evs == [] then 0
    else StepInv(c, b, evs[0]); Grants(c, b, evs[0]) + Granted(c, Step(c, b, evs[0]), evs[1..])
  }

  function Takes(readings: seq<Time>): seq<Event> {
    seq(|readings|, i requires 0 <= i < |readings| => Take(readings[i]))
  }

  lemma TakesAppend(readings: seq<Time>, i: nat)
    requires i < |readings|
    ensures Takes(readings[..i + 1]) == Takes(readings[..i]) + [Take(readings[i])]
  {}

  lemma {:induction false} RunAppend(c: Config, b: Bucket, evs: seq<Event>, ev: Event)
    requires Inv(c, b)
    ensures After(c, b, evs + [ev]) == Step(c, After(c, b, evs), ev)
    ensures Granted(c, b, evs + [ev]) == Granted(c, b, evs) + Grants(c, After(c, b, evs), ev)
    decreases |evs|
  {
    if evs == [] {
      assert evs + [ev] == [ev] && [ev][1..] == [];
      StepInv(c, b, ev);
    } else {
      assert (evs + [ev])[1..] == evs[1..] + [ev];
      StepInv(c, b, evs[0]);
      RunAppend(c, Step(c, b, evs[0]), evs[1..], ev);
    }
  }

  /** The events come in time order, none before `t0` and none after `t1`. */
  ghost predicate InOrder(evs: seq<Event>, t0: Time, t1: Time) {
    && (forall i :: 0 <= i < |evs| ==> t0 <= evs[i].t <= t1)
    && (forall i, j :: 0 <= i < j < |evs| ==> evs[i].t <= evs[j].t)
  }

  /** What a refill at `t` would leave in the bucket. */
  ghost function Available(c: Config, b: Bucket, t: Time): real
    requires b.interval > 0
  {
    Refill(c, b, t).tokens
  }

  ghost predicate NotAfter(b: Bucket, t: Time) { b.lastRefill.Some? && b.lastRefill.value <= t }

  lemma ShareBound(d: int, interval: int, least: int)
    requires d >= 0 && 0 < least <= interval
    ensures 0.0 <= d as real / interval as real <= d as real / least as real
  {
    var x, y := d as real / interval as real, d as real / least as real;
    assert x * interval as real == d as real && y * least as real == d as real;
    assert x >= 0.0;
    assert x * (interval as real - least as real) >= 0.0;
    assert (y - x) * least as real >= 0.0;
  }

  lemma ShareAdd(a: int, b: int, n: int)
    requires n > 0
    ensures a as real / n as real + b as real / n as real == (a + b) as real / n as real
  {}

  /** The bucket fills no faster than one token per minimal interval. */
  lemma FillRate(c: Config, b: Bucket, t0: Time, t: Time)
    requires Inv(c, b) && NotAfter(b, t0) && t0 <= t
    ensures Available(c, b, t) <= Available(c, b, t0) + (t - t0) as real / c.minInterval as real
  {
    var last := b.lastRefill.value;
    ShareAdd(t0 - last, t - t0, b.interval);
    ShareBound(t - t0, b.interval, c.minInterval);
  }

  /** An operation gives away nothing that was not available. */
  lemma StepSpends(c: Config, b: Bucket, ev: Event)
    requires Inv(c, b) && NotAfter(b, ev.t)
    ensures Inv(c, Step(c, b, ev)) && NotAfter(Step(c, b, ev), ev.t)
    ensures Available(c, Step(c, b, ev), ev.t) + Grants(c, b, ev) as real <= Available(c, b, ev.t)
  {
    StepInv(c, b, ev);
    RefillInv(c, b, ev.t);
    var r := Step(c, b, ev);
    assert 0 as real / r.interval as real == 0.0;
  }

  lemma {:induction false} RateBound(c: Config, b: Bucket, evs: seq<Event>, t0: Time, t1: Time)
    requires Inv(c, b) && NotAfter(b, t0) && t0 <= t1 && InOrder(evs, t0, t1)
    ensures Granted(c, b, evs) as real <= Available(c, b, t0) + (t1 - t0) as real / c.minInterval as real
    decreases |evs|
  {
    if evs == [] {
      RefillInv(c, b, t0);
      QuotientNonNegative(t1 - t0, c.minInterval);
    } else {
      var ev, t := evs[0], evs[0].t;
      FillRate(c, b, t0, t);
      StepSpends(c, b, ev);
      RateBound(c, Step(c, b, ev), evs[1..], t, t1);
      ShareAdd(t - t0, t1 - t, c.minInterval);
    }
  }

  lemma {:induction false} RunLastRefill(c: Config, b: Bucket, evs: seq<Event>, t0: Time, t1: Time)
    requires Inv(c, b) && NotAfter(b, t0) && t0 <= t1 && InOrder(evs, t0, t1)
    ensures NotAfter(After(c, b, evs), t1)
    decreases |evs|
  {
    if evs != [] {
      StepSpends(c, b, evs[0]);
      RunLastRefill(c, Step(c, b, evs[0]), evs[1..], evs[0].t, t1);
    }
  }

  /**
   The rate bound over whole runs: whatever happened before, in any window of length T at most
   burst + T/minInterval Wait calls return.
   */
  lemma RateBoundAnyWindow(c: Config, b: Bucket, before: seq<Event>, window: seq<Event>, t0: Time, from: Time,
                           length: nat)
    requires Inv(c, b) && NotAfter(b, t0) && t0 <= from
    requires InOrder(before, t0, from) && InOrder(window, from, from + length)
    ensures Granted(c, After(c, b, before), window) as real <= c.burst + length as real / c.minInterval as real
  {
    RunLastRefill(c, b, before, t0, from);
    var mid := After(c, b, before);
    RateBound(c, mid, window, from, from + length);
    RefillInv(c, mid, from);
  }

  /** A waiter that sleeps as told, and a nanosecond more, finds a token if nobody else took one. */
  lemma SleepSuffices(c: Config, b: Bucket, now: Time)
    requires Inv(c, b) && c.burst >= 1.0 && !TryTake(c, b, now).1
    ensures var r := TryTake(c, b, now).0; TryTake(c, r, now + SleepFor(r) + 1).1
  {}

  /** And no shorter sleep would do. */
  lemma SleepIsLeast(c: Config, b: Bucket, now: Time, d: nat)
    requires Inv(c, b) && !TryTake(c, b, now).1
    requires d < SleepFor(TryTake(c, b, now).0)
    ensures !TryTake(c, TryTake(c, b, now).0, now + d).1
  {
    RefillInv(c, b, now);
    var r := TryTake(c, b, now).0;
    var share := d as real / r.interval as real;
    assert share * r.interval as real == d as real;
    assert d as real < (1.0 - r.tokens) * r.interval as real;
    Less(share, 1.0 - r.tokens, r.interval as real);
  }

  lemma Less(x: real, y: real, z: real)
    requires z > 0.0 && x * z < y * z
    ensures x < y
  {}

  // ---------------------------------------------------------------- interval control

  /** A success loses no token: what was available at that time still is. */
  lemma SuccessKeepsTokens(c: Config, b: Bucket, t: Time)
    requires Inv(c, b)
    ensures RecordSend(c, b, t).tokens == Available(c, b, t)
    ensures RecordSend(c, b, t).interval > 0 && Available(c, RecordSend(c, b, t), t) == Available(c, b, t)
  {
    StepInv(c, b, Send(t));
    RefillInv(c, b, t);
    assert 0 as real / RecordSend(c, b, t).interval as real == 0.0;
  }

  /** A rate limit raises the interval by half, rounded down, up to the maximum. */
  lemma RateLimitRaises(c: Config, b: Bucket, t: Time)
    requires Inv(c, b)
    ensures var i, n := b.interval, RecordRetryAfter(c, b, t).interval;
      && n <= c.maxInterval
      && (2 * n <= 3 * i < 2 * n + 2 || (n == c.maxInterval && 3 * i >= 2 * n))
      && (2 <= i < c.maxInterval ==> n > i)
  {}

  /** After a rate limit no Wait returns until a whole new interval has passed; then one can. */
  lemma RateLimitHolds(c: Config, b: Bucket, t: Time, later: Time)
    requires Inv(c, b) && c.burst >= 1.0 && t <= later
    ensures var r := RecordRetryAfter(c, b, t); r.interval > 0 && (TryTake(c, r, later).1 <==> later - t >= r.interval)
  {
    var r := RecordRetryAfter(c, b, t);
    StepInv(c, b, Retry(t));
    var share := (later - t) as real / r.interval as real;
    assert share * r.interval as real == (later - t) as real;
    if later - t >= r.interval {
      Ratio((later - t) as real, r.interval as real);
    } else {
      Ratio(r.interval as real, (later - t) as real);
    }
  }

  lemma Ratio(x: real, y: real)
    requires x >= y >= 0.0
    ensures y > 0.0 ==> x / y >= 1.0
    ensures x > y ==> y / x < 1.0
  {
    if x > y {
      var q := y / x;
      assert q * x == y;
      assert q >= 1.0 ==> (q - 1.0) * x >= 0.0;
    }
    if y > 0.0 {
      var q := x / y;
      assert q * y == x;
      assert q < 1.0 ==> (1.0 - q) * y > 0.0;
    }
  }

  /** The default interval after 0, 1, ... 9 rate limits in a row, from the minimum of 800 ms. */
  const LADDER: seq<int> := [800_000_000, 1_200_000_000, 1_800_000_000, 2_700_000_000, 4_050_000_000, 6_075_000_000,
                             9_112_500_000, 13_668_750_000, 20_503_125_000, 30_000_000_000]

  lemma LadderStep(x: int, k: nat)
    requires k < 9 && LADDER[k] <= x <= MAX_INTERVAL
    ensures Raised(DEFAULT, x) >= LADDER[k + 1] && (x == LADDER[k] ==> Raised(DEFAULT, x) == LADDER[k + 1])
    ensures LADDER[9] <= x ==> Raised(DEFAULT, x) == LADDER[9]
  {}

  lemma {:induction false} ClimbsLadder(b: Bucket, evs: seq<Event>)
    requires Inv(DEFAULT, b) && forall i :: 0 <= i < |evs| ==> evs[i].Retry?
    ensures var k := if |evs| < 9 then |evs| else 9; var n := After(DEFAULT, b, evs).interval;
      n >= LADDER[k] && (b.interval == LADDER[0] ==> n == LADDER[k])
  {
    if evs != [] {
      var n := |evs| - 1;
      ClimbsLadder(b, evs[..n]);
      assert evs == evs[..n] + [evs[n]];
      RunAppend(DEFAULT, b, evs[..n], evs[n]);
      LadderStep(After(DEFAULT, b, evs[..n]).interval, if n < 8 then n else 8);
    }
  }

  /** Nine rate limits in a row take any interval to 30 s; from 800 ms it takes all nine. */
  lemma NineRateLimitsReachMaximum(b: Bucket, evs: seq<Event>)
    requires Inv(DEFAULT, b) && forall i :: 0 <= i < |evs| ==> evs[i].Retry?
    ensures |evs| >= 9 ==> After(DEFAULT, b, evs).interval == 30_000_000_000
    ensures b.interval == 800_000_000 ==> (After(DEFAULT, b, evs).interval == 30_000_000_000 <==> |evs| >= 9)
  {
    ClimbsLadder(b, evs);
    assert After(DEFAULT, b, evs).interval <= LADDER[9];
  }

  /** A success lowers the interval strictly until it is at the minimum, and never below. */
  lemma SuccessLowers(c: Config, b: Bucket, t: Time)
    requires Inv(c, b)
    ensures var r := RecordSend(c, b, t);
      && c.minInterval <= r.interval <= b.interval
      && (b.interval > c.minInterval ==> r.interval < b.interval)
      && (b.interval == c.minInterval ==> r.interval == c.minInterval)
  {}

  /** The distance above the minimum after one success. */
  function Shrunk(x: nat): nat {
    if x / 10 >= DECREASE_STEP then x - x / 10 else if x >= DECREASE_STEP then x - DECREASE_STEP else 0
  }

  function Excess(x: nat, n: nat): nat
    decreases n
  {
    if n == 0 then x else Excess(Shrunk(x), n - 1)
  }

  lemma LoweredIsShrunk(x: nat)
    ensures Lowered(DEFAULT, MIN_INTERVAL + x) == MIN_INTERVAL + Shrunk(x)
  {}

  lemma {:induction false} IntervalAfterSends(b: Bucket, evs: seq<Event>)
    requires Inv(DEFAULT, b) && forall i :: 0 <= i < |evs| ==> evs[i].Send?
    ensures After(DEFAULT, b, evs).interval == MIN_INTERVAL + Excess(b.interval - MIN_INTERVAL, |evs|)
    decreases |evs|
  {
    if evs != [] {
      RefillInv(DEFAULT, b, evs[0].t);
      StepInv(DEFAULT, b, evs[0]);
      LoweredIsShrunk(b.interval - MIN_INTERVAL);
      IntervalAfterSends(Step(DEFAULT, b, evs[0]), evs[1..]);
    }
  }

  /** Each success takes off a tenth, and at least one step. */
  lemma ShrunkBound(x: nat)
    ensures 10 * Shrunk(x) <= 9 * x + 9
    ensures Shrunk(x) == 0 || Shrunk(x) + DECREASE_STEP <= x
  {}

  /** Seven successes more than halve the distance, up to rounding. */
  lemma SevenHalve(x: nat, n: nat) returns (y: nat)
    requires n >= 7
    ensures 1000 * y <= 479 * x + 6000 && Excess(x, n) == Excess(y, n - 7)
  {
    var a := Shrunk(x);
    var b := Shrunk(a);
    var c := Shrunk(b);
    var d := Shrunk(c);
    var e := Shrunk(d);
    var f := Shrunk(e);
    y := Shrunk(f);
    ShrunkBound(x);
    ShrunkBound(a);
    ShrunkBound(b);
    ShrunkBound(c);
    ShrunkBound(d);
    ShrunkBound(e);
    ShrunkBound(f);
    SevenSteps(x, n, a, b, c, d, e, f);
  }

  lemma SevenSteps(x: nat, n: nat, a: nat, b: nat, c: nat, d: nat, e: nat, f: nat)
    requires n >= 7 && a == Shrunk(x) && b == Shrunk(a) && c == Shrunk(b) && d == Shrunk(c) && e == Shrunk(d)
      && f == Shrunk(e)
    ensures Excess(x, n) == Excess(Shrunk(f), n - 7)
  {
    assert Excess(x, n) == Excess(a, n - 1);
    assert Excess(a, n - 1) == Excess(b, n - 2);
    assert Excess(b, n - 2) == Excess(c, n - 3);
    assert Excess(c, n - 3) == Excess(d, n - 4);
    assert Excess(d, n - 4) == Excess(e, n - 5);
    assert Excess(e, n - 5) == Excess(f, n - 6);
    assert Excess(f, n - 6) == Excess(Shrunk(f), n - 7);
  }

  lemma {:induction false} StepsFinish(x: nat, k: nat, n: nat)
    requires x <= k * DECREASE_STEP && k <= n
    ensures Excess(x, n) == 0
    decreases n
  {
    if n > 0 {
      ShrunkBound(x);
      StepsFinish(Shrunk(x), if k == 0 then 0 else k - 1, n - 1);
    }
  }

  lemma Recovers(x: nat, n: nat)
    requires x <= MAX_INTERVAL - MIN_INTERVAL && n >= 50
    ensures Excess(x, n) == 0
  {
    var a := SevenHalve(x, n);
    var b := SevenHalve(a, n - 7);
    var c := SevenHalve(b, n - 14);
    var d := SevenHalve(c, n - 21);
    var e := SevenHalve(d, n - 28);
    var f := SevenHalve(e, n - 35);
    assert f <= 8 * DECREASE_STEP;
    StepsFinish(f, 8, n - 42);
  }

  /** From any interval up to 30 s, 50 consecutive successes restore the 800 ms minimum. */
  lemma FiftySuccessesRestoreMinimum(b: Bucket, evs: seq<Event>)
    requires Inv(DEFAULT, b) && |evs| >= 50 && forall i :: 0 <= i < |evs| ==> evs[i].Send?
    ensures After(DEFAULT, b, evs).interval == 800_000_000
  {
    IntervalAfterSends(b, evs);
    Recovers(b.interval - MIN_INTERVAL, |evs|);
  }
}
