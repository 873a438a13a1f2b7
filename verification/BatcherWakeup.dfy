/**
 No stranded batch (flushLoop, Add and batchState in protocol/batch.go): whenever the flush loop
 is about to block with data in the buffer, something is on its way to wake it, and when it wakes
 for a flush, the data is in a batch before it blocks again.
 */
module BatcherWakeup {
  import opened Bytes
  import opened Frames
  import opened Batcher
  import Fifo = BatcherFifo

  /** An Add call between its write and its signal. */
  ghost predicate SignalPending(adders: seq<Adder>) {
    exists i :: 0 <= i < |adders| && adders[i].Signalling?
  }

  /** A token waits in a channel, or an adder is about to put one there. */
  ghost predicate Prompted(s: State) {
    s.sig.activity || s.sig.flush || SignalPending(s.adders)
  }

  /**
   The max timer stands at exactly this batch's start plus its once-rolled delay, the idle timer
   at the last write plus the idle delay.
   */
  ghost predicate Armed(s: State, idle: Time) {
    && s.sig.maxAt == Some(s.times.startedAt + s.times.maxDelay)
    && s.sig.idleAt == Some(s.times.lastQueuedAt + idle)
  }

  ghost predicate NoStranded(s: State, idle: Time) {
    s.pc.Select? && s.store.buf != [] ==> Prompted(s) || Armed(s, idle)
  }

  /** The same while the loop holds the snapshot it is about to set the timers from. */
  ghost predicate SnapshotCurrent(s: State) {
    s.pc.Setting? ==>
      match s.pc.snap
      case None => s.store.buf != [] ==> Prompted(s)
      case Some(b) =>
        && s.store.buf != [] && b.startedAt == s.times.startedAt && b.maxDelay == s.times.maxDelay
        && (b.lastQueuedAt == s.times.lastQueuedAt || Prompted(s))
  }

  ghost predicate Inv(s: State, idle: Time) {
    NoStranded(s, idle) && SnapshotCurrent(s)
  }

  /** The idle delay the loop last set its timers with. */
  function LastIdle(evs: seq<Event>): Time {
    if evs == [] then 0
    else match evs[|evs| - 1]
      case SetTimers(idleDelay) => idleDelay
      case _ => LastIdle(evs[..|evs| - 1])
  }

  lemma SignalKeptBy(s: State, i: nat, a: Adder)
    requires i < |s.adders| && SignalPending(s.adders) && !s.adders[i].Signalling?
    ensures SignalPending(s.adders[i := a])
  {
    var j :| 0 <= j < |s.adders| && s.adders[j].Signalling?;
    assert s.adders[i := a][j].Signalling?;
  }

  lemma AdderStep(cfg: Config, s: State, ev: Event, i: nat, idle: Time)
    requires Inv(s, idle) && Enabled(cfg, s, ev)
    requires ev == Refuse(i) || ev == Check(i) || ev == Load(i) || ev == Compare(i) || (ev.Begin? && ev.i == i)
    ensures Inv(Apply(cfg, s, ev), idle)
  {
    if SignalPending(s.adders) {
      SignalKeptBy(s, i, Apply(cfg, s, ev).adders[i]);
    }
  }

  lemma WriteStep(cfg: Config, s: State, ev: Event, idle: Time)
    requires Inv(s, idle) && ev.Write? && Enabled(cfg, s, ev)
    ensures Inv(Apply(cfg, s, ev), idle)
  {
    assert Apply(cfg, s, ev).adders[ev.i].Signalling?;
  }

  lemma StepInv(cfg: Config, s: State, ev: Event, idle: Time)
    requires Inv(s, idle) && Enabled(cfg, s, ev)
    ensures Inv(Apply(cfg, s, ev), if ev.SetTimers? then ev.idleDelay else idle)
  {
    match ev
    case Begin(i, _) => AdderStep(cfg, s, ev, i, idle);
    case Refuse(i) => AdderStep(cfg, s, ev, i, idle);
    case Check(i) => AdderStep(cfg, s, ev, i, idle);
    case Load(i) => AdderStep(cfg, s, ev, i, idle);
    case Compare(i) => AdderStep(cfg, s, ev, i, idle);
    case Write(_, _, _) => WriteStep(cfg, s, ev, idle);
    case _ =>
  }

  /** In every reachable state, a loop about to block on a non-empty buffer will be woken. */
  lemma {:induction false} NoStrandedBatch(cfg: Config, adders: nat, clock: Time, evs: seq<Event>, s: State)
    requires Reaches(cfg, adders, clock, evs, s)
    ensures Inv(s, LastIdle(evs))
  {
    if evs != [] {
      var front := evs[..|evs| - 1];
      var p := Exec(cfg, Init(adders, clock), front).value;
      NoStrandedBatch(cfg, adders, clock, front, p);
      StepInv(cfg, p, evs[|evs| - 1], LastIdle(front));
    }
  }

  /** The delay is rolled once: later frames of a batch move neither its start nor its delay. */
  lemma DeadlineFixedPerBatch(cfg: Config, s: State, ev: Event)
    requires Enabled(cfg, s, ev) && s.store.buf != [] && Apply(cfg, s, ev).store.buf != []
    ensures Apply(cfg, s, ev).times.startedAt == s.times.startedAt
    ensures Apply(cfg, s, ev).times.maxDelay == s.times.maxDelay
  {}

  // ---------------------------------------------------------------- what a wake does

  predicate WakesToFlush(ev: Event) { ev == WakeMax || ev == WakeIdle || ev == WakeFlush || ev == WakeDone }

  /** The next batch after those of `st` takes up all that `st` has written and not taken. */
  ghost predicate InNextBatch(st: Store, t: Store) {
    && |st.batches| < |t.batches| && st.batches <= t.batches
    && t.batches[|st.batches|].lo == st.taken && |st.written| <= t.batches[|st.batches|].hi
  }

  /** From the wake to the take, and from then on. */
  ghost predicate Flushes(st: Store, s: State) {
    && st.written <= s.store.written
    && (InNextBatch(st, s.store)
        || (s.pc.Flushing? && s.store.batches == st.batches && s.store.taken == st.taken && s.store.buf != []))
  }

  lemma FlushesStep(cfg: Config, st: Store, s: State, ev: Event)
    requires Flushes(st, s) && Enabled(cfg, s, ev)
    ensures Flushes(st, Apply(cfg, s, ev))
  {
    if ev.Write? {
      assert st.written <= Apply(cfg, s, ev).store.written;
    }
  }

  /**
   A wake by the max timer, the idle timer, the flush token or Stop with data in the buffer: in
   every run that follows, the loop comes back to its select, or to its end, only with that data,
   all of it, in the next batch.
   */
  lemma {:induction false} WakeTakesBatch(cfg: Config, s: State, wake: Event, more: seq<Event>, t: State)
    requires WakesToFlush(wake) && Enabled(cfg, s, wake) && s.store.buf != []
    requires Exec(cfg, Apply(cfg, s, wake), more) == Some(t)
    ensures Flushes(s.store, t)
    ensures t.pc.Select? || t.pc.Stopped? ==> InNextBatch(s.store, t.store)
  {
    if more != [] {
      var n := |more| - 1;
      var p := Exec(cfg, Apply(cfg, s, wake), more[..n]).value;
      WakeTakesBatch(cfg, s, wake, more[..n], p);
      FlushesStep(cfg, s.store, p, more[n]);
    }
  }

  // ---------------------------------------------------------------- the deadlines

  /** An event that lets the blocked loop go on to a flush or to fresh timers. */
  ghost predicate CanWake(cfg: Config, s: State) {
    || Enabled(cfg, s, WakeActivity) || Enabled(cfg, s, WakeFlush) || Enabled(cfg, s, WakeMax)
    || exists i :: Enabled(cfg, s, Signal(i))
  }

  /**
   The hard cap: from the moment a batch is as old as its jittered maximal delay, a loop that
   is blocked on it always has a way to wake.
   */
  lemma NeverBlockedPastDeadline(cfg: Config, adders: nat, clock: Time, evs: seq<Event>, s: State)
    requires Reaches(cfg, adders, clock, evs, s)
    requires s.pc.Select? && s.store.buf != [] && s.clock >= s.times.startedAt + s.times.maxDelay
    ensures CanWake(cfg, s)
  {
    NoStrandedBatch(cfg, adders, clock, evs, s);
    if SignalPending(s.adders) {
      var i :| 0 <= i < |s.adders| && s.adders[i].Signalling?;
      assert Enabled(cfg, s, Signal(i));
    }
  }

  /** And a batch that nobody has added to for the idle delay is due as well. */
  lemma IdleBatchIsDue(cfg: Config, adders: nat, clock: Time, evs: seq<Event>, s: State)
    requires Reaches(cfg, adders, clock, evs, s)
    requires s.pc.Select? && s.store.buf != [] && s.clock >= s.times.lastQueuedAt + LastIdle(evs)
    ensures Prompted(s) || Enabled(cfg, s, WakeIdle)
  {
    NoStrandedBatch(cfg, adders, clock, evs, s);
  }

  lemma Extend(cfg: Config, s0: State, evs: seq<Event>, s: State, ev: Event) returns (evs': seq<Event>, s': State)
    requires Exec(cfg, s0, evs) == Some(s) && Enabled(cfg, s, ev)
    ensures s' == Apply(cfg, s, ev) && Exec(cfg, s0, evs') == Some(s')
  {
    evs', s' := evs + [ev], Apply(cfg, s, ev);
    assert evs'[..|evs|] == evs;
  }

  /** The frames and the clock of `s`, with everything in the buffer taken as one batch. */
  ghost predicate Emptied(s: State, t: State) {
    t.store == TakeAll(s.store) && t.clock == s.clock
  }

  lemma WakeAndTake(cfg: Config, s0: State, evs: seq<Event>, s: State, wake: Event)
    returns (evs': seq<Event>, t: State)
    requires Exec(cfg, s0, evs) == Some(s) && (wake == WakeMax || wake == WakeFlush) && Enabled(cfg, s, wake)
    requires s.store.buf != []
    ensures Exec(cfg, s0, evs') == Some(t) && Emptied(s, t)
  {
    evs', t := Extend(cfg, s0, evs, s, wake);
    evs', t := Extend(cfg, s0, evs', t, Take);
  }

  /** A token waits and the batch is overdue: the loop can take it at once. */
  lemma TokenTakes(cfg: Config, s0: State, evs: seq<Event>, s: State) returns (evs': seq<Event>, t: State)
    requires Exec(cfg, s0, evs) == Some(s) && s.pc.Select? && s.store.buf != [] && (s.sig.flush || s.sig.activity)
    requires s.clock >= s.times.startedAt + s.times.maxDelay
    ensures Exec(cfg, s0, evs') == Some(t) && Emptied(s, t)
  {
    if s.sig.flush {
      evs', t := WakeAndTake(cfg, s0, evs, s, WakeFlush);
    } else {
      evs', t := Extend(cfg, s0, evs, s, WakeActivity);
      evs', t := Extend(cfg, s0, evs', t, Read);
      evs', t := Extend(cfg, s0, evs', t, SetTimers(0));
      evs', t := WakeAndTake(cfg, s0, evs', t, WakeMax);
    }
  }

  /**
   So an overdue batch is never stuck: from every reachable state in which the loop is blocked on
   one there is a run, in which no time passes and nothing is added, that takes it whole.
   */
  lemma OverdueBatchCanGo(cfg: Config, adders: nat, clock: Time, evs: seq<Event>, s: State)
    returns (more: seq<Event>, t: State)
    requires Reaches(cfg, adders, clock, evs, s)
    requires s.pc.Select? && s.store.buf != [] && s.clock >= s.times.startedAt + s.times.maxDelay
    ensures Exec(cfg, s, more) == Some(t) && Emptied(s, t)
  {
    NoStrandedBatch(cfg, adders, clock, evs, s);
    more, t := [], s;
    if s.sig.flush || s.sig.activity {
      more, t := TokenTakes(cfg, s, more, t);
    } else if SignalPending(s.adders) {
      var i :| 0 <= i < |s.adders| && s.adders[i].Signalling?;
      more, t := Extend(cfg, s, more, t, Signal(i));
      more, t := TokenTakes(cfg, s, more, t);
    } else {
      more, t := WakeAndTake(cfg, s, more, t, WakeMax);
    }
  }

  // ---------------------------------------------------------------- a full buffer

  ghost predicate FlushPending(adders: seq<Adder>) {
    exists i :: 0 <= i < |adders| && adders[i] == Signalling(true)
  }

  /** A buffer of 48 MiB or more has a flush token, an adder about to send one, or a flush begun. */
  ghost predicate FullIsFlushed(s: State) {
    |s.store.buf| >= 50331648 ==> s.sig.flush || FlushPending(s.adders) || s.pc.Flushing?
  }

  lemma FullStep(cfg: Config, s: State, ev: Event)
    requires FullIsFlushed(s) && Enabled(cfg, s, ev)
    ensures FullIsFlushed(Apply(cfg, s, ev))
  {
    var t := Apply(cfg, s, ev);
    if ev.Write? && |t.store.buf| >= 50331648 {
      assert t.adders[ev.i] == Signalling(true);
    } else if FlushPending(s.adders) {
      var i :| 0 <= i < |s.adders| && s.adders[i] == Signalling(true);
      assert t.sig.flush || t.adders[i] == Signalling(true);
    }
  }

  lemma {:induction false} FullBufferIsFlushed(cfg: Config, adders: nat, clock: Time, evs: seq<Event>, s: State)
    requires Reaches(cfg, adders, clock, evs, s)
    ensures FullIsFlushed(s)
  {
    if evs != [] {
      var p := Exec(cfg, Init(adders, clock), evs[..|evs| - 1]).value;
      FullBufferIsFlushed(cfg, adders, clock, evs[..|evs| - 1], p);
      FullStep(cfg, p, evs[|evs| - 1]);
    }
  }
}
