/**
 The batcher's history, read off the run alone: which frames were written, in which order and
 when (Add in protocol/batch.go).
 */
module BatcherRun {
  import opened Bytes
  import opened Frames
  import opened Batcher
  import Fifo = BatcherFifo

  /** The frame of the last Add call that adder i began. */
  function Begun(evs: seq<Event>, i: nat): Option<Entry> {
    if evs == [] then None
    else match evs[|evs| - 1]
      case Begin(j, e) => if i == j then Some(e) else Begun(evs[..|evs| - 1], i)
      case _ => Begun(evs[..|evs| - 1], i)
  }

  /** A write: the frame, the time it read, and the delay it rolled. */
  datatype Written = Written(e: Option<Entry>, now: Time, delay: Time)

  /** The writes of a run, in order. */
  function Writes(evs: seq<Event>): seq<Written> {
    if evs == [] then []
    else match evs[|evs| - 1]
      case Write(i, now, delay) =>
        Writes(evs[..|evs| - 1]) + [Written(Begun(evs[..|evs| - 1], i), now, delay)]
      case _ => Writes(evs[..|evs| - 1])
  }

  /** What an Add call has in hand before it writes. */
  ghost predicate Carries(a: Adder, e: Option<Entry>) {
    match a
    case Asking(x) => e == Some(x)
    case Loaded(x, _) => e == Some(x)
    case Admitted(x) => e == Some(x)
    case _ => true
  }

  /** The history is the run's: the frames written, and for the batch being filled its times. */
  ghost predicate Agrees(st: Store, times: Times, ws: seq<Written>) {
    && |st.written| == |ws|
    && (forall k :: 0 <= k < |ws| ==> ws[k].e == Some(st.written[k]))
    && (st.taken < |ws| ==>
         && times.startedAt == ws[st.taken].now && times.maxDelay == ws[st.taken].delay
         && times.lastQueuedAt == ws[|ws| - 1].now)
  }

  lemma CarriesStep(cfg: Config, s: State, evs: seq<Event>, ev: Event, i: nat)
    requires Enabled(cfg, s, ev) && i < |s.adders| && Carries(s.adders[i], Begun(evs, i))
    ensures i < |Apply(cfg, s, ev).adders| && Carries(Apply(cfg, s, ev).adders[i], Begun(evs + [ev], i))
  {
    assert (evs + [ev])[..|evs|] == evs;
  }

  lemma WritesLast(evs: seq<Event>, ev: Event)
    ensures Writes(evs + [ev]) ==
      if ev.Write? then Writes(evs) + [Written(Begun(evs, ev.i), ev.now, ev.delay)] else Writes(evs)
  {
    assert (evs + [ev])[..|evs|] == evs;
  }

  lemma WriteAgrees(st: Store, times: Times, ws: seq<Written>, e: Entry, now: Time, delay: Time)
    requires Fifo.Queue(st) && Agrees(st, times, ws)
    ensures Agrees(Enqueue(st, e), if st.buf == [] then Times(now, now, delay) else times.(lastQueuedAt := now),
                   ws + [Written(Some(e), now, delay)])
  {
    Fifo.EmptyBuffer(st.written[st.taken..]);
  }

  /** Only a write and a take touch the frames and the times. */
  lemma OthersKeep(cfg: Config, s: State, ev: Event)
    requires Enabled(cfg, s, ev) && !ev.Write? && !(ev.Take? && s.store.buf != [])
    ensures Apply(cfg, s, ev).store == s.store && Apply(cfg, s, ev).times == s.times
  {}

  lemma AgreesStep(cfg: Config, s: State, evs: seq<Event>, ev: Event)
    requires Fifo.Queue(s.store) && Enabled(cfg, s, ev) && Agrees(s.store, s.times, Writes(evs))
    requires ev.Write? ==> Carries(s.adders[ev.i], Begun(evs, ev.i))
    ensures Agrees(Apply(cfg, s, ev).store, Apply(cfg, s, ev).times, Writes(evs + [ev]))
  {
    WritesLast(evs, ev);
    if ev.Write? {
      WriteAgrees(s.store, s.times, Writes(evs), s.adders[ev.i].e, ev.now, ev.delay);
    } else if !(ev.Take? && s.store.buf != []) {
      OthersKeep(cfg, s, ev);
    }
  }

  lemma {:induction false} RunInv(cfg: Config, adders: nat, clock: Time, evs: seq<Event>, s: State)
    requires Reaches(cfg, adders, clock, evs, s)
    ensures Agrees(s.store, s.times, Writes(evs)) && |s.adders| == adders
    ensures forall i :: 0 <= i < adders ==> Carries(s.adders[i], Begun(evs, i))
  {
    if evs != [] {
      var n := |evs| - 1;
      var front, p := evs[..n], Exec(cfg, Init(adders, clock), evs[..n]).value;
      assert front + [evs[n]] == evs;
      RunInv(cfg, adders, clock, front, p);
      Fifo.ReachInv(cfg, adders, clock, front, p);
      AgreesStep(cfg, p, front, evs[n]);
      forall i | 0 <= i < adders ensures i < |s.adders| && Carries(s.adders[i], Begun(evs, i)) {
        CarriesStep(cfg, p, front, evs[n], i);
      }
    }
  }

  /** Every write of a run rolled a delay within 15 percent of the configured one. */
  lemma {:induction false} DelaysJittered(cfg: Config, adders: nat, clock: Time, evs: seq<Event>, s: State)
    requires Reaches(cfg, adders, clock, evs, s)
    ensures forall k :: 0 <= k < |Writes(evs)| ==>
      85 * cfg.maxFlushDelay <= 100 * Writes(evs)[k].delay <= 115 * cfg.maxFlushDelay
  {
    if evs != [] {
      DelaysJittered(cfg, adders, clock, evs[..|evs| - 1], Exec(cfg, Init(adders, clock), evs[..|evs| - 1]).value);
    }
  }

  /**
   The history is true. In every run the frames written are those of the Add calls that reached
   their write, in the order of the writes; and while a batch is being filled, its start and its
   delay are those of the first write after the last take, and its last time that of the last write.
   */
  lemma HistoryIsRun(cfg: Config, adders: nat, clock: Time, evs: seq<Event>, s: State)
    requires Reaches(cfg, adders, clock, evs, s)
    ensures var ws := Writes(evs);
      && |s.store.written| == |ws| && (forall k :: 0 <= k < |ws| ==> ws[k].e == Some(s.store.written[k]))
      && (s.store.buf != [] ==>
           && s.store.taken < |ws|
           && s.times.startedAt == ws[s.store.taken].now && s.times.lastQueuedAt == ws[|ws| - 1].now
           && s.times.maxDelay == ws[s.store.taken].delay
           && 85 * cfg.maxFlushDelay <= 100 * s.times.maxDelay <= 115 * cfg.maxFlushDelay)
  {
    RunInv(cfg, adders, clock, evs, s);
    Fifo.ReachInv(cfg, adders, clock, evs, s);
    Fifo.EmptyBuffer(s.store.written[s.store.taken..]);
    DelaysJittered(cfg, adders, clock, evs, s);
  }

  /** The number of frames that were written before the call of Stop. */
  function WrittenBeforeStop(evs: seq<Event>): nat {
    if evs == [] then 0
    else if evs[|evs| - 1].Stop? then |Writes(evs[..|evs| - 1])|
    else WrittenBeforeStop(evs[..|evs| - 1])
  }

  lemma {:induction false} MarkIsRun(cfg: Config, adders: nat, clock: Time, evs: seq<Event>, s: State)
    requires Reaches(cfg, adders, clock, evs, s)
    ensures s.stopMark == WrittenBeforeStop(evs)
  {
    if evs != [] {
      var n := |evs| - 1;
      var p := Exec(cfg, Init(adders, clock), evs[..n]).value;
      MarkIsRun(cfg, adders, clock, evs[..n], p);
      RunInv(cfg, adders, clock, evs[..n], p);
      MarkStep(cfg, p, evs[n]);
    }
  }

  lemma MarkStep(cfg: Config, s: State, ev: Event)
    requires Enabled(cfg, s, ev)
    ensures Apply(cfg, s, ev).stopMark == if ev.Stop? then |s.store.written| else s.stopMark
  {}

  /** An Add call that finds room is never refused. */
  lemma RefusedOnlyWhenFull(cfg: Config, s: State, i: nat)
    requires Enabled(cfg, s, Refuse(i))
    ensures i < |s.adders|
    ensures s.adders[i].Asking? ==>
      |s.store.buf| + s.ledger.inFlight + 13 + |s.adders[i].e.frame.payload| > cfg.budget
    ensures s.adders[i].Loaded? ==>
      s.adders[i].queued + s.ledger.inFlight + 13 + |s.adders[i].e.frame.payload| > cfg.budget
    ensures s.adders[i].Asking? || s.adders[i].Loaded?
  {}

  // ---------------------------------------------------------------- how an Add call ends

  datatype Tally = Tally(begun: nat, written: nat, refused: nat, signalled: nat)

  function Counted(t: Tally, ev: Event, i: nat): Tally {
    match ev
    case Begin(j, _) => if i == j then t.(begun := t.begun + 1) else t
    case Write(j, _, _) => if i == j then t.(written := t.written + 1) else t
    case Refuse(j) => if i == j then t.(refused := t.refused + 1) else t
    case Signal(j) => if i == j then t.(signalled := t.signalled + 1) else t
    case _ => t
  }

  /** How often adder i has begun, written, been refused and signalled. */
  function TallyOf(evs: seq<Event>, i: nat): Tally {
    if evs == [] then Tally(0, 0, 0, 0) else Counted(TallyOf(evs[..|evs| - 1], i), evs[|evs| - 1], i)
  }

  /** A call is under way, and whether it has written yet. */
  ghost predicate Balanced(a: Adder, t: Tally) {
    && t.begun == t.written + t.refused + (if a.Asking? || a.Loaded? || a.Admitted? then 1 else 0)
    && t.written == t.signalled + (if a.Signalling? then 1 else 0)
  }

  lemma BalancedStep(cfg: Config, s: State, ev: Event, i: nat, t: Tally)
    requires Enabled(cfg, s, ev) && i < |s.adders| && Balanced(s.adders[i], t)
    ensures i < |Apply(cfg, s, ev).adders| && Balanced(Apply(cfg, s, ev).adders[i], Counted(t, ev, i))
  {}

  /**
   Conservation of Add calls, in every run: each call begun by an adder ends in exactly one write
   or one refusal, but for the one under way; and each write is followed by exactly one signal.
   */
  lemma {:induction false} CallsBalance(cfg: Config, adders: nat, clock: Time, evs: seq<Event>, s: State, i: nat)
    requires Reaches(cfg, adders, clock, evs, s) && i < |s.adders|
    ensures Balanced(s.adders[i], TallyOf(evs, i))
  {
    if evs != [] {
      var n := |evs| - 1;
      var p := Exec(cfg, Init(adders, clock), evs[..n]).value;
      AddersStay(cfg, p, evs[n]);
      CallsBalance(cfg, adders, clock, evs[..n], p, i);
      BalancedStep(cfg, p, evs[n], i, TallyOf(evs[..n], i));
    }
  }

  lemma AddersStay(cfg: Config, s: State, ev: Event)
    requires Enabled(cfg, s, ev)
    ensures |Apply(cfg, s, ev).adders| == |s.adders|
  {}
}
