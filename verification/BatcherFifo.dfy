/**
 Nothing is lost, duplicated or reordered between Add and the network, and the in-flight
 counter is exact (protocol/batch.go).
 */
module BatcherFifo {
  import opened Bytes
  import opened Frames
  import opened Sums
  import opened Batcher

  /** The batch holds exactly its range of the written frames. */
  ghost predicate BatchOK(b: Batch, written: seq<Entry>) {
    && b.lo < b.hi <= |written|
    && b.raw == WireAll(FramesOf(written[b.lo..b.hi]))
    && b.urgent == AnyUrgent(written[b.lo..b.hi])
  }

  ghost predicate AllOK(batches: seq<Batch>, written: seq<Entry>) {
    forall k :: 0 <= k < |batches| ==> BatchOK(batches[k], written)
  }

  /** The batches cover the write order from 0 to `taken` without gap or overlap. */
  ghost predicate Chained(batches: seq<Batch>, taken: nat) {
    && (batches == [] ==> taken == 0)
    && (batches != [] ==> batches[0].lo == 0 && batches[|batches| - 1].hi == taken)
    && forall k :: 0 < k < |batches| ==> batches[k].lo == batches[k - 1].hi
  }

  ghost predicate Queue(st: Store) {
    && st.taken <= |st.written|
    && st.buf == WireAll(FramesOf(st.written[st.taken..]))
    && st.hasUrgent == AnyUrgent(st.written[st.taken..])
    && Chained(st.batches, st.taken)
    && AllOK(st.batches, st.written)
  }

  function SendingBytes(j: Job): nat { if j.phase.Sending? then j.bytes else 0 }

  /** The counter is the sum over accounted unfinished jobs; only the newest is ever unaccounted. */
  ghost predicate Accounts(l: Ledger, accounting: bool) {
    && l.inFlight == Sum(l.jobs, SendingBytes)
    && (accounting ==> l.jobs != [])
    && forall k :: 0 <= k < |l.jobs| ==> (l.jobs[k].phase.Taken? <==> accounting && k == |l.jobs| - 1)
  }

  /** Batch numbers follow creation order. */
  ghost predicate Numbered(l: Ledger) {
    && (forall k :: 0 <= k < |l.jobs| ==> l.jobs[k].seqNum <= l.seqNum)
    && (forall j, k :: 0 <= j < k < |l.jobs| && !l.jobs[k].phase.Taken? ==> l.jobs[j].seqNum < l.jobs[k].seqNum)
  }

  ghost predicate Matched(jobs: seq<Job>, batches: seq<Batch>) {
    |jobs| == |batches| && forall k :: 0 <= k < |jobs| ==> jobs[k].bytes == |batches[k].raw|
  }

  predicate PastLastTake(pc: Pc) {
    pc.Draining? || pc.Stopped? || (pc.Accounting? && pc.last)
  }

  ghost predicate StopDrains(s: State) {
    && (s.stopCalled ==> s.stopMark <= |s.store.written|)
    && (s.pc.Flushing? && s.pc.last ==> s.stopCalled)
    && (PastLastTake(s.pc) ==> s.stopCalled && s.stopMark <= s.store.taken)
  }

  ghost predicate Inv(s: State) {
    && Queue(s.store) && Accounts(s.ledger, s.pc.Accounting?) && Numbered(s.ledger)
    && Matched(s.ledger.jobs, s.store.batches) && StopDrains(s)
  }

  lemma FramesOfAppend(es: seq<Entry>, e: Entry)
    ensures WireAll(FramesOf(es + [e])) == WireAll(FramesOf(es)) + Wire(e.frame)
  {
    assert FramesOf(es + [e]) == FramesOf(es) + [e.frame];
    WireAllConcat(FramesOf(es), [e.frame]);
    WireOne(e.frame);
  }

  lemma AnyUrgentAppend(es: seq<Entry>, e: Entry)
    ensures AnyUrgent(es + [e]) <==> AnyUrgent(es) || e.urgent
  {
    if e.urgent {
      assert (es + [e])[|es|].urgent;
    }
    if AnyUrgent(es) {
      var i :| 0 <= i < |es| && es[i].urgent;
      assert (es + [e])[i].urgent;
    }
  }

  lemma EmptyBuffer(es: seq<Entry>)
    ensures WireAll(FramesOf(es)) == [] <==> es == []
  {}

  lemma AllOKGrows(batches: seq<Batch>, written: seq<Entry>, e: Entry)
    requires AllOK(batches, written)
    ensures AllOK(batches, written + [e])
  {
    forall k | 0 <= k < |batches| ensures BatchOK(batches[k], written + [e]) {
      var b := batches[k];
      assert BatchOK(b, written);
      assert (written + [e])[b.lo..b.hi] == written[b.lo..b.hi];
    }
  }

  lemma EnqueueKeepsQueue(st: Store, e: Entry)
    requires Queue(st)
    ensures Queue(Enqueue(st, e))
  {
    assert (st.written + [e])[st.taken..] == st.written[st.taken..] + [e];
    FramesOfAppend(st.written[st.taken..], e);
    AnyUrgentAppend(st.written[st.taken..], e);
    AllOKGrows(st.batches, st.written, e);
  }

  lemma TakeKeepsQueue(st: Store)
    requires Queue(st) && st.buf != []
    ensures Queue(TakeAll(st))
  {
    var n := |st.written|;
    EmptyBuffer(st.written[st.taken..]);
    EmptyBuffer(st.written[n..]);
    assert st.written[st.taken..] == st.written[st.taken..n];
    var b := Batch(st.taken, n, st.buf, st.hasUrgent);
    assert BatchOK(b, st.written);
    AllOKMore(st.batches, b, st.written);
    assert Chained(st.batches + [b], n);
  }

  lemma AllOKMore(batches: seq<Batch>, b: Batch, written: seq<Entry>)
    requires AllOK(batches, written) && BatchOK(b, written)
    ensures AllOK(batches + [b], written)
  {}

  lemma QueueStep(cfg: Config, s: State, ev: Event)
    requires Queue(s.store) && Enabled(cfg, s, ev)
    ensures Queue(Apply(cfg, s, ev).store)
  {
    if ev.Write? {
      EnqueueKeepsQueue(s.store, s.adders[ev.i].e);
    } else if ev.Take? && s.store.buf != [] {
      TakeKeepsQueue(s.store);
    } else {
      assert Apply(cfg, s, ev).store == s.store;
    }
  }

  lemma StartJobAccounts(l: Ledger)
    requires Accounts(l, true) && Numbered(l)
    ensures Accounts(StartJob(l), false) && Numbered(StartJob(l))
  {
    var k := |l.jobs| - 1;
    SumUpdate(l.jobs, k, StartJob(l).jobs[k], SendingBytes);
  }

  lemma EndJobAccounts(l: Ledger, k: nat, accounting: bool)
    requires Accounts(l, accounting) && Numbered(l) && k < |l.jobs| && l.jobs[k].phase.Sending?
    ensures Accounts(EndJob(l, k), accounting) && Numbered(EndJob(l, k))
  {
    SumUpdate(l.jobs, k, EndJob(l, k).jobs[k], SendingBytes);
  }

  lemma NewJobAccounts(l: Ledger, bytes: nat)
    requires Accounts(l, false) && Numbered(l)
    ensures var l' := l.(jobs := l.jobs + [Job(bytes, Taken, 0)]); Accounts(l', true) && Numbered(l')
  {
    SumAppend(l.jobs, Job(bytes, Taken, 0), SendingBytes);
  }

  lemma LedgerStep(cfg: Config, s: State, ev: Event)
    requires Accounts(s.ledger, s.pc.Accounting?) && Numbered(s.ledger) && Enabled(cfg, s, ev)
    ensures var t := Apply(cfg, s, ev); Accounts(t.ledger, t.pc.Accounting?) && Numbered(t.ledger)
  {
    if ev.Account? {
      StartJobAccounts(s.ledger);
    } else if ev.Finish? {
      EndJobAccounts(s.ledger, ev.k, s.pc.Accounting?);
    } else if ev.Take? && s.store.buf != [] {
      NewJobAccounts(s.ledger, |s.store.buf|);
    } else if ev.Mint? {
    } else {
      assert Apply(cfg, s, ev).ledger == s.ledger;
    }
  }

  lemma MatchedStep(cfg: Config, s: State, ev: Event)
    requires Matched(s.ledger.jobs, s.store.batches) && Enabled(cfg, s, ev)
    ensures var t := Apply(cfg, s, ev); Matched(t.ledger.jobs, t.store.batches)
  {
    var t := Apply(cfg, s, ev);
    if !ev.Take? {
      assert t.store.batches == s.store.batches;
    }
  }

  lemma StopDrainsStep(cfg: Config, s: State, ev: Event)
    requires StopDrains(s) && Enabled(cfg, s, ev)
    requires s.store.taken <= |s.store.written| && (s.store.buf == [] ==> s.store.taken == |s.store.written|)
    ensures StopDrains(Apply(cfg, s, ev))
  {}

  lemma EmptyMeansTaken(st: Store)
    requires Queue(st) && st.buf == []
    ensures st.taken == |st.written|
  {
    EmptyBuffer(st.written[st.taken..]);
  }

  lemma StepInv(cfg: Config, s: State, ev: Event)
    requires Inv(s) && Enabled(cfg, s, ev)
    ensures Inv(Apply(cfg, s, ev))
  {
    QueueStep(cfg, s, ev);
    LedgerStep(cfg, s, ev);
    MatchedStep(cfg, s, ev);
    if s.store.buf == [] {
      EmptyMeansTaken(s.store);
    }
    StopDrainsStep(cfg, s, ev);
  }

  lemma InitInv(adders: nat, clock: Time)
    ensures Inv(Init(adders, clock))
  {
    EmptyBuffer([]);
  }

  lemma {:induction false} ReachInv(cfg: Config, adders: nat, clock: Time, evs: seq<Event>, s: State)
    requires Reaches(cfg, adders, clock, evs, s)
    ensures Inv(s)
  {
    if evs != [] {
      var p := Exec(cfg, Init(adders, clock), evs[..|evs| - 1]).value;
      ReachInv(cfg, adders, clock, evs[..|evs| - 1], p);
      StepInv(cfg, p, evs[|evs| - 1]);
    } else {
      InitInv(adders, clock);
    }
  }

  lemma InFlightNonNegative(cfg: Config, adders: nat, clock: Time, evs: seq<Event>, s: State)
    requires Reaches(cfg, adders, clock, evs, s)
    ensures s.ledger.inFlight >= 0
  {
    ReachInv(cfg, adders, clock, evs, s);
  }

  // ---------------------------------------------------------------- what follows

  function Raws(batches: seq<Batch>): seq<byte> {
    if batches == [] then [] else Raws(batches[..|batches| - 1]) + batches[|batches| - 1].raw
  }

  lemma {:induction false} RawsAreWritten(batches: seq<Batch>, taken: nat, written: seq<Entry>)
    requires taken <= |written| && Chained(batches, taken) && AllOK(batches, written)
    ensures Raws(batches) == WireAll(FramesOf(written[..taken]))
  {
    if batches != [] {
      var n := |batches| - 1;
      var last, front := batches[n], batches[..n];
      assert BatchOK(last, written);
      assert front != [] ==> front[n - 1] == batches[n - 1];
      RawsAreWritten(front, last.lo, written);
      assert FramesOf(written[..taken]) == FramesOf(written[..last.lo]) + FramesOf(written[last.lo..last.hi]);
      WireAllConcat(FramesOf(written[..last.lo]), FramesOf(written[last.lo..last.hi]));
    } else {
      EmptyBuffer([]);
    }
  }

  /**
   FIFO conservation, in every reachable state: the batches taken so far, in take order,
   followed by the buffer, are the marshalled frames in write order; the in-flight counter
   is the exact sum of the accounted unfinished batches; batch numbers follow take order.
   */
  lemma FifoConservation(cfg: Config, adders: nat, clock: Time, evs: seq<Event>, s: State)
    requires Reaches(cfg, adders, clock, evs, s)
    ensures Raws(s.store.batches) + s.store.buf == WireAll(FramesOf(s.store.written))
    ensures s.ledger.inFlight == Sum(s.ledger.jobs, SendingBytes)
    ensures Matched(s.ledger.jobs, s.store.batches) && Numbered(s.ledger)
  {
    ReachInv(cfg, adders, clock, evs, s);
    var st := s.store;
    RawsAreWritten(st.batches, st.taken, st.written);
    assert FramesOf(st.written) == FramesOf(st.written[..st.taken]) + FramesOf(st.written[st.taken..]);
    WireAllConcat(FramesOf(st.written[..st.taken]), FramesOf(st.written[st.taken..]));
  }

  /** Every taken batch decodes to its own contiguous block of the written frames. */
  lemma BatchDecodes(st: Store, k: nat)
    requires Queue(st) && k < |st.batches|
    requires forall i :: 0 <= i < |st.written| ==> |st.written[i].frame.payload| < PAYLOAD_LIMIT
    ensures st.batches[k].lo < st.batches[k].hi <= |st.written|
    ensures DecodeAll(st.batches[k].raw) == Ok(FramesOf(st.written[st.batches[k].lo..st.batches[k].hi]))
  {
    var b := st.batches[k];
    assert BatchOK(b, st.written);
    DecodeWireAll(FramesOf(st.written[b.lo..b.hi]));
  }

  lemma {:induction false} ChainIncreases(batches: seq<Batch>, taken: nat, written: seq<Entry>, j: nat, k: nat)
    requires Chained(batches, taken) && AllOK(batches, written) && j < k < |batches|
    ensures batches[j].hi <= batches[k].lo
  {
    if j + 1 < k {
      ChainIncreases(batches, taken, written, j, k - 1);
      assert BatchOK(batches[k - 1], written);
    }
  }

  lemma {:induction false} CoveredBy(batches: seq<Batch>, taken: nat, written: seq<Entry>, i: nat) returns (k: nat)
    requires Chained(batches, taken) && AllOK(batches, written) && i < taken
    ensures k < |batches| && batches[k].lo <= i < batches[k].hi
  {
    var n := |batches| - 1;
    if batches[n].lo <= i {
      return n;
    }
    assert n > 0;
    assert BatchOK(batches[n - 1], written);
    k := CoveredBy(batches[..n], batches[n].lo, written, i);
  }

  /** The frame at place `i` of the write order is in exactly one taken batch. */
  ghost predicate TakenOnce(st: Store, i: nat) {
    && (exists k :: 0 <= k < |st.batches| && st.batches[k].lo <= i < st.batches[k].hi)
    && (forall j, k :: 0 <= j < k < |st.batches| ==>
         !(st.batches[j].lo <= i < st.batches[j].hi && st.batches[k].lo <= i < st.batches[k].hi))
  }

  lemma TakenExact(st: Store, i: nat)
    requires Queue(st) && i < |st.written|
    ensures TakenOnce(st, i) <==> i < st.taken
  {
    forall j, k | 0 <= j < k < |st.batches| ensures st.batches[j].hi <= st.batches[k].lo {
      ChainIncreases(st.batches, st.taken, st.written, j, k);
    }
    if i < st.taken {
      var k := CoveredBy(st.batches, st.taken, st.written, i);
    }
  }

  /** Stop: once it returns, every frame written before it was called is in exactly one taken batch. */
  lemma StopFlushesEverythingWritten(cfg: Config, adders: nat, clock: Time, evs: seq<Event>, s: State, i: nat)
    requires Reaches(cfg, adders, clock, evs, s) && s.pc.Stopped? && i < s.stopMark
    ensures i < |s.store.written| && TakenOnce(s.store, i)
  {
    ReachInv(cfg, adders, clock, evs, s);
    TakenExact(s.store, i);
  }

  /** One more event of a run. */
  lemma Extend(cfg: Config, adders: nat, clock: Time, evs: seq<Event>, s: State, ev: Event)
    returns (evs': seq<Event>, s': State)
    requires Reaches(cfg, adders, clock, evs, s) && Enabled(cfg, s, ev)
    ensures evs' == evs + [ev] && s' == Apply(cfg, s, ev) && Reaches(cfg, adders, clock, evs', s')
  {
    evs', s' := evs + [ev], Apply(cfg, s, ev);
    assert evs'[..|evs|] == evs;
  }
}
