/**
 The critical sections of the batcher as its objects run them (Add, Flush and batchState in
 protocol/batch.go): each method is one step of the interleaved system, on the fields it
 changes. The ghost fields hold the history that the system's invariants speak of.
 */
module BatcherObject {
  import opened Bytes
  import opened Frames
  import opened Batcher
  import Fifo = BatcherFifo

  /** What the batcher's mutex protects. */
  class Buffer {
    const cfg: Config
    var buf: seq<byte>
    var hasUrgent: bool
    var startedAt: Time
    var lastQueuedAt: Time
    var maxDelay: Time
    ghost var store: Store

    ghost function BatchTimes(): Times reads this { Times(startedAt, lastQueuedAt, maxDelay) }

    /** The fields are the untaken end of the history, and the history is in order. */
    ghost predicate Valid() reads this {
      store.buf == buf && store.hasUrgent == hasUrgent && Fifo.Queue(store)
    }

    constructor (cfg: Config)
      ensures Valid() && this.cfg == cfg && store == Init(0, 0).store
    {
      Fifo.InitInv(0, 0);
      this.cfg := cfg;
      buf, hasUrgent, startedAt, lastQueuedAt, maxDelay := [], false, 0, 0, 0;
      store := Store([], false, [], 0, []);
    }

    /** The locked part of Add; the first frame of a batch fixes its start and its delay. */
    method Append(e: Entry, data: seq<byte>, now: Time, delay: Time) returns (bufLen: nat)
      requires Valid() && data == Wire(e.frame) && Jittered(cfg.maxFlushDelay, delay)
      modifies this
      ensures Valid() && store == Enqueue(old(store), e) && bufLen == |store.buf|
      ensures BatchTimes() == if old(buf) == [] then Times(now, now, delay) else old(BatchTimes()).(lastQueuedAt := now)
    {
      if |buf| == 0 {
        startedAt := now;
        maxDelay := delay;
      }
      lastQueuedAt := now;
      buf := buf + data;
      bufLen := |buf|;
      if e.urgent {
        hasUrgent := true;
      }
      Fifo.EnqueueKeepsQueue(store, e);
      store := Enqueue(store, e);
    }

    /** Which signal Add sends. */
    method WantsFlush(f: Frame, bufLen: nat) returns (shouldFlush: bool)
      ensures shouldFlush <==>
        bufLen >= 50331648 || (f.typ == 3 && cfg.dataFlushThreshold > 0 && bufLen >= cfg.dataFlushThreshold)
      ensures shouldFlush == ShouldFlush(cfg, f, bufLen)
    {
      shouldFlush := bufLen >= MAX_BATCH_SIZE;
      if f.typ == TYPE_DATA && cfg.dataFlushThreshold > 0 && bufLen >= cfg.dataFlushThreshold {
        shouldFlush := true;
      }
    }

    /** Add after the admission: the frame is queued, and the signal is the one its step sends. */
    method Add(e: Entry, data: seq<byte>, now: Time, delay: Time) returns (shouldFlush: bool)
      requires Valid() && data == Wire(e.frame) && Jittered(cfg.maxFlushDelay, delay)
      modifies this
      ensures Valid() && store == Enqueue(old(store), e)
      ensures shouldFlush == ShouldFlush(cfg, e.frame, |store.buf|)
    {
      var bufLen := Append(e, data, now, delay);
      shouldFlush := WantsFlush(e.frame, bufLen);
    }

    /** The locked part of Flush: exactly the frames written since the last take, in order. */
    method Take() returns (raw: seq<byte>, urgent: bool)
      requires Valid()
      modifies this
      ensures Valid() && buf == [] && store.taken == |store.written|
      ensures raw == WireAll(FramesOf(old(store).written[old(store).taken..]))
      ensures urgent == AnyUrgent(old(store).written[old(store).taken..])
      ensures store == if raw == [] then old(store) else TakeAll(old(store))
    {
      raw, urgent := buf, hasUrgent;
      if |buf| == 0 {
        Fifo.EmptyMeansTaken(store);
        return;
      }
      Fifo.TakeKeepsQueue(store);
      store := TakeAll(store);
      buf, hasUrgent, startedAt, lastQueuedAt := [], false, 0, 0;
    }

    /** batchState: what the flush loop sets its timers from; nothing just when all is taken. */
    method Snapshot() returns (r: Option<Times>)
      requires Valid()
      ensures r.None? <==> store.taken == |store.written|
      ensures r.Some? ==> r.value == BatchTimes()
    {
      Fifo.EmptyBuffer(store.written[store.taken..]);
      if |buf| == 0 { return None; }
      r := Some(Times(startedAt, lastQueuedAt, maxDelay));
    }
  }

  /** The atomic counters. */
  class Counters {
    var seqNum: nat
    var inFlightBytes: int
    ghost var jobs: seq<Job>

    ghost function Books(): Ledger reads this { Ledger(inFlightBytes, seqNum, jobs) }

    /** The in-flight count is exact and the batch numbers follow take order. */
    ghost predicate Valid(accounting: bool) reads this {
      Fifo.Accounts(Books(), accounting) && Fifo.Numbered(Books())
    }

    constructor ()
      ensures Valid(false) && Books() == Init(0, 0).ledger
    {
      Fifo.InitInv(0, 0);
      seqNum, inFlightBytes, jobs := 0, 0, [];
    }

    /** The counters of Flush, for the batch just taken: its number is above all earlier ones. */
    method Start(raw: seq<byte>) returns (s: nat)
      requires Valid(true) && |raw| == jobs[|jobs| - 1].bytes
      modifies this
      ensures Valid(false) && Books() == StartJob(old(Books()))
      ensures s == jobs[|jobs| - 1].seqNum && forall k :: 0 <= k < |jobs| - 1 ==> jobs[k].seqNum < s
    {
      Fifo.StartJobAccounts(Books());
      jobs := StartJob(Books()).jobs;
      seqNum := seqNum + 1;
      s := seqNum;
      inFlightBytes := inFlightBytes + |raw|;
    }

    /** The end of a sending goroutine. */
    method Finish(k: nat, n: nat, ghost accounting: bool)
      requires Valid(accounting) && k < |jobs| && jobs[k].phase.Sending? && n == jobs[k].bytes
      modifies this
      ensures Valid(accounting) && Books() == EndJob(old(Books()), k)
    {
      Fifo.EndJobAccounts(Books(), k, accounting);
      jobs := EndJob(Books(), k).jobs;
      inFlightBytes := inFlightBytes - n;
    }
  }
}
