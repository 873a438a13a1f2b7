/**
 The batcher of protocol/batch.go as a system of interleaved steps: any number of Add calls,
 the one flush loop, and the goroutines that carry taken batches to the network. A step is
 one critical section or one atomic operation of the source; what happens between two steps
 of one goroutine is up to the others. Flush's two counter updates, seqNum and inFlightBytes,
 are one step: no goroutine reads both.

 Times are nanoseconds on a clock that only moves forward. `written`, `taken` and `stopMark`
 are history: the frames put into the buffer in write order, how many of them have been
 taken out by flushes, and how many had been written when Stop was called.
 */
module Batcher {
  import opened Bytes
  import opened Frames
  import opened Sums

  const MAX_BATCH_SIZE := 48 * 1024 * 1024
  const MAX_QUEUED_AND_IN_FLIGHT_BYTES := 4 * MAX_BATCH_SIZE

  type Time = int

  datatype Config = Config(budget: nat, dataFlushThreshold: int, maxFlushDelay: nat)

  datatype Entry = Entry(frame: Frame, urgent: bool)

  /** Where one Add call is. `Loaded` has read the queue length but not yet the in-flight count. */
  datatype Adder =
    | Idle
    | Asking(e: Entry)
    | Loaded(e: Entry, queued: nat)
    | Admitted(e: Entry)
    | Signalling(flush: bool)

    /** Where the flush loop is. `last` marks the flush made because of Stop. */
  datatype Pc =
    | Select
    | Flushing(last: bool)
    | Accounting(last: bool)
    | Reading
    | Setting(snap: Option<Times>)
    | Draining
    | Stopped

  /** A batch taken from the buffer: entries lo..hi of the write order, marshalled. */
  datatype Batch = Batch(lo: nat, hi: nat, raw: seq<byte>, urgent: bool)

  /** The bytes: the buffer, and what has been taken out of it. */
  datatype Store = Store(buf: seq<byte>, hasUrgent: bool, written: seq<Entry>, taken: nat, batches: seq<Batch>)

  /** The times of the batch being filled. */
  datatype Times = Times(startedAt: Time, lastQueuedAt: Time, maxDelay: Time)

  /** The one-slot channels and the timers; a timer that has fired stays until it is consumed. */
  datatype Signals = Signals(activity: bool, flush: bool, idleAt: Option<Time>, maxAt: Option<Time>)

  datatype Phase = Taken | Sending | Finished

  /** The goroutine that carries one batch, as the accounting sees it. */
  datatype Job = Job(bytes: nat, phase: Phase, seqNum: nat)

  datatype Ledger = Ledger(inFlight: int, seqNum: nat, jobs: seq<Job>)

  datatype State = State(clock: Time, adders: seq<Adder>, store: Store, times: Times, sig: Signals,
                         pc: Pc, ledger: Ledger, stopCalled: bool, stopMark: nat)

  datatype Event =
    | Tick(t: Time)
    // Add
    | Begin(i: nat, e: Entry) | Refuse(i: nat)
    | Check(i: nat) | Load(i: nat) | Compare(i: nat)
    | Write(i: nat, now: Time, delay: Time) | Signal(i: nat)
    // flushLoop
    | WakeActivity | WakeFlush | WakeIdle | WakeMax | WakeDone
    | Take | Account | Read | SetTimers(idleDelay: Time) | Drained
    // Stop and the sending goroutines
    | Stop | Finish(k: nat) | Mint

  function Init(adders: nat, clock: Time): State {
    State(clock, seq(adders, _ => Idle), Store([], false, [], 0, []), Times(0, 0, 0),
          Signals(false, false, None, None), Select, Ledger(0, 0, []), false, 0)
  }

  function Size(e: Entry): nat { |Wire(e.frame)| }

  function FramesOf(es: seq<Entry>): (fs: seq<Frame>) ensures |fs| == |es| {
    seq(|es|, i requires 0 <= i < |es| => es[i].frame)
  }

  predicate AnyUrgent(es: seq<Entry>) {
    exists i :: 0 <= i < |es| && es[i].urgent
  }

  predicate Fits(cfg: Config, queued: nat, inFlight: int, e: Entry) {
    queued + inFlight + Size(e) <= cfg.budget
  }

  predicate ShouldFlush(cfg: Config, f: Frame, bufLen: nat) {
    || bufLen >= MAX_BATCH_SIZE
    || (f.typ == TYPE_DATA && cfg.dataFlushThreshold > 0 && bufLen >= cfg.dataFlushThreshold)
  }

  /** A delay jittered by at most 15 percent. */
  predicate Jittered(base: nat, delay: Time) {
    85 * base <= 100 * delay <= 115 * base
  }

  predicate Fired(timer: Option<Time>, clock: Time) {
    timer.Some? && timer.value <= clock
  }

  predicate Enabled(cfg: Config, s: State, ev: Event) {
    match ev
    case Tick(t) => s.clock <= t
    case Begin(i, e) => i < |s.adders| && s.adders[i].Idle?
    case Refuse(i) => i < |s.adders| && (match s.adders[i]
      case Asking(e) => !Fits(cfg, |s.store.buf|, s.ledger.inFlight, e)
      case Loaded(e, q) => !Fits(cfg, q, s.ledger.inFlight, e)
      case _ => false)
    case Check(i) =>
      i < |s.adders| && s.adders[i].Asking? && Fits(cfg, |s.store.buf|, s.ledger.inFlight, s.adders[i].e)
    case Load(i) => i < |s.adders| && s.adders[i].Asking?
    case Compare(i) => i < |s.adders| && s.adders[i].Loaded?
    case Write(i, now, delay) =>
      i < |s.adders| && s.adders[i].Admitted? && now <= s.clock && Jittered(cfg.maxFlushDelay, delay)
    case Signal(i) => i < |s.adders| && s.adders[i].Signalling?
    case WakeActivity => s.pc.Select? && s.sig.activity
    case WakeFlush => s.pc.Select? && s.sig.flush
    case WakeIdle => s.pc.Select? && Fired(s.sig.idleAt, s.clock)
    case WakeMax => s.pc.Select? && Fired(s.sig.maxAt, s.clock)
    case WakeDone => s.pc.Select? && s.stopCalled
    case Take => s.pc.Flushing?
    case Account => s.pc.Accounting? && s.ledger.jobs != []
    case Read => s.pc.Reading?
    case SetTimers(idleDelay) => s.pc.Setting?
    case Drained => s.pc.Draining?
    case Stop => !s.stopCalled
    case Finish(k) => k < |s.ledger.jobs| && s.ledger.jobs[k].phase.Sending?
    case Mint => true
  }

  /** buf.Write under the lock. */
  function Enqueue(st: Store, e: Entry): Store {
    st.(buf := st.buf + Wire(e.frame), hasUrgent := st.hasUrgent || e.urgent, written := st.written + [e])
  }

  /** Flush under the lock: the whole buffer becomes one batch. */
  function TakeAll(st: Store): Store {
    Store([], false, st.written, |st.written|, st.batches + [Batch(st.taken, |st.written|, st.buf, st.hasUrgent)])
  }

  /** seqNum.Add, inFlightBytes.Add and the start of the sending goroutine. */
  function StartJob(l: Ledger): Ledger
    requires l.jobs != []
  {
    var k := |l.jobs| - 1;
    Ledger(l.inFlight + l.jobs[k].bytes, l.seqNum + 1,
           l.jobs[k := l.jobs[k].(phase := Sending, seqNum := l.seqNum + 1)])
  }

  function EndJob(l: Ledger, k: nat): Ledger
    requires k < |l.jobs|
  {
    l.(inFlight := l.inFlight - l.jobs[k].bytes, jobs := l.jobs[k := l.jobs[k].(phase := Finished)])
  }

  /** What follows a flush: back to the timers, or on to the shutdown wait. */
  function After(last: bool): Pc { if last then Draining else Reading }

  function Apply(cfg: Config, s: State, ev: Event): State
    requires Enabled(cfg, s, ev)
  {
    match ev
    case Tick(t) => s.(clock := t)
    case Begin(i, e) => s.(adders := s.adders[i := Asking(e)])
    case Refuse(i) => s.(adders := s.adders[i := Idle])
    case Check(i) => s.(adders := s.adders[i := Admitted(s.adders[i].e)])
    case Load(i) => s.(adders := s.adders[i := Loaded(s.adders[i].e, |s.store.buf|)])
    case Compare(i) =>
      var a := s.adders[i];
      s.(adders := s.adders[i := if Fits(cfg, a.queued, s.ledger.inFlight, a.e) then Admitted(a.e) else Asking(a.e)])
    case Write(i, now, delay) =>
      var e := s.adders[i].e;
      s.(adders := s.adders[i := Signalling(ShouldFlush(cfg, e.frame, |Enqueue(s.store, e).buf|))],
         store := Enqueue(s.store, e),
         times := if s.store.buf == [] then Times(now, now, delay) else s.times.(lastQueuedAt := now))
    case Signal(i) =>
      s.(adders := s.adders[i := Idle],
         sig := if s.adders[i].flush then s.sig.(flush := true) else s.sig.(activity := true))
    case WakeActivity => s.(sig := s.sig.(activity := false), pc := Reading)
    case WakeFlush => s.(sig := s.sig.(flush := false), pc := Flushing(false))
    case WakeIdle => s.(sig := s.sig.(idleAt := None), pc := Flushing(false))
    case WakeMax => s.(sig := s.sig.(maxAt := None), pc := Flushing(false))
    case WakeDone => s.(pc := Flushing(true))
    case Take =>
      if s.store.buf == [] then s.(pc := After(s.pc.last))
      else s.(pc := Accounting(s.pc.last), store := TakeAll(s.store), times := Times(0, 0, s.times.maxDelay),
              ledger := s.ledger.(jobs := s.ledger.jobs + [Job(|s.store.buf|, Taken, 0)]))
    case Account => s.(pc := After(s.pc.last), ledger := StartJob(s.ledger))
    case Read => s.(pc := Setting(if s.store.buf == [] then None else Some(s.times)))
    case SetTimers(idleDelay) =>
      (match s.pc.snap
       case None => s.(pc := Select, sig := s.sig.(idleAt := None, maxAt := None))
       case Some(b) => s.(pc := Select, sig := s.sig.(idleAt := Some(b.lastQueuedAt + idleDelay),
                                                      maxAt := Some(b.startedAt + b.maxDelay))))
    case Drained => s.(pc := Stopped)
    case Stop => s.(stopCalled := true, stopMark := |s.store.written|)
    case Finish(k) => s.(ledger := EndJob(s.ledger, k))
    case Mint => s.(ledger := s.ledger.(seqNum := s.ledger.seqNum + 1))
  }

  /** The state a list of events leads to, if each is enabled where it happens. */
  function Exec(cfg: Config, s0: State, evs: seq<Event>): Option<State> {
    if evs == [] then Some(s0)
    else match Exec(cfg, s0, evs[..|evs| - 1])
      case None => None
      case Some(p) => if Enabled(cfg, p, evs[|evs| - 1]) then Some(Apply(cfg, p, evs[|evs| - 1])) else None
  }

  /** `s` is reached from the start by the run `evs`. */
  predicate Reaches(cfg: Config, adders: nat, clock: Time, evs: seq<Event>, s: State) {
    Exec(cfg, Init(adders, clock), evs) == Some(s)
  }
}
