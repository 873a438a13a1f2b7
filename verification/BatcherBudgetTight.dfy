/**
 The byte bounds of BatcherBudget are reached, for any number K of adders and any frame size F
 that fits the budget M: the queue is filled to M - F, all K adders pass the check, and only
 then do they write. So M itself is kept by the queue exactly when there is one adder.
 */
module BatcherBudgetTight {
  import opened Bytes
  import opened Frames
  import opened Sums
  import opened Batcher
  import opened BatcherBudget
  import BatcherFifo

  /** A run of K adders from time 0 in which every frame has at most f bytes. */
  ghost predicate Runs(cfg: Config, adders: nat, f: nat, evs: seq<Event>, s: State) {
    Reaches(cfg, adders, 0, evs, s) && SmallEvents(evs, f)
  }

  lemma Extend(cfg: Config, k: nat, f: nat, evs: seq<Event>, s: State, ev: Event) returns (evs': seq<Event>, s': State)
    requires Runs(cfg, k, f, evs, s) && Enabled(cfg, s, ev) && (ev.Begin? ==> Size(ev.e) <= f)
    ensures Runs(cfg, k, f, evs', s') && s' == Apply(cfg, s, ev)
  {
    evs', s' := BatcherFifo.Extend(cfg, k, 0, evs, s, ev);
  }

  /** Only adders, buffer, times and signals differ; times are not ahead of the clock. */
  ghost predicate Beside(s: State, t: State) {
    && t.ledger == s.ledger && t.pc == s.pc && t.clock == s.clock && |t.adders| == |s.adders|
    && (s.times.lastQueuedAt <= s.clock ==> t.times.lastQueuedAt <= t.clock)
  }

  predicate AllIdle(adders: seq<Adder>) { forall j :: 0 <= j < |adders| ==> adders[j].Idle? }

  // ---------------------------------------------------------------- filling the queue

  /** One Add call of adder 0, from start to end. */
  lemma AddOne(cfg: Config, k: nat, f: nat, evs: seq<Event>, s: State, e: Entry) returns (evs': seq<Event>, s': State)
    requires Runs(cfg, k, f, evs, s) && |s.adders| > 0 && AllIdle(s.adders)
    requires Size(e) <= f && |s.store.buf| + s.ledger.inFlight + Size(e) <= cfg.budget
    ensures Runs(cfg, k, f, evs', s') && Beside(s, s') && AllIdle(s'.adders)
    ensures |s'.store.buf| == |s.store.buf| + Size(e)
  {
    evs', s' := Extend(cfg, k, f, evs, s, Begin(0, e));
    evs', s' := Extend(cfg, k, f, evs', s', Check(0));
    evs', s' := Extend(cfg, k, f, evs', s', Write(0, s.clock, cfg.maxFlushDelay));
    evs', s' := Extend(cfg, k, f, evs', s', Signal(0));
  }

  lemma {:induction false} Fill(cfg: Config, k: nat, f: nat, evs: seq<Event>, s: State, fill: seq<Entry>)
    returns (evs': seq<Event>, s': State)
    requires Runs(cfg, k, f, evs, s) && |s.adders| > 0 && AllIdle(s.adders)
    requires forall x :: 0 <= x < |fill| ==> Size(fill[x]) <= f
    requires |s.store.buf| + s.ledger.inFlight + Sum(fill, Size) <= cfg.budget
    ensures Runs(cfg, k, f, evs', s') && Beside(s, s') && AllIdle(s'.adders)
    ensures |s'.store.buf| == |s.store.buf| + Sum(fill, Size)
    decreases |fill|
  {
    evs', s' := evs, s;
    if fill != [] {
      evs', s' := AddOne(cfg, k, f, evs, s, fill[0]);
      evs', s' := Fill(cfg, k, f, evs', s', fill[1..]);
    }
  }

  // ---------------------------------------------------------------- all check, then all write

  lemma {:induction false} AdmitAll(cfg: Config, k: nat, evs: seq<Event>, s: State, e: Entry, n: nat)
    returns (evs': seq<Event>, s': State)
    requires Runs(cfg, k, Size(e), evs, s) && n <= |s.adders| && AllIdle(s.adders)
    requires |s.store.buf| + s.ledger.inFlight + Size(e) <= cfg.budget
    ensures Runs(cfg, k, Size(e), evs', s') && s' == s.(adders := s'.adders) && |s'.adders| == |s.adders|
    ensures forall j :: 0 <= j < |s'.adders| ==> s'.adders[j] == if j < n then Admitted(e) else Idle
  {
    evs', s' := evs, s;
    if n > 0 {
      evs', s' := AdmitAll(cfg, k, evs, s, e, n - 1);
      evs', s' := Extend(cfg, k, Size(e), evs', s', Begin(n - 1, e));
      evs', s' := Extend(cfg, k, Size(e), evs', s', Check(n - 1));
    }
  }

  lemma {:induction false} WriteAll(cfg: Config, k: nat, f: nat, evs: seq<Event>, s: State, e: Entry, n: nat)
    returns (evs': seq<Event>, s': State)
    requires Runs(cfg, k, f, evs, s) && n <= |s.adders|
    requires forall j :: 0 <= j < |s.adders| ==> s.adders[j] == Admitted(e)
    ensures Runs(cfg, k, f, evs', s') && Beside(s, s')
    ensures forall j :: 0 <= j < |s'.adders| ==> if j < n then s'.adders[j].Signalling? else s'.adders[j] == Admitted(e)
    ensures |s'.store.buf| == |s.store.buf| + n * Size(e)
  {
    evs', s' := evs, s;
    if n > 0 {
      evs', s' := WriteAll(cfg, k, f, evs, s, e, n - 1);
      ghost var before := |s'.store.buf|;
      evs', s' := Extend(cfg, k, f, evs', s', Write(n - 1, s.clock, cfg.maxFlushDelay));
      assert |s'.store.buf| == before + Size(e);
      Times(n, Size(e));
    }
  }

  lemma Times(n: nat, x: nat)
    requires n > 0
    ensures (n - 1) * x + x == n * x
  {}

  lemma {:induction false} SignalAll(cfg: Config, k: nat, f: nat, evs: seq<Event>, s: State, n: nat)
    returns (evs': seq<Event>, s': State)
    requires Runs(cfg, k, f, evs, s) && n <= |s.adders| && forall j :: 0 <= j < |s.adders| ==> s.adders[j].Signalling?
    ensures Runs(cfg, k, f, evs', s') && s' == s.(adders := s'.adders, sig := s'.sig) && |s'.adders| == |s.adders|
    ensures forall j :: 0 <= j < |s'.adders| ==> if j < n then s'.adders[j].Idle? else s'.adders[j].Signalling?
    ensures n > 0 ==> s'.sig.flush || s'.sig.activity
  {
    evs', s' := evs, s;
    if n > 0 {
      evs', s' := SignalAll(cfg, k, f, evs, s, n - 1);
      evs', s' := Extend(cfg, k, f, evs', s', Signal(n - 1));
    }
  }

  /** From an empty queue with nothing in flight: the queue reaches M + (K-1)F. */
  lemma Overfill(cfg: Config, k: nat, evs: seq<Event>, s: State, fill: seq<Entry>, e: Entry)
    returns (evs': seq<Event>, s': State)
    requires Runs(cfg, k, Size(e), evs, s) && |s.adders| == k > 0 && AllIdle(s.adders)
    requires s.store.buf == [] && s.ledger.inFlight == 0 && Fills(cfg, fill, e)
    ensures Runs(cfg, k, Size(e), evs', s') && Beside(s, s')
    ensures forall j :: 0 <= j < |s'.adders| ==> s'.adders[j].Signalling?
    ensures |s'.store.buf| == Bound(cfg, k, Size(e))
  {
    evs', s' := Fill(cfg, k, Size(e), evs, s, fill);
    evs', s' := AdmitAll(cfg, k, evs', s', e, k);
    evs', s' := WriteAll(cfg, k, Size(e), evs', s', e, k);
    Times(k, Size(e));
  }

  /** Frames no larger than e that leave exactly the room of e in the budget. */
  ghost predicate Fills(cfg: Config, fill: seq<Entry>, e: Entry) {
    (forall x :: 0 <= x < |fill| ==> Size(fill[x]) <= Size(e)) && Sum(fill, Size) + Size(e) == cfg.budget
  }

  // ---------------------------------------------------------------- and a second time, before the accounting

  /** The loop wakes for a flush, at once or by the idle timer. */
  lemma Wake(cfg: Config, k: nat, f: nat, evs: seq<Event>, s: State) returns (evs': seq<Event>, s': State)
    requires Runs(cfg, k, f, evs, s) && s.pc.Select? && s.store.buf != []
    requires (s.sig.flush || s.sig.activity) && s.times.lastQueuedAt <= s.clock
    ensures Runs(cfg, k, f, evs', s') && s' == s.(pc := Flushing(false), sig := s'.sig)
  {
    if s.sig.flush {
      evs', s' := Extend(cfg, k, f, evs, s, WakeFlush);
    } else {
      evs', s' := Extend(cfg, k, f, evs, s, WakeActivity);
      evs', s' := Extend(cfg, k, f, evs', s', Read);
      evs', s' := Extend(cfg, k, f, evs', s', SetTimers(0));
      evs', s' := Extend(cfg, k, f, evs', s', WakeIdle);
    }
  }

  /** A batch that is taken and not accounted for yet. */
  lemma TakeUnaccounted(cfg: Config, k: nat, f: nat, evs: seq<Event>, s: State) returns (evs': seq<Event>, s': State)
    requires Runs(cfg, k, f, evs, s) && s.pc.Flushing? && s.store.buf != []
    ensures Runs(cfg, k, f, evs', s') && s'.adders == s.adders && s'.store.buf == []
      && s'.ledger.inFlight == s.ledger.inFlight
    ensures s'.pc.Accounting? && Unaccounted(s') == |s.store.buf|
  {
    evs', s' := Extend(cfg, k, f, evs, s, Take);
  }

  lemma FlushAll(cfg: Config, k: nat, f: nat, evs: seq<Event>, s: State) returns (evs': seq<Event>, s': State)
    requires Runs(cfg, k, f, evs, s) && |s.adders| == k > 0 && s.pc.Select? && s.store.buf != []
    requires s.times.lastQueuedAt <= s.clock && forall j :: 0 <= j < |s.adders| ==> s.adders[j].Signalling?
    ensures Runs(cfg, k, f, evs', s') && |s'.adders| == k && AllIdle(s'.adders)
    ensures s'.store.buf == [] && s'.ledger.inFlight == s.ledger.inFlight
    ensures s'.pc.Accounting? && Unaccounted(s') == |s.store.buf|
  {
    evs', s' := SignalAll(cfg, k, f, evs, s, k);
    evs', s' := Wake(cfg, k, f, evs', s');
    evs', s' := TakeUnaccounted(cfg, k, f, evs', s');
  }

  lemma BoundAtLeast(cfg: Config, k: nat, f: nat)
    requires k > 0
    ensures Bound(cfg, k, f) >= cfg.budget && (k == 1 ==> Bound(cfg, k, f) == cfg.budget)
    ensures k > 1 ==> Bound(cfg, k, f) >= cfg.budget + f
  {
    if k > 1 {
      Times(k - 1, f);
    }
  }

  /** The queue bound is reached, for every K and every F: a run in which M + (K-1)F bytes are queued. */
  lemma QueueBoundReached(cfg: Config, k: nat, fill: seq<Entry>, e: Entry) returns (evs: seq<Event>, s: State)
    requires k > 0 && Fills(cfg, fill, e)
    ensures Runs(cfg, k, Size(e), evs, s) && |s.store.buf| == Bound(cfg, k, Size(e))
    ensures Beside(Init(k, 0), s) && s.times.lastQueuedAt <= s.clock
    ensures forall j :: 0 <= j < |s.adders| ==> s.adders[j].Signalling?
  {
    evs, s := [], Init(k, 0);
    evs, s := Overfill(cfg, k, evs, s, fill, e);
  }

  /** A second filling while a first one is taken and unaccounted for. */
  lemma FillAgain(cfg: Config, k: nat, evs: seq<Event>, s: State, fill: seq<Entry>, e: Entry, b: int)
    returns (evs': seq<Event>, s': State)
    requires Runs(cfg, k, Size(e), evs, s) && |s.adders| == k > 0 && AllIdle(s.adders) && Fills(cfg, fill, e)
    requires s.store.buf == [] && s.ledger.inFlight == 0 && s.pc.Accounting? && Unaccounted(s) == b
    ensures Runs(cfg, k, Size(e), evs', s') && LiveBytes(s') == b + Bound(cfg, k, Size(e))
  {
    evs', s' := Overfill(cfg, k, evs, s, fill, e);
    assert Unaccounted(s') == Unaccounted(s);
  }

  /** And so is the bound on all live bytes: a run in which 2M + 2(K-1)F bytes are held. */
  lemma LiveBoundReached(cfg: Config, k: nat, fill: seq<Entry>, e: Entry) returns (evs: seq<Event>, s: State)
    requires k > 0 && Fills(cfg, fill, e)
    ensures Runs(cfg, k, Size(e), evs, s) && LiveBytes(s) == 2 * Bound(cfg, k, Size(e))
  {
    evs, s := QueueBoundReached(cfg, k, fill, e);
    BoundAtLeast(cfg, k, Size(e));
    evs, s := FlushAll(cfg, k, Size(e), evs, s);
    evs, s := FillAgain(cfg, k, evs, s, fill, e, Bound(cfg, k, Size(e)));
  }

  /** The queue keeps within the budget in every run if and only if there is a single adder. */
  lemma QueueWithinBudgetExact(cfg: Config, k: nat, fill: seq<Entry>, e: Entry)
    requires k > 0 && Fills(cfg, fill, e)
    ensures (forall evs, s :: Runs(cfg, k, Size(e), evs, s) ==> |s.store.buf| <= cfg.budget) <==> k == 1
  {
    BoundAtLeast(cfg, k, Size(e));
    if k == 1 {
      forall evs, s | Runs(cfg, k, Size(e), evs, s) ensures |s.store.buf| <= cfg.budget {
        ReachInv(cfg, Size(e), k, 0, evs, s);
        Conclude(cfg, Bound(cfg, k, Size(e)), s);
      }
    } else {
      var evs, s := QueueBoundReached(cfg, k, fill, e);
    }
  }

  // ---------------------------------------------------------------- at the source's own sizes

  const RELAY_CHUNK := 128 * 1024

  lemma {:induction false} SumRepeat(n: nat, e: Entry)
    ensures Sum(seq(n, _ => e), Size) == n * Size(e)
  {
    if n > 0 {
      assert seq(n, _ => e)[1..] == seq(n - 1, _ => e);
      SumRepeat(n - 1, e);
      Times(n, Size(e));
    }
  }

  /**
   With the budget of 192 MiB and the 128 KiB reads of Relay: for every number K of streams there
   is a run that queues 192 MiB and K-1 full frames of 128 KiB and a header.
   */
  lemma RelayReachesBound(cfg: Config, k: nat, e: Entry, rest: Entry) returns (evs: seq<Event>, s: State)
    requires k > 0 && cfg.budget == MAX_QUEUED_AND_IN_FLIGHT_BYTES
    requires |e.frame.payload| == RELAY_CHUNK && |rest.frame.payload| == 111104
    ensures Runs(cfg, k, Size(e), evs, s)
    ensures |s.store.buf| == MAX_QUEUED_AND_IN_FLIGHT_BYTES + (k - 1) * 131085
  {
    var fill := seq(1534, _ => e) + [rest];
    SumRepeat(1534, e);
    SumAppend(seq(1534, _ => e), rest, Size);
    assert forall x :: 0 <= x < |fill| ==> fill[x] == e || fill[x] == rest;
    evs, s := QueueBoundReached(cfg, k, fill, e);
  }
}
