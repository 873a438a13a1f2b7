/**
 What Stop promises (Stop and the done case of flushLoop in protocol/batch.go): a frame is sure
 to be flushed exactly when it was written before Stop was called. One that had only passed the
 budget check can be left in the buffer for ever, from every state.
 */
module BatcherStop {
  import opened Bytes
  import opened Frames
  import opened Batcher
  import Fifo = BatcherFifo

  // ---------------------------------------------------------------- runs from a state

  lemma {:induction false} Join(cfg: Config, s0: State, evs: seq<Event>, s: State, more: seq<Event>, t: State)
    requires Exec(cfg, s0, evs) == Some(s) && Exec(cfg, s, more) == Some(t)
    ensures Exec(cfg, s0, evs + more) == Some(t)
    decreases |more|
  {
    if more == [] {
      assert evs + more == evs;
    } else {
      var n := |more| - 1;
      assert (evs + more)[..|evs + more| - 1] == evs + more[..n];
      Join(cfg, s0, evs, s, more[..n], Exec(cfg, s, more[..n]).value);
    }
  }

  lemma Extend(cfg: Config, s0: State, evs: seq<Event>, s: State, ev: Event) returns (evs': seq<Event>, s': State)
    requires Exec(cfg, s0, evs) == Some(s) && Enabled(cfg, s, ev)
    ensures s' == Apply(cfg, s, ev) && Exec(cfg, s0, evs') == Some(s')
  {
    evs', s' := evs + [ev], Apply(cfg, s, ev);
    assert evs'[..|evs|] == evs;
  }

  // ---------------------------------------------------------------- nothing is taken after the end

  /** Once the loop has stopped, no event takes anything out of the buffer or forgets a frame. */
  lemma {:induction false} StoppedIsFinal(cfg: Config, s: State, more: seq<Event>, t: State)
    requires s.pc.Stopped? && Exec(cfg, s, more) == Some(t)
    ensures t.pc.Stopped? && t.store.batches == s.store.batches && t.store.taken == s.store.taken
    ensures s.store.written <= t.store.written
  {
    if more != [] {
      var p := Exec(cfg, s, more[..|more| - 1]).value;
      StoppedIsFinal(cfg, s, more[..|more| - 1], p);
    }
  }

  // ---------------------------------------------------------------- the loop can always come to its end

  /** What the loop does not touch on its way out. */
  ghost predicate Kept(s: State, t: State) {
    t.adders == s.adders && t.clock == s.clock && t.store.written == s.store.written && t.stopCalled == s.stopCalled
  }

  /** From a flush the loop goes on to what follows it. */
  lemma FinishFlush(cfg: Config, s0: State, evs: seq<Event>, s: State) returns (evs': seq<Event>, s': State)
    requires Exec(cfg, s0, evs) == Some(s) && s.pc.Flushing?
    ensures Exec(cfg, s0, evs') == Some(s') && s'.pc == After(s.pc.last) && Kept(s, s')
  {
    evs', s' := Extend(cfg, s0, evs, s, Take);
    if s.store.buf != [] {
      evs', s' := Extend(cfg, s0, evs', s', Account);
    }
  }

  lemma FromSelect(cfg: Config, s0: State, evs: seq<Event>, s: State) returns (evs': seq<Event>, s': State)
    requires Exec(cfg, s0, evs) == Some(s) && s.pc.Select? && s.stopCalled
    ensures Exec(cfg, s0, evs') == Some(s') && s'.pc.Stopped? && Kept(s, s')
  {
    evs', s' := Extend(cfg, s0, evs, s, WakeDone);
    evs', s' := FinishFlush(cfg, s0, evs', s');
    evs', s' := Extend(cfg, s0, evs', s', Drained);
  }

  lemma FromReading(cfg: Config, s0: State, evs: seq<Event>, s: State) returns (evs': seq<Event>, s': State)
    requires Exec(cfg, s0, evs) == Some(s) && (s.pc.Reading? || s.pc.Setting?) && s.stopCalled
    ensures Exec(cfg, s0, evs') == Some(s') && s'.pc.Stopped? && Kept(s, s')
  {
    evs', s' := evs, s;
    if s.pc.Reading? {
      evs', s' := Extend(cfg, s0, evs', s', Read);
    }
    evs', s' := Extend(cfg, s0, evs', s', SetTimers(0));
    evs', s' := FromSelect(cfg, s0, evs', s');
  }

  lemma FromAfter(cfg: Config, s0: State, evs: seq<Event>, s: State, last: bool) returns (evs': seq<Event>, s': State)
    requires Exec(cfg, s0, evs) == Some(s) && s.pc == After(last) && s.stopCalled
    ensures Exec(cfg, s0, evs') == Some(s') && s'.pc.Stopped? && Kept(s, s')
  {
    if last {
      evs', s' := Extend(cfg, s0, evs, s, Drained);
    } else {
      evs', s' := FromReading(cfg, s0, evs, s);
    }
  }

  /** From wherever it is, the loop can reach its end before any adder takes another step. */
  lemma LoopCanStop(cfg: Config, s: State) returns (evs: seq<Event>, t: State)
    requires Fifo.Inv(s) && s.stopCalled
    ensures Exec(cfg, s, evs) == Some(t) && t.pc.Stopped? && Kept(s, t)
  {
    evs, t := [], s;
    match s.pc
    case Select => evs, t := FromSelect(cfg, s, evs, t);
    case Flushing(last) =>
      evs, t := FinishFlush(cfg, s, evs, t);
      evs, t := FromAfter(cfg, s, evs, t, last);
    case Accounting(last) =>
      evs, t := Extend(cfg, s, evs, t, Account);
      evs, t := FromAfter(cfg, s, evs, t, last);
    case Reading => evs, t := FromReading(cfg, s, evs, t);
    case Setting(_) => evs, t := FromReading(cfg, s, evs, t);
    case Draining => evs, t := Extend(cfg, s, evs, t, Drained);
    case Stopped =>
  }

  // ---------------------------------------------------------------- what Stop promises

  /** The frame at place w of the write order is e, and in no run from here is it ever taken. */
  ghost predicate LostForEver(cfg: Config, s: State, w: nat, e: Entry) {
    forall later, t :: Exec(cfg, s, later) == Some(t) ==>
      w < |t.store.written| && t.store.written[w] == e && !Fifo.TakenOnce(t.store, w)
  }

  lemma StaysLost(cfg: Config, adders: nat, clock: Time, evs: seq<Event>, s: State, w: nat)
    requires Reaches(cfg, adders, clock, evs, s) && s.pc.Stopped? && s.store.taken <= w < |s.store.written|
    ensures LostForEver(cfg, s, w, s.store.written[w])
  {
    forall later, t | Exec(cfg, s, later) == Some(t)
      ensures w < |t.store.written| && t.store.written[w] == s.store.written[w] && !Fifo.TakenOnce(t.store, w)
    {
      StoppedIsFinal(cfg, s, later, t);
      Join(cfg, Init(adders, clock), evs, s, later, t);
      Fifo.ReachInv(cfg, adders, clock, evs + later, t);
      Fifo.TakenExact(t.store, w);
    }
  }

  /**
   Admission is not enough. From every reachable state in which Stop has been called and adder i
   has passed the budget check, there is a run in which the loop comes to its end first; the
   frame is then written behind everything and never taken, although Stop has returned.
   */
  lemma AdmittedButStranded(cfg: Config, adders: nat, clock: Time, evs: seq<Event>, s: State, i: nat)
    returns (more: seq<Event>, t: State)
    requires Reaches(cfg, adders, clock, evs, s) && s.stopCalled && i < |s.adders| && s.adders[i].Admitted?
    ensures Exec(cfg, s, more) == Some(t) && t.pc.Stopped?
    ensures t.store.written == s.store.written + [s.adders[i].e]
    ensures LostForEver(cfg, t, |s.store.written|, s.adders[i].e)
  {
    Fifo.ReachInv(cfg, adders, clock, evs, s);
    var mid, p := LoopCanStop(cfg, s);
    more, t := Extend(cfg, s, mid, p, Write(i, p.clock, cfg.maxFlushDelay));
    Join(cfg, Init(adders, clock), evs, s, mid, p);
    Fifo.ReachInv(cfg, adders, clock, evs + mid, p);
    Join(cfg, Init(adders, clock), evs, s, more, t);
    StaysLost(cfg, adders, clock, evs + more, t, |s.store.written|);
  }

  /** In every run that reaches the end, the frame at place w is in exactly one taken batch. */
  ghost predicate SureToBeTaken(cfg: Config, s: State, w: nat) {
    forall more, t :: Exec(cfg, s, more) == Some(t) && t.pc.Stopped? && w < |t.store.written| ==>
      Fifo.TakenOnce(t.store, w)
  }

  lemma {:induction false} MarkStays(cfg: Config, s: State, more: seq<Event>, t: State)
    requires s.stopCalled && Exec(cfg, s, more) == Some(t)
    ensures t.stopMark == s.stopMark
    ensures t.stopCalled
  {
    if more != [] {
      MarkStays(cfg, s, more[..|more| - 1], Exec(cfg, s, more[..|more| - 1]).value);
    }
  }

  lemma WrittenIsSure(cfg: Config, adders: nat, clock: Time, evs: seq<Event>, s: State, w: nat)
    requires Reaches(cfg, adders, clock, evs, s) && s.stopCalled && w < s.stopMark
    ensures SureToBeTaken(cfg, s, w)
  {
    forall more, t | Exec(cfg, s, more) == Some(t) && t.pc.Stopped? && w < |t.store.written|
      ensures Fifo.TakenOnce(t.store, w)
    {
      MarkStays(cfg, s, more, t);
      Join(cfg, Init(adders, clock), evs, s, more, t);
      Fifo.StopFlushesEverythingWritten(cfg, adders, clock, evs + more, t, w);
    }
  }

  /**
   Exactly what Stop promises. Right after the call, with some Add call past the budget check:
   the frame at place w of the write order, up to the next one to be written, is sure to be
   flushed if and only if it was written before the call.
   */
  lemma StopGuaranteeExact(cfg: Config, adders: nat, clock: Time, evs: seq<Event>, p: State, i: nat, w: nat)
    requires Reaches(cfg, adders, clock, evs, p) && Enabled(cfg, p, Stop)
    requires i < |p.adders| && p.adders[i].Admitted? && w <= |p.store.written|
    ensures SureToBeTaken(cfg, Apply(cfg, p, Stop), w) <==> w < |p.store.written|
  {
    var evs', s := Extend(cfg, Init(adders, clock), evs, p, Stop);
    if w < |p.store.written| {
      WrittenIsSure(cfg, adders, clock, evs', s, w);
    } else {
      var more, t := AdmittedButStranded(cfg, adders, clock, evs', s, i);
      assert Exec(cfg, t, []) == Some(t);
      assert !Fifo.TakenOnce(t.store, w);
    }
  }
}
