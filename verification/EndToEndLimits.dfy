/**
 The limits of the end-to-end guarantee are real, and exact. A CONNECT handled again, as a resent
 batch brings it, makes the sending server number the same stream from 0 a second time; so does
 a send on an unregistered conn. Here is exactly when that does harm.

 Sending server and receiving client: the client makes its conn once, so the runs are those in
 which the receiver registers no new conn under the ID. Sending client and receiving server: the
 server registers again whenever a CONNECT is repeated.
 */
module EndToEndLimits {
  import opened Bytes
  import opened Frames
  import opened Delivery
  import opened Envelope
  import opened EndToEnd
  import B = Batcher

  /** A run every step of which, except possibly event m, is within the limits; -1 is no event. */
  ghost predicate Going(w: Setup, evs: seq<Event>, s: State, m: int) {
    && Runs(w, evs, s)
    && forall i :: 0 <= i < |evs| && i != m ==> StepWithin(w.k, w.cfg, w.adders, w.clock, evs, i)
  }

  lemma Extend(w: Setup, evs: seq<Event>, s: State, m: int, ev: Event) returns (evs': seq<Event>, s': State)
    requires Going(w, evs, s, m) && Enabled(w.k, w.cfg, s, ev) && (WithinLimits(w.k, s, ev) || |evs| == m)
    ensures evs' == evs + [ev] && s' == Apply(w.k, w.cfg, s, ev) && Going(w, evs', s', m)
  {
    evs', s' := evs + [ev], Apply(w.k, w.cfg, s, ev);
    assert evs'[..|evs|] == evs;
    forall i | 0 <= i < |evs'| && i != m ensures StepWithin(w.k, w.cfg, w.adders, w.clock, evs', i) {
      if i < |evs| {
        assert StepWithin(w.k, w.cfg, w.adders, w.clock, evs, i);
        assert evs'[..i] == evs[..i];
      }
    }
  }

  /** A longer run in which the receiver registers no further conn. */
  ghost predicate Grown(evs: seq<Event>, more: seq<Event>) {
    evs <= more && forall i :: |evs| <= i < |more| ==> !more[i].Register?
  }

  /** A step of the batcher alone. */
  lemma Step(w: Setup, evs: seq<Event>, s: State, m: int, e: B.Event) returns (evs': seq<Event>, s': State)
    requires Going(w, evs, s, m) && !e.Begin? && B.Enabled(w.cfg, s.b, e)
    ensures Going(w, evs', s', m) && Grown(evs, evs') && s' == s.(b := B.Apply(w.cfg, s.b, e))
  {
    evs', s' := Extend(w, evs, s, m, Batch(e));
  }

  // ---------------------------------------------------------------- sending

  /** Only the batcher has moved. */
  ghost predicate Around(s: State, t: State) { t.tx == s.tx && t.rx == s.rx && t.posted == s.posted }

  /** The flush loop is at its select, Stop has not been called, and adder 0 is free. */
  ghost predicate Ready(b: B.State) {
    && b.pc.Select? && !b.stopCalled && |b.adders| > 0 && b.adders[0].Idle?
    && |b.ledger.jobs| == |b.store.batches|
  }

  /** A signal waits for the flush loop, and the batch's times are not in the future. */
  ghost predicate Signalled(b: B.State) {
    (b.sig.flush || b.sig.activity) && b.times.lastQueuedAt <= b.clock
  }

  /** Adder 0 passes the check, writes its entry and signals. */
  lemma WriteOne(w: Setup, evs: seq<Event>, s: State, m: int, e: B.Entry) returns (evs': seq<Event>, s': State)
    requires Going(w, evs, s, m) && |s.b.adders| > 0 && s.b.adders[0] == B.Asking(e)
    requires B.Fits(w.cfg, |s.b.store.buf|, s.b.ledger.inFlight, e)
    ensures Going(w, evs', s', m) && Grown(evs, evs') && Around(s, s') && Signalled(s'.b)
    ensures s'.b.store == B.Enqueue(s.b.store, e) && s'.b.ledger == s.b.ledger && s'.b.pc == s.b.pc
    ensures s'.b.stopCalled == s.b.stopCalled && s'.b.adders == s.b.adders[0 := B.Idle]
  {
    evs', s' := Step(w, evs, s, m, B.Check(0));
    evs', s' := Step(w, evs', s', m, B.Write(0, s.b.clock, w.cfg.maxFlushDelay));
    evs', s' := Step(w, evs', s', m, B.Signal(0));
  }

  /** One SendData, from the call to the written frame. */
  lemma SendOne(w: Setup, evs: seq<Event>, s: State, m: int, c: uint32, data: Payload)
    returns (evs': seq<Event>, s': State)
    requires Going(w, evs, s, m) && Ready(s.b)
    requires WithinLimits(w.k, s, SendData(0, c, data, false)) || |evs| == m
    requires B.Fits(w.cfg, |s.b.store.buf|, s.b.ledger.inFlight, B.Entry(DataFrame(s.tx, c, data), false))
    ensures Going(w, evs', s', m) && Grown(evs, evs') && evs + [SendData(0, c, data, false)] <= evs'
    ensures s'.tx == Stamped(s.tx, c, data) && s'.rx == s.rx && s'.posted == s.posted
    ensures Ready(s'.b) && Signalled(s'.b) && s'.b.ledger == s.b.ledger
    ensures s'.b.store == B.Enqueue(s.b.store, B.Entry(DataFrame(s.tx, c, data), false))
  {
    evs', s' := Extend(w, evs, s, m, SendData(0, c, data, false));
    evs', s' := WriteOne(w, evs', s', m, B.Entry(DataFrame(s.tx, c, data), false));
  }

  lemma StopAndWake(w: Setup, evs: seq<Event>, s: State, m: int) returns (evs': seq<Event>, s': State)
    requires Going(w, evs, s, m) && s.b.pc.Select? && !s.b.stopCalled
    ensures Going(w, evs', s', m) && Grown(evs, evs') && Around(s, s')
    ensures s'.b.pc == B.Flushing(true) && s'.b.store == s.b.store && s'.b.ledger == s.b.ledger
  {
    evs', s' := Step(w, evs, s, m, B.Stop);
    evs', s' := Step(w, evs', s', m, B.WakeDone);
  }

  /** The buffer becomes the last batch, and its sending begins. */
  lemma FlushOne(w: Setup, evs: seq<Event>, s: State, m: int) returns (evs': seq<Event>, s': State)
    requires Going(w, evs, s, m) && Ready(s.b) && s.b.store.buf != []
    ensures Going(w, evs', s', m) && Grown(evs, evs') && Around(s, s')
    ensures |s'.b.store.batches| == |s'.b.ledger.jobs| == |s.b.store.batches| + 1
    ensures s'.b.store.batches[|s.b.store.batches|].raw == s.b.store.buf
    ensures s'.b.ledger.jobs[|s.b.store.batches|].phase.Sending?
  {
    evs', s' := StopAndWake(w, evs, s, m);
    evs', s' := Step(w, evs', s', m, B.Take);
    evs', s' := Step(w, evs', s', m, B.Account);
  }

  lemma PostOne(w: Setup, evs: seq<Event>, s: State, m: int, n: nat, nonce: seq<byte>)
    returns (evs': seq<Event>, s': State)
    requires Going(w, evs, s, m) && |nonce| == NONCE_LEN
    requires n < |s.b.store.batches| == |s.b.ledger.jobs| && s.b.ledger.jobs[n].phase.Sending?
    requires FitsWhole(w.k, s.b.store.batches[n].raw)
    ensures Going(w, evs', s', m) && Grown(evs, evs') && s'.tx == s.tx && s'.rx == s.rx
    ensures s'.posted == s.posted + [Blob(w.k, nonce, s.b.store.batches[n].raw)]
  {
    var raw := s.b.store.batches[n].raw;
    assert raw[0..|raw|] == raw;
    evs', s' := Extend(w, evs, s, m, PostBatch(n, 0, |raw|, nonce));
  }

  /** From the buffer onto the channel. */
  lemma ShipOne(w: Setup, evs: seq<Event>, s: State, m: int, nonce: seq<byte>) returns (evs': seq<Event>, s': State)
    requires Going(w, evs, s, m) && Ready(s.b) && s.b.store.buf != [] && |nonce| == NONCE_LEN
    requires FitsWhole(w.k, s.b.store.buf)
    ensures Going(w, evs', s', m) && Grown(evs, evs') && s'.tx == s.tx && s'.rx == s.rx
    ensures s'.posted == s.posted + [Blob(w.k, nonce, s.b.store.buf)]
  {
    evs', s' := FlushOne(w, evs, s, m);
    evs', s' := PostOne(w, evs', s', m, |s.b.store.batches|, nonce);
  }

  // ---------------------------------------------------------------- a batch that gets lost

  lemma Wake(w: Setup, evs: seq<Event>, s: State, m: int) returns (evs': seq<Event>, s': State)
    requires Going(w, evs, s, m) && s.b.pc.Select? && s.b.store.buf != [] && Signalled(s.b)
    ensures Going(w, evs', s', m) && Grown(evs, evs') && Around(s, s')
    ensures s'.b == s.b.(pc := B.Flushing(false), sig := s'.b.sig)
  {
    if s.b.sig.flush {
      evs', s' := Step(w, evs, s, m, B.WakeFlush);
    } else {
      evs', s' := Step(w, evs, s, m, B.WakeActivity);
      evs', s' := Step(w, evs', s', m, B.Read);
      evs', s' := Step(w, evs', s', m, B.SetTimers(0));
      evs', s' := Step(w, evs', s', m, B.WakeIdle);
    }
  }

  /** The batch is taken, accounted for, and given up by its sender. */
  lemma TakeAndGiveUp(w: Setup, evs: seq<Event>, s: State, m: int) returns (evs': seq<Event>, s': State)
    requires Going(w, evs, s, m) && s.b.pc == B.Flushing(false) && s.b.store.buf != []
    requires |s.b.ledger.jobs| == |s.b.store.batches|
    ensures Going(w, evs', s', m) && Grown(evs, evs') && Around(s, s')
    ensures s'.b.pc.Reading? && s'.b.store.buf == [] && s'.b.ledger.inFlight == s.b.ledger.inFlight
    ensures s'.b.adders == s.b.adders && s'.b.stopCalled == s.b.stopCalled
    ensures |s'.b.ledger.jobs| == |s'.b.store.batches|
  {
    evs', s' := Step(w, evs, s, m, B.Take);
    evs', s' := Step(w, evs', s', m, B.Account);
    evs', s' := Step(w, evs', s', m, B.Finish(|s.b.ledger.jobs|));
  }

  /** The buffer is flushed, and the batch never reaches the channel. */
  lemma LoseOne(w: Setup, evs: seq<Event>, s: State, m: int) returns (evs': seq<Event>, s': State)
    requires Going(w, evs, s, m) && Ready(s.b) && Signalled(s.b) && s.b.store.buf != []
    ensures Going(w, evs', s', m) && Grown(evs, evs') && Around(s, s')
    ensures Ready(s'.b) && s'.b.store.buf == [] && s'.b.ledger.inFlight == s.b.ledger.inFlight
  {
    evs', s' := Wake(w, evs, s, m);
    evs', s' := TakeAndGiveUp(w, evs', s', m);
    evs', s' := Step(w, evs', s', m, B.Read);
    evs', s' := Step(w, evs', s', m, B.SetTimers(0));
  }

  lemma SendThenLose(w: Setup, evs: seq<Event>, s: State, m: int, c: uint32, z: Payload)
    returns (evs': seq<Event>, s': State)
    requires Going(w, evs, s, m) && Ready(s.b) && s.b.store.buf == [] && |z| < PAYLOAD_LIMIT
    requires c in s.tx.sendSeq && |GivenTo(s.tx.given, c)| + 1 < SEQ_RANGE
    requires HEADER_SIZE + |z| + s.b.ledger.inFlight <= w.cfg.budget
    ensures Going(w, evs', s', m) && Grown(evs, evs') && s'.rx == s.rx && s'.posted == s.posted
    ensures Ready(s'.b) && s'.b.store.buf == [] && s'.b.ledger.inFlight == s.b.ledger.inFlight
    ensures s'.tx == Stamped(s.tx, c, z)
  {
    evs', s' := SendOne(w, evs, s, m, c, z);
    evs', s' := LoseOne(w, evs', s', m);
  }

  function Repeat(z: Payload, n: nat): (r: seq<Payload>) ensures |r| == n { seq(n, _ => z) }

  lemma RepeatMore(z: Payload, n: nat)
    requires n > 0
    ensures Repeat(z, n) == Repeat(z, n - 1) + [z]
  {}

  /** n payloads are sent and lost; the next one will be numbered n. */
  lemma {:induction false} SendAndLose(w: Setup, evs: seq<Event>, s: State, m: int, c: uint32, z: Payload, n: nat)
    returns (evs': seq<Event>, s': State)
    requires Going(w, evs, s, m) && Ready(s.b) && s.b.store.buf == [] && |z| < PAYLOAD_LIMIT
    requires c in s.tx.sendSeq && s.tx.sendSeq[c] == 0 && |GivenTo(s.tx.given, c)| + n < SEQ_RANGE
    requires HEADER_SIZE + |z| + s.b.ledger.inFlight <= w.cfg.budget
    ensures Going(w, evs', s', m) && Grown(evs, evs') && s'.rx == s.rx && s'.posted == s.posted
    ensures Ready(s'.b) && s'.b.store.buf == [] && s'.b.ledger.inFlight == s.b.ledger.inFlight
    ensures c in s'.tx.sendSeq && s'.tx.sendSeq[c] == n
    ensures GivenTo(s'.tx.given, c) == GivenTo(s.tx.given, c) + Repeat(z, n)
  {
    evs', s' := evs, s;
    if n == 0 {
      assert GivenTo(s.tx.given, c) + Repeat(z, 0) == GivenTo(s.tx.given, c);
    } else {
      evs', s' := SendAndLose(w, evs, s, m, c, z, n - 1);
      evs', s' := SendThenLose(w, evs', s', m, c, z);
      RepeatMore(z, n);
    }
  }

  // ---------------------------------------------------------------- receiving

  lemma FetchedFrames(k: Crypto, nonce: seq<byte>, fs: seq<Frame>)
    requires Sound(k) && |nonce| == NONCE_LEN && Sized(fs)
    ensures Fetched(k, Blob(k, nonce, WireAll(fs))) == fs
  {
    UnblobBlob(k, nonce, WireAll(fs));
    DecodeWireAll(fs);
  }

  /** The last posted batch is in the receive loop's hands. */
  lemma FetchLast(w: Setup, evs: seq<Event>, s: State, m: int, fs: seq<Frame>, nonce: seq<byte>)
    returns (evs': seq<Event>, s': State)
    requires Sound(w.k) && Going(w, evs, s, m) && |nonce| == NONCE_LEN && Sized(fs)
    requires Shaped(s.rx) && s.rx.queue == [] && s.rx.busy.None?
    requires s.posted != [] && s.posted[|s.posted| - 1] == Blob(w.k, nonce, WireAll(fs))
    ensures Going(w, evs', s', m) && Grown(evs, evs') && s'.tx == s.tx && s'.rx == s.rx.(queue := fs)
  {
    FetchedFrames(w.k, nonce, fs);
    evs', s' := Extend(w, evs, s, m, Fetch(|s.posted| - 1));
  }

  /** A new receiving conn for this ID. */
  lemma RegisterNew(w: Setup, evs: seq<Event>, s: State, m: int, c: uint32) returns (evs': seq<Event>, s': State)
    requires Going(w, evs, s, m) && Shaped(s.rx)
    ensures Going(w, evs', s', m) && evs <= evs' && s'.tx == s.tx && s'.b == s.b && s'.posted == s.posted
    ensures s'.rx == s.rx.(objs := s.rx.objs + [NewConn(c)], reg := s.rx.reg[c := |s.rx.objs|])
  {
    evs', s' := Extend(w, evs, s, m, Register(c));
  }

  /** The next frame of the batch carries the expected number: its payload is enqueued. */
  lemma TakeExpected(w: Setup, evs: seq<Event>, s: State, m: int, o: nat) returns (evs': seq<Event>, s': State)
    requires Going(w, evs, s, m) && Shaped(s.rx) && s.rx.busy.None? && s.rx.queue != []
    requires o < |s.rx.objs| && s.rx.objs[o].hand == [] && !s.rx.objs[o].closed
    requires var f := s.rx.queue[0];
      f.typ == TYPE_DATA && f.connId in s.rx.reg && s.rx.reg[f.connId] == o && f.seqNum == s.rx.objs[o].recv.expected
    ensures Going(w, evs', s', m) && Grown(evs, evs') && s'.tx == s.tx && Shaped(s'.rx)
    ensures |s'.rx.objs| == |s.rx.objs| && s'.rx.reg == s.rx.reg && s'.rx.queue == s.rx.queue[1..]
    ensures s'.rx.objs[o].id == s.rx.objs[o].id && !s'.rx.objs[o].closed
    ensures s'.rx.objs[o].open == s.rx.objs[o].open + [s.rx.queue[0].payload]
    ensures s'.rx.objs[o].recv == Taken(s.rx.objs[o], s.rx.queue[0]).recv
    ensures s'.rx.objs[o].hand == Taken(s.rx.objs[o], s.rx.queue[0]).hand[1..]
    ensures s'.rx.busy == if s'.rx.objs[o].hand == [] then None else Some(o)
  {
    evs', s' := Extend(w, evs, s, m, Handle);
    evs', s' := Extend(w, evs', s', m, HandOver(Enqueued));
  }

  // ---------------------------------------------------------------- a number that means something else

  /** Nothing is under way, and nothing is in anybody's hands. */
  ghost predicate Quiet(s: State) {
    && s.b.pc.Select? && !s.b.stopCalled && |s.b.adders| > 0 && s.b.adders[0].Idle? && s.b.store.buf == []
    && s.rx.queue == [] && s.rx.busy.None?
  }

  /** A frame with this payload is admitted and goes out in one piece. */
  ghost predicate Roomy(w: Setup, s: State, c: uint32, n: uint32, y: Payload) {
    var raw := Wire(Frame(TYPE_DATA, c, n, y));
    |y| < PAYLOAD_LIMIT && |raw| + s.b.ledger.inFlight <= w.cfg.budget && FitsWhole(w.k, raw)
  }

  /** What the invariant says of a quiet state, as far as the runs below need it. */
  ghost predicate InForm(s: State) {
    && Shaped(s.rx) && |s.b.ledger.jobs| == |s.b.store.batches|
    && (forall c :: c in s.rx.reg ==> s.rx.objs[s.rx.reg[c]].id == c)
    && (forall o :: 0 <= o < |s.rx.objs| ==> s.rx.objs[o].hand == [])
    && (forall o :: 0 <= o < |s.rx.objs| && !s.rx.objs[o].closed ==> |s.rx.objs[o].open| == s.rx.objs[o].recv.expected)
  }

  /** The receiver has an open conn under this ID. */
  predicate OpenPeer(rx: Rx, c: uint32) requires Shaped(rx) { c in rx.reg && !rx.objs[rx.reg[c]].closed }

  /** The number that conn expects next. */
  function Expected(rx: Rx, c: uint32): uint32 requires Shaped(rx) && OpenPeer(rx, c) {
    rx.objs[rx.reg[c]].recv.expected
  }

  /** A payload sent under the number the peer expects comes out there, whatever was given in its place. */
  lemma ComesOut(w: Setup, evs: seq<Event>, s: State, m: int, c: uint32, y: Payload, nonce: seq<byte>)
    returns (evs': seq<Event>, t: State)
    requires Sound(w.k) && |nonce| == NONCE_LEN && Going(w, evs, s, m) && Quiet(s) && InForm(s)
    requires OpenPeer(s.rx, c) && DataFrame(s.tx, c, y).seqNum == Expected(s.rx, c)
    requires Roomy(w, s, c, Expected(s.rx, c), y) && |GivenTo(s.tx.given, c)| + 1 < SEQ_RANGE
    requires c in s.tx.sendSeq || |evs| == m
    ensures Going(w, evs', t, m) && Grown(evs, evs') && evs + [SendData(0, c, y, false)] <= evs'
    ensures GivenTo(t.tx.given, c) == GivenTo(s.tx.given, c) + [y]
    ensures var o := s.rx.reg[c];
      o < |t.rx.objs| && t.rx.objs[o].id == c && t.rx.objs[o].open == s.rx.objs[o].open + [y]
  {
    var f := DataFrame(s.tx, c, y);
    evs', t := SendOne(w, evs, s, m, c, y);
    assert t.b.store.buf == Wire(f);
    WireOne(f);
    evs', t := ShipOne(w, evs', t, m, nonce);
    evs', t := FetchLast(w, evs', t, m, [f], nonce);
    evs', t := TakeExpected(w, evs', t, m, s.rx.reg[c]);
  }

  // ---------------------------------------------------------------- harm and no harm

  /** Every run that goes on from `first`, with only event m outside the limits, is prefix safe. */
  ghost predicate SafeAfter(w: Setup, first: seq<Event>, m: int) {
    forall more, t :: Going(w, first + more, t, m) ==> Safe(t)
  }

  /** The same over the runs in which the receiver registers no further conn under the ID. */
  ghost predicate SafeOnceRegistered(w: Setup, first: seq<Event>, m: int, c: uint32) {
    forall more, t :: Going(w, first + more, t, m) && Register(c) !in more ==> Safe(t)
  }

  lemma CarefulIsSafe(w: Setup, evs: seq<Event>, s: State, ev: Event)
    requires Sound(w.k) && Going(w, evs, s, |evs|) && WithinLimits(w.k, s, ev)
    ensures SafeAfter(w, evs + [ev], |evs|)
  {
    forall more, t | Going(w, evs + [ev] + more, t, |evs|) ensures Safe(t) {
      var all := evs + [ev] + more;
      assert all[..|evs|] == evs && all[|evs|] == ev;
      assert StepWithin(w.k, w.cfg, w.adders, w.clock, all, |evs|);
      PrefixSafety(w.k, w.cfg, w.adders, w.clock, all, t);
    }
  }

  lemma InvIsSafe(k: Crypto, s: State, x: Spoilt)
    requires Inv(k, s, x)
    ensures Safe(s)
  {
    forall o | 0 <= o < |s.rx.objs| ensures s.rx.objs[o].open <= GivenTo(s.tx.given, s.rx.objs[o].id) {
      assert ConnOK(s.rx.objs[o], IsRegistered(s.rx, o), s.tx.given, x);
    }
  }

  /** The last step of such a run. */
  lemma LastStep(w: Setup, all: seq<Event>, t: State, m: int) returns (q: State)
    requires all != [] && Going(w, all, t, m)
    ensures Going(w, all[..|all| - 1], q, m) && Enabled(w.k, w.cfg, q, all[|all| - 1])
    ensures t == Apply(w.k, w.cfg, q, all[|all| - 1])
    ensures |all| - 1 != m ==> WithinLimits(w.k, q, all[|all| - 1])
  {
    var front := all[..|all| - 1];
    q := Exec(w.k, w.cfg, w.adders, w.clock, front).value;
    if |all| - 1 != m {
      assert StepWithin(w.k, w.cfg, w.adders, w.clock, all, |all| - 1);
    }
    forall i | 0 <= i < |front| && i != m ensures StepWithin(w.k, w.cfg, w.adders, w.clock, front, i) {
      assert StepWithin(w.k, w.cfg, w.adders, w.clock, all, i);
      assert front[..i] == all[..i];
    }
  }

  /** What is spoilt stays harmless as long as no new conn is registered under it. */
  lemma {:induction false} SpoiltStays(w: Setup, first: seq<Event>, p: State, more: seq<Event>, t: State,
                                       m: int, x: Spoilt)
    requires Sound(w.k) && Runs(w, first, p) && Inv(w.k, p, x) && m < |first| && Going(w, first + more, t, m)
    requires forall c :: c in x.all || c in x.first ==> Register(c) !in more
    ensures Inv(w.k, t, x)
    decreases |more|
  {
    if more == [] {
      assert first + more == first;
    } else {
      var n, all := |more| - 1, first + more;
      assert all[..|all| - 1] == first + more[..n] && all[|all| - 1] == more[n] && more[n] in more;
      var q := LastStep(w, all, t, m);
      SpoiltStays(w, first, p, more[..n], q, m, x);
      StepInv(w.k, w.cfg, q, more[n], x);
    }
  }

  lemma SpoiltIsSafe(w: Setup, first: seq<Event>, p: State, m: int, c: uint32, x: Spoilt)
    requires Sound(w.k) && Runs(w, first, p) && Inv(w.k, p, x) && m < |first| && x.all + x.first == {c}
    ensures SafeOnceRegistered(w, first, m, c)
  {
    forall more, t | Going(w, first + more, t, m) && Register(c) !in more ensures Safe(t) {
      assert c in x.all + x.first;
      SpoiltStays(w, first, p, more, t, m, x);
      InvIsSafe(w.k, t, x);
    }
  }

  lemma BrokenAfter(w: Setup, first: seq<Event>, evs: seq<Event>, t: State, m: int, c: uint32, o: nat)
    requires Going(w, evs, t, m) && Grown(first, evs) && o < |t.rx.objs|
    requires !(t.rx.objs[o].open <= GivenTo(t.tx.given, t.rx.objs[o].id))
    ensures !SafeOnceRegistered(w, first, m, c)
  {
    var more := evs[|first|..];
    assert evs == first + more;
    assert Register(c) !in more;
    assert !Safe(t);
  }

  lemma FormAfter(w: Setup, evs: seq<Event>, s: State)
    requires Sound(w.k) && Runs(w, evs, s) && Careful(w.k, w.cfg, w.adders, w.clock, evs) && Quiet(s)
    ensures InForm(s) && Inv(w.k, s, NONE) && Going(w, evs, s, |evs|)
  {
    ReachInv(w.k, w.cfg, w.adders, w.clock, evs, s);
    forall o | 0 <= o < |s.rx.objs| && !s.rx.objs[o].closed
      ensures |s.rx.objs[o].open| == s.rx.objs[o].recv.expected
    {
      assert ConnOK(s.rx.objs[o], IsRegistered(s.rx, o), s.tx.given, NONE);
      assert s.rx.objs[o].open + s.rx.objs[o].hand == s.rx.objs[o].open;
    }
  }

  // ---------------------------------------------------------------- what spoiling an ID leaves

  lemma AllGoodSpoilt(b: B.State, g: Given, x: Spoilt)
    requires AllGood(b, g, NONE)
    ensures AllGood(b, g, x)
  {
    forall i | 0 <= i < |b.store.written| ensures Good(b.store.written[i].frame, g, x) {
      assert Good(b.store.written[i].frame, g, NONE);
    }
    forall i | 0 <= i < |b.adders| ensures GoodAdder(b.adders[i], g, x) {
      assert GoodAdder(b.adders[i], g, NONE);
    }
  }

  /** An open registered conn under a spoilt ID is past the spoilt number. */
  ghost predicate Past(rx: Rx, x: Spoilt)
    requires Shaped(rx)
  {
    forall c :: c in x.all || c in x.first ==> OpenPeer(rx, c) ==> c !in x.all && Expected(rx, c) > 0
  }

  lemma RxSpoilt(rx: Rx, g: Given, x: Spoilt)
    requires GoodRx(rx, g, NONE) && Past(rx, x)
    ensures GoodRx(rx, g, x)
  {
    forall i | 0 <= i < |rx.queue| ensures Good(rx.queue[i], g, x) {
      assert Good(rx.queue[i], g, NONE);
    }
    forall o | 0 <= o < |rx.objs| ensures ConnOK(rx.objs[o], IsRegistered(rx, o), g, x) {
      assert ConnOK(rx.objs[o], IsRegistered(rx, o), g, NONE);
      ConnSpoilt(rx.objs[o], IsRegistered(rx, o), g, x);
    }
  }

  lemma ConnSpoilt(c: Conn, registered: bool, g: Given, x: Spoilt)
    requires GoodConn(c, g)
    requires (c.id in x.all || c.id in x.first) && registered && !c.closed ==> c.id !in x.all && c.recv.expected > 0
    ensures ConnOK(c, registered, g, x)
  {
    if !c.closed {
      assert c.open + c.hand <= GivenTo(g, c.id);
    }
  }

  lemma Spoil(k: Crypto, s: State, x: Spoilt)
    requires Inv(k, s, NONE) && Past(s.rx, x) && forall c :: c in x.first ==> c !in s.tx.sendSeq
    requires forall c :: c in x.all || c in x.first ==> GivenTo(s.tx.given, c) != []
    ensures Inv(k, s, x)
  {
    AllGoodSpoilt(s.b, s.tx.given, x);
    RxSpoilt(s.rx, s.tx.given, x);
  }

  // ---------------------------------------------------------------- a CONNECT handled again

  lemma ConnectHarmless(w: Setup, evs: seq<Event>, s: State, c: uint32)
    requires Sound(w.k) && Going(w, evs, s, |evs|) && Inv(w.k, s, NONE)
    requires GivenTo(s.tx.given, c) != [] && !OpenPeer(s.rx, c)
    ensures SafeOnceRegistered(w, evs + [Connect(c)], |evs|, c)
  {
    var x := Spoilt({c}, {});
    Spoil(w.k, s, x);
    var evs', t := Extend(w, evs, s, |evs|, Connect(c));
    assert Numbered(t.tx, x);
    SpoiltIsSafe(w, evs', t, |evs|, c, x);
  }

  /** The payloads that take the stream from number 0 to the one the peer expects, and that one. */
  ghost predicate Misplaced(given: seq<Payload>, e: nat, z: Payload, y: Payload) {
    |given| + e + 1 < SEQ_RANGE && (given + Repeat(z, e) + [y])[e] != y
  }

  lemma ConnectHarms(w: Setup, evs: seq<Event>, s: State, c: uint32, z: Payload, y: Payload, nonce: seq<byte>)
    requires Sound(w.k) && Going(w, evs, s, |evs|) && Quiet(s) && InForm(s) && |nonce| == NONCE_LEN
    requires OpenPeer(s.rx, c) && Misplaced(GivenTo(s.tx.given, c), Expected(s.rx, c), z, y)
    requires |z| < PAYLOAD_LIMIT && HEADER_SIZE + |z| + s.b.ledger.inFlight <= w.cfg.budget
    requires Roomy(w, s, c, Expected(s.rx, c), y)
    ensures !SafeOnceRegistered(w, evs + [Connect(c)], |evs|, c)
  {
    var e, o := Expected(s.rx, c), s.rx.reg[c];
    var first, p := Extend(w, evs, s, |evs|, Connect(c));
    var evs', t := SendAndLose(w, first, p, |evs|, c, z, e);
    evs', t := ComesOut(w, evs', t, |evs|, c, y, nonce);
    assert t.rx.objs[o].open[e] == y;
    BrokenAfter(w, first, evs', t, |evs|, c, o);
  }

  /**
   A CONNECT handled by the sending server, exactly: at a quiet state, over all runs that go on
   within the limits and in which the receiving client makes no new conn under the ID, prefix
   safety survives if and only if no data has been sent under the ID or the client has no open
   conn under it. (z and y are any payloads of which y differs from the one given in its place.)
   */
  lemma RepeatedConnectExact(w: Setup, evs: seq<Event>, s: State, c: uint32, z: Payload, y: Payload, nonce: seq<byte>)
    requires Sound(w.k) && Runs(w, evs, s) && Careful(w.k, w.cfg, w.adders, w.clock, evs)
    requires |nonce| == NONCE_LEN && Quiet(s) && Shaped(s.rx)
    requires GivenTo(s.tx.given, c) != [] && OpenPeer(s.rx, c) ==>
      && Misplaced(GivenTo(s.tx.given, c), Expected(s.rx, c), z, y)
      && |z| < PAYLOAD_LIMIT && HEADER_SIZE + |z| + s.b.ledger.inFlight <= w.cfg.budget
      && Roomy(w, s, c, Expected(s.rx, c), y)
    ensures SafeOnceRegistered(w, evs + [Connect(c)], |evs|, c) <==>
      GivenTo(s.tx.given, c) == [] || !OpenPeer(s.rx, c)
  {
    FormAfter(w, evs, s);
    if GivenTo(s.tx.given, c) == [] {
      CarefulIsSafe(w, evs, s, Connect(c));
    } else if !OpenPeer(s.rx, c) {
      ConnectHarmless(w, evs, s, c);
    } else {
      ConnectHarms(w, evs, s, c, z, y, nonce);
    }
  }

  /** Such payloads always exist while numbers last: z and y need only differ from each other and y from one payload. */
  lemma MisplacedExists(given: seq<Payload>, e: nat, z: Payload, y: Payload)
    requires given != [] && e <= |given| && |given| + e + 1 < SEQ_RANGE
    requires if e < |given| then y != given[e] else y != z
    ensures Misplaced(given, e, z, y)
  {}

  /** The frames of the run below: the second payload is numbered like the first. */
  function GapFrames(c: uint32, x0: Payload, x1: Payload, x2: Payload): seq<Frame> {
    [Frame(TYPE_DATA, c, 0, x0), Frame(TYPE_DATA, c, 0, x1), Frame(TYPE_DATA, c, 1, x2)]
  }

  lemma GapWire(c: uint32, x0: Payload, x1: Payload, x2: Payload)
    ensures var fs := GapFrames(c, x0, x1, x2); WireAll(fs) == Wire(fs[0]) + Wire(fs[1]) + Wire(fs[2])
  {
    var fs := GapFrames(c, x0, x1, x2);
    WireAllConcat([fs[0]], [fs[1], fs[2]]);
    WireAllConcat([fs[1]], [fs[2]]);
    assert [fs[0]] + [fs[1], fs[2]] == fs && [fs[1]] + [fs[2]] == [fs[1], fs[2]];
    WireOne(fs[0]);
    WireOne(fs[1]);
    WireOne(fs[2]);
  }

  /** A server that has handled a CONNECT sends its first payload. */
  lemma FirstSend(w: Setup, c: uint32, x: Payload) returns (evs: seq<Event>, s: State)
    requires w.adders > 0 && |x| < PAYLOAD_LIMIT && |Wire(Frame(TYPE_DATA, c, 0, x))| <= w.cfg.budget
    ensures evs != [] && evs[0] == Connect(c) && Going(w, evs, s, -1)
    ensures Ready(s.b) && s.b.store.buf == Wire(Frame(TYPE_DATA, c, 0, x)) && s.b.ledger.inFlight == 0
    ensures GivenTo(s.tx.given, c) == [x] && s.rx == Rx([], None, [], map[]) && s.posted == []
  {
    evs, s := [], Init(w.adders, w.clock);
    evs, s := Extend(w, evs, s, -1, Connect(c));
    evs, s := SendOne(w, evs, s, -1, c, x);
  }

  /** One relay sends three payloads, and CONNECT is handled again after the first. */
  lemma SendAcrossConnect(w: Setup, c: uint32, x0: Payload, x1: Payload, x2: Payload)
    returns (m: nat, evs: seq<Event>, s: State)
    requires w.adders > 0 && |x0| < PAYLOAD_LIMIT && |x1| < PAYLOAD_LIMIT && |x2| < PAYLOAD_LIMIT
    requires |WireAll(GapFrames(c, x0, x1, x2))| <= w.cfg.budget
    ensures 0 < m < |evs| && evs[0] == Connect(c) == evs[m] && Going(w, evs, s, m)
    ensures Ready(s.b) && s.b.store.buf == WireAll(GapFrames(c, x0, x1, x2))
    ensures GivenTo(s.tx.given, c) == [x0, x1, x2] && s.rx == Rx([], None, [], map[])
  {
    GapWire(c, x0, x1, x2);
    evs, s := FirstSend(w, c, x0);
    m := |evs|;
    evs, s := Extend(w, evs, s, m, Connect(c));
    evs, s := SendOne(w, evs, s, m, c, x1);
    evs, s := SendOne(w, evs, s, m, c, x2);
  }

  lemma ReceiveGap(w: Setup, evs: seq<Event>, s: State, m: int, c: uint32, x0: Payload, x1: Payload, x2: Payload)
    returns (evs': seq<Event>, s': State)
    requires Going(w, evs, s, m) && s.rx == Rx(GapFrames(c, x0, x1, x2), None, [NewConn(c)], map[c := 0])
    ensures Going(w, evs', s', m) && evs <= evs' && s'.tx == s.tx
    ensures |s'.rx.objs| == 1 && s'.rx.objs[0].id == c && !s'.rx.objs[0].closed && s'.rx.objs[0].open == [x0, x2]
  {
    assert Drain(Recv(1, map[])) == (Recv(1, map[]), []);
    evs', s' := TakeExpected(w, evs, s, m, 0);
    assert s'.rx.objs[0].recv == Recv(1, map[]) && s'.rx.objs[0].hand == [];
    evs', s' := Extend(w, evs', s', m, Handle);
    evs', s' := TakeExpected(w, evs', s', m, 0);
  }

  /**
   For example, a CONNECT repeated in mid-stream: of three payloads on one conn the second is
   numbered 0 again and dropped as stale, so the peer gets the first and the third. Only the
   repeated CONNECT is outside the limits, and the peer's conn is registered once.
   */
  lemma RepeatedConnectLeavesGap(w: Setup, c: uint32, x0: Payload, x1: Payload, x2: Payload, nonce: seq<byte>)
    returns (m: nat, evs: seq<Event>, s: State)
    requires Sound(w.k) && w.adders > 0 && |nonce| == NONCE_LEN
    requires |x0| < PAYLOAD_LIMIT && |x1| < PAYLOAD_LIMIT && |x2| < PAYLOAD_LIMIT
    requires var raw := WireAll(GapFrames(c, x0, x1, x2)); |raw| <= w.cfg.budget && FitsWhole(w.k, raw)
    ensures 0 < m < |evs| && evs[0] == Connect(c) == evs[m] && Going(w, evs, s, m)
    ensures |s.rx.objs| == 1 && s.rx.objs[0].id == c && !s.rx.objs[0].closed
    ensures s.rx.objs[0].open == [x0, x2] && GivenTo(s.tx.given, c) == [x0, x1, x2]
  {
    GapWire(c, x0, x1, x2);
    m, evs, s := SendAcrossConnect(w, c, x0, x1, x2);
    evs, s := ShipOne(w, evs, s, m, nonce);
    evs, s := RegisterNew(w, evs, s, m, c);
    evs, s := FetchLast(w, evs, s, m, GapFrames(c, x0, x1, x2), nonce);
    evs, s := ReceiveGap(w, evs, s, m, c, x0, x1, x2);
  }

  // ---------------------------------------------------------------- a send on an unregistered conn

  lemma SpoilSend(k: Crypto, cfg: B.Config, s: State, c: uint32, y: Payload)
    requires Inv(k, s, NONE) && c !in s.tx.sendSeq && Enabled(k, cfg, s, SendData(0, c, y, false))
    requires GivenTo(s.tx.given, c) != [] && |GivenTo(s.tx.given, c)| + 1 < SEQ_RANGE && |y| < PAYLOAD_LIMIT
    requires OpenPeer(s.rx, c) ==> Expected(s.rx, c) > 0
    ensures Inv(k, Apply(k, cfg, s, SendData(0, c, y, false)), Spoilt({}, {c}))
  {
    var x := Spoilt({}, {c});
    Spoil(k, s, x);
    SenderStep(k, cfg, s, SendData(0, c, y, false), x);
  }

  lemma SendHarmless(w: Setup, evs: seq<Event>, s: State, c: uint32, y: Payload)
    requires Sound(w.k) && Going(w, evs, s, |evs|) && Inv(w.k, s, NONE) && c !in s.tx.sendSeq
    requires GivenTo(s.tx.given, c) != [] && |GivenTo(s.tx.given, c)| + 1 < SEQ_RANGE && |y| < PAYLOAD_LIMIT
    requires OpenPeer(s.rx, c) ==> Expected(s.rx, c) > 0
    requires Enabled(w.k, w.cfg, s, SendData(0, c, y, false))
    ensures SafeOnceRegistered(w, evs + [SendData(0, c, y, false)], |evs|, c)
  {
    var x := Spoilt({}, {c});
    SpoilSend(w.k, w.cfg, s, c, y);
    var evs', t := Extend(w, evs, s, |evs|, SendData(0, c, y, false));
    SpoiltIsSafe(w, evs', t, |evs|, c, x);
  }

  /**
   A send on an unregistered conn, which is numbered 0, exactly: over all runs that go on within
   the limits and in which the receiver makes no new conn under the ID, prefix safety survives if
   and only if the payload is the first one sent under the ID or equal to it, or the receiver has
   no open conn under the ID that still expects number 0.
   */
  lemma UnregisteredSendExact(w: Setup, evs: seq<Event>, s: State, c: uint32, y: Payload, nonce: seq<byte>)
    requires Sound(w.k) && Runs(w, evs, s) && Careful(w.k, w.cfg, w.adders, w.clock, evs)
    requires |nonce| == NONCE_LEN && Quiet(s) && Shaped(s.rx) && c !in s.tx.sendSeq
    requires Roomy(w, s, c, 0, y) && |GivenTo(s.tx.given, c)| + 1 < SEQ_RANGE
    ensures SafeOnceRegistered(w, evs + [SendData(0, c, y, false)], |evs|, c) <==>
      (GivenTo(s.tx.given, c) + [y])[0] == y || !(OpenPeer(s.rx, c) && Expected(s.rx, c) == 0)
  {
    FormAfter(w, evs, s);
    if (GivenTo(s.tx.given, c) + [y])[0] == y {
      CarefulIsSafe(w, evs, s, SendData(0, c, y, false));
    } else if !(OpenPeer(s.rx, c) && Expected(s.rx, c) == 0) {
      SendHarmless(w, evs, s, c, y);
    } else {
      var evs', t := ComesOut(w, evs, s, |evs|, c, y, nonce);
      assert t.rx.objs[s.rx.reg[c]].open[0] == y;
      BrokenAfter(w, evs + [SendData(0, c, y, false)], evs', t, |evs|, c, s.rx.reg[c]);
    }
  }

  /**
   The same with a receiving server, which registers a new conn under the ID whenever it handles
   a repeated CONNECT: then only the first payload, or an equal one, does no harm.
   */
  lemma UnregisteredSendToServerExact(w: Setup, evs: seq<Event>, s: State, c: uint32, y: Payload, nonce: seq<byte>)
    requires Sound(w.k) && Runs(w, evs, s) && Careful(w.k, w.cfg, w.adders, w.clock, evs)
    requires |nonce| == NONCE_LEN && Quiet(s) && c !in s.tx.sendSeq
    requires Roomy(w, s, c, 0, y) && |GivenTo(s.tx.given, c)| + 1 < SEQ_RANGE
    ensures SafeAfter(w, evs + [SendData(0, c, y, false)], |evs|) <==> (GivenTo(s.tx.given, c) + [y])[0] == y
  {
    FormAfter(w, evs, s);
    if (GivenTo(s.tx.given, c) + [y])[0] == y {
      CarefulIsSafe(w, evs, s, SendData(0, c, y, false));
    } else {
      var evs', t := FirstOnNewConn(w, evs, s, c, y, nonce);
      assert t.rx.objs[|s.rx.objs|].open[0] == y;
      var first := evs + [SendData(0, c, y, false)];
      assert evs' == first + evs'[|first|..];
      assert !Safe(t);
    }
  }

  lemma FirstOnNewConn(w: Setup, evs: seq<Event>, s: State, c: uint32, y: Payload, nonce: seq<byte>)
    returns (evs': seq<Event>, t: State)
    requires Sound(w.k) && |nonce| == NONCE_LEN && Going(w, evs, s, |evs|) && Quiet(s) && InForm(s)
    requires c !in s.tx.sendSeq && Roomy(w, s, c, 0, y) && |GivenTo(s.tx.given, c)| + 1 < SEQ_RANGE
    ensures Going(w, evs', t, |evs|) && evs + [SendData(0, c, y, false)] <= evs'
    ensures GivenTo(t.tx.given, c) == GivenTo(s.tx.given, c) + [y]
    ensures var o := |s.rx.objs|; o < |t.rx.objs| && t.rx.objs[o].id == c && t.rx.objs[o].open == [y]
  {
    var f, m := Frame(TYPE_DATA, c, 0, y), |evs|;
    evs', t := SendOne(w, evs, s, m, c, y);
    assert t.b.store.buf == Wire(f);
    WireOne(f);
    evs', t := ShipOne(w, evs', t, m, nonce);
    evs', t := RegisterNew(w, evs', t, m, c);
    evs', t := FetchLast(w, evs', t, m, [f], nonce);
    evs', t := TakeExpected(w, evs', t, m, |s.rx.objs|);
  }

  // ---------------------------------------------------------------- an ID used again by NewConn

  /** Between two frames: nobody has anything in hand, and the map is right about the IDs. */
  ghost predicate Between(rx: Rx) {
    && Shaped(rx) && rx.busy.None?
    && (forall c :: c in rx.reg ==> rx.objs[rx.reg[c]].id == c)
    && (forall o :: 0 <= o < |rx.objs| ==> rx.objs[o].hand == [])
  }

  /** The open conn registered under this ID has received nothing that could be handed over. */
  ghost predicate Untouched(rx: Rx, c: uint32)
    requires Shaped(rx)
  {
    c in rx.reg && var x := rx.objs[rx.reg[c]]; !x.closed && x.open == [] && x.recv.expected == 0
  }

  /** A frame that leaves an untouched conn under this ID untouched. */
  predicate Passes(f: Frame, c: uint32) {
    f.connId == c ==> f.typ != TYPE_CLOSE && f.typ != TYPE_RESET && (f.typ == TYPE_DATA ==> f.seqNum > 0)
  }

  lemma SkipOne(w: Setup, evs: seq<Event>, s: State, m: int, c: uint32) returns (evs': seq<Event>, s': State)
    requires Going(w, evs, s, m) && s.rx.queue != [] && Between(s.rx) && Untouched(s.rx, c) && Passes(s.rx.queue[0], c)
    ensures Going(w, evs', s', m) && evs <= evs' && s'.tx == s.tx && s'.rx.queue == s.rx.queue[1..]
    ensures Between(s'.rx) && s'.rx.reg == s.rx.reg && Untouched(s'.rx, c)
  {
    evs', s' := Extend(w, evs, s, m, Handle);
    if s'.rx.busy.Some? {
      evs', s' := Extend(w, evs', s', m, HandOver(Stalled));
    }
  }

  lemma {:induction false} SkipFrames(w: Setup, evs: seq<Event>, s: State, m: int, c: uint32, i: nat)
    returns (evs': seq<Event>, s': State)
    requires Going(w, evs, s, m) && i <= |s.rx.queue| && Between(s.rx) && Untouched(s.rx, c)
    requires forall j :: 0 <= j < i ==> Passes(s.rx.queue[j], c)
    ensures Going(w, evs', s', m) && evs <= evs' && s'.tx == s.tx && s'.rx.queue == s.rx.queue[i..]
    ensures Between(s'.rx) && s'.rx.reg == s.rx.reg && Untouched(s'.rx, c)
    decreases i
  {
    evs', s' := evs, s;
    if i > 0 {
      evs', s' := SkipOne(w, evs, s, m, c);
      evs', s' := SkipFrames(w, evs', s', m, c, i - 1);
    }
  }

  /**
   An ID that NewConn draws again after its conn was removed: from every quiet state in which an
   old batch on the channel carries the old conn's first data, with no CLOSE or RESET of the conn
   before it, that data comes out on the conn paired with the new one, on which nothing was sent.
   */
  lemma ReusedIdLeaks(w: Setup, evs: seq<Event>, s: State, c: uint32, j: nat, fs: seq<Frame>, i: nat)
    returns (evs': seq<Event>, t: State, o: nat)
    requires Sound(w.k) && Runs(w, evs, s) && Careful(w.k, w.cfg, w.adders, w.clock, evs) && Quiet(s)
    requires c !in s.tx.sendSeq && j < |s.posted| && fs == Fetched(w.k, s.posted[j])
    requires i < |fs| && fs[i].connId == c && fs[i].typ == TYPE_DATA && fs[i].seqNum == 0
    requires forall x :: 0 <= x < i ==> Passes(fs[x], c)
    ensures Going(w, evs', t, |evs|) && evs + [OpenConn(c)] <= evs' && GivenTo(t.tx.given, c) == []
    ensures o < |t.rx.objs| && t.rx.objs[o].id == c && t.rx.objs[o].open == [fs[i].payload]
  {
    FormAfter(w, evs, s);
    o := |s.rx.objs|;
    evs', t := ReopenAndFetch(w, evs, s, c, j);
    evs', t := LeakFromBatch(w, evs', t, |evs|, c, i, o);
  }

  lemma LeakFromBatch(w: Setup, evs: seq<Event>, s: State, m: int, c: uint32, i: nat, o: nat)
    returns (evs': seq<Event>, t: State)
    requires Going(w, evs, s, m) && Between(s.rx) && Untouched(s.rx, c) && s.rx.reg[c] == o && i < |s.rx.queue|
    requires s.rx.queue[i].connId == c && s.rx.queue[i].typ == TYPE_DATA && s.rx.queue[i].seqNum == 0
    requires forall x :: 0 <= x < i ==> Passes(s.rx.queue[x], c)
    ensures Going(w, evs', t, m) && evs <= evs' && t.tx == s.tx
    ensures o < |t.rx.objs| && t.rx.objs[o].id == c && t.rx.objs[o].open == [s.rx.queue[i].payload]
  {
    evs', t := SkipFrames(w, evs, s, m, c, i);
    evs', t := TakeExpected(w, evs', t, m, o);
  }

  lemma ReopenAndFetch(w: Setup, evs: seq<Event>, s: State, c: uint32, j: nat) returns (evs': seq<Event>, t: State)
    requires Going(w, evs, s, |evs|) && InForm(s) && Quiet(s) && c !in s.tx.sendSeq && j < |s.posted|
    ensures Going(w, evs', t, |evs|) && evs + [OpenConn(c)] <= evs' && GivenTo(t.tx.given, c) == []
    ensures Between(t.rx) && Untouched(t.rx, c) && t.rx.reg[c] == |s.rx.objs|
    ensures t.rx.queue == Fetched(w.k, s.posted[j])
  {
    evs', t := Extend(w, evs, s, |evs|, OpenConn(c));
    evs', t := RegisterNew(w, evs', t, |evs|, c);
    evs', t := Extend(w, evs', t, |evs|, Fetch(j));
  }
}
