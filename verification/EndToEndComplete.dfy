/**
 What comes out at the end, told from the run alone: what was sent is read off the SendData
 events, what arrived off the frames that stand at the head of the queue at Handle events. A
 receiving conn is then exactly the ordered delivery of Delivery, applied to these arrivals.
 */
module EndToEndComplete {
  import opened Bytes
  import opened Frames
  import opened Delivery
  import opened Envelope
  import opened EndToEnd
  import B = Batcher
  import Fifo = BatcherFifo

  // ---------------------------------------------------------------- what was sent

  /** The payloads given to SendData under this ID since NewConn last drew it. */
  function SentIn(evs: seq<Event>, c: uint32): seq<Payload> {
    if evs == [] then []
    else
      var sent := SentIn(evs[..|evs| - 1], c);
      match evs[|evs| - 1]
      case OpenConn(d) => if d == c then [] else sent
      case SendData(_, d, data, _) => if d == c then sent + [data] else sent
      case _ => sent
  }

  lemma {:induction false} GivenIsSent(w: Setup, evs: seq<Event>, s: State, c: uint32)
    requires Runs(w, evs, s)
    ensures GivenTo(s.tx.given, c) == SentIn(evs, c)
  {
    if evs != [] {
      var n := |evs| - 1;
      GivenIsSent(w, evs[..n], Exec(w.k, w.cfg, w.adders, w.clock, evs[..n]).value, c);
    }
  }

  /**
   SendData hands the batcher one DATA frame with the payload, under the number that says how many
   were sent before, and hands nothing else to anyone.
   */
  lemma SendReachesBatcher(w: Setup, evs: seq<Event>, s: State, i: nat, c: uint32, data: Payload, urgent: bool)
    requires Sound(w.k) && Runs(w, evs, s) && Careful(w.k, w.cfg, w.adders, w.clock, evs)
    requires c in s.tx.sendSeq && Enabled(w.k, w.cfg, s, SendData(i, c, data, urgent))
    ensures |SentIn(evs, c)| < SEQ_RANGE
    ensures var t := Apply(w.k, w.cfg, s, SendData(i, c, data, urgent));
      && t.b == s.b.(adders := s.b.adders[i := B.Asking(B.Entry(Frame(3, c, |SentIn(evs, c)|, data), urgent))])
      && t.posted == s.posted && t.rx == s.rx
  {
    ReachInv(w.k, w.cfg, w.adders, w.clock, evs, s);
    GivenIsSent(w, evs, s, c);
  }

  /** A control frame goes to the batcher as it is, urgent, and nowhere else. */
  lemma ControlReachesBatcher(w: Setup, s: State, i: nat, f: Frame)
    requires Enabled(w.k, w.cfg, s, SendControl(i, f))
    ensures Apply(w.k, w.cfg, s, SendControl(i, f)) ==
      s.(b := s.b.(adders := s.b.adders[i := B.Asking(B.Entry(f, true))]))
  {}

  /** A batch posted whole and then fetched puts exactly its frames in the receive loop's hands. */
  lemma FetchBringsBatch(w: Setup, evs: seq<Event>, s: State, n: nat, nonce: seq<byte>)
    requires Sound(w.k) && Runs(w, evs, s) && Careful(w.k, w.cfg, w.adders, w.clock, evs)
    requires n < |s.b.store.batches| && FitsWhole(w.k, s.b.store.batches[n].raw)
    requires Enabled(w.k, w.cfg, s, PostBatch(n, 0, |s.b.store.batches[n].raw|, nonce))
    ensures var t := Apply(w.k, w.cfg, s, PostBatch(n, 0, |s.b.store.batches[n].raw|, nonce));
      && t == s.(posted := t.posted) && |t.posted| == |s.posted| + 1
      && (Enabled(w.k, w.cfg, t, Fetch(|s.posted|)) ==>
            var u := Apply(w.k, w.cfg, t, Fetch(|s.posted|));
            var b := s.b.store.batches[n];
            && b.lo < b.hi <= |s.b.store.written|
            && u == t.(rx := t.rx.(queue := B.FramesOf(s.b.store.written[b.lo..b.hi]))))
  {
    ReachInv(w.k, w.cfg, w.adders, w.clock, evs, s);
    var raw := s.b.store.batches[n].raw;
    assert raw[0..|raw|] == raw;
    SmallPayloads(s.b, s.tx.given);
    PostedFrames(w.k, s.b.store, n, nonce);
  }

  lemma PostedFrames(k: Crypto, st: B.Store, n: nat, nonce: seq<byte>)
    requires Sound(k) && Fifo.Queue(st) && n < |st.batches| && |nonce| == NONCE_LEN
    requires forall i :: 0 <= i < |st.written| ==> |st.written[i].frame.payload| < PAYLOAD_LIMIT
    ensures var b := st.batches[n];
      && b.lo < b.hi <= |st.written|
      && Fetched(k, Blob(k, nonce, b.raw)) == B.FramesOf(st.written[b.lo..b.hi])
  {
    UnblobBlob(k, nonce, st.batches[n].raw);
    Fifo.BatchDecodes(st, n);
  }

  lemma SmallPayloads(b: B.State, g: Given)
    requires AllGood(b, g, NONE)
    ensures forall i :: 0 <= i < |b.store.written| ==> |b.store.written[i].frame.payload| < PAYLOAD_LIMIT
  {
    forall i | 0 <= i < |b.store.written| ensures |b.store.written[i].frame.payload| < PAYLOAD_LIMIT {
      assert Good(b.store.written[i].frame, g, NONE);
    }
  }

  /** The next number after one more event. */
  function Renumbered(n: Option<nat>, ev: Event, c: uint32): Option<nat> {
    match ev
    case OpenConn(d) => if d == c then Some(0) else n
    case Connect(d) => if d == c then Some(0) else n
    case CloseConn(d) => if d == c then None else n
    case SendData(_, d, _, _) => if d == c && n.Some? then Some((n.value + 1) % 0x1_0000_0000) else n
    case _ => n
  }

  /** The number the next payload under this ID gets: how many were sent since it was last registered. */
  function NumberIn(evs: seq<Event>, c: uint32): Option<nat> {
    if evs == [] then None else Renumbered(NumberIn(evs[..|evs| - 1], c), evs[|evs| - 1], c)
  }

  function NextNumber(tx: Tx, c: uint32): Option<nat> {
    if c in tx.sendSeq then Some(tx.sendSeq[c]) else None
  }

  lemma NumberStep(w: Setup, p: State, ev: Event, c: uint32)
    requires Enabled(w.k, w.cfg, p, ev)
    ensures NextNumber(Apply(w.k, w.cfg, p, ev).tx, c) == Renumbered(NextNumber(p.tx, c), ev, c)
  {}

  /** A conn is registered, and numbers its payloads, as the run says. */
  lemma {:induction false} NumberIsRun(w: Setup, evs: seq<Event>, s: State, c: uint32)
    requires Runs(w, evs, s)
    ensures NextNumber(s.tx, c) == NumberIn(evs, c)
  {
    if evs != [] {
      var n := |evs| - 1;
      var p := Exec(w.k, w.cfg, w.adders, w.clock, evs[..n]).value;
      NumberIsRun(w, evs[..n], p, c);
      NumberStep(w, p, evs[n], c);
    }
  }

  // ---------------------------------------------------------------- what arrived

  /** This Handle event brings a DATA frame (type 3) for the conn object. */
  predicate ArrivesAt(p: State, ev: Event, o: nat) {
    && ev.Handle? && p.rx.queue != [] && p.rx.queue[0].typ == 3
    && p.rx.queue[0].connId in p.rx.reg && p.rx.reg[p.rx.queue[0].connId] == o
  }

  function Arriving(p: State, ev: Event, o: nat): seq<nat> {
    if ArrivesAt(p, ev, o) then [p.rx.queue[0].seqNum] else []
  }

  /** The numbers of the DATA frames that arrived at the conn object, in order. */
  function Arrivals(w: Setup, evs: seq<Event>, o: nat): seq<nat> {
    if evs == [] then []
    else match Exec(w.k, w.cfg, w.adders, w.clock, evs[..|evs| - 1])
      case None => []
      case Some(p) => Arrivals(w, evs[..|evs| - 1], o) + Arriving(p, evs[|evs| - 1], o)
  }

  /** The conn is the ordered delivery of these arrivals; its stream, until it closes, is what that hands over. */
  ghost predicate Delivered(c: Conn, sent: seq<Payload>, arrivals: seq<nat>) {
    && |sent| < SEQ_RANGE && Below(arrivals, |sent|)
    && c.recv == Arrive(sent, arrivals).0
    && (!c.closed ==> c.open + c.hand == Arrive(sent, arrivals).1)
  }

  lemma {:induction false} ArriveGrows(sent: seq<Payload>, more: seq<Payload>, arrivals: seq<nat>)
    requires sent <= more && |more| < SEQ_RANGE && Below(arrivals, |sent|)
    ensures Below(arrivals, |more|) && Arrive(more, arrivals) == Arrive(sent, arrivals)
  {
    if arrivals != [] {
      ArriveGrows(sent, more, arrivals[..|arrivals| - 1]);
    }
  }

  lemma ArriveOne(sent: seq<Payload>, arrivals: seq<nat>, s: nat)
    requires s < |sent| < SEQ_RANGE && Below(arrivals, |sent|)
    ensures Below(arrivals + [s], |sent|)
    ensures var (r, out) := Arrive(sent, arrivals); var (r', more) := Deliver(r, s, sent[s]);
      Arrive(sent, arrivals + [s]) == (r', out + more)
  {
    assert (arrivals + [s])[..|arrivals|] == arrivals;
  }

  // ---------------------------------------------------------------- one step

  /**
   One Handle step, whole. The frame leaves the queue. A DATA frame (3) for a registered conn
   moves that conn by exactly one Deliver step and puts what it releases in hand; CLOSE (4) and
   RESET (6) close it; nothing else changes any conn.
   */
  lemma HandleExact(rx: Rx, o: nat)
    requires Shaped(rx) && rx.queue != [] && rx.busy.None? && o < |rx.objs|
    ensures var f, t := rx.queue[0], HandleFrame(rx);
      && t.queue == rx.queue[1..] && t.reg == rx.reg && |t.objs| == |rx.objs|
      && (if f.connId in rx.reg && rx.reg[f.connId] == o && f.typ == 3 then
            var d := Deliver(rx.objs[o].recv, f.seqNum, f.payload);
            && t.objs[o] == rx.objs[o].(recv := d.0, hand := d.1)
            && t.busy == (if d.1 == [] then None else Some(o))
          else if f.connId in rx.reg && rx.reg[f.connId] == o && (f.typ == 4 || f.typ == 6) then
            t.objs[o] == rx.objs[o].(closed := true) && t.busy.None?
          else t.objs[o] == rx.objs[o])
  {}

  /**
   One select of the hand-over, whole: a send puts the first payload in hand on the channel; a
   stall closes the conn; both a stall and a seen close drop the rest, and the loop goes on.
   */
  lemma HandOverExact(w: Setup, p: State, choice: Choice)
    requires Enabled(w.k, w.cfg, p, HandOver(choice))
    ensures var t, o := Apply(w.k, w.cfg, p, HandOver(choice)), p.rx.busy.value;
      var x, y := p.rx.objs[o], t.rx.objs[o];
      && t.tx == p.tx && t.b == p.b && t.rx.queue == p.rx.queue && t.rx.reg == p.rx.reg
      && |t.rx.objs| == |p.rx.objs| && (forall i :: 0 <= i < |p.rx.objs| && i != o ==> t.rx.objs[i] == p.rx.objs[i])
      && y.recv == x.recv && y.id == x.id
      && y.hand == (if choice.Enqueued? then x.hand[1..] else [])
      && y.closed == (x.closed || choice.Stalled?)
      && y.open == (if choice.Enqueued? && !x.closed then x.open + [x.hand[0]] else x.open)
      && t.rx.busy == (if y.hand == [] then None else Some(o))
  {}

  lemma HandleDelivers(p: State, o: nat, arrivals: seq<nat>)
    requires GoodRx(p.rx, p.tx.given, NONE) && p.rx.queue != [] && p.rx.busy.None? && o < |p.rx.objs|
    requires Delivered(p.rx.objs[o], GivenTo(p.tx.given, p.rx.objs[o].id), arrivals)
    ensures o < |HandleFrame(p.rx).objs|
    ensures var sent := GivenTo(p.tx.given, p.rx.objs[o].id);
      Delivered(HandleFrame(p.rx).objs[o], sent, arrivals + Arriving(p, Handle, o))
  {
    var f, sent := p.rx.queue[0], GivenTo(p.tx.given, p.rx.objs[o].id);
    HandleExact(p.rx, o);
    if ArrivesAt(p, Handle, o) {
      assert Good(f, p.tx.given, NONE);
      assert Right(f, p.tx.given);
      ArriveOne(sent, arrivals, f.seqNum);
      assert p.rx.objs[o].hand == [];
      assert p.rx.objs[o].open + [] == p.rx.objs[o].open;
    } else {
      assert arrivals + [] == arrivals;
    }
  }

  lemma HandedDelivers(c: Conn, choice: Choice, sent: seq<Payload>, arrivals: seq<nat>)
    requires Delivered(c, sent, arrivals) && c.hand != [] && (choice.SawClosed? ==> c.closed)
    ensures Delivered(Handed(c, choice), sent, arrivals)
  {
    if choice.Enqueued? {
      assert c.open + c.hand == (c.open + [c.hand[0]]) + c.hand[1..];
    }
  }

  lemma SendDelivers(w: Setup, p: State, ev: Event, c: Conn, arrivals: seq<nat>)
    requires Numbered(p.tx, NONE) && Enabled(w.k, w.cfg, p, ev) && WithinLimits(w.k, p, ev)
    requires ev.OpenConn? || ev.SendData?
    requires Delivered(c, GivenTo(p.tx.given, c.id), arrivals)
    ensures Delivered(c, GivenTo(Apply(w.k, w.cfg, p, ev).tx.given, c.id), arrivals)
  {
    ArriveGrows(GivenTo(p.tx.given, c.id), GivenTo(Apply(w.k, w.cfg, p, ev).tx.given, c.id), arrivals);
  }

  lemma NewDelivers(c: uint32, sent: seq<Payload>)
    requires |sent| < SEQ_RANGE
    ensures Delivered(NewConn(c), sent, [])
  {}

  /** Objects keep their IDs, and only Register makes one. */
  lemma ObjectsStay(w: Setup, p: State, ev: Event, o: nat)
    requires Enabled(w.k, w.cfg, p, ev) && o < |p.rx.objs|
    ensures var t := Apply(w.k, w.cfg, p, ev); o < |t.rx.objs| && t.rx.objs[o].id == p.rx.objs[o].id
  {}

  /** The other steps leave the conn alone, or close it. */
  lemma OtherStep(w: Setup, p: State, ev: Event, o: nat)
    requires Enabled(w.k, w.cfg, p, ev) && o < |p.rx.objs|
    requires !ev.Handle? && !ev.OpenConn? && !ev.SendData? && !(ev.HandOver? && p.rx.busy == Some(o))
    ensures var t := Apply(w.k, w.cfg, p, ev);
      && t.tx.given == p.tx.given && o < |t.rx.objs|
      && (t.rx.objs[o] == p.rx.objs[o] || t.rx.objs[o] == p.rx.objs[o].(closed := true))
  {}

  lemma HandOverDelivers(w: Setup, p: State, choice: Choice, o: nat, arrivals: seq<nat>)
    requires Enabled(w.k, w.cfg, p, HandOver(choice)) && o < |p.rx.objs| && p.rx.busy == Some(o)
    requires Delivered(p.rx.objs[o], GivenTo(p.tx.given, p.rx.objs[o].id), arrivals)
    ensures var t := Apply(w.k, w.cfg, p, HandOver(choice));
      o < |t.rx.objs| && Delivered(t.rx.objs[o], GivenTo(t.tx.given, t.rx.objs[o].id), arrivals)
  {
    HandedDelivers(p.rx.objs[o], choice, GivenTo(p.tx.given, p.rx.objs[o].id), arrivals);
  }

  lemma SendLeavesConns(w: Setup, p: State, ev: Event)
    requires Enabled(w.k, w.cfg, p, ev) && (ev.OpenConn? || ev.SendData?)
    ensures Apply(w.k, w.cfg, p, ev).rx == p.rx
  {}

  lemma DeliveredStep(w: Setup, p: State, ev: Event, o: nat, arrivals: seq<nat>)
    requires Numbered(p.tx, NONE) && GoodRx(p.rx, p.tx.given, NONE)
    requires Enabled(w.k, w.cfg, p, ev) && WithinLimits(w.k, p, ev) && o < |p.rx.objs|
    requires Delivered(p.rx.objs[o], GivenTo(p.tx.given, p.rx.objs[o].id), arrivals)
    ensures var t := Apply(w.k, w.cfg, p, ev);
      && o < |t.rx.objs|
      && Delivered(t.rx.objs[o], GivenTo(t.tx.given, t.rx.objs[o].id), arrivals + Arriving(p, ev, o))
  {
    ObjectsStay(w, p, ev, o);
    if ev.Handle? {
      HandleDelivers(p, o, arrivals);
    } else {
      assert arrivals + Arriving(p, ev, o) == arrivals;
      if ev.OpenConn? || ev.SendData? {
        SendLeavesConns(w, p, ev);
        SendDelivers(w, p, ev, p.rx.objs[o], arrivals);
      } else if ev.HandOver? && p.rx.busy == Some(o) {
        HandOverDelivers(w, p, ev.choice, o, arrivals);
      } else {
        OtherStep(w, p, ev, o);
      }
    }
  }

  // ---------------------------------------------------------------- every run

  lemma {:induction false} NothingBefore(w: Setup, evs: seq<Event>, s: State, o: nat)
    requires Runs(w, evs, s) && |s.rx.objs| <= o
    ensures Arrivals(w, evs, o) == []
  {
    if evs != [] {
      var n := |evs| - 1;
      var p := Exec(w.k, w.cfg, w.adders, w.clock, evs[..n]).value;
      if o < |p.rx.objs| {
        ObjectsStay(w, p, evs[n], o);
      }
      NothingBefore(w, evs[..n], p, o);
    }
  }

  /** The last step of a run within the limits. */
  lemma LastStep(w: Setup, evs: seq<Event>, s: State) returns (p: State)
    requires Sound(w.k) && evs != [] && Runs(w, evs, s) && Careful(w.k, w.cfg, w.adders, w.clock, evs)
    ensures Runs(w, evs[..|evs| - 1], p) && Careful(w.k, w.cfg, w.adders, w.clock, evs[..|evs| - 1])
    ensures Inv(w.k, p, NONE) && Enabled(w.k, w.cfg, p, evs[|evs| - 1]) && WithinLimits(w.k, p, evs[|evs| - 1])
    ensures s == Apply(w.k, w.cfg, p, evs[|evs| - 1])
  {
    var front := evs[..|evs| - 1];
    p := Exec(w.k, w.cfg, w.adders, w.clock, front).value;
    CarefulFront(w.k, w.cfg, w.adders, w.clock, evs);
    ReachInv(w.k, w.cfg, w.adders, w.clock, front, p);
    assert StepWithin(w.k, w.cfg, w.adders, w.clock, evs, |evs| - 1);
  }

  lemma NewObject(w: Setup, p: State, ev: Event, o: nat)
    requires Numbered(p.tx, NONE) && Enabled(w.k, w.cfg, p, ev)
    requires |p.rx.objs| <= o < |Apply(w.k, w.cfg, p, ev).rx.objs|
    ensures var t := Apply(w.k, w.cfg, p, ev); Delivered(t.rx.objs[o], GivenTo(t.tx.given, t.rx.objs[o].id), [])
    ensures Arriving(p, ev, o) == []
  {
    assert ev.Register?;
    NewDelivers(ev.c, GivenTo(p.tx.given, ev.c));
  }

  /** In every run within the limits every conn object is the ordered delivery of what arrived at it. */
  lemma {:induction false} ConnIsDelivery(w: Setup, evs: seq<Event>, s: State, o: nat)
    requires Sound(w.k) && Runs(w, evs, s) && Careful(w.k, w.cfg, w.adders, w.clock, evs) && o < |s.rx.objs|
    ensures Delivered(s.rx.objs[o], GivenTo(s.tx.given, s.rx.objs[o].id), Arrivals(w, evs, o))
  {
    var n := |evs| - 1;
    var p := LastStep(w, evs, s);
    if o < |p.rx.objs| {
      ConnIsDelivery(w, evs[..n], p, o);
      DeliveredStep(w, p, evs[n], o, Arrivals(w, evs[..n], o));
    } else {
      NothingBefore(w, evs[..n], p, o);
      NewObject(w, p, evs[n], o);
    }
  }

  /** The event closes the conn object: a CLOSE (4) or RESET (6) for it, a stalled hand-over, or a local close. */
  predicate Closes(p: State, ev: Event, o: nat) {
    match ev
    case Handle => p.rx.queue != [] && var f := p.rx.queue[0];
      (f.typ == 4 || f.typ == 6) && f.connId in p.rx.reg && p.rx.reg[f.connId] == o
    case HandOver(choice) => choice.Stalled? && p.rx.busy == Some(o)
    case Remove(c) => c in p.rx.reg && p.rx.reg[c] == o
    case CloseLocal(x) => x == o
    case _ => false
  }

  ghost predicate ClosedIn(w: Setup, evs: seq<Event>, o: nat) {
    exists i, p :: 0 <= i < |evs| && Runs(w, evs[..i], p) && Closes(p, evs[i], o)
  }

  lemma ClosedInLast(w: Setup, evs: seq<Event>, p: State, o: nat)
    requires evs != [] && Runs(w, evs[..|evs| - 1], p)
    ensures ClosedIn(w, evs, o) <==> ClosedIn(w, evs[..|evs| - 1], o) || Closes(p, evs[|evs| - 1], o)
  {
    var n := |evs| - 1;
    var front := evs[..n];
    if ClosedIn(w, front, o) {
      var i, q :| 0 <= i < |front| && Runs(w, front[..i], q) && Closes(q, front[i], o);
      assert front[..i] == evs[..i];
      assert Runs(w, evs[..i], q) && Closes(q, evs[i], o);
    }
    if ClosedIn(w, evs, o) {
      var i, q :| 0 <= i < |evs| && Runs(w, evs[..i], q) && Closes(q, evs[i], o);
      if i < n {
        assert front[..i] == evs[..i];
        assert Runs(w, front[..i], q) && Closes(q, front[i], o);
      }
    }
  }

  lemma ClosesStep(w: Setup, p: State, ev: Event, o: nat)
    requires Enabled(w.k, w.cfg, p, ev) && o < |p.rx.objs|
    ensures var t := Apply(w.k, w.cfg, p, ev);
      o < |t.rx.objs| && (t.rx.objs[o].closed <==> p.rx.objs[o].closed || Closes(p, ev, o))
  {
    if ev.Handle? {
      HandleExact(p.rx, o);
    }
  }

  lemma {:induction false} NoCloseBefore(w: Setup, evs: seq<Event>, s: State, o: nat)
    requires Runs(w, evs, s) && |s.rx.objs| <= o
    ensures !ClosedIn(w, evs, o)
  {
    if evs != [] {
      var n := |evs| - 1;
      var p := Exec(w.k, w.cfg, w.adders, w.clock, evs[..n]).value;
      if o < |p.rx.objs| {
        ObjectsStay(w, p, evs[n], o);
      }
      NoCloseBefore(w, evs[..n], p, o);
      ClosedInLast(w, evs, p, o);
    }
  }

  /** A conn is closed if and only if some event of the run closed it. */
  lemma {:induction false} ClosedExact(w: Setup, evs: seq<Event>, s: State, o: nat)
    requires Runs(w, evs, s) && o < |s.rx.objs|
    ensures s.rx.objs[o].closed <==> ClosedIn(w, evs, o)
  {
    var n := |evs| - 1;
    var p := Exec(w.k, w.cfg, w.adders, w.clock, evs[..n]).value;
    ClosedInLast(w, evs, p, o);
    if o < |p.rx.objs| {
      ClosedExact(w, evs[..n], p, o);
      ClosesStep(w, p, evs[n], o);
    } else {
      NoCloseBefore(w, evs[..n], p, o);
    }
  }

  // ---------------------------------------------------------------- the theorems

  /**
   End-to-end completeness, exactly: a conn that nothing has closed has, enqueued or in hand, a
   prefix of what was sent under its ID, and at least the first n payloads if and only if every
   number below n arrived at it at least once without meeting a full buffer.
   */
  lemma CompleteExact(w: Setup, evs: seq<Event>, s: State, o: nat, n: nat)
    requires Sound(w.k) && Runs(w, evs, s) && Careful(w.k, w.cfg, w.adders, w.clock, evs)
    requires o < |s.rx.objs| && !ClosedIn(w, evs, o)
    ensures var c := s.rx.objs[o]; var sent := SentIn(evs, c.id); var arrivals := Arrivals(w, evs, o);
      && |sent| < SEQ_RANGE && Below(arrivals, |sent|)
      && c.open + c.hand <= sent
      && (n <= |c.open + c.hand| <==> Covers(Accepted(sent, arrivals), n))
  {
    var c, arrivals := s.rx.objs[o], Arrivals(w, evs, o);
    ConnIsDelivery(w, evs, s, o);
    ClosedExact(w, evs, s, o);
    GivenIsSent(w, evs, s, c.id);
    var sent := SentIn(evs, c.id);
    HandedOverInOrder(sent, arrivals);
    AcceptedIsHeld(sent, arrivals);
    PassedExact(c.recv, Accepted(sent, arrivals), n);
  }

  /**
   End-to-end completeness in the window: if every payload sent arrived at a conn that nothing has
   closed, none more than 256 ahead, and nothing is in hand, then what came out is what was sent.
   */
  lemma CompleteWhenArrived(w: Setup, evs: seq<Event>, s: State, o: nat)
    requires Sound(w.k) && Runs(w, evs, s) && Careful(w.k, w.cfg, w.adders, w.clock, evs)
    requires o < |s.rx.objs| && !ClosedIn(w, evs, o) && s.rx.busy.None?
    requires var sent := SentIn(evs, s.rx.objs[o].id); var arrivals := Arrivals(w, evs, o);
      && |sent| < SEQ_RANGE && Below(arrivals, |sent|) && Windowed(sent, arrivals)
      && forall x: nat :: x < |sent| ==> x in arrivals
    ensures s.rx.objs[o].open == SentIn(evs, s.rx.objs[o].id)
  {
    ConnIsDelivery(w, evs, s, o);
    ClosedExact(w, evs, s, o);
    GivenIsSent(w, evs, s, s.rx.objs[o].id);
    NothingInHand(w, evs, s, o);
    AllCame(s.rx.objs[o], SentIn(evs, s.rx.objs[o].id), Arrivals(w, evs, o));
  }

  lemma NothingInHand(w: Setup, evs: seq<Event>, s: State, o: nat)
    requires Sound(w.k) && Runs(w, evs, s) && Careful(w.k, w.cfg, w.adders, w.clock, evs)
    requires o < |s.rx.objs| && s.rx.busy.None?
    ensures s.rx.objs[o].hand == []
  {
    ReachInv(w.k, w.cfg, w.adders, w.clock, evs, s);
  }

  lemma AllCame(c: Conn, sent: seq<Payload>, arrivals: seq<nat>)
    requires Delivered(c, sent, arrivals) && !c.closed && c.hand == []
    requires Windowed(sent, arrivals) && forall x: nat :: x < |sent| ==> x in arrivals
    ensures c.open == sent
  {
    CompleteWithinWindow(sent, arrivals, |sent|);
    assert sent[..|sent|] == sent;
    assert c.open + c.hand == c.open;
  }

  /** Prefix safety, told from the run: what came out of a conn before it closed is a prefix of what was sent. */
  lemma PrefixOfSent(w: Setup, evs: seq<Event>, s: State, o: nat)
    requires Sound(w.k) && Runs(w, evs, s) && Careful(w.k, w.cfg, w.adders, w.clock, evs) && o < |s.rx.objs|
    ensures s.rx.objs[o].open <= SentIn(evs, s.rx.objs[o].id)
  {
    PrefixSafety(w.k, w.cfg, w.adders, w.clock, evs, s);
    GivenIsSent(w, evs, s, s.rx.objs[o].id);
  }

  /** Frames come only out of a message that opens and decompresses to exactly those frames marshalled. */
  lemma FetchedExact(k: Crypto, data: seq<byte>, fs: seq<Frame>)
    requires fs != []
    ensures Fetched(k, data) == fs <==> Sized(fs) && Unblob(k, data) == Some(WireAll(fs))
  {
    if Unblob(k, data).Some? {
      BatchCodecExact(Unblob(k, data).value, fs);
      BatchCodecExact(WireAll(fs), fs);
    }
  }
}
