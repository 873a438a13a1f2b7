/**
 The per-connection object and the frame switch of tunnel/mux.go, updated in place as there.

 The conn's channel is kept as the log of everything put on it. A blocking select is an
 outcome handed in by the caller; sendFrame is a log of what the batcher admitted, with the
 admission verdict handed in.
 */
module Mux {
  import opened Bytes
  import opened Frames
  import opened Delivery
  import ConnectPayloads

  const STREAM_PRIORITY_BYTES := 512 * 1024

  /** How one select of the hand-over loop ends. */
  datatype Outcome = Enqueued | Stalled | SawClosed

  class Conn {
    const id: uint32
    var sendSeq: uint32
    var recvExpected: uint32
    var recvPending: map<uint32, Payload>
    var prioritySent: nat
    var priorityDemoted: bool
    var closed: bool
    var dataCh: seq<Payload>
    ghost var bytesClassified: nat

    ghost function State(): Recv reads this { Recv(recvExpected, recvPending) }

    ghost function RecvSide(): (Recv, bool, seq<Payload>) reads this { (State(), closed, dataCh) }

    ghost function SendSide(): (uint32, nat, bool, nat) reads this {
      (sendSeq, prioritySent, priorityDemoted, bytesClassified)
    }

    /** The latch is a function of the bytes classified so far. */
    ghost predicate Valid() reads this {
      && (priorityDemoted <==> bytesClassified > STREAM_PRIORITY_BYTES)
      && (priorityDemoted <==> prioritySent > STREAM_PRIORITY_BYTES)
      && (!priorityDemoted ==> prioritySent == bytesClassified)
    }

    constructor (id: uint32)
      ensures this.id == id && Valid() && bytesClassified == 0
      ensures sendSeq == 0 && State() == FRESH && !closed && dataCh == []
    {
      this.id := id;
      sendSeq, recvExpected, recvPending := 0, 0, map[];
      prioritySent, priorityDemoted, bytesClassified := 0, false, 0;
      closed, dataCh := false, [];
    }

    method NextSendSeq() returns (s: uint32)
      modifies this`sendSeq
      ensures s == old(sendSeq) && sendSeq == Next(s)
    {
      sendSeq := Next(sendSeq);
      s := if sendSeq == 0 then 0xFFFF_FFFF else sendSeq - 1;
    }

    /** A frame is urgent just when the frames before it came to at most 512 KiB. */
    method ClassifyDataUrgency(n: nat) returns (urgent: bool)
      requires Valid()
      modifies this`prioritySent, this`priorityDemoted, this`bytesClassified
      ensures Valid()
      ensures bytesClassified == old(bytesClassified) + n
      ensures urgent <==> old(bytesClassified) <= 524288
    {
      bytesClassified := bytesClassified + n;
      if priorityDemoted { return false; }
      prioritySent := prioritySent + n;
      if prioritySent > STREAM_PRIORITY_BYTES {
        priorityDemoted := true;
      }
      return true;
    }

    method Close()
      modifies this`closed
      ensures closed
    {
      if !closed { closed := true; }
    }

    /** The critical section of deliverOrdered. */
    method TakeInOrder(seqNum: uint32, payload: Payload) returns (toDeliver: seq<Payload>)
      modifies this`recvExpected, this`recvPending
      ensures (State(), toDeliver) == Deliver(old(State()), seqNum, payload)
    {
      if seqNum < recvExpected { return []; }
      if seqNum != recvExpected {
        if |recvPending| < MAX_RECV_PENDING {
          recvPending := recvPending[seqNum := payload];
        }
        return [];
      }
      toDeliver := [payload];
      recvExpected := Next(recvExpected);
      ghost var start := State();
      assert toDeliver[1..] + Drain(start).1 == Drain(start).1;
      while recvExpected in recvPending
        invariant |toDeliver| >= 1 && toDeliver[0] == payload
        invariant Drain(start) == (Drain(State()).0, toDeliver[1..] + Drain(State()).1)
        decreases |recvPending|
      {
        ghost var before := State();
        ShrinkByOne(recvPending, recvExpected);
        var data := recvPending[recvExpected];
        recvPending := recvPending - {recvExpected};
        toDeliver := toDeliver + [data];
        recvExpected := Next(recvExpected);
        assert Drain(before).1 == [data] + Drain(State()).1;
        assert toDeliver[1..] + Drain(State()).1 == toDeliver[1..|toDeliver| - 1] + Drain(before).1;
      }
      assert toDeliver[1..] + [] == toDeliver[1..];
      assert toDeliver == [payload] + toDeliver[1..];
    }

    /** The hand-over loop: it stops, closing the conn, at the first select that is not a send. */
    method HandOver(toDeliver: seq<Payload>, outcomes: seq<Outcome>) returns (k: nat)
      requires |outcomes| == |toDeliver|
      modifies this`dataCh, this`closed
      ensures k <= |toDeliver|
      ensures forall i :: 0 <= i < k ==> outcomes[i] == Enqueued
      ensures k < |toDeliver| ==> outcomes[k] != Enqueued
      ensures dataCh == old(dataCh) + toDeliver[..k]
      ensures closed == (old(closed) || k < |toDeliver|)
    {
      k := 0;
      while k < |toDeliver|
        invariant k <= |toDeliver|
        invariant forall i :: 0 <= i < k ==> outcomes[i] == Enqueued
        invariant dataCh == old(dataCh) + toDeliver[..k]
        invariant closed == old(closed)
      {
        match outcomes[k] {
          case Enqueued => dataCh := dataCh + [toDeliver[k]];
          case Stalled => Close(); return;
          case SawClosed => closed := true; return; // another goroutine closed it
        }
        k := k + 1;
      }
    }
  }

  function Advance(s: uint32, n: nat): uint32 {
    (s + n) as int % SEQ_RANGE
  }

  /** Consecutive DATA frames carrying `chunks` from sequence number `s` on. */
  function DataFrames(id: uint32, s: uint32, chunks: seq<Payload>): (fs: seq<Frame>)
    ensures |fs| == |chunks|
  {
    seq(|chunks|, i requires 0 <= i < |chunks| => Frame(TYPE_DATA, id, Advance(s, i), chunks[i]))
  }

  lemma DataFramesAppend(id: uint32, s: uint32, chunks: seq<Payload>, last: Payload)
    ensures DataFrames(id, s, chunks + [last]) ==
      DataFrames(id, s, chunks) + [Frame(TYPE_DATA, id, Advance(s, |chunks|), last)]
  {}

  function Total(chunks: seq<Payload>): nat {
    if chunks == [] then 0 else Total(chunks[..|chunks| - 1]) + |chunks[|chunks| - 1]|
  }

  /** Which of these chunks go out urgent, if `base` bytes went before: those with at most 512 KiB before them. */
  function Urgencies(base: nat, chunks: seq<Payload>): (us: seq<bool>)
    ensures |us| == |chunks|
  {
    if chunks == [] then []
    else Urgencies(base, chunks[..|chunks| - 1]) + [base + Total(chunks[..|chunks| - 1]) <= 524288]
  }

  lemma UrgenciesAppend(base: nat, chunks: seq<Payload>, last: Payload)
    ensures Urgencies(base, chunks + [last]) == Urgencies(base, chunks) + [base + Total(chunks) <= 524288]
    ensures Total(chunks + [last]) == Total(chunks) + |last|
  {
    assert (chunks + [last])[..|chunks|] == chunks;
  }

  /** Where a relay began: the conn's next number, its bytes so far, and the queue with its urgencies. */
  datatype Relay = Relay(id: uint32, s0: uint32, base: nat, box: seq<Frame>, flags: seq<bool>)

  /** Since then it has sent these chunks: frames under consecutive numbers, with their urgencies. */
  ghost predicate Follows(r: Relay, next: uint32, bytes: nat, box: seq<Frame>, flags: seq<bool>, sent: seq<Payload>) {
    && next == Advance(r.s0, |sent|) && bytes == r.base + Total(sent)
    && box == r.box + DataFrames(r.id, r.s0, sent) && flags == r.flags + Urgencies(r.base, sent)
  }

  lemma FollowsNone(r: Relay)
    ensures Follows(r, r.s0, r.base, r.box, r.flags, [])
  {}

  lemma FollowsMore(r: Relay, next: uint32, bytes: nat, box: seq<Frame>, flags: seq<bool>, sent: seq<Payload>,
                    data: Payload)
    requires Follows(r, next, bytes, box, flags, sent)
    ensures Follows(r, Next(next), bytes + |data|, box + [Frame(TYPE_DATA, r.id, next, data)],
                    flags + [bytes <= 524288], sent + [data])
  {
    DataFramesAppend(r.id, r.s0, sent, data);
    UrgenciesAppend(r.base, sent, data);
  }

  /** What the net side of a relay reads: a chunk, possibly empty, and whether reading ended. */
  datatype Read = Read(data: Payload, end: bool)

  class Mux {
    const isServer: bool
    var conns: map<uint32, Conn>
    var outbox: seq<Frame>
    var outboxUrgent: seq<bool>
    var connects: seq<(uint32, ConnectPayloads.ConnectPayload)>
    var acks: seq<uint32>

    ghost predicate Valid() reads this, conns.Values {
      && |outbox| == |outboxUrgent|
      && forall id :: id in conns ==> conns[id].id == id && conns[id].Valid()
    }

    constructor (isServer: bool)
      ensures Valid() && conns == map[] && outbox == [] && connects == [] && acks == []
    {
      this.isServer := isServer;
      conns, outbox, outboxUrgent, connects, acks := map[], [], [], [], [];
    }

    /** RegisterConn: a fresh conn under this ID, whatever was there before. */
    method RegisterConn(id: uint32) returns (c: Conn)
      requires Valid()
      modifies this`conns
      ensures Valid() && fresh(c) && c.id == id
      ensures conns == old(conns)[id := c]
      ensures c.State() == FRESH && c.sendSeq == 0 && !c.closed && c.dataCh == []
    {
      c := new Conn(id);
      conns := conns[id := c];
    }

    method RemoveConn(id: uint32)
      requires Valid()
      modifies this`conns, (if id in conns then {conns[id]} else {})`closed
      ensures Valid() && conns == old(conns) - {id}
      ensures id in old(conns) ==> old(conns[id]).closed
    {
      if id in conns {
        conns[id].Close();
        conns := conns - {id};
      }
    }

    /** sendFrame: the frame joins the batcher's queue if the admission budget lets it. */
    method SendFrame(f: Frame, urgent: bool, admitted: bool)
      modifies this`outbox, this`outboxUrgent
      ensures outbox == (if admitted then old(outbox) + [f] else old(outbox))
      ensures outboxUrgent == (if admitted then old(outboxUrgent) + [urgent] else old(outboxUrgent))
    {
      if admitted {
        outbox, outboxUrgent := outbox + [f], outboxUrgent + [urgent];
      }
    }

    /**
     SendData: on a registered conn the frame carries the conn's next number and is urgent
     while the conn has sent at most 512 KiB; on an unregistered one it carries number 0.
     */
    method SendData(connId: uint32, data: Payload, admitted: bool) returns (ok: bool)
      requires Valid()
      modifies this`outbox, this`outboxUrgent
      modifies (if connId in conns then {conns[connId]} else {})
      ensures Valid() && ok == admitted
      ensures connId in conns ==>
        && conns[connId].RecvSide() == old(conns[connId].RecvSide())
        && conns[connId].sendSeq == Next(old(conns[connId].sendSeq))
        && conns[connId].bytesClassified == old(conns[connId].bytesClassified) + |data|
      ensures var s := if connId in conns then old(conns[connId].sendSeq) else 0;
        outbox == (if admitted then old(outbox) + [Frame(TYPE_DATA, connId, s, data)] else old(outbox))
      ensures var urgent := connId in conns && old(conns[connId].bytesClassified) <= 524288;
        outboxUrgent == (if admitted then old(outboxUrgent) + [urgent] else old(outboxUrgent))
    {
      var s: uint32, urgent := 0, false;
      if connId in conns {
        var c := conns[connId];
        s := c.NextSendSeq();
        urgent := c.ClassifyDataUrgency(|data|);
      }
      SendFrame(Frame(TYPE_DATA, connId, s, data), urgent, admitted);
      ok := admitted;
    }

    /**
     HandleFrame. A DATA frame for a known conn moves that conn by one Deliver step and no
     other conn at all; CLOSE and RESET close it; anything for an unknown conn is dropped.
     */
    method HandleFrame(f: Frame, outcomes: seq<Outcome>)
      requires Valid()
      requires f.typ == TYPE_DATA && f.connId in conns ==>
        |outcomes| == |Deliver(conns[f.connId].State(), f.seqNum, f.payload).1|
      modifies this`connects, this`acks
      modifies (if f.connId in conns then {conns[f.connId]} else {})
      ensures Valid()
      ensures f.connId in conns ==>
        var c := conns[f.connId];
        && c.SendSide() == old(c.SendSide())
        && (if f.typ == TYPE_DATA then
              var out := Deliver(old(c.State()), f.seqNum, f.payload).1;
              && c.State() == Deliver(old(c.State()), f.seqNum, f.payload).0
              && old(c.dataCh) <= c.dataCh <= old(c.dataCh) + out
              && (c.closed <==> old(c.closed) || c.dataCh != old(c.dataCh) + out)
            else
              && c.State() == old(c.State()) && c.dataCh == old(c.dataCh)
              && (c.closed <==> old(c.closed) || f.typ == TYPE_CLOSE || f.typ == TYPE_RESET))
      ensures var cp := ConnectPayloads.Parse(f.payload);
        connects == if f.typ == TYPE_CONNECT && isServer && cp.Ok? then old(connects) + [(f.connId, cp.value)]
          else old(connects)
      ensures acks == if f.typ == TYPE_CONNECT_ACK && !isServer then old(acks) + [f.connId] else old(acks)
    {
      if f.typ == TYPE_CONNECT {
        if isServer {
          var cp := ConnectPayloads.Parse(f.payload);
          if cp.Err? { return; }
          connects := connects + [(f.connId, cp.value)];
        }
      } else if f.typ == TYPE_CONNECT_ACK {
        if !isServer {
          acks := acks + [f.connId];
        }
      } else if f.typ == TYPE_DATA {
        if f.connId !in conns { return; }
        var c := conns[f.connId];
        var toDeliver := c.TakeInOrder(f.seqNum, f.payload);
        var k := c.HandOver(toDeliver, outcomes);
        assert k < |toDeliver| ==> |c.dataCh| < |old(c.dataCh) + toDeliver|;
      } else if f.typ == TYPE_CLOSE || f.typ == TYPE_RESET {
        if f.connId in conns {
          conns[f.connId].Close();
        }
      }
    }

    ghost predicate Relayed(r: Relay, sent: seq<Payload>)
      requires r.id in conns
      reads this, conns[r.id]
    {
      Follows(r, conns[r.id].sendSeq, conns[r.id].bytesClassified, outbox, outboxUrgent, sent)
    }

    /** As far as the queue shows. */
    ghost predicate Queued(r: Relay, sent: seq<Payload>) reads this {
      outbox == r.box + DataFrames(r.id, r.s0, sent) && outboxUrgent == r.flags + Urgencies(r.base, sent)
    }

    /** One chunk read from the net: SendData, given the frames this relay has sent already. */
    method RelayChunk(id: uint32, data: Payload, admitted: bool, ghost r: Relay, ghost sent: seq<Payload>)
      returns (ok: bool)
      requires Valid() && id in conns && r.id == id && Relayed(r, sent)
      modifies this`outbox, this`outboxUrgent, conns[id]
      ensures Valid() && ok == admitted
      ensures !ok ==> outbox == old(outbox) && outboxUrgent == old(outboxUrgent)
      ensures ok ==> Relayed(r, sent + [data])
    {
      FollowsMore(r, conns[id].sendSeq, conns[id].bytesClassified, outbox, outboxUrgent, sent, data);
      ok := SendData(id, data, admitted);
    }

    /** One read: nothing to send, or a chunk that is sent or refused. */
    method RelayRead(id: uint32, read: Read, admitted: bool, ghost r: Relay, sent: seq<Payload>)
      returns (ok: bool, more: seq<Payload>)
      requires Valid() && id in conns && r.id == id && Relayed(r, sent)
      modifies this`outbox, this`outboxUrgent, conns[id]
      ensures Valid() && ok == (read.data == [] || admitted)
      ensures ok ==> more == sent + Chunk(read) && Relayed(r, more)
      ensures !ok ==> more == sent && Queued(r, sent)
    {
      ok, more := true, sent;
      if read.data != [] {
        ok := RelayChunk(id, read.data, admitted, r, sent);
        if ok {
          more := sent + [read.data];
        }
      } else {
        assert sent + [] == sent;
      }
    }

    /** The read loop of the send half of Relay, up to the point where it gives up or ends. */
    method RelayLoop(id: uint32, inputs: seq<Read>, admits: seq<bool>, ghost r: Relay)
      returns (sent: seq<Payload>, refused: bool)
      requires Valid() && id in conns && r.id == id && Relayed(r, []) && |admits| == |inputs|
      requires forall i :: 0 <= i < |inputs| - 1 ==> !inputs[i].end
      modifies this`outbox, this`outboxUrgent, conns[id]
      ensures Valid() && Queued(r, sent)
      ensures sent <= Chunks(inputs) && (refused <==> sent != Chunks(inputs))
    {
      sent, refused := [], false;
      var i := 0;
      while i < |inputs|
        invariant i <= |inputs| && Valid()
        invariant sent == Chunks(inputs[..i])
        invariant Relayed(r, sent)
      {
        var read := inputs[i];
        var ok, more := RelayRead(id, read, admits[i], r, sent);
        if !ok {
          CutShort(inputs, i);
          return sent, true;
        }
        ChunksTake(inputs, i);
        sent := more;
        i := i + 1;
        if read.end { break; }
      }
      assert inputs[..i] == inputs;
    }

    /**
     The send half of Relay. The admitted chunks travel under consecutive numbers with no
     gap: the first refusal ends the stream with a RESET and removes the conn.
     */
    method RelaySend(id: uint32, inputs: seq<Read>, admits: seq<bool>, lastAdmit: bool)
      returns (sent: seq<Payload>, refused: bool)
      requires Valid() && id in conns && |admits| == |inputs|
      requires forall i :: 0 <= i < |inputs| - 1 ==> !inputs[i].end
      modifies this`conns, this`outbox, this`outboxUrgent, conns[id]
      ensures Valid()
      ensures sent <= Chunks(inputs) && (refused <==> sent != Chunks(inputs))
      ensures var gone := refused || Ended(inputs);
        && conns == (if gone then old(conns) - {id} else old(conns))
        && outbox == old(outbox) + DataFrames(id, old(conns[id].sendSeq), sent)
                     + (if gone && lastAdmit then [Frame(if refused then 6 else 4, id, 0, [])] else [])
        && outboxUrgent == old(outboxUrgent) + Urgencies(old(conns[id].bytesClassified), sent)
                           + (if gone && lastAdmit then [true] else [])
    {
      ghost var r := Relay(id, conns[id].sendSeq, conns[id].bytesClassified, outbox, outboxUrgent);
      FollowsNone(r);
      sent, refused := RelayLoop(id, inputs, admits, r);
      if refused || Ended(inputs) {
        EndRelay(id, if refused then TYPE_RESET else TYPE_CLOSE, lastAdmit);
      }
    }

    /** The end of a relay: an urgent RESET or CLOSE, if it is admitted, and the conn is gone. */
    method EndRelay(id: uint32, typ: byte, admitted: bool)
      requires Valid() && id in conns
      modifies this`conns, this`outbox, this`outboxUrgent, {conns[id]}`closed
      ensures Valid() && conns == old(conns) - {id} && old(conns[id]).closed
      ensures outbox == (if admitted then old(outbox) + [Frame(typ, id, 0, [])] else old(outbox))
      ensures outboxUrgent == (if admitted then old(outboxUrgent) + [true] else old(outboxUrgent))
    {
      SendFrame(Frame(typ, id, 0, []), true, admitted);
      RemoveConn(id);
    }
  }

  predicate Ended(inputs: seq<Read>) { inputs != [] && inputs[|inputs| - 1].end }

  /** What one read gives to send. */
  function Chunk(read: Read): seq<Payload> { if read.data != [] then [read.data] else [] }

  /** The non-empty reads, in order. */
  function Chunks(inputs: seq<Read>): seq<Payload> {
    if inputs == [] then [] else Chunks(inputs[..|inputs| - 1]) + Chunk(inputs[|inputs| - 1])
  }

  lemma ChunksTake(inputs: seq<Read>, i: nat)
    requires i < |inputs|
    ensures Chunks(inputs[..i + 1]) == Chunks(inputs[..i]) + Chunk(inputs[i])
  {
    assert inputs[..i + 1][..i] == inputs[..i];
  }

  /** Stopping before a chunk leaves less than all. */
  lemma CutShort(inputs: seq<Read>, i: nat)
    requires i < |inputs| && inputs[i].data != []
    ensures Chunks(inputs[..i]) <= Chunks(inputs) && Chunks(inputs[..i]) != Chunks(inputs)
  {
    ChunksTake(inputs, i);
    ChunksLonger(inputs, i + 1);
  }

  lemma {:induction false} ChunksLonger(inputs: seq<Read>, i: nat)
    requires i <= |inputs|
    ensures Chunks(inputs[..i]) <= Chunks(inputs)
    decreases |inputs| - i
  {
    if i < |inputs| {
      ChunksTake(inputs, i);
      ChunksLonger(inputs, i + 1);
    } else {
      assert inputs[..i] == inputs;
    }
  }
}
