/**
 Ordered delivery on one connection: sequence numbers, the bounded out-of-order buffer and
 the drop of stale frames (deliverOrdered in tunnel/mux.go).

 `sent` is the list of payloads the peer stamped 0, 1, 2, ... on this connection. The code
 compares sequence numbers without regard to wrap-around, so the laws are about fewer than
 2^32 payloads.
 */
module Delivery {
  import opened Bytes

  const MAX_RECV_PENDING := 256
  const SEQ_RANGE := 0x1_0000_0000

  type Payload = seq<byte>

  datatype Recv = Recv(expected: uint32, pending: map<uint32, Payload>)

  const FRESH := Recv(0, map[])

  function Next(x: uint32): uint32 {
    (x + 1) as int % SEQ_RANGE
  }

  /** The loop that empties the buffer of everything that has become contiguous. */
  function Drain(r: Recv): (res: (Recv, seq<Payload>))
    decreases |r.pending|
  {
    if r.expected !in r.pending then (r, [])
    else
      assert |r.pending - {r.expected}| < |r.pending| by { ShrinkByOne(r.pending, r.expected); }
      var (r', out) := Drain(Recv(Next(r.expected), r.pending - {r.expected}));
      (r', [r.pending[r.expected]] + out)
  }

  /** The critical section of deliverOrdered: the new state and the payloads to hand over. */
  function Deliver(r: Recv, seqNum: uint32, payload: Payload): (Recv, seq<Payload>) {
    if seqNum < r.expected then (r, [])
    else if seqNum != r.expected then
      (if |r.pending| < MAX_RECV_PENDING then Recv(r.expected, r.pending[seqNum := payload]) else r, [])
    else
      var (r', out) := Drain(Recv(Next(r.expected), r.pending));
      (r', [payload] + out)
  }

  lemma ShrinkByOne<K, V>(m: map<K, V>, k: K)
    requires k in m
    ensures |m - {k}| == |m| - 1
  {
    assert (m - {k}).Keys == m.Keys - {k};
  }

  // ---------------------------------------------------------------- safety

  /** The receiver agrees with the sender: what it buffers is what was sent under that number. */
  ghost predicate Agrees(r: Recv, sent: seq<Payload>) {
    && r.expected <= |sent|
    && forall k :: k in r.pending ==> r.expected <= k < |sent| && r.pending[k] == sent[k]
  }

  lemma {:induction false} DrainAgrees(r: Recv, sent: seq<Payload>)
    requires |sent| < SEQ_RANGE && Agrees(r, sent)
    ensures var (r', out) := Drain(r);
      && Agrees(r', sent) && r.expected <= r'.expected && r'.expected !in r'.pending
      && out == sent[r.expected..r'.expected]
    decreases |r.pending|
  {
    if r.expected in r.pending {
      var next := Recv(Next(r.expected), r.pending - {r.expected});
      ShrinkByOne(r.pending, r.expected);
      DrainAgrees(next, sent);
      SliceFront(sent, r.expected, Drain(next).0.expected);
    }
  }

  /**
   One arrival: the receiver stays in agreement and hands over exactly the payloads between
   the old and the new expected number, in order.
   */
  lemma DeliverAgrees(r: Recv, s: nat, sent: seq<Payload>)
    requires s < |sent| < SEQ_RANGE && Agrees(r, sent) && r.expected !in r.pending
    ensures var (r', out) := Deliver(r, s, sent[s]);
      && Agrees(r', sent) && r.expected <= r'.expected && r'.expected !in r'.pending
      && out == sent[r.expected..r'.expected]
  {
    if s == r.expected {
      var next := Recv(Next(r.expected), r.pending);
      DrainAgrees(next, sent);
      SliceFront(sent, s, Drain(next).0.expected);
    }
  }

  lemma SliceFront(sent: seq<Payload>, lo: nat, hi: nat)
    requires lo < hi <= |sent|
    ensures [sent[lo]] + sent[lo + 1..hi] == sent[lo..hi]
  {}

  lemma AgreesGrows(r: Recv, sent: seq<Payload>, more: seq<Payload>)
    requires Agrees(r, sent) && sent <= more
    ensures Agrees(r, more)
  {}

  // ---------------------------------------------------------------- completeness

  predicate Below(arrivals: seq<nat>, n: nat) {
    forall i :: 0 <= i < |arrivals| ==> arrivals[i] < n
  }

  /** The state after a list of arrivals, and everything handed over on the way. */
  function Arrive(sent: seq<Payload>, arrivals: seq<nat>): (Recv, seq<Payload>)
    requires |sent| < SEQ_RANGE && Below(arrivals, |sent|)
  {
    if arrivals == [] then (FRESH, [])
    else
      var last := arrivals[|arrivals| - 1];
      var (r, out) := Arrive(sent, arrivals[..|arrivals| - 1]);
      var (r', more) := Deliver(r, last, sent[last]);
      (r', out + more)
  }

  /** No arrival runs more than `d` ahead of the number expected when it comes in. */
  ghost predicate AheadAtMost(sent: seq<Payload>, arrivals: seq<nat>, d: nat)
    requires |sent| < SEQ_RANGE && Below(arrivals, |sent|)
  {
    arrivals == [] ||
    var front := arrivals[..|arrivals| - 1];
    && AheadAtMost(sent, front, d)
    && arrivals[|arrivals| - 1] <= Arrive(sent, front).0.expected + d
  }

  ghost predicate Windowed(sent: seq<Payload>, arrivals: seq<nat>)
    requires |sent| < SEQ_RANGE && Below(arrivals, |sent|)
  {
    AheadAtMost(sent, arrivals, MAX_RECV_PENDING)
  }

  /** The one state that goes with a set of arrived numbers: nothing arrived has been lost. */
  ghost predicate Canonical(r: Recv, arrived: set<nat>, sent: seq<Payload>) {
    && Agrees(r, sent)
    && r.expected !in arrived
    && (forall k: nat :: k < r.expected ==> k in arrived)
    && (forall k: nat :: k in arrived && k > r.expected ==> k in r.pending)
    && (forall k :: k in r.pending ==> k in arrived)
    && (forall k :: k in arrived ==> k <= r.expected + MAX_RECV_PENDING)
  }

  lemma CanonicalUnique(r: Recv, q: Recv, arrived: set<nat>, sent: seq<Payload>)
    requires Canonical(r, arrived, sent) && Canonical(q, arrived, sent)
    ensures r == q
  {
    assert r.expected == q.expected;
    forall k: uint32 ensures k in r.pending <==> k in q.pending {}
    assert r.pending == q.pending;
  }

  lemma IntervalCard(lo: nat, n: nat, s: set<nat>)
    requires forall k :: k in s ==> lo < k <= lo + n
    ensures |s| <= n
  {
    if n > 0 {
      IntervalCard(lo, n - 1, s - {lo + n});
    } else {
      assert s == {};
    }
  }

  /** Pigeonhole: n numbers in an interval of n leave no room for another. */
  lemma IntervalFull(lo: nat, n: nat, s: set<nat>, x: nat)
    requires forall k :: k in s ==> lo < k <= lo + n
    requires |s| >= n && lo < x <= lo + n
    ensures x in s
  {
    if x !in s {
      IntervalCard(lo, n, s + {x});
    }
  }

  /** An early arrival inside the window is never lost to a full buffer. */
  lemma BufferNeverRefuses(r: Recv, s: nat, arrived: set<nat>, sent: seq<Payload>)
    requires Canonical(r, arrived, sent)
    requires r.expected < s <= r.expected + MAX_RECV_PENDING && s < |sent| < SEQ_RANGE
    ensures |r.pending| < MAX_RECV_PENDING || s in r.pending
  {
    if |r.pending| >= MAX_RECV_PENDING {
      var keys := set k | k in r.pending :: k as nat;
      assert keys == r.pending.Keys;
      IntervalFull(r.expected, MAX_RECV_PENDING, keys, s);
    }
  }

  /** Draining reaches the canonical state of what has arrived. */
  lemma {:induction false} DrainCanonical(r: Recv, arrived: set<nat>, sent: seq<Payload>)
    requires |sent| < SEQ_RANGE && Agrees(r, sent)
    requires forall k: nat :: k < r.expected ==> k in arrived
    requires forall k: nat :: k in arrived && k >= r.expected ==> k in r.pending
    requires forall k :: k in r.pending ==> k in arrived
    requires forall k :: k in arrived ==> k <= r.expected + MAX_RECV_PENDING
    ensures Canonical(Drain(r).0, arrived, sent)
    decreases |r.pending|
  {
    if r.expected in r.pending {
      ShrinkByOne(r.pending, r.expected);
      DrainCanonical(Recv(Next(r.expected), r.pending - {r.expected}), arrived, sent);
    }
  }

  lemma BufferedCanonical(r: Recv, s: nat, arrived: set<nat>, sent: seq<Payload>)
    requires Canonical(r, arrived, sent)
    requires r.expected < s <= r.expected + MAX_RECV_PENDING && s < |sent| < SEQ_RANGE
    ensures Canonical(Recv(r.expected, r.pending[s := sent[s]]), arrived + {s}, sent)
  {}

  lemma DeliverCanonical(r: Recv, s: nat, arrived: set<nat>, sent: seq<Payload>)
    requires Canonical(r, arrived, sent)
    requires s < |sent| < SEQ_RANGE && s <= r.expected + MAX_RECV_PENDING
    ensures Canonical(Deliver(r, s, sent[s]).0, arrived + {s}, sent)
  {
    if s < r.expected {
      assert arrived + {s} == arrived;
    } else if s == r.expected {
      ContiguousCanonical(r, arrived, sent);
    } else {
      BufferNeverRefuses(r, s, arrived, sent);
      BufferedCanonical(r, s, arrived, sent);
      assert s in r.pending ==> r.pending[s := sent[s]] == r.pending;
    }
  }

  lemma ContiguousCanonical(r: Recv, arrived: set<nat>, sent: seq<Payload>)
    requires Canonical(r, arrived, sent) && r.expected < |sent| < SEQ_RANGE
    ensures Canonical(Drain(Recv(Next(r.expected), r.pending)).0, arrived + {r.expected as nat}, sent)
  {
    DrainCanonical(Recv(Next(r.expected), r.pending), arrived + {r.expected as nat}, sent);
  }

  ghost function Seen(arrivals: seq<nat>): set<nat> {
    set i | 0 <= i < |arrivals| :: arrivals[i]
  }

  lemma SeenLast(arrivals: seq<nat>)
    requires arrivals != []
    ensures Seen(arrivals) == Seen(arrivals[..|arrivals| - 1]) + {arrivals[|arrivals| - 1]}
  {}

  /** Whatever arrives, the payloads handed over are a prefix of the payloads sent. */
  lemma {:induction false} HandedOverInOrder(sent: seq<Payload>, arrivals: seq<nat>)
    requires |sent| < SEQ_RANGE && Below(arrivals, |sent|)
    ensures var (r, out) := Arrive(sent, arrivals);
      Agrees(r, sent) && r.expected !in r.pending && r.expected <= |sent| && out == sent[..r.expected]
  {
    if arrivals != [] {
      var front, last := arrivals[..|arrivals| - 1], arrivals[|arrivals| - 1];
      HandedOverInOrder(sent, front);
      var (r, out) := Arrive(sent, front);
      DeliverAgrees(r, last, sent);
      var (r', more) := Deliver(r, last, sent[last]);
      assert sent[..r.expected] + sent[r.expected..r'.expected] == sent[..r'.expected];
    }
  }

  lemma {:induction false} ArriveCanonical(sent: seq<Payload>, arrivals: seq<nat>)
    requires |sent| < SEQ_RANGE && Below(arrivals, |sent|)
    requires Windowed(sent, arrivals)
    ensures Canonical(Arrive(sent, arrivals).0, Seen(arrivals), sent)
  {
    if arrivals != [] {
      var n := |arrivals| - 1;
      var front := arrivals[..n];
      ArriveCanonical(sent, front);
      DeliverCanonical(Arrive(sent, front).0, arrivals[n], Seen(front), sent);
      SeenLast(arrivals);
    }
  }

  // ---------------------------------------------------------------- exactly what comes out

  /** An early frame that meets a full buffer is thrown away, unless it is in the buffer already. */
  predicate Refused(r: Recv, seqNum: nat) {
    seqNum > r.expected && |r.pending| >= MAX_RECV_PENDING && seqNum !in r.pending
  }

  /** The numbers that arrived at least once without being refused. */
  ghost function Accepted(sent: seq<Payload>, arrivals: seq<nat>): set<nat>
    requires |sent| < SEQ_RANGE && Below(arrivals, |sent|)
  {
    if arrivals == [] then {}
    else
      var front, last := arrivals[..|arrivals| - 1], arrivals[|arrivals| - 1];
      AcceptedWith(Accepted(sent, front), Arrive(sent, front).0, last)
  }

  function AcceptedWith(accepted: set<nat>, r: Recv, seqNum: nat): set<nat> {
    if Refused(r, seqNum) then accepted else accepted + {seqNum}
  }

  /** What was accepted has been handed over or is in the buffer. */
  ghost predicate Holding(r: Recv, accepted: set<nat>) {
    forall k: nat :: k in accepted <==> k < r.expected || k in r.pending
  }

  lemma {:induction false} DrainHolding(r: Recv, accepted: set<nat>, sent: seq<Payload>)
    requires |sent| < SEQ_RANGE && Agrees(r, sent) && Holding(r, accepted)
    ensures Holding(Drain(r).0, accepted)
    decreases |r.pending|
  {
    if r.expected in r.pending {
      ShrinkByOne(r.pending, r.expected);
      DrainHolding(Recv(Next(r.expected), r.pending - {r.expected}), accepted, sent);
    }
  }

  lemma DeliverHolding(r: Recv, s: nat, accepted: set<nat>, sent: seq<Payload>)
    requires s < |sent| < SEQ_RANGE && Agrees(r, sent) && r.expected !in r.pending && Holding(r, accepted)
    ensures Holding(Deliver(r, s, sent[s]).0, AcceptedWith(accepted, r, s))
  {
    if s == r.expected {
      DrainHolding(Recv(Next(r.expected), r.pending), accepted + {s}, sent);
    }
  }

  lemma {:induction false} AcceptedIsHeld(sent: seq<Payload>, arrivals: seq<nat>)
    requires |sent| < SEQ_RANGE && Below(arrivals, |sent|)
    ensures Holding(Arrive(sent, arrivals).0, Accepted(sent, arrivals))
  {
    if arrivals != [] {
      var n := |arrivals| - 1;
      var front := arrivals[..n];
      AcceptedIsHeld(sent, front);
      HandedOverInOrder(sent, front);
      DeliverHolding(Arrive(sent, front).0, arrivals[n], Accepted(sent, front), sent);
    }
  }

  /** Every number below n is among these. */
  ghost predicate Covers(accepted: set<nat>, n: nat) {
    forall k: nat :: k < n ==> k in accepted
  }

  lemma PassedExact(r: Recv, accepted: set<nat>, n: nat)
    requires Holding(r, accepted) && r.expected !in r.pending
    ensures n <= r.expected <==> Covers(accepted, n)
  {
    var e: nat := r.expected;
    assert e !in accepted;
  }

  /**
   Completeness, exactly: the first n payloads have all been handed over, in order, if and only
   if every number below n arrived at least once without meeting a full buffer.
   */
  lemma CompleteExact(sent: seq<Payload>, arrivals: seq<nat>, n: nat)
    requires n <= |sent| < SEQ_RANGE && Below(arrivals, |sent|)
    ensures sent[..n] <= Arrive(sent, arrivals).1 <==> Covers(Accepted(sent, arrivals), n)
  {
    AcceptedIsHeld(sent, arrivals);
    HandedOverInOrder(sent, arrivals);
    var r := Arrive(sent, arrivals).0;
    PassedExact(r, Accepted(sent, arrivals), n);
    PrefixExact(sent, n, r.expected);
  }

  lemma PrefixExact(sent: seq<Payload>, n: nat, m: nat)
    requires n <= |sent| && m <= |sent|
    ensures sent[..n] <= sent[..m] <==> n <= m
  {
    assert sent[..n] <= sent[..m] ==> |sent[..n]| <= |sent[..m]|;
  }

  /** Within the window nothing is refused. */
  lemma {:induction false} WindowAcceptsAll(sent: seq<Payload>, arrivals: seq<nat>)
    requires |sent| < SEQ_RANGE && Below(arrivals, |sent|) && Windowed(sent, arrivals)
    ensures Accepted(sent, arrivals) == Seen(arrivals)
  {
    if arrivals != [] {
      var n := |arrivals| - 1;
      var front, r := arrivals[..n], Arrive(sent, arrivals[..n]).0;
      WindowAcceptsAll(sent, front);
      ArriveCanonical(sent, front);
      if arrivals[n] > r.expected {
        BufferNeverRefuses(r, arrivals[n], Seen(front), sent);
      }
      SeenLast(arrivals);
    }
  }

  /**
   Completeness within the window: once every number below n has arrived at least once, each at
   most 256 ahead, the first n payloads have all been handed over, each once and in order.
   */
  lemma CompleteWithinWindow(sent: seq<Payload>, arrivals: seq<nat>, n: nat)
    requires n <= |sent| < SEQ_RANGE && Below(arrivals, |sent|)
    requires Windowed(sent, arrivals)
    requires forall k: nat :: k < n ==> k in arrivals
    ensures sent[..n] <= Arrive(sent, arrivals).1 <= sent
  {
    WindowAcceptsAll(sent, arrivals);
    forall k: nat | k < n ensures k in Accepted(sent, arrivals) {
      assert k in arrivals;
    }
    CompleteExact(sent, arrivals, n);
    HandedOverInOrder(sent, arrivals);
  }

  /** Order and duplicates do not matter: the same numbers give the same state and stream. */
  lemma ArrivalOrderIrrelevant(sent: seq<Payload>, a: seq<nat>, b: seq<nat>)
    requires |sent| < SEQ_RANGE
    requires Below(a, |sent|) && Below(b, |sent|)
    requires Windowed(sent, a) && Windowed(sent, b) && Seen(a) == Seen(b)
    ensures Arrive(sent, a) == Arrive(sent, b)
  {
    ArriveCanonical(sent, a);
    ArriveCanonical(sent, b);
    CanonicalUnique(Arrive(sent, a).0, Arrive(sent, b).0, Seen(a), sent);
    HandedOverInOrder(sent, a);
    HandedOverInOrder(sent, b);
  }

  // ---------------------------------------------------------------- the window is tight

  function UpFrom(lo: nat, n: nat): (s: seq<nat>)
    ensures |s| == n && forall i :: 0 <= i < n ==> s[i] == lo + i
  {
    seq(n, i requires i >= 0 => lo + i)
  }

  lemma {:induction false} EarlyArrivalsWait(sent: seq<Payload>, n: nat)
    requires n <= MAX_RECV_PENDING && n < |sent| < SEQ_RANGE
    ensures var r := Arrive(sent, UpFrom(1, n)).0;
      r.expected == 0 && |r.pending| == n && forall k :: k in r.pending ==> 1 <= k <= n
  {
    if n > 0 {
      assert UpFrom(1, n)[..n - 1] == UpFrom(1, n - 1);
      EarlyArrivalsWait(sent, n - 1);
    } else {
      assert UpFrom(1, 0) == [];
    }
  }

  lemma {:induction false} EarlyArrivalsAhead(sent: seq<Payload>, n: nat)
    requires n <= MAX_RECV_PENDING && n < |sent| < SEQ_RANGE
    ensures AheadAtMost(sent, UpFrom(1, n), MAX_RECV_PENDING + 1)
  {
    if n > 0 {
      assert UpFrom(1, n)[..n - 1] == UpFrom(1, n - 1);
      EarlyArrivalsAhead(sent, n - 1);
    }
  }

  /**
   One step past the window a frame is lost: numbers 1..257 arrive, then 0. Everything up to
   256 is handed over, but 257 arrived and never will be, since the buffer refused it.
   */
  lemma WindowIsTight(sent: seq<Payload>)
    requires 257 < |sent| < SEQ_RANGE
    ensures var arrivals := UpFrom(1, 257) + [0];
      && Below(arrivals, |sent|)
      && AheadAtMost(sent, arrivals, MAX_RECV_PENDING + 1)
      && (forall k: nat :: k < 258 ==> k in arrivals)
      && Arrive(sent, arrivals).0.expected < 258
  {
    var arrivals := UpFrom(1, 257) + [0];
    forall k: nat | k < 258 ensures k in arrivals {
      assert if k == 0 then arrivals[257] == k else arrivals[k - 1] == k;
    }
    assert arrivals[..257] == UpFrom(1, 257);
    assert UpFrom(1, 257)[..256] == UpFrom(1, 256);
    EarlyArrivalsWait(sent, 256);
    EarlyArrivalsAhead(sent, 256);
    var full := Arrive(sent, UpFrom(1, 256)).0;
    assert Arrive(sent, UpFrom(1, 257)).0 == full;
    assert Arrive(sent, arrivals).0 == Deliver(full, 0, sent[0]).0;
    DrainBound(Recv(1, full.pending), 257);
  }

  lemma {:induction false} DrainBound(r: Recv, hi: nat)
    requires r.expected <= hi < SEQ_RANGE && forall k :: k in r.pending ==> k < hi
    ensures Drain(r).0.expected <= hi
    decreases |r.pending|
  {
    if r.expected in r.pending {
      ShrinkByOne(r.pending, r.expected);
      DrainBound(Recv(Next(r.expected), r.pending - {r.expected}), hi);
    }
  }
}
