/**
 flushRaw in protocol/batch.go: a batch that compresses to more than the upload limit is
 halved by bytes, again and again, while other batches mint sequence numbers from the same
 counter. `gaps(k)` is how many numbers the others mint before this batch mints its k-th.
 */
module Splitter {
  import opened Bytes

  const MAX_COMPRESSED_SIZE := 19 * 1024 * 1024

  datatype Piece = Piece(seqNum: nat, raw: seq<byte>, urgent: bool)

  /** `n` numbers after `lo`, minted by other batches. */
  datatype Range = Range(lo: nat, n: nat)

  /**
   What is sent, the shared counter and the number of own mints afterwards, and the numbers
   that went to other batches meanwhile.
   */
  datatype Split = Split(pieces: seq<Piece>, counter: nat, mints: nat, others: seq<Range>)

  /** How a batch falls into pieces. */
  datatype Tree = Leaf(raw: seq<byte>) | Node(left: Tree, right: Tree)

  /** An encoding over the limit needs at least two raw bytes, so halving makes progress. */
  ghost predicate Splittable(encode: seq<byte> -> seq<byte>) {
    forall raw :: |encode(raw)| > MAX_COMPRESSED_SIZE ==> |raw| >= 2
  }

  ghost function Cut(encode: seq<byte> -> seq<byte>, raw: seq<byte>): Tree
    requires Splittable(encode)
    decreases |raw|
  {
    if |encode(raw)| > MAX_COMPRESSED_SIZE
    then Node(Cut(encode, raw[..|raw| / 2]), Cut(encode, raw[|raw| / 2..]))
    else Leaf(raw)
  }

  function Combine(left: Split, gap: nat, right: Split): Split {
    Split(left.pieces + right.pieces, right.counter, right.mints,
          left.others + [Range(left.counter, gap)] + right.others)
  }

  /** The left half keeps the batch's number; the right half mints one when its turn comes. */
  function Number(t: Tree, gaps: nat -> nat, seqNum: nat, urgent: bool, counter: nat, mints: nat): Split {
    match t
    case Leaf(raw) => Split([Piece(seqNum, raw, urgent)], counter, mints, [])
    case Node(l, r) =>
      var left := Number(l, gaps, seqNum, urgent, counter, mints);
      var minted := left.counter + gaps(left.mints) + 1;
      Combine(left, gaps(left.mints), Number(r, gaps, minted, urgent, minted, left.mints + 1))
  }

  lemma CutNode(encode: seq<byte> -> seq<byte>, raw: seq<byte>)
    requires Splittable(encode) && |encode(raw)| > MAX_COMPRESSED_SIZE
    ensures Cut(encode, raw) == Node(Cut(encode, raw[..|raw| / 2]), Cut(encode, raw[|raw| / 2..]))
  {}

  /**
   flushRaw: what it sends, piece by piece as it recurses, and what it leaves behind. The ghost
   `t` is the way the batch falls apart.
   */
  method FlushRaw(encode: seq<byte> -> seq<byte>, gaps: nat -> nat, seqNum: nat, raw: seq<byte>, urgent: bool,
                  counter: nat, mints: nat, ghost t: Tree)
    returns (res: Split)
    requires Splittable(encode) && t == Cut(encode, raw)
    ensures res == Number(t, gaps, seqNum, urgent, counter, mints)
    decreases |raw|
  {
    var compressed := encode(raw);
    if |compressed| > MAX_COMPRESSED_SIZE {
      CutNode(encode, raw);
      var mid := |raw| / 2;
      var left := FlushRaw(encode, gaps, seqNum, raw[..mid], urgent, counter, mints, t.left);
      var gap := gaps(left.mints);
      var minted := left.counter + gap + 1; // the others first, then seqNum.Add(1)
      var right := FlushRaw(encode, gaps, minted, raw[mid..], urgent, minted, left.mints + 1, t.right);
      res := Combine(left, gap, right);
    } else {
      res := Split([Piece(seqNum, raw, urgent)], counter, mints, []);
    }
  }

  // ---------------------------------------------------------------- the pieces are the batch

  function Joined(pieces: seq<Piece>): seq<byte> {
    if pieces == [] then [] else pieces[0].raw + Joined(pieces[1..])
  }

  lemma {:induction false} JoinedConcat(a: seq<Piece>, b: seq<Piece>)
    ensures Joined(a + b) == Joined(a) + Joined(b)
  {
    if a == [] {
      assert a + b == b;
    } else {
      assert (a + b)[1..] == a[1..] + b;
      JoinedConcat(a[1..], b);
    }
  }

  function Leaves(t: Tree): seq<byte> {
    match t
    case Leaf(raw) => raw
    case Node(l, r) => Leaves(l) + Leaves(r)
  }

  ghost predicate Small(encode: seq<byte> -> seq<byte>, t: Tree) {
    match t
    case Leaf(raw) => |encode(raw)| <= MAX_COMPRESSED_SIZE
    case Node(l, r) => Small(encode, l) && Small(encode, r)
  }

  lemma {:induction false} CutIsWhole(encode: seq<byte> -> seq<byte>, raw: seq<byte>)
    requires Splittable(encode)
    ensures Leaves(Cut(encode, raw)) == raw && Small(encode, Cut(encode, raw))
    decreases |raw|
  {
    if |encode(raw)| > MAX_COMPRESSED_SIZE {
      CutIsWhole(encode, raw[..|raw| / 2]);
      CutIsWhole(encode, raw[|raw| / 2..]);
      assert raw == raw[..|raw| / 2] + raw[|raw| / 2..];
    }
  }

  ghost predicate Uploadable(encode: seq<byte> -> seq<byte>, pieces: seq<Piece>, urgent: bool) {
    forall i :: 0 <= i < |pieces| ==> |encode(pieces[i].raw)| <= MAX_COMPRESSED_SIZE && pieces[i].urgent == urgent
  }

  ghost predicate Carries(encode: seq<byte> -> seq<byte>, r: Split, raw: seq<byte>, urgent: bool) {
    Joined(r.pieces) == raw && Uploadable(encode, r.pieces, urgent)
  }

  lemma OneCarries(encode: seq<byte> -> seq<byte>, r: Split, p: Piece)
    requires r.pieces == [p] && |encode(p.raw)| <= MAX_COMPRESSED_SIZE
    ensures Carries(encode, r, p.raw, p.urgent)
  {
    assert Joined([p][1..]) == [];
    assert p.raw + [] == p.raw;
  }

  lemma CombineCarries(encode: seq<byte> -> seq<byte>, left: Split, gap: nat, right: Split, a: seq<byte>,
                       b: seq<byte>, urgent: bool)
    requires Carries(encode, left, a, urgent) && Carries(encode, right, b, urgent)
    ensures Carries(encode, Combine(left, gap, right), a + b, urgent)
  {
    JoinedConcat(left.pieces, right.pieces);
  }

  lemma {:induction false} NumberCarries(encode: seq<byte> -> seq<byte>, t: Tree, gaps: nat -> nat, seqNum: nat,
                                         urgent: bool, counter: nat, mints: nat)
    requires Small(encode, t)
    ensures Carries(encode, Number(t, gaps, seqNum, urgent, counter, mints), Leaves(t), urgent)
    decreases t
  {
    match t
    case Leaf(raw) =>
      OneCarries(encode, Number(t, gaps, seqNum, urgent, counter, mints), Piece(seqNum, raw, urgent));
    case Node(l, r) =>
      var left := Number(l, gaps, seqNum, urgent, counter, mints);
      var minted := left.counter + gaps(left.mints) + 1;
      var right := Number(r, gaps, minted, urgent, minted, left.mints + 1);
      NumberCarries(encode, l, gaps, seqNum, urgent, counter, mints);
      NumberCarries(encode, r, gaps, minted, urgent, minted, left.mints + 1);
      CombineCarries(encode, left, gaps(left.mints), right, Leaves(l), Leaves(r), urgent);
  }

  // ---------------------------------------------------------------- the numbers

  ghost predicate Increasing(pieces: seq<Piece>) {
    forall i, j :: 0 <= i < j < |pieces| ==> pieces[i].seqNum < pieces[j].seqNum
  }

  /** The first piece keeps the batch's number; the others carry numbers minted during the split. */
  ghost predicate IsOrdered(r: Split, seqNum: nat, counter: nat) {
    && r.pieces != [] && r.pieces[0].seqNum == seqNum && counter <= r.counter
    && Increasing(r.pieces)
    && forall i :: 1 <= i < |r.pieces| ==> counter < r.pieces[i].seqNum <= r.counter
  }

  lemma JoinOrdered(a: seq<Piece>, b: seq<Piece>, hi: nat)
    requires Increasing(a) && Increasing(b)
    requires forall i :: 0 <= i < |a| ==> a[i].seqNum <= hi
    requires forall j :: 0 <= j < |b| ==> hi < b[j].seqNum
    ensures Increasing(a + b)
  {}

  lemma CombineIsOrdered(left: Split, gap: nat, right: Split, seqNum: nat, counter: nat)
    requires seqNum <= counter && IsOrdered(left, seqNum, counter)
    requires IsOrdered(right, left.counter + gap + 1, left.counter + gap + 1)
    ensures IsOrdered(Combine(left, gap, right), seqNum, counter)
  {
    assert forall j :: 0 <= j < |right.pieces| ==> left.counter < right.pieces[j].seqNum;
    JoinOrdered(left.pieces, right.pieces, left.counter);
  }

  lemma {:induction false} NumberIsOrdered(t: Tree, gaps: nat -> nat, seqNum: nat, urgent: bool, counter: nat,
                                           mints: nat)
    requires seqNum <= counter
    ensures IsOrdered(Number(t, gaps, seqNum, urgent, counter, mints), seqNum, counter)
    decreases t
  {
    match t
    case Leaf(_) =>
    case Node(l, r) =>
      var left := Number(l, gaps, seqNum, urgent, counter, mints);
      var minted := left.counter + gaps(left.mints) + 1;
      NumberIsOrdered(l, gaps, seqNum, urgent, counter, mints);
      NumberIsOrdered(r, gaps, minted, urgent, minted, left.mints + 1);
      var right := Number(r, gaps, minted, urgent, minted, left.mints + 1);
      CombineIsOrdered(left, gaps(left.mints), right, seqNum, counter);
  }

  /** This batch minted `x` for one of its pieces. */
  ghost predicate Own(r: Split, x: nat) {
    exists i :: 1 <= i < |r.pieces| && r.pieces[i].seqNum == x
  }

  /** Another batch minted `x` meanwhile. */
  ghost predicate Other(r: Split, x: nat) {
    exists i :: 0 <= i < |r.others| && r.others[i].lo < x <= r.others[i].lo + r.others[i].n
  }

  lemma CombineOwn(left: Split, gap: nat, right: Split, x: nat)
    requires left.pieces != [] && right.pieces != []
    ensures Own(Combine(left, gap, right), x) <==> Own(left, x) || right.pieces[0].seqNum == x || Own(right, x)
  {
    var ps := Combine(left, gap, right).pieces;
    if Own(left, x) {
      var i :| 1 <= i < |left.pieces| && left.pieces[i].seqNum == x;
      assert ps[i].seqNum == x;
    }
    if Own(right, x) {
      var i :| 1 <= i < |right.pieces| && right.pieces[i].seqNum == x;
      assert ps[|left.pieces| + i].seqNum == x;
    }
    assert ps[|left.pieces|] == right.pieces[0];
  }

  lemma CombineOther(left: Split, gap: nat, right: Split, x: nat)
    ensures Other(Combine(left, gap, right), x) <==>
      (Other(left, x) || left.counter < x <= left.counter + gap || Other(right, x))
  {
    var os := Combine(left, gap, right).others;
    if Other(left, x) {
      var i :| 0 <= i < |left.others| && left.others[i].lo < x <= left.others[i].lo + left.others[i].n;
      assert os[i] == left.others[i];
    }
    if Other(right, x) {
      var i :| 0 <= i < |right.others| && right.others[i].lo < x <= right.others[i].lo + right.others[i].n;
      assert os[|left.others| + 1 + i] == right.others[i];
    }
    assert os[|left.others|] == Range(left.counter, gap);
  }

  /** A number minted during the split went to exactly one batch: this one or another. */
  ghost predicate OneOwner(r: Split, counter: nat, x: nat) {
    && (counter < x <= r.counter <==> Own(r, x) || Other(r, x))
    && !(Own(r, x) && Other(r, x))
  }

  lemma CombineOneOwner(left: Split, gap: nat, right: Split, seqNum: nat, counter: nat, x: nat)
    requires IsOrdered(left, seqNum, counter) && IsOrdered(right, left.counter + gap + 1, left.counter + gap + 1)
    requires OneOwner(left, counter, x) && OneOwner(right, left.counter + gap + 1, x)
    ensures OneOwner(Combine(left, gap, right), counter, x)
  {
    CombineOwn(left, gap, right, x);
    CombineOther(left, gap, right, x);
  }

  lemma {:induction false} MintedOnce(t: Tree, gaps: nat -> nat, seqNum: nat, urgent: bool, counter: nat, mints: nat,
                                      x: nat)
    requires seqNum <= counter
    ensures OneOwner(Number(t, gaps, seqNum, urgent, counter, mints), counter, x)
    decreases t
  {
    match t
    case Leaf(_) =>
    case Node(l, r) =>
      var left := Number(l, gaps, seqNum, urgent, counter, mints);
      var minted := left.counter + gaps(left.mints) + 1;
      var right := Number(r, gaps, minted, urgent, minted, left.mints + 1);
      MintedOnce(l, gaps, seqNum, urgent, counter, mints, x);
      MintedOnce(r, gaps, minted, urgent, minted, left.mints + 1, x);
      NumberIsOrdered(l, gaps, seqNum, urgent, counter, mints);
      NumberIsOrdered(r, gaps, minted, urgent, minted, left.mints + 1);
      CombineOneOwner(left, gaps(left.mints), right, seqNum, counter, x);
  }

  /**
   Splitter correctness: every piece fits the limit, the pieces concatenate left to right to
   the batch, the first keeps its number, and the rest carry strictly increasing numbers minted
   during the split; no number minted meanwhile goes to two batches.
   */
  lemma SplitterCorrect(encode: seq<byte> -> seq<byte>, gaps: nat -> nat, seqNum: nat, raw: seq<byte>, urgent: bool,
                        counter: nat)
    requires Splittable(encode) && seqNum <= counter
    ensures var r := Number(Cut(encode, raw), gaps, seqNum, urgent, counter, 0);
      && Uploadable(encode, r.pieces, urgent)
      && Joined(r.pieces) == raw
      && IsOrdered(r, seqNum, counter)
      && forall x: nat :: OneOwner(r, counter, x)
  {
    forall x: nat ensures OneOwner(Number(Cut(encode, raw), gaps, seqNum, urgent, counter, 0), counter, x) {
      MintedOnce(Cut(encode, raw), gaps, seqNum, urgent, counter, 0, x);
    }
    CutIsWhole(encode, raw);
    NumberCarries(encode, Cut(encode, raw), gaps, seqNum, urgent, counter, 0);
    NumberIsOrdered(Cut(encode, raw), gaps, seqNum, urgent, counter, 0);
  }
}
