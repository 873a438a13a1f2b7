/**
 What a split does to the frames of a batch: flushRaw (protocol/batch.go) halves it by bytes, so
 the cut can fall inside a frame, and what the receiver makes of the halves is then not what was
 sent.
 */
module SplitFrames {
  import opened Bytes
  import opened Frames
  import opened Splitter

  /** The bytes of a batch from a place inside one of its frames on. */
  lemma InsideFrame(a: seq<Frame>, outer: Frame, b: seq<Frame>, pad: seq<byte>, gs: seq<Frame>)
    requires outer.payload == pad + WireAll(gs)
    ensures var m, raw := |WireAll(a)| + HEADER_SIZE + |pad|, WireAll(a + [outer] + b);
      |raw| == m + |WireAll(gs)| + |WireAll(b)| && raw[m..] == WireAll(gs + b)
  {
    var x, y := WireAll(gs), WireAll(b);
    WireAllConcat(a + [outer], b);
    WireAllConcat(a, [outer]);
    WireOne(outer);
    WireAllConcat(gs, b);
    Regroup(WireAll(a), Header(outer), pad, x, y);
    Rest(WireAll(a) + Header(outer) + pad, x + y);
  }

  lemma Regroup(a: seq<byte>, h: seq<byte>, p: seq<byte>, x: seq<byte>, y: seq<byte>)
    ensures a + (h + (p + x)) + y == (a + h + p) + (x + y)
  {}

  lemma Rest(front: seq<byte>, rest: seq<byte>)
    ensures (front + rest)[|front|..] == rest
  {}

  /** Such a place is no frame boundary. */
  lemma InsideIsNoBoundary(a: seq<Frame>, outer: Frame, b: seq<Frame>, m: nat)
    requires |WireAll(a)| < m < |WireAll(a)| + |Wire(outer)|
    ensures !Boundary(a + [outer] + b, m)
  {
    var fs := a + [outer] + b;
    forall k | 0 <= k <= |fs| ensures |WireAll(fs[..k])| != m {
      if k <= |a| {
        assert fs[..k] == a[..k];
        WireAllTakeDrop(a, k);
      } else {
        assert fs[..k] == (a + [outer]) + fs[|a| + 1..k];
        WireAllConcat(a + [outer], fs[|a| + 1..k]);
        WireAllConcat(a, [outer]);
        WireOne(outer);
      }
    }
  }

  /**
   Frames nobody sent: whenever the payload of a frame ends in the marshalled frames `gs`, for
   instance because it carries a stream of this very format, and the byte midpoint of the batch
   falls where they begin, the right half decodes to `gs` and the frames after it, and the left
   half, with all the frames before, is rejected.
   */
  lemma MidpointSplitInventsFrames(a: seq<Frame>, outer: Frame, b: seq<Frame>, pad: seq<byte>, gs: seq<Frame>)
    requires Sized(a + [outer] + b) && Sized(gs + b) && gs != [] && outer.payload == pad + WireAll(gs)
    requires |WireAll(a)| + HEADER_SIZE + |pad| == |WireAll(gs)| + |WireAll(b)|
    ensures var raw := WireAll(a + [outer] + b);
      DecodeAll(raw[|raw| / 2..]) == Ok(gs + b) && DecodeAll(raw[..|raw| / 2]).Err?
  {
    var m, fs := |WireAll(a)| + HEADER_SIZE + |pad|, a + [outer] + b;
    InsideFrame(a, outer, b, pad, gs);
    assert |WireAll(fs)| / 2 == m;
    RightHalf(WireAll(fs), m, gs + b);
    LeftHalf(a, outer, b, m, gs);
  }

  lemma RightHalf(raw: seq<byte>, m: nat, fs: seq<Frame>)
    requires m <= |raw| && Sized(fs) && raw[m..] == WireAll(fs)
    ensures DecodeAll(raw[m..]) == Ok(fs)
  {
    DecodeWireAll(fs);
  }

  lemma LeftHalf(a: seq<Frame>, outer: Frame, b: seq<Frame>, m: nat, gs: seq<Frame>)
    requires Sized(a + [outer] + b) && gs != [] && m + |WireAll(gs)| == |WireAll(a)| + |Wire(outer)|
    requires |WireAll(a)| < m <= |WireAll(a + [outer] + b)|
    ensures DecodeAll(WireAll(a + [outer] + b)[..m]).Err?
  {
    assert |WireAll(gs)| >= |Wire(gs[0])|;
    InsideIsNoBoundary(a, outer, b, m);
    TruncatedBatch(a + [outer] + b, m);
  }

  /**
   And what the pieces decode to: a batch over the upload limit whose midpoint falls before frames
   `gs` inside a payload is sent as halves of which the right one, if it fits, is received as `gs`
   and the frames after it, although nobody sent `gs`, and the left one is no batch at all.
   */
  lemma SplitInventsFrames(encode: seq<byte> -> seq<byte>, a: seq<Frame>, outer: Frame, b: seq<Frame>, pad: seq<byte>,
                           gs: seq<Frame>)
    requires Sized(a + [outer] + b) && Sized(gs + b) && gs != [] && outer.payload == pad + WireAll(gs)
    requires |WireAll(a)| + HEADER_SIZE + |pad| == |WireAll(gs)| + |WireAll(b)|
    requires Splittable(encode)
    requires var raw := WireAll(a + [outer] + b);
      |encode(raw)| > MAX_COMPRESSED_SIZE && |encode(raw[|raw| / 2..])| <= MAX_COMPRESSED_SIZE
    ensures var raw := WireAll(a + [outer] + b); var t := Cut(encode, raw);
      && t.Node? && t.right == Leaf(raw[|raw| / 2..]) && DecodeAll(t.right.raw) == Ok(gs + b)
      && Leaves(t.left) == raw[..|raw| / 2] && DecodeAll(Leaves(t.left)).Err?
  {
    var raw := WireAll(a + [outer] + b);
    MidpointSplitInventsFrames(a, outer, b, pad, gs);
    CutNode(encode, raw);
    CutIsWhole(encode, raw[..|raw| / 2]);
  }
}
