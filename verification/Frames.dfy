/**
 The wire format: big-endian integers, the 13-byte frame header, and the batch that is
 nothing but frames laid end to end (protocol/frame.go, DecompressBatch in
 protocol/batch.go).
 */
module Bytes {
  type byte = x: int | 0 <= x < 0x100
  type uint16 = x: int | 0 <= x < 0x1_0000
  type uint32 = x: int | 0 <= x < 0x1_0000_0000

  datatype Option<+T> = None | Some(value: T)
  datatype Result<+T, +E> = Ok(value: T) | Err(error: E)

  function BE16(v: uint16): (r: seq<byte>) ensures |r| == 2 {
    [v / 0x100, v % 0x100]
  }

  function U16(b: seq<byte>): uint16 requires |b| == 2 {
    b[0] as int * 0x100 + b[1]
  }

  function BE32(v: uint32): (r: seq<byte>) ensures |r| == 4 {
    BE16(v / 0x1_0000) + BE16(v % 0x1_0000)
  }

  function U32(b: seq<byte>): uint32 requires |b| == 4 {
    U16(b[..2]) as int * 0x1_0000 + U16(b[2..])
  }

  /** The low 24 bits of a length: byte(n >> 16), byte(n >> 8), byte(n). */
  function BE24(n: nat): (r: seq<byte>) ensures |r| == 3 {
    [n / 0x1_0000 % 0x100] + BE16(n % 0x1_0000)
  }

  function U24(b: seq<byte>): (n: nat) requires |b| == 3 ensures n < 0x100_0000 {
    b[0] as int * 0x1_0000 + U16(b[1..])
  }

  lemma HighLow(hi: nat, lo: uint16)
    ensures (hi * 0x1_0000 + lo) / 0x1_0000 == hi && (hi * 0x1_0000 + lo) % 0x1_0000 == lo
  {}

  lemma Low24(n: nat)
    ensures n % 0x100_0000 == n / 0x1_0000 % 0x100 * 0x1_0000 + n % 0x1_0000
  {
    var q, r := n / 0x1_0000, n % 0x1_0000;
    var low := q % 0x100 * 0x1_0000 + r;
    assert n == q / 0x100 * 0x100_0000 + low;
    assert 0 <= low < 0x100_0000;
  }

  lemma BigEndianInverse16(v: uint16, b: seq<byte>)
    requires |b| == 2
    ensures U16(BE16(v)) == v && BE16(U16(b)) == b
  {}

  lemma BigEndianInverse32(v: uint32, b: seq<byte>)
    requires |b| == 4
    ensures U32(BE32(v)) == v && BE32(U32(b)) == b
  {
    BigEndianInverse16(v / 0x1_0000, b[..2]);
    BigEndianInverse16(v % 0x1_0000, b[2..]);
    HighLow(U16(b[..2]), U16(b[2..]));
    assert BE32(v)[..2] == BE16(v / 0x1_0000) && BE32(v)[2..] == BE16(v % 0x1_0000);
    assert b == b[..2] + b[2..];
  }

  lemma BigEndianInverse24(n: nat, b: seq<byte>)
    requires |b| == 3
    ensures U24(BE24(n)) == n % 0x100_0000 && BE24(U24(b)) == b
  {
    BigEndianInverse16(n % 0x1_0000, b[1..]);
    Low24(n);
    HighLow(b[0], U16(b[1..]));
    assert BE24(n)[1..] == BE16(n % 0x1_0000);
    assert b == [b[0]] + b[1..];
  }
}

module Frames {
  import opened Bytes

  const VERSION: byte := 1
  const HEADER_SIZE := 13

  const TYPE_CONNECT: byte := 0x01
  const TYPE_CONNECT_ACK: byte := 0x02
  const TYPE_DATA: byte := 0x03
  const TYPE_CLOSE: byte := 0x04
  const TYPE_RESET: byte := 0x06

  /** The three-byte length field: a payload of this size or more does not survive the wire. */
  const PAYLOAD_LIMIT := 0x100_0000

  datatype Frame = Frame(typ: byte, connId: uint32, seqNum: uint32, payload: seq<byte>)

  datatype FrameError = ShortRead | BadVersion

  function Header(f: Frame): (h: seq<byte>) ensures |h| == HEADER_SIZE {
    [VERSION, f.typ] + BE32(f.connId) + BE32(f.seqNum) + BE24(|f.payload|)
  }

  function Wire(f: Frame): (w: seq<byte>) ensures |w| == HEADER_SIZE + |f.payload| {
    Header(f) + f.payload
  }

  function WireAll(fs: seq<Frame>): seq<byte> {
    if fs == [] then [] else Wire(fs[0]) + WireAll(fs[1..])
  }

  predicate Sized(fs: seq<Frame>) {
    forall i :: 0 <= i < |fs| ==> |fs[i].payload| < PAYLOAD_LIMIT
  }

  /** Copies `bytes` into the buffer from index `at` on. */
  method Put(buf: array<byte>, at: nat, bytes: seq<byte>)
    requires at + |bytes| <= buf.Length
    modifies buf
    ensures buf[..at] == old(buf[..at])
    ensures buf[at..at + |bytes|] == bytes
    ensures buf[at + |bytes|..] == old(buf[at + |bytes|..])
  {
    forall i | 0 <= i < |bytes| {
      buf[at + i] := bytes[i];
    }
  }

  lemma Glue(s: seq<byte>, at: nat, n: nat, front: seq<byte>, part: seq<byte>)
    requires at + n <= |s|
    requires s[..at] == front && s[at..at + n] == part
    ensures s[..at + n] == front + part
  {
    assert s[..at + n] == s[..at] + s[at..at + n];
  }

  /** Frame.Marshal: fills the buffer field by field. */
  method Marshal(f: Frame) returns (buf: array<byte>)
    ensures fresh(buf)
    ensures buf[..] == Wire(f)
  {
    var plen := |f.payload|;
    buf := new byte[HEADER_SIZE + plen](_ => 0);
    Put(buf, 0, [VERSION, f.typ]);
    assert buf[..2] == [VERSION, f.typ];
    Put(buf, 2, BE32(f.connId));
    Glue(buf[..], 2, 4, [VERSION, f.typ], BE32(f.connId));
    Put(buf, 6, BE32(f.seqNum));
    Glue(buf[..], 6, 4, [VERSION, f.typ] + BE32(f.connId), BE32(f.seqNum));
    Put(buf, 10, BE24(plen));
    Glue(buf[..], 10, 3, [VERSION, f.typ] + BE32(f.connId) + BE32(f.seqNum), BE24(plen));
    Put(buf, HEADER_SIZE, f.payload);
    Glue(buf[..], HEADER_SIZE, plen, Header(f), f.payload);
    assert buf[..] == buf[..HEADER_SIZE + plen];
  }

  /** What ReadFrame takes off the front of `data`: a frame and the rest, or an error. */
  function Parse(data: seq<byte>): (r: Result<(Frame, seq<byte>), FrameError>)
    ensures r.Ok? ==> |r.value.1| + HEADER_SIZE <= |data|
  {
    if |data| < HEADER_SIZE then Err(ShortRead)
    else if data[0] != VERSION then Err(BadVersion)
    else
      var plen := U24(data[10..13]);
      if |data| < HEADER_SIZE + plen then Err(ShortRead)
      else Ok((Frame(data[1], U32(data[2..6]), U32(data[6..10]), data[HEADER_SIZE..HEADER_SIZE + plen]),
               data[HEADER_SIZE + plen..]))
  }

  /** A byte reader, as bytes.Reader with io.ReadFull on top of it. */
  class Reader {
    const data: seq<byte>
    var pos: nat

    ghost predicate Valid() reads this { pos <= |data| }

    ghost function Rest(): seq<byte> requires Valid() reads this { data[pos..] }

    constructor (data: seq<byte>)
      ensures Valid() && Rest() == data && this.data == data
    {
      this.data := data;
      pos := 0;
    }

    /** io.ReadFull: all of the wanted bytes, or what is left and a failure. */
    method ReadFull(n: nat) returns (got: seq<byte>, ok: bool)
      requires Valid()
      modifies this
      ensures Valid()
      ensures ok == (n <= |old(Rest())|)
      ensures ok ==> got == old(Rest())[..n] && Rest() == old(Rest())[n..]
      ensures !ok ==> got == old(Rest()) && Rest() == []
    {
      ok := n <= |data| - pos;
      var take := if ok then n else |data| - pos;
      got := data[pos..pos + take];
      pos := pos + take;
    }

    method ReadFrame() returns (r: Result<Frame, FrameError>)
      requires Valid()
      modifies this
      ensures Valid()
      ensures match Parse(old(Rest()))
        case Ok((f, rest)) => r == Ok(f) && Rest() == rest
        case Err(e) => r == Err(e)
    {
      ghost var all := Rest();
      var hdr, ok := ReadFull(HEADER_SIZE);
      if !ok { return Err(ShortRead); }
      if hdr[0] != VERSION { return Err(BadVersion); }
      assert hdr[10..13] == all[10..13];
      var plen := U24(hdr[10..13]);
      var payload := [];
      if plen > 0 {
        payload, ok := ReadFull(plen);
        if !ok { return Err(ShortRead); }
      }
      assert hdr[2..6] == all[2..6] && hdr[6..10] == all[6..10] && hdr[10..13] == all[10..13];
      assert payload == all[HEADER_SIZE..HEADER_SIZE + plen];
      r := Ok(Frame(hdr[1], U32(hdr[2..6]), U32(hdr[6..10]), payload));
    }
  }

  /** The frames of a decompressed batch: all of them, or none at all. */
  function DecodeAll(data: seq<byte>): Result<seq<Frame>, FrameError>
    decreases |data|
  {
    if data == [] then Ok([])
    else match Parse(data)
      case Err(e) => Err(e)
      case Ok((f, rest)) =>
        match DecodeAll(rest)
        case Err(e) => Err(e)
        case Ok(fs) => Ok([f] + fs)
  }

  /** The read loop of DecompressBatch as a function: `done` holds the frames read so far. */
  function DecodeFrom(done: seq<Frame>, data: seq<byte>): Result<seq<Frame>, FrameError>
    decreases |data|
  {
    if data == [] then Ok(done)
    else match Parse(data)
      case Err(e) => Err(e)
      case Ok((f, rest)) => DecodeFrom(done + [f], rest)
  }

  lemma {:induction false} DecodeFromIsDecodeAll(done: seq<Frame>, data: seq<byte>)
    ensures match DecodeAll(data)
      case Ok(fs) => DecodeFrom(done, data) == Ok(done + fs)
      case Err(e) => DecodeFrom(done, data) == Err(e)
    decreases |data|
  {
    if data == [] {
      assert done + [] == done;
    } else if Parse(data).Ok? {
      var (f, rest) := Parse(data).value;
      DecodeFromIsDecodeAll(done + [f], rest);
      if DecodeAll(rest).Ok? {
        assert done + ([f] + DecodeAll(rest).value) == done + [f] + DecodeAll(rest).value;
      }
    }
  }

  method DecodeBatch(raw: seq<byte>) returns (r: Result<seq<Frame>, FrameError>)
    ensures r == DecodeAll(raw)
  {
    r := ReadAll(raw);
    DecodeFromIsDecodeAll([], raw);
    assert DecodeAll(raw).Ok? ==> [] + DecodeAll(raw).value == DecodeAll(raw).value;
  }

  method ReadAll(raw: seq<byte>) returns (r: Result<seq<Frame>, FrameError>)
    ensures r == DecodeFrom([], raw)
  {
    var frames: seq<Frame> := [];
    var reader := new Reader(raw);
    while |reader.data| - reader.pos > 0
      invariant reader.Valid()
      invariant DecodeFrom(frames, reader.Rest()) == DecodeFrom([], raw)
      decreases |reader.Rest()|
    {
      var f := reader.ReadFrame();
      if f.Err? { return Err(f.error); }
      frames := frames + [f.value];
    }
    r := Ok(frames);
  }

  // ---------------------------------------------------------------- the codec laws

  lemma HeaderFields(f: Frame)
    ensures var h := Header(f);
      && h[0] == VERSION && h[1] == f.typ
      && U32(h[2..6]) == f.connId && U32(h[6..10]) == f.seqNum
      && U24(h[10..13]) == |f.payload| % PAYLOAD_LIMIT
  {
    var h := Header(f);
    BigEndianInverse32(f.connId, BE32(f.connId));
    BigEndianInverse32(f.seqNum, BE32(f.seqNum));
    BigEndianInverse24(|f.payload|, BE24(|f.payload|));
    assert h[2..6] == BE32(f.connId);
    assert h[6..10] == BE32(f.seqNum);
    var front := [VERSION, f.typ] + BE32(f.connId) + BE32(f.seqNum);
    assert |front| == 10 && h == front + BE24(|f.payload|) && h[10..13] == h[10..];
    assert h[10..] == BE24(|f.payload|);
  }

  /** A header's fields are read from the data that starts with it. */
  lemma FieldsOfPrefix(h: seq<byte>, data: seq<byte>)
    requires |h| == HEADER_SIZE && h <= data
    ensures data[0] == h[0] && data[1] == h[1]
    ensures data[2..6] == h[2..6] && data[6..10] == h[6..10] && data[10..13] == h[10..13]
  {}

  /** Reading back one marshalled frame, whatever follows it. */
  lemma ParseWire(f: Frame, rest: seq<byte>)
    requires |f.payload| < PAYLOAD_LIMIT
    ensures Parse(Wire(f) + rest) == Ok((f, rest))
  {
    var data := Wire(f) + rest;
    HeaderFields(f);
    assert data[..HEADER_SIZE] == Header(f);
    FieldsOfPrefix(Header(f), data);
    assert data[HEADER_SIZE..HEADER_SIZE + |f.payload|] == f.payload;
    assert data[HEADER_SIZE + |f.payload|..] == rest;
  }

  /** Nothing but a marshalled frame is ever read as a frame. */
  lemma WireParse(data: seq<byte>)
    ensures match Parse(data)
      case Ok((f, rest)) => |f.payload| < PAYLOAD_LIMIT && data == Wire(f) + rest
      case Err(_) => true
  {
    if Parse(data).Ok? {
      var (f, rest) := Parse(data).value;
      BigEndianInverse32(0, data[2..6]);
      BigEndianInverse32(0, data[6..10]);
      BigEndianInverse24(0, data[10..13]);
      assert data[..HEADER_SIZE] == [data[0], data[1]] + data[2..6] + data[6..10] + data[10..13];
      assert data == data[..HEADER_SIZE] + data[HEADER_SIZE..];
      assert data[HEADER_SIZE..] == f.payload + rest;
    }
  }

  lemma {:induction false} DecodeWireAll(fs: seq<Frame>)
    requires Sized(fs)
    ensures DecodeAll(WireAll(fs)) == Ok(fs)
  {
    if fs != [] {
      var rest := WireAll(fs[1..]);
      ParseWire(fs[0], rest);
      DecodeWireAll(fs[1..]);
      assert [fs[0]] + fs[1..] == fs;
      assert Wire(fs[0]) + rest != [];
    }
  }

  lemma {:induction false} WireAllDecode(data: seq<byte>)
    ensures match DecodeAll(data)
      case Ok(fs) => Sized(fs) && data == WireAll(fs)
      case Err(_) => true
    decreases |data|
  {
    if data != [] && DecodeAll(data).Ok? {
      WireParse(data);
      WireAllDecode(Parse(data).value.1);
      var fs := DecodeAll(data).value;
      assert fs[1..] == DecodeAll(Parse(data).value.1).value;
    }
  }

  /** The batch format is exact: a batch decodes to `fs` just when it is `fs` marshalled. */
  lemma BatchCodecExact(data: seq<byte>, fs: seq<Frame>)
    ensures DecodeAll(data) == Ok(fs) <==> (Sized(fs) && data == WireAll(fs))
  {
    WireAllDecode(data);
    if Sized(fs) {
      DecodeWireAll(fs);
    }
  }

  lemma WireOne(f: Frame)
    ensures WireAll([f]) == Wire(f)
  {
    assert WireAll([f][1..]) == [];
    assert WireAll([f]) == Wire(f) + [];
  }

  /** A frame survives the wire exactly when its payload fits the length field. */
  lemma FrameRoundTripExact(f: Frame)
    ensures DecodeAll(Wire(f)) == Ok([f]) <==> |f.payload| < PAYLOAD_LIMIT
  {
    BatchCodecExact(Wire(f), [f]);
    WireOne(f);
    assert [f][0] == f;
  }

  lemma {:induction false} WireAllConcat(a: seq<Frame>, b: seq<Frame>)
    ensures WireAll(a + b) == WireAll(a) + WireAll(b)
  {
    if a == [] {
      assert a + b == b;
    } else {
      assert (a + b)[1..] == a[1..] + b;
      WireAllConcat(a[1..], b);
    }
  }

  // ---------------------------------------------------------------- the bytes themselves

  /** The number that n bytes from `at` on spell, most significant first. */
  function Spelled(data: seq<byte>, at: nat, n: nat): nat
    requires at + n <= |data|
    decreases n
  {
    if n == 0 then 0 else 256 * Spelled(data, at, n - 1) + data[at + n - 1] as int
  }

  lemma SpelledFour(data: seq<byte>, at: nat)
    requires at + 4 <= |data|
    ensures Spelled(data, at, 4) == U32(data[at..at + 4])
    ensures Spelled(data, at, 4) ==
      data[at] as int * 16777216 + data[at + 1] as int * 65536 + data[at + 2] as int * 256 + data[at + 3] as int
  {
    assert Spelled(data, at, 1) == data[at];
    assert Spelled(data, at, 2) == 256 * Spelled(data, at, 1) + data[at + 1] as int;
    assert Spelled(data, at, 3) == 256 * Spelled(data, at, 2) + data[at + 2] as int;
    var b := data[at..at + 4];
    assert b[..2] == [data[at], data[at + 1]] && b[2..] == [data[at + 2], data[at + 3]];
  }

  lemma SpelledThree(data: seq<byte>, at: nat)
    requires at + 3 <= |data|
    ensures Spelled(data, at, 3) == U24(data[at..at + 3])
    ensures Spelled(data, at, 3) == data[at] as int * 65536 + data[at + 1] as int * 256 + data[at + 2] as int
  {
    assert Spelled(data, at, 1) == data[at];
    assert Spelled(data, at, 2) == 256 * Spelled(data, at, 1) + data[at + 1] as int;
    var b := data[at..at + 3];
    assert b[1..] == [data[at + 1], data[at + 2]];
  }

  /**
   The wire form, byte by byte: version 1, type, conn ID, number, length and payload, each number
   most significant byte first, the length modulo 2^24.
   */
  lemma WireBytes(f: Frame)
    ensures var w := Wire(f);
      && w[0] == 1 && w[1] == f.typ
      && Spelled(w, 2, 4) == f.connId && Spelled(w, 6, 4) == f.seqNum
      && Spelled(w, 10, 3) == |f.payload| % 16777216
      && w[13..] == f.payload
  {
    var w := Wire(f);
    HeaderFields(f);
    assert w[..HEADER_SIZE] == Header(f);
    FieldsOfPrefix(Header(f), w);
    SpelledFour(w, 2);
    SpelledFour(w, 6);
    SpelledThree(w, 10);
  }

  /** What ReadFrame makes of any data, byte by byte, and exactly when it fails and how. */
  lemma ParseBytes(data: seq<byte>)
    ensures match Parse(data)
      case Ok((f, rest)) =>
        && |data| >= 13 && data[0] == 1 && f.typ == data[1]
        && f.connId == Spelled(data, 2, 4) && f.seqNum == Spelled(data, 6, 4)
        && var n := Spelled(data, 10, 3);
           |data| >= 13 + n && f.payload == data[13..13 + n] && rest == data[13 + n..]
      case Err(BadVersion) => |data| >= 13 && data[0] != 1
      case Err(ShortRead) => |data| < 13 || (data[0] == 1 && |data| < 13 + Spelled(data, 10, 3))
  {
    if |data| >= 13 {
      SpelledFour(data, 2);
      SpelledFour(data, 6);
      SpelledThree(data, 10);
    }
  }

  // ---------------------------------------------------------------- cutting a batch

  /** Byte offset `m` falls between two frames. */
  ghost predicate Boundary(fs: seq<Frame>, m: nat) {
    exists k :: 0 <= k <= |fs| && |WireAll(fs[..k])| == m
  }

  lemma WireAllTakeDrop(fs: seq<Frame>, k: nat)
    requires k <= |fs|
    ensures WireAll(fs) == WireAll(fs[..k]) + WireAll(fs[k..])
  {
    assert fs == fs[..k] + fs[k..];
    WireAllConcat(fs[..k], fs[k..]);
  }

  lemma CutAt(fs: seq<Frame>, k: nat)
    requires k <= |fs|
    ensures var m := |WireAll(fs[..k])|;
      && m <= |WireAll(fs)|
      && WireAll(fs)[..m] == WireAll(fs[..k])
      && WireAll(fs)[m..] == WireAll(fs[k..])
  {
    WireAllTakeDrop(fs, k);
  }

  /** Marshalled batches with a common extension are comparable as frame lists. */
  lemma {:induction false} WireAllPrefixFree(a: seq<Frame>, fs: seq<Frame>, tail: seq<byte>)
    requires Sized(a) && Sized(fs)
    requires WireAll(a) + tail == WireAll(fs)
    ensures a <= fs
  {
    if a != [] {
      var atail := WireAll(a[1..]) + tail;
      assert Wire(a[0]) + atail == WireAll(a) + tail;
      ParseWire(a[0], atail);
      assert |WireAll(fs)| >= HEADER_SIZE;
      ParseWire(fs[0], WireAll(fs[1..]));
      assert a[0] == fs[0] && atail == WireAll(fs[1..]);
      WireAllPrefixFree(a[1..], fs[1..], tail);
      assert a == [a[0]] + a[1..] && fs == [fs[0]] + fs[1..];
    }
  }

  /** What a truncated batch decodes to, if anything, is a prefix of its frames. */
  lemma TruncatedSound(fs: seq<Frame>, m: nat)
    requires Sized(fs) && m <= |WireAll(fs)|
    ensures match DecodeAll(WireAll(fs)[..m])
      case Ok(got) => got <= fs && |WireAll(got)| == m
      case Err(_) => true
  {
    var cut, tail := WireAll(fs)[..m], WireAll(fs)[m..];
    assert cut + tail == WireAll(fs);
    WireAllDecode(cut);
    if DecodeAll(cut).Ok? {
      WireAllPrefixFree(DecodeAll(cut).value, fs, tail);
    }
  }

  lemma TruncatedAtBoundary(fs: seq<Frame>, m: nat, k: nat)
    requires Sized(fs) && k <= |fs| && |WireAll(fs[..k])| == m
    ensures m <= |WireAll(fs)| && DecodeAll(WireAll(fs)[..m]) == Ok(fs[..k])
  {
    CutAt(fs, k);
    DecodeWireAll(fs[..k]);
  }

  /**
   A truncated batch: it decodes just when the cut is on a frame boundary, and then to the
   frames before the cut. Off a boundary the whole batch is rejected; no frame is invented.
   */
  lemma TruncatedBatch(fs: seq<Frame>, m: nat)
    requires Sized(fs) && m <= |WireAll(fs)|
    ensures DecodeAll(WireAll(fs)[..m]).Ok? <==> Boundary(fs, m)
    ensures match DecodeAll(WireAll(fs)[..m])
      case Ok(got) => got <= fs && |WireAll(got)| == m
      case Err(_) => true
  {
    TruncatedSound(fs, m);
    if DecodeAll(WireAll(fs)[..m]).Ok? {
      var got := DecodeAll(WireAll(fs)[..m]).value;
      assert fs[..|got|] == got;
    }
    if Boundary(fs, m) {
      var k :| 0 <= k <= |fs| && |WireAll(fs[..k])| == m;
      TruncatedAtBoundary(fs, m, k);
    }
  }

  /** Both pieces of a batch decode, and together give its frames back. */
  ghost predicate SplitDecodes(fs: seq<Frame>, m: nat)
    requires m <= |WireAll(fs)|
  {
    var left, right := DecodeAll(WireAll(fs)[..m]), DecodeAll(WireAll(fs)[m..]);
    left.Ok? && right.Ok? && left.value + right.value == fs
  }

  lemma PiecesDecode(left: seq<byte>, right: seq<byte>, a: seq<Frame>, b: seq<Frame>)
    requires Sized(a) && Sized(b) && left == WireAll(a) && right == WireAll(b)
    ensures DecodeAll(left) == Ok(a) && DecodeAll(right) == Ok(b)
  {
    DecodeWireAll(a);
    DecodeWireAll(b);
  }

  lemma SplitAtBoundary(fs: seq<Frame>, k: nat)
    requires Sized(fs) && k <= |fs|
    ensures |WireAll(fs[..k])| <= |WireAll(fs)| && SplitDecodes(fs, |WireAll(fs[..k])|)
  {
    CutAt(fs, k);
    PiecesDecode(WireAll(fs)[..|WireAll(fs[..k])|], WireAll(fs)[|WireAll(fs[..k])|..], fs[..k], fs[k..]);
    assert fs[..k] + fs[k..] == fs;
  }

  /** Splitting a batch at byte `m` keeps its frames exactly when `m` is a frame boundary. */
  lemma SplitKeepsFramesExact(fs: seq<Frame>, m: nat)
    requires Sized(fs) && m <= |WireAll(fs)|
    ensures SplitDecodes(fs, m) <==> Boundary(fs, m)
  {
    if Boundary(fs, m) {
      var k :| 0 <= k <= |fs| && |WireAll(fs[..k])| == m;
      SplitAtBoundary(fs, k);
    } else {
      TruncatedBatch(fs, m);
    }
  }
}
