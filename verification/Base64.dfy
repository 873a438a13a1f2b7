/**
 Base64 with the standard alphabet and padding (section 4 of RFC 4648), as the text batches
 of telegram/sender.go and telegram/poller.go use it.
 */
module Base64 {
  import opened Bytes

  type sextet = x: int | 0 <= x < 64

  function Symbol(x: sextet): char {
    if x < 26 then (65 + x) as int as char
    else if x < 52 then (71 + x) as int as char
    else if x < 62 then (x as int - 4) as char
    else if x == 62 then '+'
    else '/'
  }

  function Value(c: char): Option<sextet> {
    if 'A' <= c <= 'Z' then Some(c as int - 65)
    else if 'a' <= c <= 'z' then Some(c as int - 71)
    else if '0' <= c <= '9' then Some(c as int + 4)
    else if c == '+' then Some(62)
    else if c == '/' then Some(63)
    else None
  }

  lemma SymbolValue(x: sextet)
    ensures Value(Symbol(x)) == Some(x) && Symbol(x) != '=' && Symbol(x) != '\n' && Symbol(x) != '\r'
  {}

  function EncodedLen(n: nat): nat { (n + 2) / 3 * 4 }

  function Encode(data: seq<byte>): string {
    if data == [] then ""
    else if |data| == 1 then
      [Symbol(data[0] / 4), Symbol(data[0] % 4 * 16), '=', '=']
    else if |data| == 2 then
      [Symbol(data[0] / 4), Symbol(data[0] % 4 * 16 + data[1] / 16), Symbol(data[1] % 16 * 4), '=']
    else
      Quad(data[0], data[1], data[2]) + Encode(data[3..])
  }

  function Quad(a: byte, b: byte, c: byte): (s: string) ensures |s| == 4 {
    [Symbol(a / 4), Symbol(a % 4 * 16 + b / 16), Symbol(b % 16 * 4 + c / 64), Symbol(c % 64)]
  }

  /** The decoder drops line breaks before it looks at the text. */
  function Unwrapped(s: string): string {
    if s == "" then "" else (if s[0] == '\n' || s[0] == '\r' then "" else [s[0]]) + Unwrapped(s[1..])
  }

  function Bytes3(w: sextet, x: sextet, y: sextet, z: sextet): (r: seq<byte>) ensures |r| == 3 {
    [w as int * 4 + x / 16, x as int % 16 * 16 + y / 4, y as int % 4 * 64 + z]
  }

  function DecodeQuads(s: string): Option<seq<byte>> {
    if s == "" then Some([])
    else if |s| < 4 then None
    else
      var w, x, y, z := Value(s[0]), Value(s[1]), Value(s[2]), Value(s[3]);
      if w.None? || x.None? then None
      else if s[2] == '=' then
        if s[3] == '=' && |s| == 4 then Some(Bytes3(w.value, x.value, 0, 0)[..1]) else None
      else if y.None? then None
      else if s[3] == '=' then
        if |s| == 4 then Some(Bytes3(w.value, x.value, y.value, 0)[..2]) else None
      else if z.None? then None
      else
        match DecodeQuads(s[4..])
        case None => None
        case Some(rest) => Some(Bytes3(w.value, x.value, y.value, z.value) + rest)
  }

  function Decode(s: string): Option<seq<byte>> { DecodeQuads(Unwrapped(s)) }

  // ---------------------------------------------------------------- laws

  ghost predicate Unbroken(s: string) {
    forall i :: 0 <= i < |s| ==> s[i] != '\n' && s[i] != '\r'
  }

  lemma {:induction false} UnwrappedSame(s: string)
    requires Unbroken(s)
    ensures Unwrapped(s) == s
  {
    if s != "" {
      UnwrappedSame(s[1..]);
    }
  }

  lemma {:induction false} EncodeUnbroken(data: seq<byte>)
    ensures Unbroken(Encode(data))
  {
    if |data| >= 3 {
      EncodeUnbroken(data[3..]);
    }
  }

  /** The encoder's length is what the size check computes. */
  lemma {:induction false} EncodeLength(data: seq<byte>)
    ensures |Encode(data)| == EncodedLen(|data|)
  {
    if |data| >= 3 {
      EncodeLength(data[3..]);
      assert (|data| - 3 + 2) / 3 + 1 == (|data| + 2) / 3;
    }
  }

  lemma QuadBytes(a: byte, b: byte, c: byte)
    ensures Bytes3(a / 4, a % 4 * 16 + b / 16, b % 16 * 4 + c / 64, c % 64) == [a, b, c]
  {
    FirstByte(a, b);
    SecondByte(b, c);
    assert (b as int % 16 * 4 + c / 64) % 4 == c / 64;
  }

  lemma FirstByte(a: byte, b: byte)
    ensures a / 4 * 4 + (a as int % 4 * 16 + b / 16) / 16 == a && (a as int % 4 * 16 + b / 16) % 16 == b / 16
  {}

  lemma SecondByte(b: byte, c: byte)
    ensures b / 16 * 16 + (b as int % 16 * 4 + c / 64) / 4 == b
  {}

  lemma DecodeQuad(a: byte, b: byte, c: byte, rest: string)
    ensures DecodeQuads(Quad(a, b, c) + rest) ==
      match DecodeQuads(rest) { case None => None case Some(r) => Some([a, b, c] + r) }
  {
    QuadBytes(a, b, c);
    SymbolValue(a / 4);
    SymbolValue(a % 4 * 16 + b / 16);
    SymbolValue(b % 16 * 4 + c / 64);
    SymbolValue(c % 64);
    assert (Quad(a, b, c) + rest)[4..] == rest;
  }

  lemma DecodePadded(w: sextet, x: sextet, y: sextet)
    ensures DecodeQuads([Symbol(w), Symbol(x), Symbol(y), '=']) == Some(Bytes3(w, x, y, 0)[..2])
  {
    SymbolValue(w);
    SymbolValue(x);
    SymbolValue(y);
  }

  lemma DecodeTail1(a: byte)
    ensures DecodeQuads(Encode([a])) == Some([a])
  {
    QuadBytes(a, 0, 0);
    SymbolValue(a / 4);
    SymbolValue(a % 4 * 16);
    assert [a, 0, 0][..1] == [a];
  }

  lemma DecodeTail2(a: byte, b: byte)
    ensures DecodeQuads(Encode([a, b])) == Some([a, b])
  {
    QuadBytes(a, b, 0);
    DecodePadded(a / 4, a % 4 * 16 + b / 16, b % 16 * 4);
    assert [a, b, 0][..2] == [a, b];
  }

  lemma {:induction false} DecodeEncode(data: seq<byte>)
    ensures DecodeQuads(Encode(data)) == Some(data)
  {
    if |data| == 1 {
      assert data == [data[0]];
      DecodeTail1(data[0]);
    } else if |data| == 2 {
      assert data == [data[0], data[1]];
      DecodeTail2(data[0], data[1]);
    } else if |data| >= 3 {
      DecodeEncode(data[3..]);
      DecodeQuad(data[0], data[1], data[2], Encode(data[3..]));
      assert data == [data[0], data[1], data[2]] + data[3..];
    }
  }

  /** Decoding undoes encoding. */
  lemma RoundTrip(data: seq<byte>)
    ensures Decode(Encode(data)) == Some(data)
  {
    EncodeUnbroken(data);
    UnwrappedSame(Encode(data));
    DecodeEncode(data);
  }

  // ---------------------------------------------------------------- the characters themselves

  /** The alphabet of table 1 of RFC 4648: capitals, small letters, digits, '+', '/'. */
  lemma SymbolIsLetter(x: sextet)
    ensures x < 26 ==> Symbol(x) as int == 'A' as int + x
    ensures 26 <= x < 52 ==> Symbol(x) as int == 'a' as int + (x - 26)
    ensures 52 <= x < 62 ==> Symbol(x) as int == '0' as int + (x - 52)
    ensures x == 62 ==> Symbol(x) == '+'
    ensures x == 63 ==> Symbol(x) == '/'
  {}

  /** The 24-bit number that up to three bytes make, first byte highest. */
  function Group(data: seq<byte>): int requires data != [] {
    data[0] as int * 65536 + (if |data| > 1 then data[1] as int * 256 else 0)
      + (if |data| > 2 then data[2] as int else 0)
  }

  /** These letters spell that number, six bits each, highest first. */
  ghost predicate Spells(w: char, x: char, y: Option<char>, z: Option<char>, n: int) {
    && Value(w).Some? && Value(x).Some? && (y.Some? ==> Value(y.value).Some?) && (z.Some? ==> Value(z.value).Some?)
    && n == Value(w).value as int * 262144 + Value(x).value as int * 4096
          + (if y.Some? then Value(y.value).value as int * 64 else 0)
          + (if z.Some? then Value(z.value).value as int else 0)
  }

  lemma Halves(a: byte, b: byte, c: byte)
    ensures a as int * 65536 + b as int * 256 + c as int ==
      a as int / 4 * 262144 + (a as int % 4 * 16 + b as int / 16) * 4096
        + (b as int % 16 * 4 + c as int / 64) * 64 + c as int % 64
  {}

  /**
   The encoding, letter by letter: three bytes become the four letters that spell them; one or two
   last bytes become two or three letters and '=' to fill.
   */
  lemma EncodeLetters(data: seq<byte>)
    requires data != []
    ensures var e := Encode(data);
      && |e| >= 4
      && (|data| == 1 ==> Spells(e[0], e[1], None, None, Group(data)) && e[2..] == "==")
      && (|data| == 2 ==> Spells(e[0], e[1], Some(e[2]), None, Group(data)) && e[3..] == "=")
      && (|data| >= 3 ==> Spells(e[0], e[1], Some(e[2]), Some(e[3]), Group(data)) && e[4..] == Encode(data[3..]))
  {
    var a, b, c := data[0], if |data| > 1 then data[1] else 0, if |data| > 2 then data[2] else 0;
    Halves(a, b, c);
    SymbolValue(a / 4);
    SymbolValue(a % 4 * 16 + b / 16);
    SymbolValue(b % 16 * 4 + c / 64);
    SymbolValue(c % 64);
  }

  /** What decodes at all, line breaks aside, is whole groups of four letters or '='. */
  lemma {:induction false} DecodedShape(s: string)
    ensures DecodeQuads(s).Some? ==> |s| % 4 == 0
    ensures DecodeQuads(s).Some? ==> forall i :: 0 <= i < |s| ==> Value(s[i]).Some? || s[i] == '='
  {
    if |s| > 4 && DecodeQuads(s).Some? {
      DecodedShape(s[4..]);
      forall i | 4 <= i < |s| ensures Value(s[i]).Some? || s[i] == '=' {
        assert s[i] == s[4..][i - 4];
      }
    }
  }
}
