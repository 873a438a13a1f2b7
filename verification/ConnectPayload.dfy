/**
 The payload of a CONNECT frame: address type, address, port (protocol/frame.go), and the
 SOCKS request fields it is built from (socks5/server.go, section 5 of RFC 1928).
 */
module ConnectPayloads {
  import opened Bytes
  import Frames

  const IPV4: byte := 0x01
  const DOMAIN: byte := 0x03
  const IPV6: byte := 0x04

  datatype ConnectPayload = ConnectPayload(addrType: byte, addr: seq<byte>, port: uint16)

  datatype AddressError = TooShort | UnknownAddressType

  /** Go's copy into a zeroed buffer of n bytes: cut off or padded with zeros. */
  function Fit(addr: seq<byte>, n: nat): (r: seq<byte>) ensures |r| == n {
    if |addr| >= n then addr[..n] else addr + seq(n - |addr|, _ => 0)
  }

  function Marshal(cp: ConnectPayload): seq<byte> {
    if cp.addrType == IPV4 then [IPV4] + Fit(cp.addr, 4) + BE16(cp.port)
    else if cp.addrType == DOMAIN then [DOMAIN, |cp.addr| % 0x100] + cp.addr + BE16(cp.port)
    else if cp.addrType == IPV6 then [IPV6] + Fit(cp.addr, 16) + BE16(cp.port)
    else []
  }

  /** ConnectPayload.Marshal: the buffer is filled field by field. */
  method MarshalBytes(cp: ConnectPayload) returns (buf: array<byte>)
    ensures fresh(buf) && buf[..] == Marshal(cp)
  {
    if cp.addrType == IPV4 {
      buf := Fields([IPV4], Fit(cp.addr, 4), cp.port);
    } else if cp.addrType == DOMAIN {
      buf := Fields([DOMAIN, |cp.addr| % 0x100], cp.addr, cp.port);
    } else if cp.addrType == IPV6 {
      buf := Fields([IPV6], Fit(cp.addr, 16), cp.port);
    } else {
      buf := new byte[0];
      assert buf[..] == [];
    }
  }

  method Fields(head: seq<byte>, addr: seq<byte>, port: uint16) returns (buf: array<byte>)
    ensures fresh(buf) && buf[..] == head + addr + BE16(port)
  {
    var h, n := |head|, |addr|;
    buf := new byte[h + n + 2](_ => 0);
    Frames.Put(buf, 0, head);
    assert buf[..h] == head;
    Frames.Put(buf, h, addr);
    Frames.Glue(buf[..], h, n, head, addr);
    Frames.Put(buf, h + n, BE16(port));
    Frames.Glue(buf[..], h + n, 2, head + addr, BE16(port));
    assert buf[..] == buf[..h + n + 2];
  }

  function Parse(data: seq<byte>): Result<ConnectPayload, AddressError> {
    if |data| < 1 then Err(TooShort)
    else if data[0] == IPV4 then
      if |data| < 7 then Err(TooShort)
      else Ok(ConnectPayload(IPV4, data[1..5], U16(data[5..7])))
    else if data[0] == DOMAIN then
      if |data| < 2 then Err(TooShort)
      else
        var n: int := data[1];
        if |data| < 2 + n + 2 then Err(TooShort)
        else Ok(ConnectPayload(DOMAIN, data[2..2 + n], U16(data[2 + n..2 + n + 2])))
    else if data[0] == IPV6 then
      if |data| < 19 then Err(TooShort)
      else Ok(ConnectPayload(IPV6, data[1..17], U16(data[17..19])))
    else Err(UnknownAddressType)
  }

  /** The address lengths the three forms call for. */
  predicate WellFormed(cp: ConnectPayload) {
    || (cp.addrType == IPV4 && |cp.addr| == 4)
    || (cp.addrType == DOMAIN && |cp.addr| < 0x100)
    || (cp.addrType == IPV6 && |cp.addr| == 16)
  }

  /** The fields of head + addr + port are read back from where they were put. */
  lemma FieldsBack(head: seq<byte>, addr: seq<byte>, port: uint16)
    ensures var data := head + addr + BE16(port); var h, e := |head|, |head| + |addr|;
      |data| == e + 2 && data[..h] == head && data[h..e] == addr && U16(data[e..e + 2]) == port
  {
    var data := head + addr + BE16(port);
    assert data[|head| + |addr|..|data|] == BE16(port);
    BigEndianInverse16(port, BE16(port));
  }

  /** What stands before the address. */
  function Head(cp: ConnectPayload): seq<byte> {
    if cp.addrType == DOMAIN then [DOMAIN, |cp.addr| % 0x100] else [cp.addrType]
  }

  lemma MarshalFields(cp: ConnectPayload)
    requires WellFormed(cp)
    ensures Marshal(cp) == Head(cp) + cp.addr + BE16(cp.port)
  {}

  lemma RoundTrip(cp: ConnectPayload)
    requires WellFormed(cp)
    ensures Parse(Marshal(cp)) == Ok(cp)
  {
    MarshalFields(cp);
    FieldsBack(Head(cp), cp.addr, cp.port);
    assert Marshal(cp)[..|Head(cp)|][0] == cp.addrType;
    assert cp.addrType == DOMAIN ==> Marshal(cp)[..|Head(cp)|][1] == |cp.addr|;
  }

  /** A payload reads back as itself exactly when its address has the length of its form. */
  lemma RoundTripExact(cp: ConnectPayload)
    ensures Parse(Marshal(cp)) == Ok(cp) <==> WellFormed(cp)
  {
    if WellFormed(cp) {
      RoundTrip(cp);
    } else if Parse(Marshal(cp)).Ok? {
      ParsedWellFormed(Marshal(cp));
    }
  }

  lemma ParsedWellFormed(data: seq<byte>)
    requires Parse(data).Ok?
    ensures WellFormed(Parse(data).value)
  {}

  /** Address from `h` to `e`, port right after it. */
  lemma FrontPieces(data: seq<byte>, h: nat, e: nat)
    requires h <= e && e + 2 <= |data|
    ensures data[..h] + data[h..e] + BE16(U16(data[e..e + 2])) == data[..e + 2]
  {
    Port(data, e);
    assert data[..e + 2] == data[..h] + data[h..e] + data[e..e + 2];
  }

  lemma ParsedFields(data: seq<byte>)
    requires Parse(data).Ok?
    ensures var cp := Parse(data).value; var h := |Head(cp)|; var e := h + |cp.addr|;
      && e + 2 <= |data| && data[..h] == Head(cp)
      && cp.addr == data[h..e] && cp.port == U16(data[e..e + 2])
  {}

  /** What is parsed was marshalled: the payload is the front of the data, byte for byte. */
  lemma ParsedIsMarshalled(data: seq<byte>)
    ensures match Parse(data)
      case Ok(cp) => WellFormed(cp) && Marshal(cp) <= data
      case Err(_) => true
  {
    if Parse(data).Ok? {
      ParsedWellFormed(data);
      ParsedFields(data);
      var cp := Parse(data).value;
      MarshalFields(cp);
      FrontPieces(data, |Head(cp)|, |Head(cp)| + |cp.addr|);
    }
  }

  lemma Port(data: seq<byte>, at: nat)
    requires at + 2 <= |data|
    ensures BE16(U16(data[at..at + 2])) == data[at..at + 2]
  {
    BigEndianInverse16(0, data[at..at + 2]);
  }

  /** The address part of a SOCKS CONNECT request: what follows VER CMD RSV. */
  function ParseSocks(atyp: byte, rest: seq<byte>): Result<(ConnectPayload, seq<byte>), AddressError> {
    if atyp == IPV4 then
      if |rest| < 4 + 2 then Err(TooShort)
      else Ok((ConnectPayload(IPV4, rest[..4], U16(rest[4..6])), rest[6..]))
    else if atyp == DOMAIN then
      if |rest| < 1 then Err(TooShort)
      else
        var n: int := rest[0];
        if |rest| < 1 + n + 2 then Err(TooShort)
        else Ok((ConnectPayload(DOMAIN, rest[1..1 + n], U16(rest[1 + n..3 + n])), rest[3 + n..]))
    else if atyp == IPV6 then
      if |rest| < 16 + 2 then Err(TooShort)
      else Ok((ConnectPayload(IPV6, rest[..16], U16(rest[16..18])), rest[18..]))
    else Err(UnknownAddressType)
  }

  lemma Shift(x: byte, rest: seq<byte>, a: nat, b: nat)
    requires a <= b <= |rest|
    ensures ([x] + rest)[a + 1..b + 1] == rest[a..b]
  {}

  lemma DropFront(x: byte, rest: seq<byte>, front: seq<byte>, after: seq<byte>)
    requires front != [] && front <= [x] + rest
    requires |front| + |after| == 1 + |rest| && after == rest[|rest| - |after|..]
    ensures front + after == [x] + rest
  {
    var data := [x] + rest;
    assert data == data[..|front|] + data[|front|..];
    assert data[|front|..] == after;
  }

  /** The request's address bytes are themselves a CONNECT payload. */
  lemma SocksIsPayload(atyp: byte, rest: seq<byte>)
    ensures match ParseSocks(atyp, rest)
      case Ok((cp, after)) => Parse([atyp] + rest) == Ok(cp) && |after| + |Marshal(cp)| == 1 + |rest|
        && after == rest[|rest| - |after|..]
      case Err(_) => Parse([atyp] + rest).Err?
  {
    if ParseSocks(atyp, rest).Ok? {
      if atyp == IPV4 {
        Shift(atyp, rest, 0, 4);
        Shift(atyp, rest, 4, 6);
      } else if atyp == DOMAIN {
        var n: int := rest[0];
        Shift(atyp, rest, 1, 1 + n);
        Shift(atyp, rest, 1 + n, 3 + n);
      } else {
        Shift(atyp, rest, 0, 16);
        Shift(atyp, rest, 16, 18);
      }
    }
  }

  /**
   Every address the SOCKS parser produces reaches the server unchanged, and the CONNECT
   payload is the request's own address bytes.
   */
  lemma SocksAddressReachesServer(atyp: byte, rest: seq<byte>)
    ensures match ParseSocks(atyp, rest)
      case Ok((cp, after)) => Parse(Marshal(cp)) == Ok(cp) && Marshal(cp) + after == [atyp] + rest
      case Err(_) => Parse([atyp] + rest).Err?
  {
    SocksIsPayload(atyp, rest);
    if ParseSocks(atyp, rest).Ok? {
      var (cp, after) := ParseSocks(atyp, rest).value;
      ParsedIsMarshalled([atyp] + rest);
      RoundTripExact(cp);
      DropFront(atyp, rest, Marshal(cp), after);
    }
  }

  // ---------------------------------------------------------------- the bytes themselves

  /** The port in network byte order. */
  function PortAt(data: seq<byte>, at: nat): int requires at + 2 <= |data| {
    256 * data[at] as int + data[at + 1] as int
  }

  lemma PortRead(data: seq<byte>, at: nat)
    requires at + 2 <= |data|
    ensures U16(data[at..at + 2]) == PortAt(data, at)
  {
    assert data[at..at + 2] == [data[at], data[at + 1]];
  }

  /** A CONNECT payload, byte by byte: type 1, 3 or 4, the address, the port; and exactly what is refused. */
  lemma ParseBytes(data: seq<byte>)
    ensures match Parse(data)
      case Ok(cp) =>
        && |data| > 0 && cp.addrType == data[0]
        && (data[0] == 1 ==> |data| >= 7 && cp.addr == data[1..5] && cp.port == PortAt(data, 5))
        && (data[0] == 3 ==> |data| >= 2 && var n: int := data[1];
              |data| >= n + 4 && cp.addr == data[2..2 + n] && cp.port == PortAt(data, 2 + n))
        && (data[0] == 4 ==> |data| >= 19 && cp.addr == data[1..17] && cp.port == PortAt(data, 17))
        && (data[0] == 1 || data[0] == 3 || data[0] == 4)
      case Err(UnknownAddressType) => |data| > 0 && data[0] != 1 && data[0] != 3 && data[0] != 4
      case Err(TooShort) =>
        || |data| == 0
        || (data[0] == 1 && |data| < 7)
        || (data[0] == 3 && (|data| < 2 || |data| < 4 + data[1] as int))
        || (data[0] == 4 && |data| < 19)
  {
    if Parse(data).Ok? {
      PortRead(data, if data[0] == 1 then 5 else if data[0] == 3 then 2 + data[1] as int else 17);
    }
  }

  /** The address part of a SOCKS request, byte by byte (section 5 of RFC 1928). */
  lemma SocksBytes(atyp: byte, rest: seq<byte>)
    ensures match ParseSocks(atyp, rest)
      case Ok((cp, after)) =>
        && cp.addrType == atyp
        && (atyp == 1 ==> |rest| >= 6 && cp.addr == rest[..4] && cp.port == PortAt(rest, 4) && after == rest[6..])
        && (atyp == 3 ==> |rest| >= 1 && var n: int := rest[0];
              |rest| >= n + 3 && cp.addr == rest[1..1 + n] && cp.port == PortAt(rest, 1 + n) && after == rest[3 + n..])
        && (atyp == 4 ==> |rest| >= 18 && cp.addr == rest[..16] && cp.port == PortAt(rest, 16) && after == rest[18..])
        && (atyp == 1 || atyp == 3 || atyp == 4)
      case Err(UnknownAddressType) => atyp != 1 && atyp != 3 && atyp != 4
      case Err(TooShort) =>
        || (atyp == 1 && |rest| < 6)
        || (atyp == 3 && (|rest| < 1 || |rest| < 3 + rest[0] as int))
        || (atyp == 4 && |rest| < 18)
  {
    if ParseSocks(atyp, rest).Ok? {
      PortRead(rest, if atyp == 1 then 4 else if atyp == 3 then 1 + rest[0] as int else 16);
    }
  }

  /** A marshalled well-formed payload, byte by byte. */
  lemma MarshalBytesExact(cp: ConnectPayload)
    requires WellFormed(cp)
    ensures var m := Marshal(cp);
      && |m| == (if cp.addrType == 3 then 4 else 3) + |cp.addr| && m[0] == cp.addrType
      && PortAt(m, |m| - 2) == cp.port
      && (if cp.addrType == 3 then m[1] == |cp.addr| && m[2..|m| - 2] == cp.addr else m[1..|m| - 2] == cp.addr)
  {
    MarshalFields(cp);
    FieldsBack(Head(cp), cp.addr, cp.port);
    PortRead(Marshal(cp), |Marshal(cp)| - 2);
    assert Marshal(cp)[..|Head(cp)|][0] == cp.addrType;
    assert cp.addrType == 3 ==> Marshal(cp)[..|Head(cp)|][1] == |cp.addr|;
  }
}
