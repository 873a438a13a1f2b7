/**
 What lies between a raw batch and the channel: compression and the sealed envelope
 (protocol/envelope.go). zstd and AES-GCM are functions given from outside, of which only
 "decode undoes encode" and "open undoes seal" is known.
 */
module Envelope {
  import opened Bytes

  const MAGIC: seq<byte> := [0x56, 0x54, 0x45, 0x32] // "VTE2"
  const NONCE_LEN := 12

  datatype Crypto = Crypto(
    encode: seq<byte> -> seq<byte>,
    decode: seq<byte> -> Option<seq<byte>>,
    seal: (seq<byte>, seq<byte>) -> seq<byte>,
    open: (seq<byte>, seq<byte>) -> Option<seq<byte>>)

  ghost predicate Sound(c: Crypto) {
    && (forall raw :: c.decode(c.encode(raw)) == Some(raw))
    && (forall nonce, plain :: c.open(nonce, c.seal(nonce, plain)) == Some(plain))
  }

  function Seal(c: Crypto, nonce: seq<byte>, plain: seq<byte>): seq<byte> {
    MAGIC + nonce + c.seal(nonce, plain)
  }

  /** None: too short, not a vtel envelope, or it does not authenticate. */
  function Open(c: Crypto, data: seq<byte>): Option<seq<byte>> {
    if |data| < |MAGIC| + NONCE_LEN then None
    else if data[..|MAGIC|] != MAGIC then None
    else c.open(data[|MAGIC|..|MAGIC| + NONCE_LEN], data[|MAGIC| + NONCE_LEN..])
  }

  lemma OpenSeal(c: Crypto, nonce: seq<byte>, plain: seq<byte>)
    requires Sound(c) && |nonce| == NONCE_LEN
    ensures Open(c, Seal(c, nonce, plain)) == Some(plain)
  {
    var data := Seal(c, nonce, plain);
    assert data[..|MAGIC|] == MAGIC;
    assert data[|MAGIC|..|MAGIC| + NONCE_LEN] == nonce;
    assert data[|MAGIC| + NONCE_LEN..] == c.seal(nonce, plain);
  }

  /** A raw batch on the channel. */
  function Blob(c: Crypto, nonce: seq<byte>, raw: seq<byte>): seq<byte> {
    Seal(c, nonce, c.encode(raw))
  }

  /** The receive side: open the envelope, then decompress. */
  function Unblob(c: Crypto, data: seq<byte>): Option<seq<byte>> {
    match Open(c, data)
    case None => None
    case Some(z) => c.decode(z)
  }

  lemma UnblobBlob(c: Crypto, nonce: seq<byte>, raw: seq<byte>)
    requires Sound(c) && |nonce| == NONCE_LEN
    ensures Unblob(c, Blob(c, nonce, raw)) == Some(raw)
  {
    OpenSeal(c, nonce, c.encode(raw));
  }

  /** The envelope, byte by byte: the letters VTE2, the nonce, the ciphertext; and nothing else opens. */
  lemma EnvelopeBytes(c: Crypto, nonce: seq<byte>, plain: seq<byte>, data: seq<byte>)
    requires |nonce| == 12
    ensures Seal(c, nonce, plain) == [0x56, 0x54, 0x45, 0x32] + nonce + c.seal(nonce, plain)
    ensures Open(c, data).Some? ==> |data| >= 16 && data[..4] == [0x56, 0x54, 0x45, 0x32]
    ensures |data| >= 16 && data[..4] == [0x56, 0x54, 0x45, 0x32] ==> Open(c, data) == c.open(data[4..16], data[16..])
  {}
}
