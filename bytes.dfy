/**
 * Fixed-width unsigned integers and their big-endian byte encodings, as used
 * by RDM messages on the wire (every multi-byte field of an RDM PDU and of a
 * UID is sent most significant byte first).
 */
module Bytes {

  type uint8 = x: int | 0 <= x < 0x100
  type uint16 = x: int | 0 <= x < 0x1_0000
  type uint32 = x: int | 0 <= x < 0x1_0000_0000

  /** The two bytes of `x`, most significant first. */
  function Uint16ToBytes(x: uint16): (r: seq<uint8>)
    ensures |r| == 2
    ensures Uint16FromBytes(r) == x
  {
    [x / 0x100, x % 0x100]
  }

  function Uint16FromBytes(b: seq<uint8>): uint16
    requires |b| == 2
  {
    (b[0] as int) * 0x100 + (b[1] as int)
  }

  /** Reading two bytes and writing them back gives the same two bytes. */
  lemma Uint16BytesRoundTrip(b: seq<uint8>)
    requires |b| == 2
    ensures Uint16ToBytes(Uint16FromBytes(b)) == b
  {
  }

  /** The four bytes of `x`, most significant first. */
  function Uint32ToBytes(x: uint32): (r: seq<uint8>)
    ensures |r| == 4
    ensures Uint32FromBytes(r) == x
  {
    var r := Uint16ToBytes(x / 0x1_0000) + Uint16ToBytes(x % 0x1_0000);
    assert r[..2] == Uint16ToBytes(x / 0x1_0000) && r[2..] == Uint16ToBytes(x % 0x1_0000);
    r
  }

  function Uint32FromBytes(b: seq<uint8>): uint32
    requires |b| == 4
  {
    (Uint16FromBytes(b[..2]) as int) * 0x1_0000 + (Uint16FromBytes(b[2..]) as int)
  }

  /** Reading four bytes and writing them back gives the same four bytes. */
  lemma Uint32BytesRoundTrip(b: seq<uint8>)
    requires |b| == 4
    ensures Uint32ToBytes(Uint32FromBytes(b)) == b
  {
    var hi, lo := Uint16FromBytes(b[..2]), Uint16FromBytes(b[2..]);
    assert Uint32FromBytes(b) / 0x1_0000 == hi && Uint32FromBytes(b) % 0x1_0000 == lo;
    Uint16BytesRoundTrip(b[..2]);
    Uint16BytesRoundTrip(b[2..]);
    assert b == b[..2] + b[2..];
  }
}
