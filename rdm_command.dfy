/**
 * The RDM message layout of ANSI E1.20 section 6.2, shared by requests and
 * responses: start code, sub-start code, message length, destination and
 * source UIDs, transaction number, port id (requests) or response type
 * (responses), message count, sub-device, command class, parameter id,
 * parameter data length, parameter data, and a 16-bit additive checksum.
 */
module RdmCommands {
  import opened Bytes
  import opened Uids
  import opened Wrappers

  const START_CODE: uint8 := 0xcc
  const SUB_START_CODE: uint8 := 0x01
  /** Bytes from the start code through the parameter data length field. */
  const HEADER_SIZE := 24
  const CHECKSUM_SIZE := 2
  /** The largest parameter data length whose message length still fits its one byte. */
  const MAX_PARAM_DATA_LENGTH := 231

  datatype RdmCommand = RdmCommand(
    destination: Uid,
    source: Uid,
    transactionNumber: uint8,
    portId: uint8,          // the response type, in a response
    messageCount: uint8,
    subDevice: uint16,
    commandClass: uint8,
    paramId: uint16,
    paramData: seq<uint8>)

  predicate ValidCommand(c: RdmCommand)
  {
    |c.paramData| <= MAX_PARAM_DATA_LENGTH
  }

  /** The additive sum of a byte string. */
  function Sum(bs: seq<uint8>): nat
  {
    if bs == [] then 0 else Sum(bs[..|bs| - 1]) + bs[|bs| - 1]
  }

  /** The RDM checksum: the sum of the bytes, kept to its low 16 bits. */
  function Checksum(bs: seq<uint8>): (r: uint16)
    ensures Sum(bs) < 0x1_0000 ==> r == Sum(bs)
    ensures (Sum(bs) - r) % 0x1_0000 == 0
  {
    Sum(bs) % 0x1_0000
  }

  lemma {:induction false} SumAppend(a: seq<uint8>, b: seq<uint8>)
    ensures Sum(a + b) == Sum(a) + Sum(b)
    decreases |b|
  {
    if b == [] {
      assert a + b == a;
    } else {
      assert (a + b)[..|a + b| - 1] == a + b[..|b| - 1];
      SumAppend(a, b[..|b| - 1]);
    }
  }

  /** The sum of the two bytes of a 16-bit field. */
  function DigitSum16(x: uint16): nat
  {
    x / 0x100 + x % 0x100
  }

  function DigitSumUid(u: Uid): nat
  {
    DigitSum16(u.manufacturer) + DigitSum16(u.device / 0x1_0000) + DigitSum16(u.device % 0x1_0000)
  }

  lemma SumUint16(x: uint16)
    ensures Sum(Uint16ToBytes(x)) == DigitSum16(x)
  {
    var b := Uint16ToBytes(x);
    assert b[..1][..0] == [];
    assert Sum(b[..1]) == b[0];
    assert Sum(b) == Sum(b[..1]) + b[1];
  }

  lemma SumUid(u: Uid)
    ensures Sum(UidToBytes(u)) == DigitSumUid(u)
  {
    var m, hi, lo := Uint16ToBytes(u.manufacturer), Uint16ToBytes(u.device / 0x1_0000), Uint16ToBytes(u.device % 0x1_0000);
    SumAppend(m, hi);
    SumAppend(m + hi, lo);
    SumUint16(u.manufacturer);
    SumUint16(u.device / 0x1_0000);
    SumUint16(u.device % 0x1_0000);
    assert UidToBytes(u) == m + hi + lo;
  }

  /** The sum of the bytes of a message header, computed from its fields. */
  function HeaderSum(c: RdmCommand): nat
  {
    START_CODE + SUB_START_CODE + (HEADER_SIZE + |c.paramData|)
    + DigitSumUid(c.destination) + DigitSumUid(c.source)
    + c.transactionNumber + c.portId + c.messageCount
    + DigitSum16(c.subDevice) + c.commandClass + DigitSum16(c.paramId)
    + |c.paramData|
  }

  /** The sum of a message header, field by field. */
  lemma SumHeader(c: RdmCommand)
    requires ValidCommand(c)
    ensures Sum(Header(c)) == HeaderSum(c)
  {
    var p0 := [START_CODE, SUB_START_CODE];
    var p1 := [HEADER_SIZE + |c.paramData|];
    var p2 := UidToBytes(c.destination);
    var p3 := UidToBytes(c.source);
    var p4 := [c.transactionNumber, c.portId];
    var p5 := [c.messageCount];
    var p6 := Uint16ToBytes(c.subDevice);
    var p7 := [c.commandClass];
    var p8 := Uint16ToBytes(c.paramId);
    var p9 := [|c.paramData|];
    assert Header(c) == p0 + p1 + p2 + p3 + p4 + p5 + p6 + p7 + p8 + p9;
    SumAppend(p0, p1);
    SumAppend(p0 + p1, p2);
    SumAppend(p0 + p1 + p2, p3);
    SumAppend(p0 + p1 + p2 + p3, p4);
    SumAppend(p0 + p1 + p2 + p3 + p4, p5);
    SumAppend(p0 + p1 + p2 + p3 + p4 + p5, p6);
    SumAppend(p0 + p1 + p2 + p3 + p4 + p5 + p6, p7);
    SumAppend(p0 + p1 + p2 + p3 + p4 + p5 + p6 + p7, p8);
    SumAppend(p0 + p1 + p2 + p3 + p4 + p5 + p6 + p7 + p8, p9);
    SumUid(c.destination);
    SumUid(c.source);
    SumUint16(c.subDevice);
    SumUint16(c.paramId);
  }

  /** The fixed 24 bytes of a message, from the start code through the parameter data length. */
  function Header(c: RdmCommand): (r: seq<uint8>)
    requires ValidCommand(c)
    ensures |r| == HEADER_SIZE
  {
    [START_CODE, SUB_START_CODE, HEADER_SIZE + |c.paramData|]
      + UidToBytes(c.destination) + UidToBytes(c.source)
      + [c.transactionNumber, c.portId, c.messageCount]
      + Uint16ToBytes(c.subDevice)
      + [c.commandClass]
      + Uint16ToBytes(c.paramId)
      + [|c.paramData|]
  }

  /** The message from the start code through the parameter data, before the checksum. */
  function Body(c: RdmCommand): (r: seq<uint8>)
    requires ValidCommand(c)
    ensures |r| == HEADER_SIZE + |c.paramData|
  {
    Header(c) + c.paramData
  }

  /** The checksum of a message body, from its header fields and its parameter data. */
  lemma ChecksumBody(c: RdmCommand)
    requires ValidCommand(c)
    ensures Checksum(Body(c)) == (HeaderSum(c) + Sum(c.paramData)) % 0x1_0000
  {
    SumHeader(c);
    SumAppend(Header(c), c.paramData);
  }

  /** The complete wire form of a message: its body followed by the big-endian checksum of the body. */
  function Pack(c: RdmCommand): (r: seq<uint8>)
    requires ValidCommand(c)
    ensures |r| == HEADER_SIZE + |c.paramData| + CHECKSUM_SIZE
  {
    Body(c) + Uint16ToBytes(Checksum(Body(c)))
  }

  /**
   * A packed message starts with the start and sub-start codes, its length
   * byte is 24 plus its parameter data length, and it ends with the
   * big-endian sum of all the bytes before the checksum.
   */
  lemma PackLayout(c: RdmCommand)
    requires ValidCommand(c)
    ensures var r := Pack(c);
            && r[0] == START_CODE && r[1] == SUB_START_CODE
            && r[2] == HEADER_SIZE + |c.paramData| && r[23] == |c.paramData|
            && Uint16FromBytes(r[|r| - CHECKSUM_SIZE..]) == Checksum(r[..|r| - CHECKSUM_SIZE])
  {
    var body := Body(c);
    var r := Pack(c);
    assert r[..|body|] == body && r[|body|..] == Uint16ToBytes(Checksum(body));
  }

  /**
   * Parsing of a complete message: None unless it starts with the start and
   * sub-start codes, its message length is 24 plus its parameter data length,
   * the bytes end right after the 2-byte checksum, and that checksum is the
   * sum of the bytes before it.
   */
  function Unpack(bs: seq<uint8>): (r: Option<RdmCommand>)
    ensures r.Some? <==>
              && |bs| >= HEADER_SIZE + CHECKSUM_SIZE
              && bs[0] == START_CODE && bs[1] == SUB_START_CODE
              && bs[2] == HEADER_SIZE + bs[23]
              && |bs| == bs[2] + CHECKSUM_SIZE
              && Uint16FromBytes(bs[|bs| - CHECKSUM_SIZE..]) == Checksum(bs[..|bs| - CHECKSUM_SIZE])
    ensures r.Some? ==> r.value.paramData == bs[HEADER_SIZE..|bs| - CHECKSUM_SIZE]
  {
    if |bs| < HEADER_SIZE + CHECKSUM_SIZE then None
    else if bs[0] != START_CODE || bs[1] != SUB_START_CODE then None
    else if bs[2] != HEADER_SIZE + bs[23] || |bs| != bs[2] + CHECKSUM_SIZE then None
    else if Uint16FromBytes(bs[bs[2]..]) != Checksum(bs[..bs[2]]) then None
    else Some(RdmCommand(
      UidFromBytes(bs[3..9]),
      UidFromBytes(bs[9..15]),
      bs[15], bs[16], bs[17],
      Uint16FromBytes(bs[18..20]),
      bs[20],
      Uint16FromBytes(bs[21..23]),
      bs[HEADER_SIZE..bs[2]]))
  }

  /** Every field of a message survives packing and parsing. */
  lemma UnpackPack(c: RdmCommand)
    requires ValidCommand(c)
    ensures Unpack(Pack(c)) == Some(c)
  {
    var r := Pack(c);
    var body := Body(c);
    assert r[..|body|] == body;
    assert r[3..9] == UidToBytes(c.destination);
    assert r[9..15] == UidToBytes(c.source);
    assert r[18..20] == Uint16ToBytes(c.subDevice);
    assert r[21..23] == Uint16ToBytes(c.paramId);
    assert r[HEADER_SIZE..r[2]] == c.paramData;
  }

  /** A parsed message accounts for every byte: packing it again gives the input back. */
  lemma PackUnpack(bs: seq<uint8>)
    requires Unpack(bs).Some?
    ensures ValidCommand(Unpack(bs).value) && Pack(Unpack(bs).value) == bs
  {
    var c := Unpack(bs).value;
    var n := bs[2];
    UidBytesRoundTrip(bs[3..9]);
    UidBytesRoundTrip(bs[9..15]);
    Uint16BytesRoundTrip(bs[18..20]);
    Uint16BytesRoundTrip(bs[21..23]);
    Uint16BytesRoundTrip(bs[n..]);
    assert bs[..n] == bs[..3] + bs[3..9] + bs[9..15] + bs[15..18] + bs[18..20] + bs[20..21]
                      + bs[21..23] + bs[23..24] + bs[24..n];
    assert Body(c) == bs[..n];
    assert bs == bs[..n] + bs[n..];
  }

  /** Parsing succeeds on exactly the wire forms of valid messages. */
  lemma UnpackSucceedsIff(bs: seq<uint8>)
    ensures Unpack(bs).Some? <==> exists c :: ValidCommand(c) && Pack(c) == bs
  {
    if Unpack(bs).Some? {
      PackUnpack(bs);
    }
    if c :| ValidCommand(c) && Pack(c) == bs {
      UnpackPack(c);
    }
  }
}
