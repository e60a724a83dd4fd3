/**
 * RDM unique identifiers (a 16-bit manufacturer code and a 32-bit device
 * code), their 6-byte big-endian wire form, and the table-of-devices (TOD)
 * reply payload, which is a plain concatenation of such 6-byte records.
 */
module Uids {
  import opened Bytes
  import opened Wrappers

  const UID_SIZE := 6
  /** The device code that addresses every device of a manufacturer. */
  const ALL_DEVICES: uint32 := 0xffff_ffff

  datatype Uid = Uid(manufacturer: uint16, device: uint32)

  /** Broadcast UIDs (to one manufacturer or to all) carry the all-devices code. */
  predicate IsBroadcast(u: Uid)
  {
    u.device == ALL_DEVICES
  }

  /** The 6 bytes of `u`: manufacturer then device, both big-endian. */
  function UidToBytes(u: Uid): (r: seq<uint8>)
    ensures |r| == UID_SIZE
    ensures UidFromBytes(r) == u
  {
    var r := Uint16ToBytes(u.manufacturer) + Uint32ToBytes(u.device);
    assert r[..2] == Uint16ToBytes(u.manufacturer) && r[2..] == Uint32ToBytes(u.device);
    r
  }

  function UidFromBytes(b: seq<uint8>): Uid
    requires |b| == UID_SIZE
  {
    Uid(Uint16FromBytes(b[..2]), Uint32FromBytes(b[2..]))
  }

  /** Reading 6 bytes as a UID and writing it back gives the same bytes. */
  lemma UidBytesRoundTrip(b: seq<uint8>)
    requires |b| == UID_SIZE
    ensures UidToBytes(UidFromBytes(b)) == b
  {
    Uint16BytesRoundTrip(b[..2]);
    Uint32BytesRoundTrip(b[2..]);
    assert b == b[..2] + b[2..];
  }

  /** The `i`-th 6-byte record of a TOD payload. */
  function UidAt(payload: seq<uint8>, i: nat): Uid
    requires UID_SIZE * i + UID_SIZE <= |payload|
  {
    UidFromBytes(payload[UID_SIZE * i..UID_SIZE * i + UID_SIZE])
  }

  /** The records of a TOD payload whose length is a whole number of UIDs, in payload order. */
  function TodList(payload: seq<uint8>): seq<Uid>
    requires |payload| % UID_SIZE == 0
    decreases |payload|
  {
    if |payload| == 0 then [] else [UidFromBytes(payload[..UID_SIZE])] + TodList(payload[UID_SIZE..])
  }

  /** The wire form of a list of UIDs, as a widget sends it in a TOD reply. */
  function TodBytes(uids: seq<Uid>): (r: seq<uint8>)
    ensures |r| == UID_SIZE * |uids|
  {
    if uids == [] then [] else UidToBytes(uids[0]) + TodBytes(uids[1..])
  }

  function Elements<T>(s: seq<T>): set<T>
  {
    set x | x in s
  }

  /**
   * Decoding of a TOD reply: the set of UIDs it lists, or None when its
   * length is not a whole number of 6-byte records.
   */
  function DecodeTod(payload: seq<uint8>): (r: Option<set<Uid>>)
    ensures r.Some? <==> |payload| % UID_SIZE == 0
  {
    if |payload| % UID_SIZE == 0 then Some(Elements(TodList(payload))) else None
  }

  /** A TOD payload holds exactly |payload| / 6 UIDs, the i-th taken from bytes 6i .. 6i+5. */
  lemma {:induction false} TodListAt(payload: seq<uint8>)
    requires |payload| % UID_SIZE == 0
    ensures |TodList(payload)| == |payload| / UID_SIZE
    ensures forall i :: 0 <= i < |payload| / UID_SIZE ==> TodList(payload)[i] == UidAt(payload, i)
    decreases |payload|
  {
    if |payload| != 0 {
      var rest := payload[UID_SIZE..];
      TodListAt(rest);
      forall i | 0 <= i < |payload| / UID_SIZE
        ensures TodList(payload)[i] == UidAt(payload, i)
      {
        if i > 0 {
          assert rest[UID_SIZE * (i - 1)..UID_SIZE * (i - 1) + UID_SIZE]
              == payload[UID_SIZE * i..UID_SIZE * i + UID_SIZE];
        }
      }
    }
  }

  /** Decoding the wire form of a UID list gives back that list. */
  lemma {:induction false} TodListOfBytes(uids: seq<Uid>)
    ensures TodList(TodBytes(uids)) == uids
  {
    if uids != [] {
      var b := TodBytes(uids);
      assert b[..UID_SIZE] == UidToBytes(uids[0]);
      assert b[UID_SIZE..] == TodBytes(uids[1..]);
      TodListOfBytes(uids[1..]);
    }
  }

  /** Re-encoding the decoded records of a TOD payload gives back the payload. */
  lemma {:induction false} TodBytesOfList(payload: seq<uint8>)
    requires |payload| % UID_SIZE == 0
    ensures TodBytes(TodList(payload)) == payload
    decreases |payload|
  {
    if |payload| != 0 {
      var l := TodList(payload);
      assert l[0] == UidFromBytes(payload[..UID_SIZE]) && l[1..] == TodList(payload[UID_SIZE..]);
      UidBytesRoundTrip(payload[..UID_SIZE]);
      TodBytesOfList(payload[UID_SIZE..]);
      assert payload == payload[..UID_SIZE] + payload[UID_SIZE..];
    }
  }

  /** A widget that reports the UIDs `uids` is decoded as exactly that set of UIDs. */
  lemma DecodeTodOfBytes(uids: seq<Uid>)
    ensures DecodeTod(TodBytes(uids)) == Some(Elements(uids))
  {
    TodListOfBytes(uids);
  }

  /** A UID is in the decoded TOD exactly when some 6-byte record of the payload encodes it. */
  lemma DecodeTodMembership(payload: seq<uint8>, u: Uid)
    requires |payload| % UID_SIZE == 0
    ensures u in DecodeTod(payload).value <==>
            exists i :: 0 <= i < |payload| / UID_SIZE && UidAt(payload, i) == u
  {
    TodListAt(payload);
    var l := TodList(payload);
    if u in DecodeTod(payload).value {
      var i :| 0 <= i < |l| && l[i] == u;
      assert UidAt(payload, i) == u;
    }
  }
}
