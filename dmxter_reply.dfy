/**
 * Classification of the DMXter's reply to an RDM request. The reply payload
 * starts with a version byte and a status byte; with status "ok" the rest is
 * the RDM response message the widget received from the responder.
 */
module DmxterReplies {
  import opened Bytes
  import opened Wrappers
  import opened RdmCommands

  /** The only reply format version the engine understands. */
  const VERSION: uint8 := 0
  /** The widget's status codes that the engine tells apart. */
  const RC_PACKET_TOO_SHORT: uint8 := 8
  const RC_GOOD_RESPONSE: uint8 := 14
  const RC_TIMED_OUT: uint8 := 17

  /** What a request's completion callback is told. */
  datatype Status = CompletedOk | WasBroadcast | Timeout | InvalidResponse

  /** A completion: its status and, for CompletedOk only, the response. */
  datatype Completion = Completion(status: Status, response: Option<RdmCommand>)

  const INVALID := Completion(InvalidResponse, None)

  /**
   * The outcome of a reply payload: too short or of another version is
   * invalid whatever follows; status 17 is the widget's own timeout; status
   * 14 hands the rest to the RDM parser; every other status is invalid.
   */
  function ClassifyReply(payload: seq<uint8>): (r: Completion)
    ensures r.status != WasBroadcast
    ensures r.response.Some? <==> r.status == CompletedOk
    ensures |payload| < 2 || payload[0] != VERSION ==> r == INVALID
    ensures r.status == Timeout <==>
              |payload| >= 2 && payload[0] == VERSION && payload[1] == RC_TIMED_OUT
    ensures r.status == CompletedOk <==>
              |payload| >= 2 && payload[0] == VERSION && payload[1] == RC_GOOD_RESPONSE
              && Unpack(payload[2..]).Some?
    ensures r.response.Some? ==>
              ValidCommand(r.response.value) && Pack(r.response.value) == payload[2..]
  {
    if |payload| < 2 || payload[0] != VERSION then INVALID
    else if payload[1] == RC_TIMED_OUT then Completion(Timeout, None)
    else if payload[1] != RC_GOOD_RESPONSE then INVALID
    else
      match Unpack(payload[2..])
      case None => INVALID
      case Some(response) =>
        PackUnpack(payload[2..]);
        Completion(CompletedOk, Some(response))
  }

  /** A version-0 "ok" reply carrying the wire form of a response completes with exactly that response. */
  lemma OkReplyOfPack(c: RdmCommand)
    requires ValidCommand(c)
    ensures ClassifyReply([VERSION, RC_GOOD_RESPONSE] + Pack(c)) == Completion(CompletedOk, Some(c))
  {
    assert ([VERSION, RC_GOOD_RESPONSE] + Pack(c))[2..] == Pack(c);
    UnpackPack(c);
  }

  /** "Packet too short" from the widget is an invalid response, whatever bytes follow it. */
  lemma TooShortIsInvalid(payload: seq<uint8>)
    requires |payload| >= 2 && payload[1] == RC_PACKET_TOO_SHORT
    ensures ClassifyReply(payload) == INVALID
  {
  }
}
