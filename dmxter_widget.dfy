/**
 * The DMXter widget's RDM session: it stamps outgoing requests with the
 * widget's own UID and a transaction number, picks the frame label, keeps at
 * most one unicast request awaiting its reply, resolves broadcasts at once,
 * and runs table-of-devices discovery.
 *
 * The transport is reduced to two directions: the frames the session hands to
 * the widget (`written`), and replies delivered by calling `HandleMessage`.
 * Callbacks are reduced to the sequence of values they were run with
 * (`completions` for request callbacks, `uidDeliveries` for the UID-list
 * listener).
 */
module DmxterWidgets {
  import opened Bytes
  import opened Uids
  import opened Wrappers
  import opened RdmCommands
  import opened DmxterReplies

  const RDM_REQUEST_LABEL: uint8 := 0x80
  const RDM_BCAST_REQUEST_LABEL: uint8 := 0x81
  const TOD_LABEL: uint8 := 0x82
  /** The port id the widget writes into every request it sends. */
  const CONTROLLER_PORT_ID: uint8 := 1

  /** One message of the widget protocol: a label and its payload. */
  datatype Frame = Frame(msgLabel: uint8, payload: seq<uint8>)

  predicate IsRequestLabel(msgLabel: uint8)
  {
    msgLabel == RDM_REQUEST_LABEL || msgLabel == RDM_BCAST_REQUEST_LABEL
  }

  /** A request with the controller parameters filled in, as the widget sends it. */
  function WithControllerParams(request: RdmCommand, source: Uid, transaction: uint8): (r: RdmCommand)
    ensures r.source == source && r.transactionNumber == transaction && r.portId == CONTROLLER_PORT_ID
    ensures r.destination == request.destination && r.subDevice == request.subDevice
    ensures r.commandClass == request.commandClass && r.paramId == request.paramId
    ensures r.messageCount == request.messageCount && r.paramData == request.paramData
  {
    request.(source := source, transactionNumber := transaction, portId := CONTROLLER_PORT_ID)
  }

  /** The frame that carries `request`: the broadcast label exactly for broadcast destinations. */
  function RequestFrame(request: RdmCommand, source: Uid, transaction: uint8): (f: Frame)
    requires ValidCommand(request)
    ensures IsRequestLabel(f.msgLabel)
    ensures f.msgLabel == RDM_BCAST_REQUEST_LABEL <==> IsBroadcast(request.destination)
  {
    Frame(if IsBroadcast(request.destination) then RDM_BCAST_REQUEST_LABEL else RDM_REQUEST_LABEL,
          Pack(WithControllerParams(request, source, transaction)))
  }

  /**
   * The payload of a request frame starts with the RDM start code and parses
   * back to the request with only its source, transaction number and port id
   * replaced.
   */
  lemma RequestFramePayload(request: RdmCommand, source: Uid, transaction: uint8)
    requires ValidCommand(request)
    ensures var p := RequestFrame(request, source, transaction).payload;
            && |p| == HEADER_SIZE + |request.paramData| + CHECKSUM_SIZE
            && p[0] == START_CODE
            && Unpack(p).Some?
            && var sent := Unpack(p).value;
            && sent.source == source
            && sent.transactionNumber == transaction
            && sent.portId == CONTROLLER_PORT_ID
            && sent.(source := request.source, transactionNumber := request.transactionNumber,
                     portId := request.portId) == request
  {
    UnpackPack(WithControllerParams(request, source, transaction));
  }

  /** How many of `frames` carry RDM requests. */
  function RequestCount(frames: seq<Frame>): nat
  {
    if frames == [] then 0
    else RequestCount(frames[..|frames| - 1])
         + (if IsRequestLabel(frames[|frames| - 1].msgLabel) then 1 else 0)
  }

  lemma RequestCountAppend(frames: seq<Frame>, f: Frame)
    ensures RequestCount(frames + [f]) == RequestCount(frames) + (if IsRequestLabel(f.msgLabel) then 1 else 0)
  {
    assert (frames + [f])[..|frames|] == frames;
  }

  class DmxterWidget {
    /** The widget's own UID, the source of every request it sends. */
    const uid: Uid
    var transactionNumber: uint8
    /** A unicast request has been sent and its callback has not run yet. */
    var awaitingReply: bool
    /** The UIDs of the last good TOD reply. */
    var uids: set<Uid>
    var hasUidListener: bool
    var written: seq<Frame>
    var completions: seq<Completion>
    var uidDeliveries: seq<set<Uid>>

    /**
     * Every request sent took the next transaction number, and its callback
     * has run exactly once, except for the one still awaiting its reply.
     */
    ghost predicate Valid()
      reads this
    {
      && transactionNumber == RequestCount(written) % 0x100
      && RequestCount(written) == |completions| + (if awaitingReply then 1 else 0)
    }

    constructor (manufacturer: uint16, device: uint32)
      ensures Valid()
      ensures uid == Uid(manufacturer, device)
      ensures transactionNumber == 0 && !awaitingReply
      ensures uids == {} && !hasUidListener
      ensures written == [] && completions == [] && uidDeliveries == []
    {
      uid := Uid(manufacturer, device);
      transactionNumber := 0;
      awaitingReply := false;
      uids := {};
      hasUidListener := false;
      written := [];
      completions := [];
      uidDeliveries := [];
    }

    method SetUidListCallback()
      requires Valid()
      modifies this
      ensures Valid()
      ensures hasUidListener
      ensures transactionNumber == old(transactionNumber) && awaitingReply == old(awaitingReply)
      ensures uids == old(uids) && written == old(written)
      ensures completions == old(completions) && uidDeliveries == old(uidDeliveries)
    {
      hasUidListener := true;
    }

    /**
     * Sends `request`, or refuses it (returning false, changing nothing) while
     * another request awaits its reply or when its parameter data is too long
     * for one RDM message. A broadcast request completes as WasBroadcast at
     * once; a unicast one awaits its reply.
     */
    method SendRequest(request: RdmCommand) returns (accepted: bool)
      requires Valid()
      modifies this
      ensures Valid()
      ensures accepted <==> !old(awaitingReply) && ValidCommand(request)
      ensures !accepted ==> unchanged(this)
      ensures accepted ==> written == old(written) + [RequestFrame(request, uid, old(transactionNumber))]
      ensures accepted ==> transactionNumber == (old(transactionNumber) + 1) % 0x100
      ensures accepted && IsBroadcast(request.destination) ==>
                !awaitingReply && completions == old(completions) + [Completion(WasBroadcast, None)]
      ensures accepted && !IsBroadcast(request.destination) ==>
                awaitingReply && completions == old(completions)
      ensures uids == old(uids) && hasUidListener == old(hasUidListener)
      ensures uidDeliveries == old(uidDeliveries)
    {
      if awaitingReply || !ValidCommand(request) {
        return false;
      }
      var frame := RequestFrame(request, uid, transactionNumber);
      RequestCountAppend(written, frame);
      written := written + [frame];
      transactionNumber := (transactionNumber + 1) % 0x100;
      if IsBroadcast(request.destination) {
        completions := completions + [Completion(WasBroadcast, None)];
      } else {
        awaitingReply := true;
      }
      return true;
    }

    /** Asks the widget for its table of devices; the answer comes back through HandleMessage. */
    method SendTodRequest()
      requires Valid()
      modifies this
      ensures Valid()
      ensures written == old(written) + [Frame(TOD_LABEL, [])]
      ensures transactionNumber == old(transactionNumber) && awaitingReply == old(awaitingReply)
      ensures uids == old(uids) && hasUidListener == old(hasUidListener)
      ensures completions == old(completions) && uidDeliveries == old(uidDeliveries)
    {
      RequestCountAppend(written, Frame(TOD_LABEL, []));
      written := written + [Frame(TOD_LABEL, [])];
    }

    /** Gives the listener, if one is set, the cached UID set again; nothing is sent. */
    method SendUidUpdate()
      requires Valid()
      modifies this
      ensures Valid()
      ensures uidDeliveries == old(uidDeliveries) + (if hasUidListener then [uids] else [])
      ensures transactionNumber == old(transactionNumber) && awaitingReply == old(awaitingReply)
      ensures uids == old(uids) && hasUidListener == old(hasUidListener)
      ensures written == old(written) && completions == old(completions)
    {
      if hasUidListener {
        uidDeliveries := uidDeliveries + [uids];
      }
    }

    /** A frame from the widget: dispatched on its label; replies to broadcasts and unknown labels are dropped. */
    method HandleMessage(msgLabel: uint8, payload: seq<uint8>)
      requires Valid()
      modifies this
      ensures Valid()
      ensures msgLabel == RDM_REQUEST_LABEL && old(awaitingReply) ==>
                !awaitingReply && completions == old(completions) + [ClassifyReply(payload)]
                && uids == old(uids) && uidDeliveries == old(uidDeliveries)
      ensures msgLabel == TOD_LABEL && DecodeTod(payload).Some? ==>
                uids == DecodeTod(payload).value
                && uidDeliveries == old(uidDeliveries) + (if hasUidListener then [uids] else [])
                && awaitingReply == old(awaitingReply) && completions == old(completions)
      ensures (&& !(msgLabel == RDM_REQUEST_LABEL && old(awaitingReply))
               && !(msgLabel == TOD_LABEL && DecodeTod(payload).Some?)) ==> unchanged(this)
      ensures written == old(written) && transactionNumber == old(transactionNumber)
      ensures hasUidListener == old(hasUidListener)
    {
      if msgLabel == RDM_REQUEST_LABEL {
        HandleRdmResponse(payload);
      } else if msgLabel == TOD_LABEL {
        HandleTodResponse(payload);
      }
    }

    /** Runs the pending request's callback, once, with the classified reply; without one the reply is dropped. */
    method HandleRdmResponse(payload: seq<uint8>)
      requires Valid()
      modifies this
      ensures Valid()
      ensures old(awaitingReply) ==>
                !awaitingReply && completions == old(completions) + [ClassifyReply(payload)]
      ensures !old(awaitingReply) ==> unchanged(this)
      ensures written == old(written) && transactionNumber == old(transactionNumber)
      ensures uids == old(uids) && hasUidListener == old(hasUidListener)
      ensures uidDeliveries == old(uidDeliveries)
    {
      if awaitingReply {
        awaitingReply := false;
        completions := completions + [ClassifyReply(payload)];
      }
    }

    /** Replaces the cached UID set with a well-formed TOD reply and tells the listener; a malformed one is ignored. */
    method HandleTodResponse(payload: seq<uint8>)
      requires Valid()
      modifies this
      ensures Valid()
      ensures DecodeTod(payload).None? ==> unchanged(this)
      ensures DecodeTod(payload).Some? ==>
                uids == DecodeTod(payload).value
                && uidDeliveries == old(uidDeliveries) + (if hasUidListener then [uids] else [])
      ensures written == old(written) && transactionNumber == old(transactionNumber)
      ensures awaitingReply == old(awaitingReply) && hasUidListener == old(hasUidListener)
      ensures completions == old(completions)
    {
      match DecodeTod(payload)
      case None =>
      case Some(decoded) =>
        uids := decoded;
        SendUidUpdate();
    }
  }
}
