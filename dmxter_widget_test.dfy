/**
 * The exchanges of the DMXter widget's test fixture, replayed against the
 * session model: each method builds a fresh session, sends what the fixture
 * sends, delivers the reply the fixture's mock widget returns, and promises
 * what the fixture's callbacks check.
 */
module DmxterWidgetScenarios {
  import opened Bytes
  import opened Uids
  import opened Wrappers
  import opened RdmCommands
  import opened DmxterReplies
  import opened DmxterWidgets

  const GET_COMMAND: uint8 := 0x20
  const GET_COMMAND_RESPONSE: uint8 := 0x21

  const SOURCE := Uid(1, 2)
  const DESTINATION := Uid(3, 4)
  const BCAST_DESTINATION := Uid(3, ALL_DEVICES)
  /** The UID the widget under test is constructed with. */
  const NEW_SOURCE := Uid(0x5253, 0x1234_5678)

  const TOD_UID1 := Uid(0x707a, 0xffff_ff00)
  const TOD_UID2 := Uid(0x5252, 0x1234_5678)

  const TOD_REPLY: seq<uint8> := [
    0x70, 0x7a, 0xff, 0xff, 0xff, 0x00,
    0x52, 0x52, 0x12, 0x34, 0x56, 0x78]

  /** A version-0 "ok" reply carrying a GET response with 4 bytes of parameter data. */
  const OK_REPLY: seq<uint8> := [
    0x00, 14,
    0xcc,
    1, 28,
    0x52, 0x53, 0x12, 0x34, 0x56, 0x78,
    0, 3, 0, 0, 0, 4,
    0, 1, 0, 0, 0,
    0x21, 0x1, 0x28, 4,
    0x5a, 0x5a, 0x5a, 0x5a,
    0x04, 0x60]

  const OK_RESPONSE := RdmCommand(NEW_SOURCE, DESTINATION, 0, 1, 0, 0, GET_COMMAND_RESPONSE, 296,
                                  [0x5a, 0x5a, 0x5a, 0x5a])

  /** A GET request for parameter 296 of sub-device 10 on port 1, without parameter data. */
  function GetRequest(source: Uid, destination: Uid, transaction: uint8): (r: RdmCommand)
    ensures ValidCommand(r) && r.commandClass == GET_COMMAND && r.paramData == []
  {
    RdmCommand(destination, source, transaction, 1, 0, 10, GET_COMMAND, 296, [])
  }

  /** Stamping a GET request replaces its source and transaction number and keeps port 1. */
  lemma StampedGetRequest(source: Uid, destination: Uid, transaction: uint8, widget: Uid, counter: uint8)
    ensures RequestFrame(GetRequest(source, destination, transaction), widget, counter)
            == Frame(if IsBroadcast(destination) then RDM_BCAST_REQUEST_LABEL else RDM_REQUEST_LABEL,
                     Pack(GetRequest(widget, destination, counter)))
  {
    assert WithControllerParams(GetRequest(source, destination, transaction), widget, counter)
        == GetRequest(widget, destination, counter);
  }

  /** The TOD reply lists exactly the two UIDs the fixture's listener checks for. */
  lemma TodReplyVector()
    ensures DecodeTod(TOD_REPLY) == Some({TOD_UID1, TOD_UID2})
    ensures |{TOD_UID1, TOD_UID2}| == 2
  {
    assert TOD_REPLY == TodBytes([TOD_UID1, TOD_UID2]);
    DecodeTodOfBytes([TOD_UID1, TOD_UID2]);
    assert Elements([TOD_UID1, TOD_UID2]) == {TOD_UID1, TOD_UID2};
  }

  /** The bytes of the ok reply from the start code through the parameter data. */
  const OK_BODY: seq<uint8> := [
    0xcc, 1, 28,
    0x52, 0x53, 0x12, 0x34, 0x56, 0x78,
    0, 3, 0, 0, 0, 4,
    0, 1, 0, 0, 0,
    0x21, 0x1, 0x28, 4,
    0x5a, 0x5a, 0x5a, 0x5a]

  lemma OkResponseFields()
    ensures Body(OK_RESPONSE)
            == [0xcc, 1, 28] + [0x52, 0x53, 0x12, 0x34, 0x56, 0x78] + [0, 3, 0, 0, 0, 4]
               + [0, 1, 0] + [0, 0] + [0x21] + [0x01, 0x28] + [4] + [0x5a, 0x5a, 0x5a, 0x5a]
  {
    assert UidToBytes(NEW_SOURCE) == [0x52, 0x53, 0x12, 0x34, 0x56, 0x78];
    assert UidToBytes(DESTINATION) == [0, 3, 0, 0, 0, 4];
    assert Uint16ToBytes(0) == [0, 0];
    assert Uint16ToBytes(296) == [0x01, 0x28];
  }

  lemma OkResponseBody()
    ensures Body(OK_RESPONSE) == OK_BODY
  {
    OkResponseFields();
  }

  /** The digit sum of a 16-bit value given by its two bytes. */
  lemma DigitSum16Of(x: uint16, hi: uint8, lo: uint8)
    requires x as int == hi as int * 0x100 + lo as int
    ensures DigitSum16(x) == hi as int + lo as int
  {
  }

  /** The digit sum of a UID whose device id is given by its two 16-bit halves. */
  lemma DigitSumUidOf(u: Uid, hi: uint16, lo: uint16)
    requires u.device as int == hi as int * 0x1_0000 + lo as int
    ensures DigitSumUid(u) == DigitSum16(u.manufacturer) + DigitSum16(hi) + DigitSum16(lo)
  {
    assert u.device / 0x1_0000 == hi && u.device % 0x1_0000 == lo;
  }

  lemma SourceDigitSums()
    ensures DigitSumUid(NEW_SOURCE) == 441
    ensures DigitSumUid(DESTINATION) == 7
  {
    DigitSumUidOf(NEW_SOURCE, 0x1234, 0x5678);
    DigitSum16Of(0x5253, 0x52, 0x53);
    DigitSum16Of(0x1234, 0x12, 0x34);
    DigitSum16Of(0x5678, 0x56, 0x78);
    DigitSumUidOf(DESTINATION, 0, 4);
    DigitSum16Of(3, 0, 3);
    DigitSum16Of(4, 0, 4);
    DigitSum16Of(0, 0, 0);
  }

  lemma OkResponseHeaderSum()
    ensures HeaderSum(OK_RESPONSE)
            == 0xcc + 1 + 28 + DigitSumUid(NEW_SOURCE) + DigitSumUid(DESTINATION)
               + 0 + 1 + 0 + DigitSum16(0) + 0x21 + DigitSum16(296) + 4
  {
  }

  /** The header of the ok reply's message adds up to 760. */
  lemma OkResponseSums()
    ensures HeaderSum(OK_RESPONSE) == 760
  {
    OkResponseHeaderSum();
    SourceDigitSums();
    DigitSum16Of(0, 0, 0);
    DigitSum16Of(296, 1, 40);
  }

  /** The parameter data of the ok reply's message adds up to 360. */
  lemma OkResponseDataSum()
    ensures Sum(OK_RESPONSE.paramData) == 360
  {
    assert OK_RESPONSE.paramData == [0x5a, 0x5a] + [0x5a, 0x5a];
    SumAppend([0x5a, 0x5a], [0x5a, 0x5a]);
  }

  /** The checksum of the ok reply's message is 0x0460. */
  lemma OkResponseChecksum()
    ensures Checksum(Body(OK_RESPONSE)) == 0x0460
  {
    OkResponseSums();
    OkResponseDataSum();
    ChecksumBody(OK_RESPONSE);
  }

  lemma OkResponsePack()
    ensures Pack(OK_RESPONSE) == OK_BODY + [0x04, 0x60]
  {
    OkResponseBody();
    OkResponseChecksum();
    assert Uint16ToBytes(0x0460) == [0x04, 0x60];
  }

  lemma OkReplyLayout()
    ensures OK_REPLY == [0x00, 14] + OK_BODY + [0x04, 0x60]
  {
  }

  /** After the version and status bytes, the ok reply is exactly the wire form of OK_RESPONSE. */
  lemma OkReplyVector()
    ensures OK_REPLY == [VERSION, RC_GOOD_RESPONSE] + Pack(OK_RESPONSE)
  {
    OkResponsePack();
    OkReplyLayout();
    assert [0x00, 14] + OK_BODY + [0x04, 0x60] == [VERSION, RC_GOOD_RESPONSE] + (OK_BODY + [0x04, 0x60]);
  }

  /**
   * The RDM tail of the ok reply: its length byte is 28, i.e. 24 plus the
   * parameter data length 4, and its last two bytes are 0x0460, the sum of
   * the 28 bytes before them.
   */
  lemma OkReplyTail()
    ensures var tail := OK_REPLY[2..];
            && |tail| == 30
            && tail[2] == 28 == HEADER_SIZE + tail[23]
            && tail[23] == 4
            && Checksum(tail[..28]) == 0x0460 == Uint16FromBytes(tail[28..])
  {
    OkReplyVector();
    assert OK_REPLY[2..] == Pack(OK_RESPONSE);
  }

  /** The ok reply completes the request with the 4 parameter bytes 0x5a 0x5a 0x5a 0x5a. */
  lemma OkReplyClassified()
    ensures ClassifyReply(OK_REPLY) == Completion(CompletedOk, Some(OK_RESPONSE))
    ensures ClassifyReply(OK_REPLY).response.value.paramData == [0x5a, 0x5a, 0x5a, 0x5a]
  {
    OkReplyVector();
    OkReplyOfPack(OK_RESPONSE);
  }

  /** testTod: one TOD frame with an empty payload is sent; the listener is run twice with the same two UIDs. */
  method TodScenario() returns (frames: seq<Frame>, counts: seq<nat>, deliveries: seq<set<Uid>>)
    ensures frames == [Frame(TOD_LABEL, [])]
    ensures counts == [0, 1, 2]
    ensures deliveries == [{TOD_UID1, TOD_UID2}, {TOD_UID1, TOD_UID2}]
    ensures forall s | s in deliveries :: |s| == 2 && TOD_UID1 in s && TOD_UID2 in s
  {
    var dmxter := new DmxterWidget(0, 0);
    dmxter.SetUidListCallback();
    counts := [|dmxter.uidDeliveries|];
    dmxter.SendTodRequest();
    TodReplyVector();
    dmxter.HandleMessage(TOD_LABEL, TOD_REPLY);
    counts := counts + [|dmxter.uidDeliveries|];
    dmxter.SendUidUpdate();
    counts := counts + [|dmxter.uidDeliveries|];
    frames, deliveries := dmxter.written, dmxter.uidDeliveries;
  }

  /**
   * testSendRequest: a unicast request goes out under label 0x80 with the
   * widget's UID as source and transaction 0 and completes with the response
   * of the ok reply; a broadcast request goes out under label 0x81 with
   * transaction 1 and completes as WasBroadcast without a response.
   */
  method SendRequestScenario() returns (frames: seq<Frame>, results: seq<Completion>)
    ensures frames == [Frame(RDM_REQUEST_LABEL, Pack(GetRequest(NEW_SOURCE, DESTINATION, 0))),
                       Frame(RDM_BCAST_REQUEST_LABEL, Pack(GetRequest(NEW_SOURCE, BCAST_DESTINATION, 1)))]
    ensures results == [Completion(CompletedOk, Some(OK_RESPONSE)), Completion(WasBroadcast, None)]
    ensures results[0].response.value.paramData == [0x5a, 0x5a, 0x5a, 0x5a]
  {
    OkReplyClassified();
    frames, results := UnicastThenBroadcast(NEW_SOURCE, OK_REPLY);
  }

  /** The exchanges of SendRequestScenario, for a widget UID and a unicast reply given as parameters. */
  method UnicastThenBroadcast(widget: Uid, reply: seq<uint8>) returns (frames: seq<Frame>, results: seq<Completion>)
    ensures frames == [Frame(RDM_REQUEST_LABEL, Pack(GetRequest(widget, DESTINATION, 0))),
                       Frame(RDM_BCAST_REQUEST_LABEL, Pack(GetRequest(widget, BCAST_DESTINATION, 1)))]
    ensures results == [ClassifyReply(reply), Completion(WasBroadcast, None)]
  {
    var dmxter := new DmxterWidget(widget.manufacturer, widget.device);
    StampedGetRequest(SOURCE, DESTINATION, 0, widget, 0);
    StampedGetRequest(SOURCE, BCAST_DESTINATION, 1, widget, 1);
    Exchange(dmxter, GetRequest(SOURCE, DESTINATION, 0), reply);
    ghost var written, completions := dmxter.written, dmxter.completions;
    var accepted := dmxter.SendRequest(GetRequest(SOURCE, BCAST_DESTINATION, 1));
    dmxter.HandleMessage(RDM_BCAST_REQUEST_LABEL, []);
    assert dmxter.written == written + [RequestFrame(GetRequest(SOURCE, BCAST_DESTINATION, 1), widget, 1)];
    frames, results := dmxter.written, dmxter.completions;
  }

  /** A unicast request on an idle session, followed by the widget's reply on the request label. */
  method Exchange(dmxter: DmxterWidget, request: RdmCommand, reply: seq<uint8>)
    requires dmxter.Valid() && !dmxter.awaitingReply
    requires ValidCommand(request) && !IsBroadcast(request.destination)
    modifies dmxter
    ensures dmxter.Valid() && !dmxter.awaitingReply
    ensures dmxter.written
            == old(dmxter.written) + [RequestFrame(request, dmxter.uid, old(dmxter.transactionNumber))]
    ensures dmxter.completions == old(dmxter.completions) + [ClassifyReply(reply)]
    ensures dmxter.transactionNumber == (old(dmxter.transactionNumber) + 1) % 0x100
  {
    var accepted := dmxter.SendRequest(request);
    dmxter.HandleMessage(RDM_REQUEST_LABEL, reply);
  }

  /** One unicast GET request from a widget with UID `widget`, answered by `reply`. */
  method UnicastExchange(widget: Uid, reply: seq<uint8>) returns (frames: seq<Frame>, results: seq<Completion>)
    ensures frames == [Frame(RDM_REQUEST_LABEL, Pack(GetRequest(widget, DESTINATION, 0)))]
    ensures results == [ClassifyReply(reply)]
  {
    var dmxter := new DmxterWidget(widget.manufacturer, widget.device);
    StampedGetRequest(SOURCE, DESTINATION, 0, widget, 0);
    Exchange(dmxter, GetRequest(SOURCE, DESTINATION, 0), reply);
    frames, results := dmxter.written, dmxter.completions;
  }

  /**
   * Two unicast GET requests, built with transaction numbers `t1` and `t2`
   * whatever they are, answered by `first` and `second`: the widget numbers
   * them 0 and 1.
   */
  method TwoUnicastExchanges(widget: Uid, t1: uint8, t2: uint8, first: seq<uint8>, second: seq<uint8>)
    returns (frames: seq<Frame>, results: seq<Completion>)
    ensures frames == [Frame(RDM_REQUEST_LABEL, Pack(GetRequest(widget, DESTINATION, 0))),
                       Frame(RDM_REQUEST_LABEL, Pack(GetRequest(widget, DESTINATION, 1)))]
    ensures results == [ClassifyReply(first), ClassifyReply(second)]
  {
    var dmxter := new DmxterWidget(widget.manufacturer, widget.device);
    StampedGetRequest(SOURCE, DESTINATION, t1, widget, 0);
    StampedGetRequest(SOURCE, DESTINATION, t2, widget, 1);
    Exchange(dmxter, GetRequest(SOURCE, DESTINATION, t1), first);
    Exchange(dmxter, GetRequest(SOURCE, DESTINATION, t2), second);
    frames, results := dmxter.written, dmxter.completions;
  }

  /** testInvalidReponse: a version-0 reply with status 8 ("too short") is an invalid response. */
  method InvalidResponseScenario() returns (frames: seq<Frame>, results: seq<Completion>)
    ensures frames == [Frame(RDM_REQUEST_LABEL, Pack(GetRequest(NEW_SOURCE, DESTINATION, 0)))]
    ensures results == [Completion(InvalidResponse, None)]
  {
    frames, results := UnicastExchange(NEW_SOURCE, [0x00, RC_PACKET_TOO_SHORT]);
  }

  /** testTimeout: a version-0 reply with status 17 is a timeout. */
  method TimeoutScenario() returns (frames: seq<Frame>, results: seq<Completion>)
    ensures frames == [Frame(RDM_REQUEST_LABEL, Pack(GetRequest(NEW_SOURCE, DESTINATION, 0)))]
    ensures results == [Completion(Timeout, None)]
  {
    frames, results := UnicastExchange(NEW_SOURCE, [0x00, RC_TIMED_OUT]);
  }

  /**
   * testErrorConditions: a one-byte reply is invalid; so is a reply of
   * version 1 even though its status byte is the timeout code. The second
   * request, built with transaction 0, goes out with the widget's own
   * transaction number 1.
   */
  method ErrorConditionsScenario() returns (frames: seq<Frame>, results: seq<Completion>)
    ensures frames == [Frame(RDM_REQUEST_LABEL, Pack(GetRequest(NEW_SOURCE, DESTINATION, 0))),
                       Frame(RDM_REQUEST_LABEL, Pack(GetRequest(NEW_SOURCE, DESTINATION, 1)))]
    ensures results == [Completion(InvalidResponse, None), Completion(InvalidResponse, None)]
  {
    frames, results := TwoUnicastExchanges(NEW_SOURCE, 0, 0, [0x00], [0x01, 0x11, 0xcc]);
  }
}
