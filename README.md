# DMXter RDM engine

A Dafny model of the RDM request/response engine of the Goddard Design
DMXter USB widget from the Open Lighting Architecture (OLA), with proofs of
its properties. The engine's behaviour is the one the widget's test fixture
`plugins/usbpro/DmxterWidgetTest.cpp` pins down with exact byte vectors.

What the model covers:

- **RDM message layout** (`rdm_command.dfy`). This is the layout of ANSI
  E1.20 section 6.2, shared by requests and responses:
  - start code 0xCC and sub-start code 0x01;
  - a message-length byte equal to 24 plus the parameter data length;
  - the destination and source UIDs;
  - the transaction number, the port id (the response type in a response), the message count and the sub-device;
  - the command class, the parameter id, the parameter data length and the parameter data;
  - a big-endian 16-bit additive checksum over every byte before it.

  `Pack` builds this form and `Unpack` parses it. They are proved to be inverses in both directions.
- **UIDs and the table of devices** (`uids.dfy`). A UID is 2 bytes of manufacturer id followed by 4 bytes of device id, both big-endian. A
  TOD reply is a flat run of 6-byte UID records, decoded into a set.
- **Reply classification** (`dmxter_reply.dfy`). The widget's reply to an RDM request is one version byte, one status byte, and then, for status "ok", the RDM response. A reply is classified as follows:
  - a reply shorter than two bytes is invalid;
  - a reply with a non-zero version is invalid, whatever follows;
  - status 17 is the widget's own timeout;
  - status 14 yields the parsed response, or invalid when the RDM tail does not parse;
  - every other status, "too short" (8) among them, is invalid.
- **The widget session** (`dmxter_widget.dfy`). The class `DmxterWidget` holds:
  - the widget's own UID;
  - a one-byte transaction counter;
  - the flag "a unicast request awaits its reply";
  - the cached TOD set and the UID-list listener.

  Its methods behave as follows:
  - `SendRequest` stamps each request with the widget's UID, the current transaction number and port id 1. It packs the request and sends it under label 0x80, or under 0x81 when the destination's device id is 0xffffffff (broadcast). A broadcast completes at once as "was broadcast" without a response. A unicast request waits for the reply frame.
  - `SendTodRequest` sends label 0x82 with an empty payload.
  - A good TOD reply replaces the cached set and is delivered to the listener, if one is set.
  - `SendUidUpdate` re-delivers the cached set without sending anything.

  The invariant `Valid()` ties the fields together:
  - the transaction counter always equals the number of requests sent, modulo 256;
  - every request sent has had its completion reported exactly once, except the one still awaiting its reply.
- **The fixture's exchanges** (`dmxter_widget_test.dfy`). `testTod`, `testSendRequest`, `testInvalidReponse`, `testTimeout` and `testErrorConditions` are replayed against the session. Each scenario method states the frames the fixture's mock expects and the outcomes its callbacks check. The byte vectors are proved to be what their comments say, for example that the ok reply's checksum 0x0460 is the sum of its message bytes.

Transport and callbacks are reduced to values:
- the frames handed to the widget are the sequence `written`;
- a frame from the widget is a call of `HandleMessage(label, payload)`;
- a request callback is an entry appended to `completions`;
- a listener call is an entry appended to `uidDeliveries`.

The implementation file `plugins/usbpro/DmxterWidget.cpp` is not available, so the model is built from the fixture's vectors. Where they leave a choice open, the model adopts these rules:
- The payload of a request frame is the full E1.20 message from the start code 0xCC on, laid out as ANSI E1.20 section 6.2 prescribes. It is the request repacked with the widget's UID as source, the widget's transaction number and port id 1, which is what the fixture expects at lines 209-216. There is no separate controller header in front of it.
- (The model's own choice.) A request submitted while another awaits its reply is refused synchronously: `SendRequest` returns false and changes nothing. So is a request whose parameter data is longer than 231 bytes. A refused request does not use up a transaction number.
- (The model's own choice; the DMXter's status codes are not part of E1.20.) A reply with a status code other than 14 (ok) and 17 (timeout) is invalid. That includes 8 ("too short") and every code the fixture does not show.

## Model

| member | source | states |
|---|---|---|
| Bytes.Uint16ToBytes | plugins/usbpro/DmxterWidgetTest.cpp:225 | a 16-bit field is written as 2 big-endian bytes that read back to the same value |
| Uids.IsBroadcast | plugins/usbpro/DmxterWidgetTest.cpp:189 | a UID is a broadcast destination exactly when its device id is 0xffffffff, whatever its manufacturer id |
| Uids.UidToBytes | plugins/usbpro/DmxterWidgetTest.cpp:155-158 | a UID is written as 6 bytes (manufacturer, then device, big-endian) that read back to the same UID |
| Uids.UidBytesRoundTrip | plugins/usbpro/DmxterWidgetTest.cpp:155-158 | any 6 bytes are the encoding of the UID they decode to |
| Uids.DecodeTod | plugins/usbpro/DmxterWidgetTest.cpp:155-158 | a TOD payload decodes exactly when its length is a whole number of 6-byte records |
| Uids.TodListAt | plugins/usbpro/DmxterWidgetTest.cpp:155-158 | a well-formed TOD payload holds length/6 UIDs, the i-th read from bytes 6i to 6i+5 |
| Uids.TodListOfBytes | plugins/usbpro/DmxterWidgetTest.cpp:155-158 | decoding the records of an encoded UID list gives that list back |
| Uids.TodBytesOfList | plugins/usbpro/DmxterWidgetTest.cpp:155-158 | re-encoding the decoded records of a well-formed TOD payload gives the payload back |
| Uids.DecodeTodOfBytes | plugins/usbpro/DmxterWidgetTest.cpp:84-89 | a widget that lists the UIDs `us` yields exactly the set of `us` |
| Uids.DecodeTodMembership | plugins/usbpro/DmxterWidgetTest.cpp:84-89 | a UID is in the decoded set if and only if some 6-byte record of the payload encodes it |
| RdmCommands.Checksum | plugins/usbpro/DmxterWidgetTest.cpp:227 | the checksum is the byte sum whenever that fits in 16 bits, and in every case differs from it by a multiple of 0x10000 |
| RdmCommands.SumAppend | plugins/usbpro/DmxterWidgetTest.cpp:227 | the additive sum of two byte strings joined is the sum of their sums |
| RdmCommands.SumHeader | plugins/usbpro/DmxterWidgetTest.cpp:220-225 | the byte sum of a message header equals the sum computed field by field |
| RdmCommands.ChecksumBody | plugins/usbpro/DmxterWidgetTest.cpp:219-227 | the checksum of a message is its header's field sum plus its parameter data's sum, modulo 0x10000 |
| RdmCommands.Header | plugins/usbpro/DmxterWidgetTest.cpp:220-225 | the fixed part of a message is 24 bytes long |
| RdmCommands.Pack | plugins/usbpro/DmxterWidgetTest.cpp:218-228 | a message with parameter data of length n is 24 + n + 2 bytes long |
| RdmCommands.PackLayout | plugins/usbpro/DmxterWidgetTest.cpp:219-228 | a packed message starts 0xCC 0x01, its length byte is 24 + PDL, byte 23 is the PDL, and its last two bytes are the big-endian sum of all the bytes before them |
| RdmCommands.Unpack | plugins/usbpro/DmxterWidgetTest.cpp:219-228 | the RDM tail check: a message parses exactly when it has at least 26 bytes, starts 0xCC 0x01, its length byte is 24 plus the PDL byte, it ends right after the 2 checksum bytes, and those are the big-endian checksum of the bytes before them; the parameter data is the bytes between the header and the checksum |
| RdmCommands.UnpackPack | plugins/usbpro/DmxterWidgetTest.cpp:218-228 | parsing a packed message gives back every field |
| RdmCommands.PackUnpack | plugins/usbpro/DmxterWidgetTest.cpp:218-228 | a parsed message is valid and packing it reproduces the input byte for byte |
| RdmCommands.UnpackSucceedsIff | plugins/usbpro/DmxterWidgetTest.cpp:218-228 | parsing succeeds if and only if the bytes are the packed form of some valid message |
| DmxterReplies.ClassifyReply | plugins/usbpro/DmxterWidgetTest.cpp:97-143 | the classification: never "was broadcast"; a response is attached exactly on ok; a short reply or a non-zero version is invalid; timeout exactly for version 0 with status 17; ok exactly for version 0, status 14 and a tail that parses; the response attached repacks to that tail |
| DmxterReplies.OkReplyOfPack | plugins/usbpro/DmxterWidgetTest.cpp:218-241 | a version-0 ok reply carrying the wire form of a response completes ok with exactly that response |
| DmxterReplies.TooShortIsInvalid | plugins/usbpro/DmxterWidgetTest.cpp:315-330 | status 8 ("too short") is an invalid response whatever follows it |
| DmxterWidgets.WithControllerParams | plugins/usbpro/DmxterWidgetTest.cpp:211-216 | the request as sent: source, transaction number and port id replaced by the widget's UID, the given transaction and port 1; destination, message count, sub-device, command class, parameter id and data kept |
| DmxterWidgets.RequestFrame | plugins/usbpro/DmxterWidgetTest.cpp:185-189 | a request goes out under 0x80 or 0x81, and under 0x81 exactly when its destination is a broadcast UID |
| DmxterWidgets.RequestFramePayload | plugins/usbpro/DmxterWidgetTest.cpp:207-216 | the payload starts with 0xCC and parses back to the request with only its source, transaction number and port id replaced by the widget's UID, the counter and port 1 |
| DmxterWidgets.DmxterWidget.Valid | plugins/usbpro/DmxterWidgetTest.cpp:255-260 | the session invariant: the counter equals the number of requests sent modulo 256, and every request sent has been completed exactly once except the one still awaiting its reply |
| DmxterWidgets.DmxterWidget.constructor | plugins/usbpro/DmxterWidgetTest.cpp:192-195 | a new session has the given UID, transaction 0, nothing pending, sent or delivered, and keeps the invariant |
| DmxterWidgets.DmxterWidget.SetUidListCallback | plugins/usbpro/DmxterWidgetTest.cpp:168-169 | installs the UID-list listener and changes nothing else |
| DmxterWidgets.DmxterWidget.SendRequest | plugins/usbpro/DmxterWidgetTest.cpp:238-273 | accepted if and only if nothing is pending and the data fits; a refused request changes nothing; an accepted one appends its frame, stamped with the current counter, and advances the counter modulo 256; a broadcast completes at once as "was broadcast" with no response, a unicast request awaits its reply; the invariant is kept |
| DmxterWidgets.DmxterWidget.SendTodRequest | plugins/usbpro/DmxterWidgetTest.cpp:160-172 | sends one frame, label 0x82 with an empty payload, and changes nothing else |
| DmxterWidgets.DmxterWidget.SendUidUpdate | plugins/usbpro/DmxterWidgetTest.cpp:174-175 | delivers the cached set to the listener again, if one is set, and sends nothing |
| DmxterWidgets.DmxterWidget.HandleMessage | plugins/usbpro/DmxterWidgetTest.cpp:160-166 | a reply on 0x80 completes the pending request once with its classification; a well-formed reply on 0x82 replaces and delivers the UID set; anything else changes nothing |
| DmxterWidgets.DmxterWidget.HandleRdmResponse | plugins/usbpro/DmxterWidgetTest.cpp:230-241 | the pending request's callback runs exactly once, with the classified reply; without a pending request the reply is dropped |
| DmxterWidgets.DmxterWidget.HandleTodResponse | plugins/usbpro/DmxterWidgetTest.cpp:84-91 | a well-formed TOD reply becomes the cached set and is delivered to the listener, if one is set; a malformed one changes nothing |
| DmxterWidgetScenarios.GetRequest | plugins/usbpro/DmxterWidgetTest.cpp:197-206 | the fixture's GET request is valid, has command class GET and carries no parameter data |
| DmxterWidgetScenarios.StampedGetRequest | plugins/usbpro/DmxterWidgetTest.cpp:208-216 | the frame of the fixture's request is the packed GET request with the widget's UID and counter, on the label its destination selects |
| DmxterWidgetScenarios.TodReplyVector | plugins/usbpro/DmxterWidgetTest.cpp:84-89 | the 12-byte TOD reply decodes to a set of exactly two UIDs, 0x707a:0xffffff00 and 0x5252:0x12345678 |
| DmxterWidgetScenarios.OkResponseBody | plugins/usbpro/DmxterWidgetTest.cpp:218-226 | the response the ok reply carries packs to the 28 message bytes of the vector |
| DmxterWidgetScenarios.OkResponseChecksum | plugins/usbpro/DmxterWidgetTest.cpp:227 | the checksum of those 28 bytes is 0x0460 |
| DmxterWidgetScenarios.OkResponsePack | plugins/usbpro/DmxterWidgetTest.cpp:218-228 | the wire form of that response is the 28 bytes followed by 0x04 0x60 |
| DmxterWidgetScenarios.OkReplyVector | plugins/usbpro/DmxterWidgetTest.cpp:218-228 | the ok reply is version 0, status 14, then the wire form of the response |
| DmxterWidgetScenarios.OkReplyTail | plugins/usbpro/DmxterWidgetTest.cpp:219-228 | in the ok reply's tail the length byte is 28 = 24 + PDL 4, and the last two bytes, 0x0460, are the sum of the 28 bytes before them |
| DmxterWidgetScenarios.OkReplyClassified | plugins/usbpro/DmxterWidgetTest.cpp:97-105 | the ok reply completes ok with parameter data exactly 0x5a 0x5a 0x5a 0x5a |
| DmxterWidgetScenarios.TodScenario | plugins/usbpro/DmxterWidgetTest.cpp:149-178 | one TOD frame with an empty payload is sent; the listener count goes 0, 1, 2; both deliveries are the same two-UID set |
| DmxterWidgetScenarios.SendRequestScenario | plugins/usbpro/DmxterWidgetTest.cpp:184-277 | the unicast request goes out on 0x80 with the widget's UID and transaction 0 and completes ok with the 4-byte response; the broadcast goes out on 0x81 with transaction 1 and completes as "was broadcast" with no response |
| DmxterWidgetScenarios.UnicastThenBroadcast | plugins/usbpro/DmxterWidgetTest.cpp:238-273 | for any widget UID and unicast reply: the two frames as above, with outcomes the reply's classification followed by "was broadcast"; the empty 0x81 frame the widget sends back after the broadcast changes nothing |
| DmxterWidgetScenarios.Exchange | plugins/usbpro/DmxterWidgetTest.cpp:230-241 | a unicast request on an idle session followed by the widget's reply appends one frame and one completion, that reply's classification, and advances the counter |
| DmxterWidgetScenarios.UnicastExchange | plugins/usbpro/DmxterWidgetTest.cpp:319-330 | a single exchange from a fresh session sends the packed request with transaction 0 and completes with the reply's classification |
| DmxterWidgetScenarios.TwoUnicastExchanges | plugins/usbpro/DmxterWidgetTest.cpp:430-476 | two requests from a fresh session, built with any transaction numbers t1 and t2 (the fixture builds both with 0), go out numbered 0 and 1, and complete with the classifications of their replies |
| DmxterWidgetScenarios.InvalidResponseScenario | plugins/usbpro/DmxterWidgetTest.cpp:283-333 | the reply 0x00 0x08 completes as an invalid response, with no response |
| DmxterWidgetScenarios.TimeoutScenario | plugins/usbpro/DmxterWidgetTest.cpp:339-389 | the reply 0x00 0x11 completes as a timeout |
| DmxterWidgetScenarios.ErrorConditionsScenario | plugins/usbpro/DmxterWidgetTest.cpp:395-480 | the one-byte reply 0x00 and the reply 0x01 0x11 0xcc (non-zero version, timeout status) both complete as invalid; the second request goes out with transaction 1 |

## Left out

- The USB Pro outer frame (start and end delimiters, little-endian length, frame checksum) is not modelled: it lives in the transport, which is not part of this model. Frames are (label, payload) values.
- The engine's own timeout timer and its race with a late reply are not modelled: they depend on the event loop, and no exchange of the fixture exercises them. A timeout is modelled only as reported by the widget (status 17).
- The event loop (`SelectServer`), the mock widget's expectation queue and `Verify()`, and logging set-up are left out. They are test plumbing, replaced by the `written` and `completions` sequences.
- Widget discovery and hot-plug (`plugins/usbdmx/SunliteWidgetFactory.h`: device added or removed, vendor and product ids) is left out. It has declarations only and enumerates devices through a foreign library.
- Memory ownership (`delete response`, `delete[] expected_packet`) is left out: responses and requests are values.
- Request packing is modelled only as far as the fixture depends on it: the E1.20 layout with the source UID, transaction number and port id rewritten. The library's other packing options are not part of this model.
- DmxterReplies.ClassifyReply: the RDM tail is checked only for its framing (start codes, length byte, exact length, checksum). First, the response type, transaction number and UIDs are not checked against the request: the fixture's ok reply carries response type 1 and still completes ok, and no vector shows any such check. Second, the command class is not checked either, so a well-formed request message sent back as the tail also completes ok. Third, the tail must end exactly at its checksum (`RdmCommands.Unpack` requires the byte count to equal the length byte plus 2), so a reply with trailing bytes after the checksum is invalid. The only vector, at lines 218-228, has no trailing bytes.
- DmxterWidgets.DmxterWidget.HandleMessage: a frame that arrives while a unicast request is pending resolves it only under the request label 0x80. A frame under 0x81 or an unknown label is dropped and the request keeps waiting; it is not resolved as invalid. The fixture dispatches replies by label and never shows a frame under a mismatched label, and without the implementation file no other rule is visible.
- DmxterWidgets.DmxterWidget.HandleTodResponse: a malformed TOD reply (length not a multiple of 6) is modelled as ignored. The cached set is unchanged and nothing is delivered. No vector shows what the implementation does with one.
