# A model of libmqtt in Dafny

libmqtt is an MQTT client for Go that speaks versions 3.1.1 and 5.0. This project models its protocol
core and proves what the core is for: that bytes decode to the packets they were made of, that
messages are delivered exactly once and in order, that identifiers and stores keep count, and that a
lost connection is made again within its limits. `dafny verify dfyconfig.toml` checks everything.

How the parts fit together, one module a file:

- **The codec.** `Bytes` (sixteen-bit words, bit operations on numbers), `Streams` (the reader and the
  writer), `VarInt` (the two length encoders and the length reader), `Packets`, `Encoder`, `Decoder`,
  `Codec` (the stream parser and the receive loop), `RoundTrip`, `WireFormat` (the bytes of every packet
  as the standard gives them), `NormalForm` (taking the normal form twice changes nothing more:
  `NormIdempotent`), `ReceiveLoop` (which packets are handed over).
- **MQTT 5 properties.** `Properties` (the parsers, with the code's sixteen-bit index arithmetic),
  `PropertyLaws` (`IdLoopNeedsTiling` shows a value, which no section delivers, on which the loop over
  subscription identifiers would stand still), `V5Decoder`, `PropertyFields` and `V5Packets` (what the
  standard's bytes of every packet kind are read as), `Subscribe5` (the one MQTT 5 packet whose
  encoding and decoding agree) and `SubscribePairs` (exactly when they do).
- **Allocator and stores.** `IdGenerator`, `Keys`, `MemPersist` (also with interleaved callers),
  `FilePersist`.
- **The session.** `Session` is the client: callers, sending loop and receiving loop over the id table,
  the store and the queues, as a class whose methods are proved against a step function. `Calls` says
  what a call queues, `Notices` what is answered, reported and kept. `ArbitraryPeer`, `Ordering` and
  `PersistAgreement` are about whole runs against a peer that sends anything. `Exchange` composes the
  client with a conforming receiver (sections 4.3.2, 4.3.3 and 4.6 of MQTT Version 3.1.1), which may hold
  its answers back and send each kind of acknowledgement in its own time, and `Asking` ties its messages
  to the calls; `NetState`, `OneToken`, `TokenSteps` and `Pipeline` carry the invariants, and
  `ExactlyOnce`, `Delivery`, `Drain` and `Releases` the results on packets; `Line` puts bytes between the
  two and carries the results over, `Oversize` shows what topics too long do to them, and
  `FirstRequests` and `RecentRequests` discharge what they assume about identifiers.
- **Reconnecting.** `Reconnect`.

Code that changes objects or loops over its input is a class or a method here, proved equal to a
function; the properties are lemmas about that function. What a packet looks like on the wire, what a
call asks for and what a key holds is said a second time, in the standard's and the user's terms, and
the functions are proved to agree with that. A `decode` method, for instance, is tied to a parsing
function, and round trip, unique framing, normal form and the standard's bytes are stated about the
function.

A step of the session is one case of the logic loop, one round of the sending loop or one packet of a
user's call. Packets in the queues carry a label (`Mark`) that says which call they belong to. Nothing
the client does depends on labels; they let the theorems speak of "the message of the third call".

## What the code does that its comments do not say

The model follows the code. Each of these is proved.

- An identifier search that meets a used identifier hands out the one *after* the first free one, so it
  can return an identifier in use, whose entry is overwritten, or 0 with identifiers left
  (`IdGenerator.CollisionReached`, `IdGenerator.ZeroReached`; exactly when, `IdGenerator.NextFreshIff`).
- A topic of more than 65535 bytes is written with sixteen bits of its length, so another packet is read
  than was written (`Line.ReadBackIff`, `Oversize.OversizeReads`), and the peer's answer can complete a
  message it never got (`Oversize.OversizeMisreports`).
- A length field that cannot be read counts as zero, so a lone header byte 0xC0, 0xD0 or 0xE0 is a
  packet (`NormalForm.LoneHeader`).
- Pings carry no version, so they can be taken for the wrong one, which ends the receive loop
  (`Codec.MismatchIff`, `Codec.MismatchEnds`). On an MQTT 5 connection every PINGRESP is. All connections
  of a process share one PINGREQ object, which claims the version of the connection that sent it last,
  and 3.1.1 before any did; whether a PINGREQ received ends the loop depends on that
  (`Codec.PingReqDepends`).
- An MQTT 5 CONNECT with a will is read without the will's properties, so that from the standard's bytes
  an empty topic is read instead of one of less than 256 bytes (`V5Packets.WillMisread`).
- Property texts parse up to 65532 bytes and user pairs up to 65530 together, not to 65535, because
  offsets are computed in sixteen bits (`PropertyLaws.SinglePropertyExact`).
- A V5 SUBSCRIBE with several user properties is written with one key byte for all of them and never
  decodes to itself, nor does one with a key that has no value (`SubscribePairs.SubscribeExact`).
- After a QoS 2 publish completes, a last PUBREL is sent, and sending it stores the key again that
  completion had just removed (`PersistAgreement.CompletionLeavesKeyIff`, `PersistAgreement.StoredOrLeft`).
- Acknowledging a peer's QoS 1 message removes the stored copy of an own publish that is in flight
  under the same identifier (`PersistAgreement.SendingKeepsIff`, `PersistAgreement.InboundKeepsIff`).
- Deleting from the memory store makes no room under its limit (`MemPersist.DeletionMakesNoRoom`).
- Opening a file store counts none of the files in its directory: the walk visits the directory first
  and skips it (`FilePersist.OpeningCounts`). A path that is itself a packet file counts one.
- With interval 0 the file store never reaches its limit (`FilePersist.NoLimitWithoutInterval`), and a
  key stored twice before a flush makes the flush worker call itself for ever
  (`FilePersist.WorkerEndsIff`).
- A connection that was established and then lost is made again even when reconnecting is switched off
  (`Reconnect.ReconnectsUnasked`); a client that is closing starts nothing (`Reconnect.ClosedStops`).

## Model

| member | source | states |
|---|---|---|
| Line.DeliveredOnBytes | client_conn.go:146-191 | With a conforming peer, client and peer reading each other's bytes, under any interleaving and with the peer's answers sent in any order that keeps each kind of acknowledgement in turn: every publish reported as acknowledged is one a call asked for, with that call's number, flags, topic, payload and level; the peer read and accepted exactly that message exactly once, and with QoS 2 released exactly that message exactly once |
| Line.StagesOnBytes | client_conn.go:146-191 | In order: what is reported for QoS 2 is a beginning of what the peer released, that of the QoS 2 messages it accepted, and those are the first messages called for, each what its call asked for; likewise for QoS 1 up to acceptance |
| Line.DrainedOnBytes | client_conn.go:72-329 | When no protocol step is left on a live connection, no bytes are on their way, no identifier is in use, the peer holds nothing, and everything called for, one message for each publish among the user's calls, was read, accepted, released and reported |
| Line.LineRuns | client_conn.go:246-373 | Client and peer that take what the decoder reads from the bytes written do, in every run, what they would do with the packets themselves, also after a write that failed |
| Line.WrittenDecodes | decoder.go:38-221 | In every reachable state decoding all the bytes written gives exactly the packets written, in order |
| Line.ReadBackIff | util.go:137-141 | A call's packet that can be written is read back if and only if its topics have at most 65535 bytes |
| Oversize.OversizeReads | util.go:137-141 | Of a publish with a longer topic exactly this is read: the topic cut, and what was cut off taken for identifier and payload |
| Oversize.OversizeMisreports | client_conn.go:130-145 | With such a topic a run ends with a message reported that was never written |
| ExactlyOnce.StagesInOrder | client_conn.go:146-191 | The stages in order, for packets taken as values |
| ExactlyOnce.ExactlyOnceDelivery | client_conn.go:146-191 | Every QoS 2 publish reported was accepted exactly once and released exactly once; every QoS 1 publish reported was accepted exactly once: for packets whose topics fit, and as long as no identifier is reissued while a packet of an exchange carries it |
| Delivery.ReportedMeansDelivered | client_conn.go:146-191 | A report names topic and level of a message that was called for and carries what that call asked for, and exactly that message was accepted once (and, with QoS 2, released once), for packets taken as values |
| FirstRequests.FirstRequestsDelivered | util.go:85-108 | For a client's first 65535 requests delivery on bytes holds with no assumption about identifiers in use or queued |
| RecentRequests.RecentRequestsDelivered | util.go:85-108 | In runs of any length delivery on bytes holds while every identifier in use or carried by a queued packet was issued within the last 65534 requests, across the restart of the counter |
| FirstRequests.StepLow | util.go:85-108 | While the counter is below 65535 the next identifier is positive, not in use and carried by no queued packet |
| TokenSteps.ServePacket | client_conn.go:257-327 | One packet per exchange: the peer taking any packet keeps exactly one queued packet per identifier, and what table and peer hold is told by how far that packet is |
| TokenSteps.DeliverPacket | client_conn.go:72-191 | The same for the client taking any packet from the peer, or one the peer sends on its own |
| TokenSteps.DeliverFirstComp | client_conn.go:174-191 | The first PUBCOMP of an exchange always finds its own publish waiting under the identifier |
| TokenSteps.DeliverLastComp | client_conn.go:174-191 | The PUBCOMP answering the extra PUBREL never finds the identifier in use |
| Drain.StepDrops | client_conn.go:246-329 | Each send of either side, each packet taken and each delivery leaves less to do, by a measure on the queued packets |
| Drain.ProtocolTerminates | client_conn.go:72-329 | From every reachable state at most that many protocol steps follow each other |
| Drain.DrainedMeansDone | client_conn.go:72-329 | When none is left on a live connection, no identifier is in use, the peer holds nothing, and everything called for was accepted, released and reported, for packets taken as values |
| Releases.AtMostTwoReleases | client_conn.go:146-191 | A publish causes at most two PUBRELs, and two exactly if it is reported |
| Releases.AtMostTwoCompletions | client_conn.go:174-191 | A publish causes at most two PUBCOMPs, one for each PUBREL the peer took |
| ArbitraryPeer.Conservation | client_conn.go:77-191 | Against any peer, with fresh identifiers: identifiers in use are requests registered minus reports; each request is waiting or reported, never both, at most once; the reports are exactly those of the acknowledgements received whose kind and QoS match the request using their identifier, in order |
| ArbitraryPeer.StepsTable | client_conn.go:77-191 | A step changes the table and the reports only by registering a request or by a matching acknowledgement |
| Ordering.AnswersInOrder | client_conn.go:112-129 | In every run the PUBACKs (PUBRECs) written and queued are, in order, the identifiers of the QoS 1 (QoS 2) messages received, and each message was handed over once, in order of arrival |
| Ordering.CallsInOrder | client_async.go:152-226 | The user's packets written are the first ones called for, in call order; with those queued they are all of them, unless one cannot be encoded; each carries what its call asked for, and a running client took every call |
| Asking.CalledAsAsked | client_async.go:152-226 | In every run of client and peer the messages called for are, in order and one for each, those of the publishes among the calls the client took, with the call's flags, topic, payload and level |
| Calls.CallQueues | client_async.go:152-226 | A call queues one packet with what it asked for: of levels above 2 it makes 2, of an identifier given it makes none; an identifier found for it goes to the table, and a publish under it to the store; nothing else changes |
| Calls.PublishesInOrder | client_async.go:152-182 | Publishing several messages queues those present, one by one, in order |
| Notices.AnswersQueued | client_conn.go:112-191 | A message is handed over and answered PUBACK or PUBREC by its level; PUBREC, PUBREL and PUBCOMP are answered PUBREL, PUBCOMP and again PUBREL, only under the identifier of an own QoS 2 message; nothing else is answered |
| Notices.ZeroesReported | client_conn.go:279-284 | In every run the level 0 messages reported are exactly those written, each once, in order, with call number and topic |
| Notices.SubscriptionGranted | client_conn.go:78-98 | A SUBACK under a subscription's identifier reports its topics in order, each at the level its code grants, or as requested where there is no code, and frees the identifier; any other is ignored |
| Notices.UnsubscriptionReported | client_conn.go:99-111 | An UNSUBACK under an unsubscription's identifier reports its names and frees it; any other is ignored |
| Notices.IncomingStored | client_conn.go:112-173 | Messages of level 1 and 2 and answered PUBRELs, and nothing else received, are stored under the receive key as received; a refusal is reported |
| Notices.KeepaliveAndDisconnect | client_conn.go:296-327 | The keepalive writes a PINGREQ, disconnecting a DISCONNECT, after which the client does nothing |
| PersistAgreement.InFlightStored | client_conn.go:308-317 | With a store that never drops and a peer that sends no QoS 1 or 2 messages, every publish in flight is stored, in every reachable state |
| PersistAgreement.StoredExactly | client_conn.go:308-317 | With QoS 0 and 1 publishes only, the stored keys are exactly those of the publishes in flight |
| PersistAgreement.StoredOrLeft | client_conn.go:174-190 | With any mix of levels, a store that never drops, a peer that sends no QoS 1 or 2 messages and fresh identifiers: the stored keys are exactly those of the publishes in flight and of the identifiers under which a PUBREL was sent since a request was last completed under them |
| PersistAgreement.AgreeIff | client_conn.go:308-317 | Stored keys and publishes in flight agree if and only if every identifier left behind is in flight again |
| PersistAgreement.CompletionLeavesKeyIff | client_conn.go:308-311 | From every idle state: a request completed leaves its key behind if and only if it is a QoS 2 publish |
| PersistAgreement.SendingKeepsIff | client_conn.go:308-317 | Sending the next packet of the session logic keeps everything in flight stored if and only if it is no PUBACK or PUBCOMP under an identifier a publish is in flight under |
| PersistAgreement.InboundKeepsIff | client_conn.go:312-314 | From every idle state: taking and answering a message keeps everything in flight stored if and only if it is not one of QoS 1 under such an identifier |
| Keys.KeysDistinct | util.go:48-54 | Keys are equal only for the same direction and identifier |
| Keys.KeyText | util.go:48-54 | A key is the letter of its direction and the identifier in decimal |
| Session.ClientConn.PublishOne | client_async.go:157-181 | One message: QoS clamped to 2, an identifier taken and the packet stored only if one is needed, then queued; the whole new state is that of the step function, which `Calls.CallQueues` tells field by field |
| Session.ClientConn.Publish | client_async.go:152-182 | All messages one by one, missing ones skipped, none when the client is closing |
| Session.ClientConn.Subscribe | client_async.go:185-202 | The packet is registered and queued, with the whole new state |
| Session.ClientConn.Unsubscribe | client_async.go:210-226 | The same for unsubscribing |
| Session.ClientConn.NextId | util.go:85-108 | The table refers to the packet with its identifier set |
| Session.ClientConn.HandleSendUser | client_conn.go:267-295 | One round of the sending loop with a user's packet; QoS 0 is reported when written; a packet that cannot be encoded ends the loop |
| Session.ClientConn.HandleSendLogic | client_conn.go:296-327 | One round with a packet of the session logic, and what it does to the store |
| Session.ClientConn.Logic | client_conn.go:72-195 | One round of the logic loop, every packet kind, with the whole new state |
| Session.ClientConn.OnSubAck | client_conn.go:78-98 | A SUBACK completes a subscription under its identifier, levels replaced by the codes as far as there are any |
| Session.ClientConn.OnUnsubAck | client_conn.go:99-111 | An UNSUBACK completes an unsubscription under its identifier |
| Session.ClientConn.OnPublish | client_conn.go:112-129 | An inbound message is handed over, answered according to its QoS and stored |
| Session.ClientConn.OnPubAck | client_conn.go:130-145 | A PUBACK completes a QoS 1 publish under its identifier |
| Session.ClientConn.OnQos2 | client_conn.go:146-191 | PUBREC, PUBREL and PUBCOMP, each looked up in the table of outbound requests |
| Session.ClientConn.Grant | client_conn.go:86-91 | The loop over the topics sets the levels the codes grant and leaves the others |
| RoundTrip.PacketRoundTrip | decoder.go:38-221 | A well-formed packet of any kind encodes, and decoding its bytes followed by anything gives it back and leaves the rest |
| RoundTrip.StreamRoundTrip | decoder.go:38-221 | Decoding the encodings of a list of packets followed by any bytes gives exactly the list and leaves those bytes |
| RoundTrip.FramingUnique | decoder.go:38-221 | Bytes that are the encoding of n packets and a rest are so in one way only |
| RoundTrip.StreamsInjective | decoder.go:38-221 | Different lists of packets, of any lengths, never encode to the same bytes |
| RoundTrip.ConnBack | decoder.go:84-141 | The connect packet, its flags and its optional fields come back |
| RoundTrip.ConnFlagsBack | pkt_conn.go:149-177 | Each flag bit written is read back where it was put |
| RoundTrip.PublishBack | decoder.go:144-168 | Header bits, topic, identifier and payload of a publish come back |
| RoundTrip.TopicsBack | pkt_sub.go:68-78 | Topic filters with their levels come back in order |
| RoundTrip.NamesBack | pkt_sub.go:252-260 | Topic names to unsubscribe come back in order |
| NormalForm.AcceptedNormalForm | decoder.go:81-221 | Whatever V3.1.1 bytes are accepted, re-encoding the packet succeeds and decoding that gives its normal form |
| NormalForm.NormFixedPoint | pkt_conn.go:108-211 | A packet that was decoded is its own normal form exactly when it is well formed |
| NormalForm.PrefixRejected | decoder.go:38-79 | No proper prefix of the encoding of a packet with a body is accepted; which error is told depends exactly on where it was cut |
| NormalForm.LoneHeader | decoder.go:44-62 | A lone header byte is a packet exactly for PINGREQ, PINGRESP and DISCONNECT |
| NormalForm.ShortestPackets | decoder.go:44-65 | A length of zero makes a ping in both versions and a DISCONNECT in 3.1.1 only; a length of one is refused |
| Codec.DecodeFrom | decoder.go:38-79 | The stream parser is total, in both versions: packet or error and the bytes left, for any input |
| Codec.DecodeConsumes | decoder.go:38-79 | Success takes exactly header, length field and body, at least one byte |
| Codec.HandleNetRecv | client_conn.go:334-373 | The receive loop ends on any finite input, with the result of the loop function, which `ReceiveLoop.HandsOver` tells, whatever is handed over and whatever PINGREQ is marked with at each packet |
| ReceiveLoop.HandsOver | client_conn.go:343-373 | On any input of either version: what the loop hands over is the packets that decode before its end, in order, but for PINGRESPs, which it counts, and those the stop signal came before; and it tells why it ended |
| ReceiveLoop.EveryInput | client_conn.go:343-373 | Every input is packets that decode and then an error or a mismatch, so that the former covers them all |
| ReceiveLoop.StreamHandedOver | client_conn.go:343-373 | Of the bytes of any list of well-formed packets, then anything that does not decode, exactly those packets are handed over, in order |
| Codec.MismatchIff | client_conn.go:354-358 | A packet is taken for another version if and only if it is a PINGRESP on an MQTT 5 connection, or a PINGREQ while the shared object claims another version than the connection's: that of the last sender, 3.1.1 if there was none |
| Codec.MismatchEnds | client_conn.go:354-358 | The receive loop of either version ends with a version mismatch if and only if such a packet comes before anything that does not decode, whatever is handed over |
| Codec.V311NeverMismatches | libmqtt.go:212-225 | A V3.1.1 connection takes no packet for another version as long as only connections of that version send pings |
| Codec.PingReqDepends | pkt_ping.go:21-24 | The bytes of a PINGREQ end an MQTT 5 connection before the process sent a ping on one and are handed on after, and the other way round on a V3.1.1 connection |
| Decoder.DecodeV311Packet | decoder.go:81-221 | Every packet kind, with its loops and error exits, gives what the parsing function says |
| Decoder.DecodeConn | decoder.go:84-141 | The connect branch, field by field |
| Decoder.DecodeTopics | decoder.go:177-194 | The topic loop reads filters until the body is used up or one is cut short |
| Decoder.DecodeNames | decoder.go:203-215 | The name loop of UNSUBSCRIBE |
| V5Decoder.DecodeV5Packet | decoder.go:225-528 | Every MQTT 5 packet kind gives what the parsing function says, with no access out of range; what that is, `V5Packets` tells kind by kind |
| V5Packets.ConnAckRead | decoder.go:300-314 | The bytes of a CONNACK with any properties within the bounds, followed by anything, are read as it, with its code and the properties it keeps |
| V5Packets.PublishRead | decoder.go:315-348 | The same for PUBLISH: flags, topic, identifier, payload, and every subscription identifier |
| V5Packets.AcksRead | decoder.go:349-419 | The same for PUBACK, PUBREC, PUBREL and PUBCOMP, each as itself |
| V5Packets.SubAcksRead | decoder.go:447-498 | The same for SUBACK with its codes, and for UNSUBACK, whose codes are not looked at |
| V5Packets.DisconnectRead | decoder.go:499-511 | The same for DISCONNECT |
| V5Packets.AuthRead | decoder.go:512-524 | The same for AUTH |
| V5Packets.SubscribeRead | decoder.go:420-446 | The same for SUBSCRIBE with its filters |
| V5Packets.UnsubscribeRead | decoder.go:464-485 | The same for UNSUBSCRIBE |
| V5Packets.ConnectRead | decoder.go:228-299 | The same for CONNECT, with the will, if any, where it has no properties of its own |
| V5Packets.WillMisread | decoder.go:267-278 | In the standard's layout, where a will has properties, here none, a topic of less than 256 bytes is read as empty |
| V5Packets.OtherLevelRefused | decoder.go:95-97 | CONNECT of another protocol level is refused by name in either version |
| V5Decoder.SetPublishProps | pkt_pub.go:133-176 | The fields of a publish are set from the raw values present, the identifier loop included |
| V5Decoder.AcceptedReadable | util.go:240-323 | Values of an accepted section are long enough for every fixed-size read that follows |
| Encoder.WriteTo | pkt_conn.go:108-124 | Writing a packet of any kind appends its encoding, whose bytes are those of `WireFormat.WritesTheStandard`, or the first byte and an error when the body is too large; only an empty client id changes the packet |
| WireFormat.WritesTheStandard | libmqtt.go:169-196 | The bytes written are those chapters 2 and 3 of MQTT Version 3.1.1 give for every kind of packet: type and flags, remaining length, header and payload, told without the encoder; exactly bodies over the limit are refused |
| WireFormat.ShortPackets | pkt_pub.go:349-362 | PUBACK, PUBREC, PUBREL, PUBCOMP and UNSUBACK byte by byte, PUBREL with its flag, the identifier's high byte first |
| WireFormat.ConstantPackets | pkt_ping.go:53-66 | CONNACK, pings and DISCONNECT byte by byte |
| WireFormat.ReadsTheStandard | decoder.go:38-221 | These bytes, followed by anything, are read as the packet |
| WireFormat.LengthWritten | util.go:143-163 | The remaining length of one to four bytes, digit by digit |
| Encoder.WriteBase | libmqtt.go:169-196 | First byte, length, header and payload in this order |
| Encoder.ConnFlags | pkt_conn.go:149-177 | The flag byte, and the clean session an empty client id forces |
| Encoder.SubscribePayloadBytes | pkt_sub.go:68-78 | The loop appends each filter and its level |
| Encoder.UnsubPayloadBytes | pkt_sub.go:252-260 | The loop appends each name |
| VarInt.VarIntBytes | util.go:143-163 | The slice encoder gives the encoding of section 2.2.3 of MQTT Version 3.1.1, or an error out of range |
| VarInt.WriteVarInt | util.go:165-186 | The writing encoder gives the same bytes |
| VarInt.EncodesValue | util.go:143-163 | The encoding is complete and its base-128 sum is the number |
| VarInt.EncodesShortest | util.go:143-163 | No complete encoding of the number is shorter |
| VarInt.EncodedLength | util.go:143-163 | One to four bytes, with the thresholds of the standard |
| VarInt.GetRemainLength | util.go:211-226 | Value, bytes reported and bytes left for any input, five bytes being reported after four that continue |
| VarInt.ReadStep | util.go:211-226 | Or-ing in a shifted group of seven bits extends the base-128 sum |
| VarInt.ReadsEncoded | util.go:211-226 | Reading an encoding and anything after it gives the number, its size and the rest |
| VarInt.CutShort | util.go:211-226 | An encoding cut short is not read |
| Properties.GetRawProps | util.go:240-323 | The parsing loop gives per key the concatenated values, in order, and the bytes after the section, or an error; the layout of each property is that of `PropertyLaws.KnowsTheTable` |
| PropertyLaws.KnowsTheTable | util.go:252-311 | The parser knows exactly the properties of section 2.2.2.2 of MQTT Version 5.0, each with the layout it has there |
| PropertyLaws.CutPairRead | util.go:325-334 | A user property cut short after its key has an empty value |
| PropertyFields.SetsTheFields | pkt_conn.go:508-570 | Whatever keys a packet knows, the fields set from any list of the standard's properties are: numbers read big-endian, texts, and of several only the first; bytes only when alone; identifiers and user properties in order |
| Properties.GetUserProps | util.go:325-334 | The loop builds the multimap of the pairs read, values of a key in order |
| Properties.MultimapAppend | libmqtt.go:112-119 | Adding a pair appends its value to those of its key and leaves the others |
| Properties.GetSubIds | pkt_pub.go:162-169 | The loop ends, with the value of each length in the row |
| PropertyLaws.ParsesStandardProperties | util.go:240-323 | Any list of properties of section 2.2.2 of MQTT Version 5.0 within the bounds parses to its values by key, and what follows is the payload |
| PropertyLaws.SinglePropertyExact | util.go:255-300 | One property comes back if and only if it is within the bounds |
| PropertyLaws.UserPropertiesBack | util.go:325-334 | The user properties of a list, wherever they stand in it, come back as its multimap |
| PropertyLaws.AcceptedSectionTiles | util.go:240-323 | On every input accepted, the chunks tile the section without gap or overlap, and length, chunks and payload make up the input |
| PropertyLaws.SubIdsOfAccepted | pkt_pub.go:162-169 | The identifier loop ends on every accepted section, with one identifier for each non-empty chunk |
| Subscribe5.WriteSubscribe5 | pkt_sub.go:51-66 | The bytes written, or the first byte and an error |
| Subscribe5.SubscribePropsBytes | pkt_sub.go:87-104 | Identifier and user properties are appended to the section |
| Subscribe5.EncodeUserProps | libmqtt.go:137-145 | The loops append the pairs of all keys, in the order the map is visited |
| Subscribe5.SubscribeRoundTrip | pkt_sub.go:51-119 | Any identifier up to 268435455, no user properties or a single pair within the bounds, any filters: decoding gives back what was written, but for keys without a value |
| SubscribePairs.SubscribeExact | pkt_sub.go:51-119 | What was written comes back if and only if there is at most one pair and every key has a value |
| SubscribePairs.PairsSum | util.go:325-334 | The pairs read from any bytes are worth no more, summed byte by byte, than those bytes |
| Subscribe5.SubscribeRejectedIff | pkt_sub.go:51-119 | For keys below 256 bytes it is rejected if and only if there are several pairs, or keys but no pair and the lengths then read from the filters do not come round to an empty pair |
| Subscribe5.ListingMakesMap | libmqtt.go:137-145 | Whatever order the keys are visited in, the pairs make up the map again, but for keys without a value |
| IdGenerator.IdGenerator.Allocate | util.go:85-108 | The search, with its sixteen-bit identifiers and 32-bit counter, does what the allocation function says |
| IdGenerator.NextFreshIff | util.go:85-108 | An allocation is positive and unused exactly when its candidate is free, or the identifier after the first free one is free and not zero |
| IdGenerator.AnyTableReached | util.go:85-115 | After 65535 allocations and the right releases any set of identifiers is the one in use |
| IdGenerator.CollisionReached | util.go:93-101 | A run whose next request gets an identifier in use, so that what was in flight under it is overwritten |
| IdGenerator.ZeroReached | util.go:93-101 | A run whose next request gets 0 though an identifier is left |
| IdGenerator.AllocationsCycle | util.go:85-108 | While every identifier in use was issued within the last 65534 calls, the k-th is ((k-1) mod 65535)+1, across the reset of the counter, and never in use |
| IdGenerator.FirstRound | util.go:85-108 | With nothing freed the first 65535 calls give 1 to 65535 |
| IdGenerator.ThenExhausted | util.go:85-108 | After that every call returns 0 and leaves the table as it is, through any number of wraps |
| IdGenerator.NextWhenExhausted | util.go:93-101 | The same for one call from any state with a full table |
| MemPersist.MemPersist.StoreKey | persist.go:138-156 | Check, insert, count or replace, with the whole new state |
| MemPersist.MemPersist.Destroy | persist.go:197-203 | The entries go, the counter stays |
| MemPersist.RunRemembers | persist.go:138-194 | Through any operations a store without a limit holds under each key what was stored there last, or first if it does not replace, since the key was last free |
| MemPersist.RefusedIff | persist.go:143-148 | Under a limit a store is refused exactly when the counter has reached it, and then changes nothing; otherwise it does what it does without a limit |
| MemPersist.AloneStores | persist.go:138-156 | A thread in the three steps of storing, with no other between, does what a single caller does |
| MemPersist.RunCounted | persist.go:138-194 | One caller at a time: entries <= counter <= limit through any stores, deletions and wipes |
| MemPersist.ConcurrentBound | persist.go:138-156 | With T threads in the three steps of storing, in any interleaving: counter and entries never exceed limit - 1 + T |
| MemPersist.BoundAttained | persist.go:138-156 | For every T some run gets there |
| FilePersist.FilePersist.StoreKey | persist.go:261-291 | What is buffered or written, counted, dropped or skipped, and when a worker is started |
| FilePersist.RunTouches | persist.go:261-291 | Without a limit each key fares, on disk and in the buffer, as if it were the only one, through any stores and flushes, with an interval or without |
| FilePersist.LastOneLoads | persist.go:261-305 | With replacing, what was stored last under a key loads as it was stored after the next flush, or at once without an interval |
| FilePersist.DroppedIff | persist.go:266-270 | A packet is dropped exactly when files and buffer together have reached the limit, and then nothing changes; otherwise it fares as without a limit |
| FilePersist.FilePersist.constructor | persist.go:213-239 | The count starts at zero for any directory and where there is nothing, and at one for a file or link whose own name ends like a packet's |
| FilePersist.OpeningCounts | persist.go:227-236 | The walk counts nothing in a directory, so the count is that of the packet files there if and only if there are none at any depth |
| FilePersist.FilePersist.FlushRound | persist.go:392-415 | Writing the buffered packets in any order gives the same disk |
| FilePersist.RunConserves | persist.go:261-291 | With an interval, files counted plus packets buffered are the initial count plus what was accepted, through any stores and flushes |
| FilePersist.RunWithinLimit | persist.go:261-291 | So the limit is kept when dropping: files and buffered packets together never exceed it by more than the files that were there at the start |
| FilePersist.NoLimitWithoutInterval | persist.go:261-291 | Without an interval nothing is ever dropped |
| FilePersist.FlushedPacketsLoad | persist.go:294-305 | Well-formed packets under new, distinct keys: after the flush nothing is buffered and each loads as it was stored |
| FilePersist.WorkerEndsIff | persist.go:392-415 | The worker comes to an end, after one round, if and only if the keys stored differ; otherwise it calls itself for ever |
| Reconnect.Connect | client_conn_options.go:90-235 | Handler calls and next attempt for every way an attempt can go, both only for a client that is not closing |
| Reconnect.HandlerTold | client_conn_options.go:104-207 | Which code the handler is told if and only if what happened: 255 of failures without an answer, otherwise the server's code, and nothing of a compromise or by a closing client |
| Reconnect.NextAttemptIff | client_conn_options.go:104-234 | Whether there is a next attempt, if and only if, and its version and delay |
| Reconnect.KeepsTrying | client_conn_options.go:206-234 | With reconnecting on, attempts follow each other for as long as nobody closes or leaves |
| Reconnect.WithBackoffStrategy | client_options.go:207-226 | The first delay is at least a millisecond, the largest at least the first, the factor at least one; settings within range are kept as given |
| Reconnect.ReconnectsUnasked | client_conn_options.go:206-234 | With reconnecting off there is a next attempt if and only if the version fell back on a client not closing by then, or a connection was established and lost with the client neither closing nor leaving and the pause not cut |
| Reconnect.ChainBounds | client_conn_options.go:222-234 | Along any chain delays stay between first and largest and never go down; the version never goes up |
| Reconnect.VersionFallsOnce | client_conn_options.go:166-183 | The version falls at most once in a chain |
| Reconnect.ReachesMaxIff | client_conn_options.go:222-234 | Pausing again and again reaches the largest delay exactly when it is the first or the first pause lengthens it |
| Reconnect.ChainReachesMax | client_conn_options.go:222-234 | In that case every chain of more than largest - first events waits the largest delay |

## Left out

- Sockets, TLS, WebSocket, `bufio` flushing, contexts and goroutine lifetimes: queues are first-in first-out and stopping is a flag.
- Keepalive timing; a keepalive request can be queued at any time.
- ExactlyOnce.ExactlyOnceDelivery: assumes that topics have at most 65535 bytes (`Line.ReadBackIff` says what happens otherwise), that users leave packet identifiers to the client and that none is reissued while a packet of an exchange carries it, because the allocator alone does not ensure it; the latter is proved for the first 65535 requests, and for any number of them while identifiers in use or queued are recent.
- Receivers that send PUBCOMPs in another order than they made them: section 4.6 orders PUBACKs and PUBRECs only, and reports in order of release need all three.
- ArbitraryPeer.Conservation: assumes fresh identifiers; when an allocation is fresh is `IdGenerator.NextFreshIff`.
- Subscribe5.SubscribeRejectedIff: with keys of 256 bytes or more the second pair's length can read as a property key, so what does not come back need not be rejected.
- FilePersist.FlushedPacketsLoad: takes the file name of a key to be unique and every write to succeed.
- Exactly-once delivery in the inbound direction: the client looks inbound PUBRELs up among its own requests and does not filter duplicates, so there is no such contract; `recvKey` entries are stored but their removal is not modelled beyond that.
- Sessions over several connections, and other clients of the process, whose pings mark the shared PINGREQ object; the theorems are about one V3.1.1 connection, each case of the logic loop and each publish taken as one step.
- V5Packets.ConnectRead: a will with properties is read as something else or refused; which, is proved only for wills without properties.
- MQTT 5 encoding other than SUBSCRIBE, and `propertySet`: it only appends to keys already present, so those encodings carry no properties and do not round trip.
- The bytes behind a body in the decoder's buffer: a body is taken to end where its slice can be extended to.
- Updating a packet in place where it is shared: setting an identifier, the clean session flag or granted levels gives a new value here, which the id table or the caller then holds.
- Concurrent calls of the id generator, whose counter reset is not atomic; `filePersist.Delete` and failing file operations; iterating over a store (`Range`).
- Floating point: the backoff factor is a fraction and delays are rounded down.
- Routers, handlers, logging, option setters other than the backoff strategy, the command line client and the C and Java bindings.
