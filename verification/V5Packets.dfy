/** What MQTT 5 packets decode to, kind by kind: bytes laid out as chapter 3 of MQTT Version 5.0 does are
    read as that packet, with its fields and the properties it keeps. */
module V5Packets {
  import opened Bytes
  import opened Codec
  import opened Decoder
  import opened Encoder
  import opened Packets
  import opened PropertyFields
  import opened PropertyLaws
  import opened RoundTrip
  import opened V5Decoder
  import opened WireFormat
  import Properties
  import VarInt

  /** Properties of the standard that the parser's offsets can hold. */
  predicate Bounded(ps: seq<Property>) {
    forall i :: 0 <= i < |ps| ==> Standard(ps[i]) && InBounds(ps[i])
  }

  /** One property on the wire (section 2.2.2.2). */
  function PropertyBytes(p: Property): bytes
    requires Standard(p)
  {
    match p
    case FixedProp(key, data) => [key] + data
    case TextProp(key, text) => [key] + Text(text)
    case SubIdProp(id) => [11] + Length(id)
    case UserProp(name, value) => [38] + Text(name) + Text(value)
  }

  function PropertyList(ps: seq<Property>): bytes
    requires Bounded(ps)
  {
    if ps == [] then [] else PropertyBytes(ps[0]) + PropertyList(ps[1..])
  }

  /** A property section and what follows it in the packet. */
  function Section(ps: seq<Property>, after: bytes): bytes
    requires Bounded(ps) && |PropertyList(ps)| <= 268435455
  {
    Length(|PropertyList(ps)|) + PropertyList(ps) + after
  }

  /** A packet on the wire. */
  function Framed(first: byte, body: bytes): bytes
    requires |body| <= 268435455
  {
    [first] + Length(|body|) + body
  }

  /** Properties, and the body that holds them with `head` before and `after` behind them, are of a size that can
      be written. */
  predicate Sized(ps: seq<Property>, head: bytes, after: bytes) {
    && Bounded(ps)
    && |PropertyList(ps)| <= 268435455
    && |head + Section(ps, after)| <= 268435455
  }

  lemma {:induction false} ListWritten(ps: seq<Property>)
    requires Bounded(ps)
    ensures Properties.Flatten(RawOfAll(ps)) == PropertyList(ps)
  {
    hide Standard, RawOf, PropertyBytes;
    if ps != [] {
      ListWritten(ps[1..]);
      OneWritten(ps[0]);
      assert RawOfAll(ps)[0] == RawOf(ps[0]) && RawOfAll(ps)[1..] == RawOfAll(ps[1..]);
    }
  }

  lemma OneWritten(p: Property)
    requires Standard(p)
    ensures [RawOf(p).key] + RawOf(p).data == PropertyBytes(p)
  {
    hide EncodeBytesWithLen, Text, VarInt.VarInt, Length;
    match p
    case FixedProp(_, _) =>
    case TextProp(_, text) => TextWritten(text);
    case SubIdProp(id) => LengthWritten(id);
    case UserProp(name, value) =>
      TextWritten(name);
      TextWritten(value);
      assert [38] + (Text(name) + Text(value)) == [38] + Text(name) + Text(value);
  }

  /** Reading a section gives its fields and what follows. */
  lemma SectionRead(ps: seq<Property>, after: bytes, keys: set<byte>, allIds: bool)
    requires Bounded(ps) && |PropertyList(ps)| <= 268435455
    ensures var r := ParseProps(Section(ps, after));
      r.Ok? && r.value.next == after && SetProps(r.value.props, keys, allIds) == Kept(ps, keys, allIds)
  {
    hide Standard, InBounds, RawOfAll, Properties.Gather, SetProps, Kept, Length, VarInt.VarInt, ParseProps,
      Properties.ParseRawProps;
    ListWritten(ps);
    LengthWritten(|PropertyList(ps)|);
    assert SectionOf(ps, after) == Section(ps, after);
    ParsesStandardProperties(ps, after);
    SetsTheFields(ps, keys, allIds);
    ParsedRaw(Section(ps, after));
  }

  lemma ParsedRaw(data: bytes)
    ensures ParseProps(data) == Properties.ParseRawProps(data)
  {
  }

  /** The body of a packet is cut out, and nothing behind it is touched. */
  lemma FramedCut(version: byte, first: byte, body: bytes, rest: bytes)
    requires 2 <= |body| <= 268435455
    ensures Decode(version, Framed(first, body) + rest) == (WithBody(version, first, body), rest)
  {
    hide VarInt.VarInt, VarInt.RemainLength, WithBody, Length;
    LengthWritten(|body|);
    var s := Framed(first, body) + rest;
    assert s[1..] == VarInt.VarInt(|body|) + (body + rest);
    VarInt.ReadsEncoded(|body|, body + rest);
    assert (body + rest)[..|body|] == body;
    assert (body + rest)[|body|..] == rest;
  }

  lemma FramedRead(first: byte, body: bytes, rest: bytes)
    requires 2 <= |body| <= 268435455
    ensures Decode(V5, Framed(first, body) + rest)
            == (match ParseV5(first, body) case Ok(p) => Ok(WithProps(p)) case Err(e) => Err(e), rest)
  {
    hide Decode, Framed, ParseV5;
    FramedCut(V5, first, body, rest);
  }

  lemma TypeOf(kind: byte, flags: byte)
    requires kind <= 15 && flags <= 15
    ensures Shr(16 * kind + flags, 4) == kind
  {
    hide Shr;
    ShrIsDiv(16 * kind + flags, 4);
  }

  lemma SectionLength(ps: seq<Property>, after: bytes)
    requires Bounded(ps) && |PropertyList(ps)| <= 268435455
    ensures |Section(ps, after)| >= 1
  {
  }

  /** What follows a fixed part is found behind it. */
  lemma Behind(head: bytes, tail: bytes, k: nat)
    requires k == |head|
    ensures (head + tail)[k..] == tail && forall i :: 0 <= i < k ==> (head + tail)[i] == head[i]
  {
  }

  lemma WordRead(id: u16, tail: bytes)
    ensures |Word(id) + tail| >= 2 && GetUint16(Word(id) + tail) == id && (Word(id) + tail)[2..] == tail
  {
    assert (Word(id) + tail)[2..] == tail;
  }

  // Kind by kind.

  lemma {:induction false} ConnAckRead(present: bool, code: byte, ps: seq<Property>, rest: bytes)
    requires var head := [Bit(present, 1), code]; Sized(ps, head, [])
    ensures var head := [Bit(present, 1), code];
      Decode(V5, Framed(0x20, head + Section(ps, [])) + rest)
      == (Ok(WithProps(V5Packet(
              ConnAck(present, code), code,
              Kept(ps, {17, 18, 19, 21, 22, 26, 28, 31, 33, 34, 36, 37, 38, 39, 40}, false)))), rest)
  {
    hide Decode, Framed, Section, ParseProps, SetProps, Kept, Bounded, HasBits, Shr, ParseConn5, ParsePublish5,
      ParseAck5, ParseSubscribe5, ParseNames, ParseTopics;
    var head, section := [Bit(present, 1), code], Section(ps, []);
    FramedRead(0x20, head + section, rest);
    TypeOf(2, 0);
    Behind(head, section, 2);
    SectionRead(ps, [], CONN_ACK_PROPS, false);
    ReadsHeader(Bit(present, 1));
    assert CONN_ACK_PROPS == {17, 18, 19, 21, 22, 26, 28, 31, 33, 34, 36, 37, 38, 39, 40};
  }

  /** Packet identifier and reason code. */
  function AckHead(id: u16, code: byte): bytes {
    Word(id) + [code]
  }

  lemma AckRead(kind: byte, flags: byte, id: u16, code: byte, ps: seq<Property>, rest: bytes)
    requires 4 <= kind <= 7 && flags <= 15 && Sized(ps, AckHead(id, code), [])
    ensures Decode(V5, Framed(16 * kind + flags, AckHead(id, code) + Section(ps, [])) + rest)
            == (Ok(WithProps(V5Packet(
                    if kind == 4 then PubAck(id) else if kind == 5 then PubRecv(id)
                    else if kind == 6 then PubRel(id) else PubComp(id), code, Kept(ps, {31, 38}, false)))), rest)
  {
    hide Decode, Framed, Section, ParseProps, SetProps, Kept, Bounded, Shr, ParseConn5, ParsePublish5,
      ParseSubscribe5, ParseNames, ParseTopics;
    var head, section := AckHead(id, code), Section(ps, []);
    FramedRead(16 * kind + flags, head + section, rest);
    TypeOf(kind, flags);
    Behind(head, section, 3);
    SectionRead(ps, [], ACK_PROPS, false);
    assert ACK_PROPS == {31, 38};
  }

  /** PUBACK, PUBREC, PUBREL and PUBCOMP, each as itself. */
  lemma {:induction false} AcksRead(id: u16, code: byte, ps: seq<Property>, rest: bytes)
    requires Sized(ps, AckHead(id, code), [])
    ensures var body := AckHead(id, code) + Section(ps, []); var kept := Kept(ps, {31, 38}, false);
      && Decode(V5, Framed(0x40, body) + rest) == (Ok(WithProps(V5Packet(PubAck(id), code, kept))), rest)
      && Decode(V5, Framed(0x50, body) + rest) == (Ok(WithProps(V5Packet(PubRecv(id), code, kept))), rest)
      && Decode(V5, Framed(0x62, body) + rest) == (Ok(WithProps(V5Packet(PubRel(id), code, kept))), rest)
      && Decode(V5, Framed(0x70, body) + rest) == (Ok(WithProps(V5Packet(PubComp(id), code, kept))), rest)
  {
    hide Decode, Framed, Section, Kept, AckHead, Sized;
    AckRead(4, 0, id, code, ps, rest);
    AckRead(5, 0, id, code, ps, rest);
    AckRead(6, 2, id, code, ps, rest);
    AckRead(7, 0, id, code, ps, rest);
  }

  /** SUBACK with its codes; the codes of UNSUBACK are not looked at. */
  lemma {:induction false} SubAcksRead(id: u16, codes: bytes, ps: seq<Property>, rest: bytes)
    requires Sized(ps, Word(id), codes)
    ensures var body := Word(id) + Section(ps, codes); var kept := Kept(ps, {31, 38}, false);
      && Decode(V5, Framed(0x90, body) + rest) == (Ok(WithProps(V5Packet(SubAck(id, codes), 0, kept))), rest)
      && Decode(V5, Framed(0xB0, body) + rest) == (Ok(WithProps(V5Packet(UnsubAck(id), 0, kept))), rest)
  {
    hide Decode, Framed, Section, ParseProps, SetProps, Kept, Bounded, Shr, GetUint16, ParseConn5,
      ParsePublish5, ParseAck5, ParseSubscribe5, ParseNames, ParseTopics;
    var section := Section(ps, codes);
    FramedRead(0x90, Word(id) + section, rest);
    FramedRead(0xB0, Word(id) + section, rest);
    TypeOf(9, 0);
    TypeOf(11, 0);
    WordRead(id, section);
    SectionRead(ps, codes, ACK_PROPS, false);
    assert ACK_PROPS == {31, 38};
  }

  lemma {:induction false} DisconnectRead(code: byte, ps: seq<Property>, rest: bytes)
    requires Sized(ps, [code], [])
    ensures Decode(V5, Framed(0xE0, [code] + Section(ps, [])) + rest)
            == (Ok(WithProps(V5Packet(Disconnect, code, Kept(ps, {17, 28, 31, 38}, false)))), rest)
  {
    hide Decode, Framed, Section, ParseProps, SetProps, Kept, Bounded, Shr, ParseConn5, ParsePublish5,
      ParseAck5, ParseSubscribe5, ParseNames, ParseTopics;
    SectionLength(ps, []);
    FramedRead(0xE0, [code] + Section(ps, []), rest);
    TypeOf(14, 0);
    Behind([code], Section(ps, []), 1);
    SectionRead(ps, [], DISCONN_PROPS, false);
    assert DISCONN_PROPS == {17, 28, 31, 38};
  }

  lemma {:induction false} AuthRead(code: byte, ps: seq<Property>, rest: bytes)
    requires Sized(ps, [code], [])
    ensures Decode(V5, Framed(0xF0, [code] + Section(ps, [])) + rest)
            == (Ok(WithProps(V5Packet(Auth(code), code, Kept(ps, {21, 22, 31, 38}, false)))), rest)
  {
    hide Decode, Framed, Section, ParseProps, SetProps, Kept, Bounded, Shr, ParseConn5, ParsePublish5,
      ParseAck5, ParseSubscribe5, ParseNames, ParseTopics;
    SectionLength(ps, []);
    FramedRead(0xF0, [code] + Section(ps, []), rest);
    TypeOf(15, 0);
    Behind([code], Section(ps, []), 1);
    SectionRead(ps, [], AUTH_PROPS, false);
    assert AUTH_PROPS == {21, 22, 31, 38};
  }

  /** Topic name and, above level 0, packet identifier. */
  function PublishHead(topic: bytes, qos: byte, id: u16): bytes
    requires |topic| <= 65535
  {
    Text(topic) + if qos > 0 then Word(id) else []
  }

  function PublishFirstByte(dup: bool, qos: byte, retain: bool): byte
    requires qos <= 3
  {
    48 + Bit(dup, 8) + 2 * qos + Bit(retain, 1)
  }

  lemma PublishFlagsRead(dup: bool, qos: byte, retain: bool)
    requires qos <= 3
    ensures var first := PublishFirstByte(dup, qos, retain);
      && Shr(first, 4) == 3 && HasBits(first, 0x08) == dup && BitField(first, 0x06, 1) == qos
      && HasBits(first, 0x01) == retain
  {
    hide Shr, HasBits, BitField;
    ReadsHeader(PublishFirstByte(dup, qos, retain));
  }

  lemma PublishParsed(dup: bool, qos: byte, retain: bool, topic: bytes, id: u16, ps: seq<Property>, payload: bytes)
    requires qos <= 3 && |topic| <= 65535 && Sized(ps, PublishHead(topic, qos, id), payload)
    ensures ParsePublish5(PublishFirstByte(dup, qos, retain), PublishHead(topic, qos, id) + Section(ps, payload))
            == Ok(V5Packet(Publish(dup, qos, retain, topic, if qos > 0 then id else 0, payload), 0,
                           Kept(ps, {1, 2, 3, 8, 9, 11, 35, 38}, true)))
  {
    hide Section, ParseProps, SetProps, Kept, Bounded, HasBits, BitField, GetBinaryData, EncodeBytesWithLen, GetUint16,
      Text, Word, PublishFirstByte, Shr;
    hide PublishHead, PUBLISH_PROPS;
    TopicRead(topic, qos, id, Section(ps, payload));
    PublishFlagsRead(dup, qos, retain);
    SectionRead(ps, payload, PUBLISH_PROPS, true);
    PublishKeys();
  }

  lemma PublishKeys()
    ensures PUBLISH_PROPS == {1, 2, 3, 8, 9, 11, 35, 38}
  {
  }

  lemma TopicRead(topic: bytes, qos: byte, id: u16, section: bytes)
    requires |topic| <= 65535
    ensures var topicRead := GetBinaryData(PublishHead(topic, qos, id) + section);
      && topicRead.Ok? && topicRead.value.data == topic
      && (qos == 0 ==> topicRead.value.next == section)
      && (qos > 0 ==> |topicRead.value.next| >= 2 && GetUint16(topicRead.value.next) == id
                      && topicRead.value.next[2..] == section)
  {
    hide GetBinaryData, EncodeBytesWithLen, GetUint16, Text, Word;
    var next := (if qos > 0 then Word(id) else []) + section;
    TextWritten(topic);
    assert PublishHead(topic, qos, id) + section == Text(topic) + next;
    FieldBack(topic, next);
    WordRead(id, section);
    assert [] + section == section;
  }

  /** PUBLISH keeps every subscription identifier. */
  lemma {:induction false} PublishRead(dup: bool, qos: byte, retain: bool, topic: bytes, id: u16, ps: seq<Property>,
                                       payload: bytes, rest: bytes)
    requires qos <= 3 && |topic| <= 65535 && Sized(ps, PublishHead(topic, qos, id), payload)
    ensures Decode(V5, Framed(48 + Bit(dup, 8) + 2 * qos + Bit(retain, 1),
                              PublishHead(topic, qos, id) + Section(ps, payload)) + rest)
            == (Ok(WithProps(V5Packet(
                    Publish(dup, qos, retain, topic, if qos > 0 then id else 0, payload), 0,
                    Kept(ps, {1, 2, 3, 8, 9, 11, 35, 38}, true)))), rest)
  {
    hide Decode, Framed, Section, Kept, Bounded, Shr, ParsePublish5, ParseConn5, ParseAck5, ParseSubscribe5, ParseNames,
      ParseTopics, ParseProps, SetProps;
    var body := PublishHead(topic, qos, id) + Section(ps, payload);
    PublishParsed(dup, qos, retain, topic, id, ps, payload);
    PublishFlagsRead(dup, qos, retain);
    FramedRead(PublishFirstByte(dup, qos, retain), body, rest);
  }

  /** SUBSCRIBE and UNSUBSCRIBE with their filters. */
  lemma {:induction false} SubscribeRead(id: u16, topics: seq<Topic>, ps: seq<Property>, rest: bytes)
    requires forall t :: t in topics ==> |t.name| <= 65535
    requires Sized(ps, Word(id), Filters(topics))
    ensures Decode(V5, Framed(0x82, Word(id) + Section(ps, Filters(topics))) + rest)
            == (Ok(WithProps(V5Packet(Subscribe(id, topics), 0, Kept(ps, {11, 38}, false)))), rest)
  {
    hide Decode, Framed, Section, ParseProps, SetProps, Kept, Bounded, Shr, GetUint16, Filters,
      SubscribePayload, ParseTopics, ParseConn5, ParsePublish5, ParseAck5, ParseNames;
    var section := Section(ps, Filters(topics));
    FramedRead(0x82, Word(id) + section, rest);
    TypeOf(8, 2);
    WordRead(id, section);
    SectionRead(ps, Filters(topics), SUBSCRIBE_PROPS, false);
    FiltersWritten(topics);
    TopicsBack(topics);
    assert SUBSCRIBE_PROPS == {11, 38};
  }

  lemma {:induction false} UnsubscribeRead(id: u16, names: seq<bytes>, ps: seq<Property>, rest: bytes)
    requires forall n :: n in names ==> |n| <= 65535
    requires Sized(ps, Word(id), Names(names))
    ensures Decode(V5, Framed(0xA2, Word(id) + Section(ps, Names(names))) + rest)
            == (Ok(WithProps(V5Packet(Unsub(id, names), 0, Kept(ps, {38}, false)))), rest)
  {
    hide Decode, Framed, Section, ParseProps, SetProps, Kept, Bounded, Shr, GetUint16, Names, UnsubPayload,
      ParseNames, ParseConn5, ParsePublish5, ParseAck5, ParseSubscribe5, ParseTopics;
    var section := Section(ps, Names(names));
    FramedRead(0xA2, Word(id) + section, rest);
    TypeOf(10, 2);
    WordRead(id, section);
    SectionRead(ps, Names(names), UNSUB_PROPS, false);
    NamesWritten(names);
    NamesBack(names);
    assert UNSUB_PROPS == {38};
  }

  /** Variable header of CONNECT up to its properties. */
  function ConnectHead(p: Packet): bytes
    requires p.Connect? && p.willQos <= 3
  {
    [0, 4, 77, 81, 84, 84, 5, ConnectFlags(p)] + Word(p.keepalive)
  }

  /** Payload of CONNECT as the client reads it: a will has no properties of its own. */
  function ConnectTail(p: Packet): bytes
    requires p.Connect? && Regular(p)
  {
    Text(p.clientId)
    + (if p.isWill then Text(p.willTopic) + Text(p.willMessage) else [])
    + (if p.username != [] then Text(p.username) else [])
    + (if p.password != [] then Text(p.password) else [])
  }

  lemma ConnectTailRead(p: Packet)
    requires p.Connect? && WellFormed(p)
    ensures ParseConnFields(p.isWill, p.username != [], p.password != [], ConnectTail(p))
            == Ok(ConnFields(p.clientId, p.willTopic, p.willMessage, p.username, p.password))
  {
    hide EncodeBytesWithLen, GetBinaryData, OptionalField, Body, Text, ParseConnFields;
    TextWritten(p.clientId);
    TextWritten(p.willTopic);
    TextWritten(p.willMessage);
    TextWritten(p.username);
    TextWritten(p.password);
    assert ConnPayload(p) == ConnectTail(p);
    ConnFieldsBack(p);
  }

  lemma ConnectHeadRead(p: Packet, section: bytes)
    requires p.Connect? && p.willQos <= 3
    ensures var protocol := GetBinaryData(ConnectHead(p) + section);
      && protocol.Ok? && protocol.value.data == PROTOCOL_NAME
      && var next := protocol.value.next;
      && |next| == 4 + |section| && next[0] == 5 && next[1] == ConnectFlags(p)
      && GetUint16(next[2..4]) == p.keepalive && next[4..] == section
  {
    hide GetBinaryData, EncodeBytesWithLen, GetUint16, ConnectFlags, Word;
    var next := [5, ConnectFlags(p)] + (Word(p.keepalive) + section);
    assert EncodeBytesWithLen(PROTOCOL_NAME) == [0, 4] + PROTOCOL_NAME by { NameWritten(); }
    assert ConnectHead(p) + section == EncodeBytesWithLen(PROTOCOL_NAME) + next;
    FieldBack(PROTOCOL_NAME, next);
    WordRead(p.keepalive, section);
    WordRead(p.keepalive, []);
    assert Word(p.keepalive) + [] == Word(p.keepalive) && |Word(p.keepalive)| == 2 by { WordTwo(p.keepalive); }
    assert next[2..4] == Word(p.keepalive) && next[4..] == section;
  }

  lemma NameWritten()
    ensures EncodeBytesWithLen(PROTOCOL_NAME) == [0, 4] + PROTOCOL_NAME
  {
  }

  lemma WordTwo(v: u16)
    ensures Word(v) + [] == Word(v) && |Word(v)| == 2
  {
  }

  /** CONNECT, in that layout. */
  lemma {:induction false} ConnectRead(p: Packet, ps: seq<Property>, rest: bytes)
    requires p.Connect? && WellFormed(p) && Sized(ps, ConnectHead(p), ConnectTail(p))
    ensures Decode(V5, Framed(0x10, ConnectHead(p) + Section(ps, ConnectTail(p))) + rest)
            == (Ok(WithProps(V5Packet(p, 0, Kept(ps, {17, 21, 22, 23, 25, 33, 34, 38, 39}, false)))), rest)
  {
    hide Decode, Framed, Section, ParseProps, SetProps, Kept, Bounded, Shr, HasBits, BitField, GetBinaryData, GetUint16,
      ConnectHead, ConnectTail, ConnectFlags, ParseConnFields, ParsePublish5, ParseAck5, ParseSubscribe5, Flags, Body;
    var section := Section(ps, ConnectTail(p));
    SectionLength(ps, ConnectTail(p));
    ConnectHeadRead(p, section);
    FramedRead(0x10, ConnectHead(p) + section, rest);
    TypeOf(1, 0);
    assert ConnectFlags(p) == Flags(p) by { ConnectFlagsWritten(p); }
    ConnFlagsBack(p);
    SectionRead(ps, ConnectTail(p), CONN_PROPS, false);
    ConnectTailRead(p);
    assert CONN_PROPS == {17, 21, 22, 23, 25, 33, 34, 38, 39};
  }

  /** Payload of CONNECT with a will (section 3.1.3 of MQTT Version 5.0), whose properties come first:
      here there are none, and their length is a zero byte. */
  function WillTail(p: Packet): bytes
    requires p.Connect? && Regular(p)
  {
    Text(p.clientId) + ([0] + (Text(p.willTopic) + (Text(p.willMessage)
    + ((if p.username != [] then Text(p.username) else []) + (if p.password != [] then Text(p.password) else [])))))
  }

  /** The length of the will's properties is taken for half of that of its topic: of a topic of less than
      256 bytes nothing is read. */
  lemma {:induction false} WillMisread(p: Packet, ps: seq<Property>, rest: bytes)
    requires p.Connect? && WellFormed(p) && p.isWill && 0 < |p.willTopic| < 256
    requires Sized(ps, ConnectHead(p), WillTail(p))
    ensures var m := Decode(V5, Framed(0x10, ConnectHead(p) + Section(ps, WillTail(p))) + rest).0;
      m.Ok? ==> m.value.WithProps? && m.value.packet5.packet.Connect? && m.value.packet5.packet.willTopic == []
  {
    hide Decode, Framed, Section, ParseProps, SetProps, Kept, Bounded, Shr, HasBits, BitField, GetBinaryData, GetUint16,
      ConnectHead, WillTail, ConnectFlags, ParseConnFields, ParsePublish5, ParseAck5, ParseSubscribe5, Flags, Body;
    var section := Section(ps, WillTail(p));
    SectionLength(ps, WillTail(p));
    ConnectHeadRead(p, section);
    FramedRead(0x10, ConnectHead(p) + section, rest);
    TypeOf(1, 0);
    assert ConnectFlags(p) == Flags(p) by { ConnectFlagsWritten(p); }
    ConnFlagsBack(p);
    SectionRead(ps, WillTail(p), CONN_PROPS, false);
    WillTailRead(p);
  }

  lemma WillTailRead(p: Packet)
    requires p.Connect? && Regular(p) && p.isWill && |p.willTopic| < 256
    ensures forall user, pass ::
              var r := ParseConnFields(true, user, pass, WillTail(p)); r.Ok? ==> r.value.willTopic == []
  {
    hide EncodeBytesWithLen, Text, GetBinaryData, WillTail;
    var more := Text(p.willMessage)
                + ((if p.username != [] then Text(p.username) else [])
                   + (if p.password != [] then Text(p.password) else []));
    var topic := [0] + (Text(p.willTopic) + more);
    TextWritten(p.clientId);
    FieldBack(p.clientId, topic);
    SmallText(p.willTopic, more);
    EmptyField(topic);
    WillTailParts(p, topic);
  }

  lemma WillTailParts(p: Packet, topic: bytes)
    requires p.Connect? && Regular(p)
    requires topic == [0] + (Text(p.willTopic) + (Text(p.willMessage)
                             + ((if p.username != [] then Text(p.username) else [])
                                + (if p.password != [] then Text(p.password) else []))))
    ensures WillTail(p) == Text(p.clientId) + topic
  {
    hide Text;
  }

  lemma EmptyField(data: bytes)
    requires |data| >= 2 && data[0] == 0 && data[1] == 0
    ensures GetBinaryData(data).Ok? && GetBinaryData(data).value.data == []
  {
  }

  lemma SmallText(data: bytes, more: bytes)
    requires |data| < 256
    ensures var s := [0] + (Text(data) + more); |s| >= 3 && s[0] == 0 && s[1] == 0
  {
  }

  /** A CONNECT of another protocol level is refused by name, in either version. */
  lemma {:induction false} OtherLevelRefused(level: byte, tail: bytes, rest: bytes)
    requires 4 <= |tail| <= 268435448
    ensures var s := Framed(0x10, [0, 4, 77, 81, 84, 84, level] + tail) + rest;
      && (level != 4 ==> Decode(V311, s) == (Err(DecodeNoneV311Packet), rest))
      && (level != 5 ==> Decode(V5, s) == (Err(DecodeNoneV5Packet), rest))
  {
    hide Decode, Framed, Shr, ParsePublish5, ParseAck5, ParseSubscribe5, GetBinaryData, ParseConnFields, ParseProps,
      EncodeBytesWithLen;
    var body := [0, 4, 77, 81, 84, 84, level] + tail;
    FramedRead(0x10, body, rest);
    FramedCut(V311, 0x10, body, rest);
    TypeOf(1, 0);
    NameWritten();
    assert body == EncodeBytesWithLen(PROTOCOL_NAME) + ([level] + tail);
    FieldBack(PROTOCOL_NAME, [level] + tail);
  }

  /** A packet of no known version is refused, if it has a body. */
  lemma {:induction false} UnknownVersionRefused(version: byte, first: byte, body: bytes, rest: bytes)
    requires version != 4 && version != 5 && 2 <= |body| <= 268435455
    ensures Decode(version, Framed(first, body) + rest) == (Err(UnsupportedVersion), rest)
  {
    hide Decode, Framed;
    FramedCut(version, first, body, rest);
  }
}
