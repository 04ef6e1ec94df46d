/** Reading MQTT 5 packets out of a body of known length. */
module V5Decoder {
  import opened Bytes
  import opened Decoder
  import opened Packets
  import opened Properties
  import PropertyLaws
  import VarInt

  /** A property field of a packet struct; a field that was not set is absent. */
  datatype PropValue =
    | Number(n: nat)
    | Flag(b: bool)
    | Data(data: bytes)
    | Users(users: UserProps)
    | Ids(ids: seq<nat>)

  type Props = map<byte, PropValue>

  /** An MQTT 5 packet: the fields it shares with V3.1.1, its reason code and its properties. */
  datatype V5Packet = V5Packet(packet: Packet, code: byte, props: Props)

  // The properties each kind of packet picks out of its section.

  const CONN_PROPS: set<byte> := {SESSION_EXPIRY_INTERVAL, MAX_RECV, MAX_PACKET_SIZE, MAX_TOPIC_ALIAS, REQ_RESP_INFO,
                                  REQ_PROBLEM_INFO, USER_PROPS, AUTH_METHOD, AUTH_DATA}
  const CONN_ACK_PROPS: set<byte> := {SESSION_EXPIRY_INTERVAL, MAX_RECV, MAX_QOS, RETAIN_AVAIL, MAX_PACKET_SIZE,
                                      ASSIGNED_CLIENT_ID, MAX_TOPIC_ALIAS, REASON_STRING, USER_PROPS,
                                      WILDCARD_SUB_AVAIL, SERVER_KEEPALIVE, RESP_INFO, SERVER_REF, AUTH_METHOD,
                                      AUTH_DATA}
  const PUBLISH_PROPS: set<byte> := {PAYLOAD_FORMAT_INDICATOR, MESSAGE_EXPIRY_INTERVAL, TOPIC_ALIAS, RESP_TOPIC,
                                     CORRELATION_DATA, USER_PROPS, SUB_ID, CONTENT_TYPE}
  const ACK_PROPS: set<byte> := {REASON_STRING, USER_PROPS}
  const SUBSCRIBE_PROPS: set<byte> := {SUB_ID, USER_PROPS}
  const UNSUB_PROPS: set<byte> := {USER_PROPS}
  const DISCONN_PROPS: set<byte> := {SESSION_EXPIRY_INTERVAL, REASON_STRING, USER_PROPS, SERVER_REF}
  const AUTH_PROPS: set<byte> := {AUTH_METHOD, AUTH_DATA, REASON_STRING, USER_PROPS}

  /** Raw values as the parser leaves them: long enough for the reads below. */
  predicate Readable(raw: map<byte, bytes>) {
    forall k :: k in raw ==> ReadableValue(k, raw[k])
  }

  predicate ReadableValue(key: byte, v: bytes) {
    match KindOf(key)
    case Fixed(size) => |v| >= size
    case Length => Lengths(v)
    case _ => true
  }

  /** The field a raw value sets, if any. Values of one byte count only when there is exactly
      one; a malformed text reads as empty. Only publish packets keep several identifiers. */
  function ReadValue(key: byte, v: bytes, allIds: bool): Option<PropValue>
    requires ReadableValue(key, v)
  {
    match KindOf(key)
    case Fixed(1) =>
      if |v| != 1 then None
      else if key == PAYLOAD_FORMAT_INDICATOR || key == MAX_QOS then Some(Number(v[0]))
      else Some(Flag(v[0] == 1))
    case Fixed(2) => Some(Number(GetUint16(v)))
    case Fixed(4) => Some(Number(GetUint32(v)))
    case Text =>
      var field := GetBinaryData(v);
      Some(Data(if field.Ok? then field.value.data else []))
    case Length => Some(if allIds then Ids(LengthsIn(v)) else Number(VarInt.RemainLength(v).length))
    case Pair => Some(Users(Multimap(PairsOf(v))))
    case _ => None
  }

  /** What `setProps` does to fresh properties, for a packet that knows `keys`. */
  function SetProps(raw: map<byte, bytes>, keys: set<byte>, allIds: bool): Props
    requires Readable(raw)
  {
    map k | k in keys && k in raw && ReadValue(k, raw[k], allIds).Some? :: ReadValue(k, raw[k], allIds).value
  }

  /** Property section and the rest, with the values known to be readable. */
  function ParseProps(data: bytes): (r: Result<RawProps>)
    ensures r.Ok? ==> Readable(r.value.props)
  {
    var r := ParseRawProps(data);
    assert r.Ok? ==> Readable(r.value.props) by {
      if r.Ok? {
        AcceptedReadable(data);
      }
    }
    r
  }

  lemma {:induction false} AcceptedReadable(data: bytes)
    requires ParseRawProps(data).Ok?
    ensures Readable(ParseRawProps(data).value.props)
  {
    hide KindOf, Split, Gather;
    PropertyLaws.AcceptedSectionTiles(data);
    var chunks := Section(data).value;
    forall k | k in Gather(chunks) ensures ReadableValue(k, Gather(chunks)[k]) {
      GatherAt(chunks, k);
      PropertyLaws.KnowsTheTable(k);
      var i :| 0 <= i < |chunks| && chunks[i].key == k;
      if KindOf(k) == Length {
        OnlyIdsAreLengths(k);
        PropertyLaws.IdLoop(chunks);
      } else {
        ValueCovers(chunks, i);
        assert PropertyLaws.Shaped(chunks[i], i == |chunks| - 1);
      }
    }
  }

  lemma GatherAt(chunks: seq<Chunk>, k: byte)
    requires k in Gather(chunks)
    ensures Gather(chunks)[k] == ValuesOf(chunks, k)
    ensures exists i :: 0 <= i < |chunks| && chunks[i].key == k
  {
  }

  lemma OnlyIdsAreLengths(key: byte)
    requires KindOf(key) == Length
    ensures key == SUB_ID
  {
  }

  lemma {:induction false} ValueCovers(chunks: seq<Chunk>, i: nat)
    requires i < |chunks|
    ensures |ValuesOf(chunks, chunks[i].key)| >= |chunks[i].data|
  {
    if i > 0 {
      ValueCovers(chunks[1..], i - 1);
    }
  }

  function ParseConn5(body: bytes): Result<V5Packet> {
    var protocol :- GetBinaryData(body);
    var head := protocol.next;
    if |head| < 5 then Err(DecodeBadPacket)
    else if head[0] != V5 then Err(DecodeNoneV5Packet)
    else
      var flags := head[1];
      var isWill := HasBits(flags, 0x04);
      var props :- ParseProps(head[4..]);
      var fields :- ParseConnFields(isWill, HasBits(flags, 0x80), HasBits(flags, 0x40), props.next);
      Ok(V5Packet(
           Connect(protocol.data, HasBits(flags, 0x02), isWill, BitField(flags, 0x18, 3), HasBits(flags, 0x20),
                   GetUint16(head[2..4]), fields.clientId, fields.willTopic, fields.willMessage,
                   fields.username, fields.password),
           0, SetProps(props.props, CONN_PROPS, false)))
  }

  function ParsePublish5(header: byte, body: bytes): Result<V5Packet> {
    var topic :- GetBinaryData(body);
    var qos := BitField(header, 0x06, 1);
    if qos > 0 && |topic.next| < 2 then Err(DecodeBadPacket)
    else
      var id := if qos > 0 then GetUint16(topic.next) else 0;
      var props :- ParseProps(if qos > 0 then topic.next[2..] else topic.next);
      Ok(V5Packet(Publish(HasBits(header, 0x08), qos, HasBits(header, 0x01), topic.data, id, props.next),
                  0, SetProps(props.props, PUBLISH_PROPS, true)))
  }

  function AckPacket(kind: nat, id: u16): Packet {
    if kind == CTRL_PUB_ACK then PubAck(id)
    else if kind == CTRL_PUB_RECV then PubRecv(id)
    else if kind == CTRL_PUB_REL then PubRel(id)
    else PubComp(id)
  }

  /** Packet id, reason code and properties. */
  function ParseAck5(kind: nat, body: bytes): Result<V5Packet>
    requires |body| >= 2
  {
    if |body| < 3 then Err(DecodeBadPacket)
    else
      var props :- ParseProps(body[3..]);
      Ok(V5Packet(AckPacket(kind, GetUint16(body)), body[2], SetProps(props.props, ACK_PROPS, false)))
  }

  /** The packet a header byte and a body of at least two bytes stand for. */
  function ParseV5(header: byte, body: bytes): Result<V5Packet>
    requires |body| >= 2
  {
    var kind := Shr(header, 4);
    if kind == CTRL_CONN then ParseConn5(body)
    else if kind == CTRL_CONN_ACK then
      var props :- ParseProps(body[2..]);
      Ok(V5Packet(ConnAck(HasBits(body[0], 0x01), body[1]), body[1], SetProps(props.props, CONN_ACK_PROPS, false)))
    else if kind == CTRL_PUBLISH then ParsePublish5(header, body)
    else if CTRL_PUB_ACK <= kind <= CTRL_PUB_COMP then ParseAck5(kind, body)
    else if kind == CTRL_SUBSCRIBE then ParseSubscribe5(body)
    else if kind == CTRL_SUB_ACK then
      var props :- ParseProps(body[2..]);
      Ok(V5Packet(SubAck(GetUint16(body), props.next), 0, SetProps(props.props, ACK_PROPS, false)))
    else if kind == CTRL_UN_SUB then
      var props :- ParseProps(body[2..]);
      var names :- ParseNames(props.next);
      Ok(V5Packet(Unsub(GetUint16(body), names), 0, SetProps(props.props, UNSUB_PROPS, false)))
    else if kind == CTRL_UN_SUB_ACK then
      var props :- ParseProps(body[2..]);
      Ok(V5Packet(UnsubAck(GetUint16(body)), 0, SetProps(props.props, ACK_PROPS, false)))
    else if kind == CTRL_DIS_CONN then
      var props :- ParseProps(body[1..]);
      Ok(V5Packet(Disconnect, body[0], SetProps(props.props, DISCONN_PROPS, false)))
    else if kind == CTRL_AUTH then
      var props :- ParseProps(body[1..]);
      Ok(V5Packet(Auth(body[0]), body[0], SetProps(props.props, AUTH_PROPS, false)))
    else Err(DecodeBadPacket)
  }

  function ParseSubscribe5(body: bytes): Result<V5Packet>
    requires |body| >= 2
  {
    var props :- ParseProps(body[2..]);
    var topics :- ParseTopics(props.next);
    Ok(V5Packet(Subscribe(GetUint16(body), topics), 0, SetProps(props.props, SUBSCRIBE_PROPS, false)))
  }

  // The decoding procedure.

  /** Sets one field, if the packet has a usable value for it. */
  function Assign(props: Props, raw: map<byte, bytes>, key: byte, allIds: bool): Props
    requires Readable(raw)
  {
    if key in raw && ReadValue(key, raw[key], allIds).Some?
    then props[key := ReadValue(key, raw[key], allIds).value]
    else props
  }

  lemma AssignStep(raw: map<byte, bytes>, keys: set<byte>, key: byte, allIds: bool)
    requires Readable(raw) && key !in keys
    ensures SetProps(raw, keys + {key}, allIds) == Assign(SetProps(raw, keys, allIds), raw, key, allIds)
  {
    hide KindOf, ReadValue;
  }

  lemma ReadsSubIds(v: bytes)
    requires Lengths(v)
    ensures ReadableValue(SUB_ID, v) && ReadValue(SUB_ID, v, true) == Some(Ids(LengthsIn(v)))
  {
  }

  /** Fills the properties of a publish packet, field by field. */
  method SetPublishProps(raw: map<byte, bytes>) returns (props: Props)
    requires Readable(raw)
    ensures props == SetProps(raw, PUBLISH_PROPS, true)
  {
    hide KindOf, ReadValue, SetProps, LengthsIn;
    ghost var keys: set<byte> := {};
    props := map[];
    assert props == SetProps(raw, keys, true) by {
      NoKeys(raw);
    }
    props := Assign(props, raw, PAYLOAD_FORMAT_INDICATOR, true);
    AssignStep(raw, keys, PAYLOAD_FORMAT_INDICATOR, true);
    keys := keys + {PAYLOAD_FORMAT_INDICATOR};
    props := Assign(props, raw, MESSAGE_EXPIRY_INTERVAL, true);
    AssignStep(raw, keys, MESSAGE_EXPIRY_INTERVAL, true);
    keys := keys + {MESSAGE_EXPIRY_INTERVAL};
    props := Assign(props, raw, TOPIC_ALIAS, true);
    AssignStep(raw, keys, TOPIC_ALIAS, true);
    keys := keys + {TOPIC_ALIAS};
    props := Assign(props, raw, RESP_TOPIC, true);
    AssignStep(raw, keys, RESP_TOPIC, true);
    keys := keys + {RESP_TOPIC};
    props := Assign(props, raw, CORRELATION_DATA, true);
    AssignStep(raw, keys, CORRELATION_DATA, true);
    keys := keys + {CORRELATION_DATA};
    props := Assign(props, raw, USER_PROPS, true);
    AssignStep(raw, keys, USER_PROPS, true);
    keys := keys + {USER_PROPS};
    AssignStep(raw, keys, SUB_ID, true);
    if SUB_ID in raw {
      SubIdsReadable(raw);
      ReadsSubIds(raw[SUB_ID]);
      var ids := GetSubIds(raw[SUB_ID]);
      props := props[SUB_ID := Ids(ids)];
    }
    keys := keys + {SUB_ID};
    props := Assign(props, raw, CONTENT_TYPE, true);
    AssignStep(raw, keys, CONTENT_TYPE, true);
    keys := keys + {CONTENT_TYPE};
    assert keys == PUBLISH_PROPS;
  }

  lemma NoKeys(raw: map<byte, bytes>)
    requires Readable(raw)
    ensures SetProps(raw, {}, true) == map[]
  {
  }

  lemma SubIdsReadable(raw: map<byte, bytes>)
    requires Readable(raw) && SUB_ID in raw
    ensures Lengths(raw[SUB_ID])
  {
    assert ReadableValue(SUB_ID, raw[SUB_ID]);
  }

  method DecodeProps(data: bytes) returns (r: Result<RawProps>)
    ensures r == ParseProps(data)
  {
    r := GetRawProps(data);
  }

  method DecodeConn5(data: bytes) returns (r: Result<V5Packet>)
    ensures r == ParseConn5(data)
  {
    hide HasBits, BitField, ParseProps, SetProps, GetBinaryData;
    var protocol := GetBinaryData(data);
    if protocol.Err? { return Err(protocol.error); }
    var next := protocol.value.next;
    if |next| < 5 { return Err(DecodeBadPacket); }
    if next[0] != V5 { return Err(DecodeNoneV5Packet); }
    var flags, keepalive := next[1], GetUint16(next[2..4]);
    var isWill := HasBits(flags, 0x04);
    var props := DecodeProps(next[4..]);
    if props.Err? { return Err(props.error); }
    var clientId := GetBinaryData(props.value.next);
    if clientId.Err? { return Err(clientId.error); }
    next := clientId.value.next;
    var willTopic, willMessage, username, password: bytes := [], [], [], [];
    if isWill {
      var field := GetBinaryData(next);
      if field.Err? { return Err(field.error); }
      willTopic, next := field.value.data, field.value.next;
      field := GetBinaryData(next);
      if field.Err? { return Err(field.error); }
      willMessage, next := field.value.data, field.value.next;
    }
    if HasBits(flags, 0x80) {
      var field := GetBinaryData(next);
      if field.Err? { return Err(field.error); }
      username, next := field.value.data, field.value.next;
    }
    if HasBits(flags, 0x40) {
      var field := GetBinaryData(next);
      if field.Err? { return Err(field.error); }
      password := field.value.data;
    }
    r := Ok(V5Packet(
           Connect(protocol.value.data, HasBits(flags, 0x02), isWill, BitField(flags, 0x18, 3), HasBits(flags, 0x20),
                   keepalive, clientId.value.data, willTopic, willMessage, username, password),
           0, SetProps(props.value.props, CONN_PROPS, false)));
  }

  method DecodePublish5(header: byte, body: bytes) returns (r: Result<V5Packet>)
    ensures r == ParsePublish5(header, body)
  {
    hide HasBits, BitField, ParseProps, SetProps, GetBinaryData;
    var topic := GetBinaryData(body);
    if topic.Err? { return Err(topic.error); }
    var next, packetId: u16 := topic.value.next, 0;
    var qos := BitField(header, 0x06, 1);
    if qos > 0 {
      if |next| < 2 { return Err(DecodeBadPacket); }
      packetId := GetUint16(next);
      next := next[2..];
    }
    var raw := DecodeProps(next);
    if raw.Err? { return Err(raw.error); }
    var props := SetPublishProps(raw.value.props);
    r := Ok(V5Packet(Publish(HasBits(header, 0x08), qos, HasBits(header, 0x01), topic.value.data, packetId,
                             raw.value.next), 0, props));
  }

  method DecodeV5Packet(header: byte, body: bytes) returns (r: Result<V5Packet>)
    requires |body| >= 2
    ensures r == ParseV5(header, body)
  {
    hide HasBits, BitField, ParseProps, SetProps, ParseConn5, ParsePublish5;
    var kind := Shr(header, 4);
    if kind == CTRL_CONN {
      r := DecodeConn5(body);
      return;
    } else if kind == CTRL_PUBLISH {
      r := DecodePublish5(header, body);
      return;
    } else if kind < CTRL_CONN || kind == CTRL_PING_REQ || kind == CTRL_PING_RESP || kind > CTRL_AUTH
              || (CTRL_PUB_ACK <= kind <= CTRL_PUB_COMP && |body| < 3) {
      return Err(DecodeBadPacket);
    }
    var start := if kind == CTRL_DIS_CONN || kind == CTRL_AUTH then 1
                 else if CTRL_PUB_ACK <= kind <= CTRL_PUB_COMP then 3 else 2;
    var props := DecodeProps(body[start..]);
    if props.Err? { return Err(props.error); }
    var raw, next := props.value.props, props.value.next;
    if kind == CTRL_CONN_ACK {
      r := Ok(V5Packet(ConnAck(HasBits(body[0], 0x01), body[1]), body[1], SetProps(raw, CONN_ACK_PROPS, false)));
    } else if kind <= CTRL_PUB_COMP {
      r := Ok(V5Packet(AckPacket(kind, GetUint16(body)), body[2], SetProps(raw, ACK_PROPS, false)));
    } else if kind == CTRL_SUBSCRIBE {
      var topics := DecodeTopics(next);
      if topics.Err? { return Err(topics.error); }
      r := Ok(V5Packet(Subscribe(GetUint16(body), topics.value), 0, SetProps(raw, SUBSCRIBE_PROPS, false)));
    } else if kind == CTRL_SUB_ACK {
      var codes := CopyCodes(next);
      r := Ok(V5Packet(SubAck(GetUint16(body), codes), 0, SetProps(raw, ACK_PROPS, false)));
    } else if kind == CTRL_UN_SUB {
      var names := DecodeNames(next);
      if names.Err? { return Err(names.error); }
      r := Ok(V5Packet(Unsub(GetUint16(body), names.value), 0, SetProps(raw, UNSUB_PROPS, false)));
    } else if kind == CTRL_UN_SUB_ACK {
      r := Ok(V5Packet(UnsubAck(GetUint16(body)), 0, SetProps(raw, ACK_PROPS, false)));
    } else if kind == CTRL_DIS_CONN {
      r := Ok(V5Packet(Disconnect, body[0], SetProps(raw, DISCONN_PROPS, false)));
    } else {
      r := Ok(V5Packet(Auth(body[0]), body[0], SetProps(raw, AUTH_PROPS, false)));
    }
  }
}
