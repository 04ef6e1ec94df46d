/** Reading V3.1.1 packets out of a body of known length. */
module Decoder {
  import opened Bytes
  import opened Packets

  /** A field and the bytes after it. */
  datatype Field = Field(data: bytes, next: bytes)

  /** A length-prefixed field at the front of `data`. */
  function GetBinaryData(data: bytes): (r: Result<Field>)
    ensures r.Ok? ==> |r.value.next| + 2 <= |data| && |r.value.data| <= 65535
    ensures r.Err? ==> r.error == DecodeBadPacket
  {
    if |data| < 2 then Err(DecodeBadPacket)
    else
      var end := GetUint16(data) + 2;
      if end > |data| then Err(DecodeBadPacket) else Ok(Field(data[2..end], data[end..]))
  }

  predicate HasBits(b: byte, mask: byte) {
    And(b, mask) == mask
  }

  function BitField(b: byte, mask: byte, shift: nat): byte {
    ToByte(Shr(And(b, mask), shift))
  }

  // What a body means, packet by packet.

  /** The fields of a connect payload. */
  datatype ConnFields = ConnFields(clientId: bytes, willTopic: bytes, willMessage: bytes,
                                   username: bytes, password: bytes)

  /** A field that is only there if announced. */
  function OptionalField(present: bool, data: bytes): Result<Field> {
    if present then GetBinaryData(data) else Ok(Field([], data))
  }

  function ParseConnFields(isWill: bool, hasUsername: bool, hasPassword: bool, data: bytes): Result<ConnFields> {
    var clientId :- GetBinaryData(data);
    var willTopic :- OptionalField(isWill, clientId.next);
    var willMessage :- OptionalField(isWill, willTopic.next);
    var username :- OptionalField(hasUsername, willMessage.next);
    var password :- OptionalField(hasPassword, username.next);
    Ok(ConnFields(clientId.data, willTopic.data, willMessage.data, username.data, password.data))
  }

  function ParseConn(body: bytes): Result<Packet> {
    var protocol :- GetBinaryData(body);
    var head := protocol.next;
    if |head| < 4 then Err(DecodeBadPacket)
    else if head[0] != V311 then Err(DecodeNoneV311Packet)
    else
      var flags := head[1];
      var isWill := HasBits(flags, 0x04);
      var fields :- ParseConnFields(isWill, HasBits(flags, 0x80), HasBits(flags, 0x40), head[4..]);
      Ok(Connect(protocol.data, HasBits(flags, 0x02), isWill, BitField(flags, 0x18, 3), HasBits(flags, 0x20),
                 GetUint16(head[2..4]), fields.clientId, fields.willTopic, fields.willMessage,
                 fields.username, fields.password))
  }

  function ParsePublish(header: byte, body: bytes): Result<Packet> {
    var topic :- GetBinaryData(body);
    var qos := BitField(header, 0x06, 1);
    if qos > 0 && |topic.next| < 2 then Err(DecodeBadPacket)
    else
      var id := if qos > 0 then GetUint16(topic.next) else 0;
      var payload := if qos > 0 then topic.next[2..] else topic.next;
      Ok(Publish(HasBits(header, 0x08), qos, HasBits(header, 0x01), topic.data, id, payload))
  }

  function ParseTopics(body: bytes): (r: Result<seq<Topic>>)
    ensures r.Err? ==> r.error == DecodeBadPacket
    decreases |body|
  {
    if body == [] then Ok([])
    else
      var name :- GetBinaryData(body);
      if name.next == [] then Err(DecodeBadPacket)
      else
        var rest :- ParseTopics(name.next[1..]);
        Ok([Topic(name.data, name.next[0])] + rest)
  }

  function ParseNames(body: bytes): (r: Result<seq<bytes>>)
    ensures r.Err? ==> r.error == DecodeBadPacket
    decreases |body|
  {
    if body == [] then Ok([])
    else
      var name :- GetBinaryData(body);
      var rest :- ParseNames(name.next);
      Ok([name.data] + rest)
  }

  /** The packet a header byte and a body of at least two bytes stand for. */
  function ParseV311(header: byte, body: bytes): Result<Packet>
    requires |body| >= 2
  {
    var kind := Shr(header, 4);
    if kind == CTRL_CONN then ParseConn(body)
    else if kind == CTRL_CONN_ACK then Ok(ConnAck(HasBits(body[0], 0x01), body[1]))
    else if kind == CTRL_PUBLISH then ParsePublish(header, body)
    else if kind == CTRL_PUB_ACK then Ok(PubAck(GetUint16(body)))
    else if kind == CTRL_PUB_RECV then Ok(PubRecv(GetUint16(body)))
    else if kind == CTRL_PUB_REL then Ok(PubRel(GetUint16(body)))
    else if kind == CTRL_PUB_COMP then Ok(PubComp(GetUint16(body)))
    else if kind == CTRL_SUBSCRIBE then
      var topics :- ParseTopics(body[2..]);
      Ok(Subscribe(GetUint16(body), topics))
    else if kind == CTRL_SUB_ACK then Ok(SubAck(GetUint16(body), body[2..]))
    else if kind == CTRL_UN_SUB then
      var names :- ParseNames(body[2..]);
      Ok(Unsub(GetUint16(body), names))
    else if kind == CTRL_UN_SUB_ACK then Ok(UnsubAck(GetUint16(body)))
    else Err(DecodeBadPacket)
  }

  // The decoding procedure.

  function Prepend<T>(done: seq<T>, more: Result<seq<T>>): Result<seq<T>> {
    match more
    case Ok(rest) => Ok(done + rest)
    case Err(e) => Err(e)
  }

  lemma PrependNothing<T>(r: Result<seq<T>>)
    ensures Prepend([], r) == r
  {
    assert r.Ok? ==> [] + r.value == r.value;
  }

  lemma PrependToNothing<T>(done: seq<T>)
    ensures Prepend(done, Ok([])) == Ok(done)
  {
    assert done + [] == done;
  }

  /** Reads topic filters until the body is used up; shared with the V5 decoder. */
  method DecodeTopics(data: bytes) returns (r: Result<seq<Topic>>)
    ensures r == ParseTopics(data)
  {
    var body, topics := data, [];
    PrependNothing(ParseTopics(data));
    while |body| > 0
      invariant ParseTopics(data) == Prepend(topics, ParseTopics(body))
      decreases |body|
    {
      var name := GetBinaryData(body);
      if name.Err? {
        return Err(name.error);
      }
      if |name.value.next| < 1 {
        return Err(DecodeBadPacket);
      }
      ghost var before, more := topics, ParseTopics(name.value.next[1..]);
      topics := topics + [Topic(name.value.data, name.value.next[0])];
      assert more.Ok? ==> topics + more.value == before + ([Topic(name.value.data, name.value.next[0])] + more.value);
      body := name.value.next[1..];
    }
    PrependToNothing(topics);
    r := Ok(topics);
  }

  method DecodeNames(data: bytes) returns (r: Result<seq<bytes>>)
    ensures r == ParseNames(data)
  {
    var body, names := data, [];
    PrependNothing(ParseNames(data));
    while |body| > 0
      invariant ParseNames(data) == Prepend(names, ParseNames(body))
      decreases |body|
    {
      var name := GetBinaryData(body);
      if name.Err? {
        return Err(name.error);
      }
      ghost var before, more := names, ParseNames(name.value.next);
      names := names + [name.value.data];
      assert more.Ok? ==> names + more.value == before + ([name.value.data] + more.value);
      body := name.value.next;
    }
    PrependToNothing(names);
    r := Ok(names);
  }

  /** Copies return codes one by one. */
  method CopyCodes(body: bytes) returns (codes: bytes)
    ensures codes == body
  {
    codes := [];
    for i := 0 to |body|
      invariant codes == body[..i]
    {
      codes := codes + [body[i]];
    }
  }

  method DecodeConn(data: bytes) returns (r: Result<Packet>)
    ensures r == ParseConn(data)
  {
    hide HasBits, BitField;
    var field := GetBinaryData(data);
    if field.Err? { return Err(field.error); }
    var protocol, body := field.value.data, field.value.next;
    if |body| < 4 { return Err(DecodeBadPacket); }
    if body[0] != V311 { return Err(DecodeNoneV311Packet); }
    var flags := body[1];
    var pkt := Connect(protocol, HasBits(flags, 0x02), HasBits(flags, 0x04), BitField(flags, 0x18, 3),
                       HasBits(flags, 0x20), GetUint16(body[2..4]), [], [], [], [], []);
    field := GetBinaryData(body[4..]);
    if field.Err? { return Err(field.error); }
    pkt, body := pkt.(clientId := field.value.data), field.value.next;
    if pkt.isWill {
      field := GetBinaryData(body);
      if field.Err? { return Err(field.error); }
      pkt, body := pkt.(willTopic := field.value.data), field.value.next;
      field := GetBinaryData(body);
      if field.Err? { return Err(field.error); }
      pkt, body := pkt.(willMessage := field.value.data), field.value.next;
    }
    if HasBits(flags, 0x80) {
      field := GetBinaryData(body);
      if field.Err? { return Err(field.error); }
      pkt, body := pkt.(username := field.value.data), field.value.next;
    }
    if HasBits(flags, 0x40) {
      field := GetBinaryData(body);
      if field.Err? { return Err(field.error); }
      pkt := pkt.(password := field.value.data);
    }
    r := Ok(pkt);
  }

  method DecodeV311Packet(header: byte, body: bytes) returns (r: Result<Packet>)
    requires |body| >= 2
    ensures r == ParseV311(header, body)
  {
    var kind := Shr(header, 4);
    if kind == CTRL_CONN {
      r := DecodeConn(body);
    } else if kind == CTRL_CONN_ACK {
      r := Ok(ConnAck(HasBits(body[0], 0x01), body[1]));
    } else if kind == CTRL_PUBLISH {
      var topic := GetBinaryData(body);
      if topic.Err? { return Err(topic.error); }
      var next, packetId: u16 := topic.value.next, 0;
      var qos := BitField(header, 0x06, 1);
      if qos > 0 {
        if |next| < 2 { return Err(DecodeBadPacket); }
        packetId := GetUint16(next);
        next := next[2..];
      }
      r := Ok(Publish(HasBits(header, 0x08), qos, HasBits(header, 0x01), topic.value.data, packetId, next));
    } else if kind == CTRL_PUB_ACK {
      r := Ok(PubAck(GetUint16(body)));
    } else if kind == CTRL_PUB_RECV {
      r := Ok(PubRecv(GetUint16(body)));
    } else if kind == CTRL_PUB_REL {
      r := Ok(PubRel(GetUint16(body)));
    } else if kind == CTRL_PUB_COMP {
      r := Ok(PubComp(GetUint16(body)));
    } else if kind == CTRL_SUBSCRIBE {
      var topics := DecodeTopics(body[2..]);
      r := if topics.Ok? then Ok(Subscribe(GetUint16(body), topics.value)) else Err(topics.error);
    } else if kind == CTRL_SUB_ACK {
      var codes := CopyCodes(body[2..]);
      r := Ok(SubAck(GetUint16(body), codes));
    } else if kind == CTRL_UN_SUB {
      var names := DecodeNames(body[2..]);
      r := if names.Ok? then Ok(Unsub(GetUint16(body), names.value)) else Err(names.error);
    } else if kind == CTRL_UN_SUB_ACK {
      r := Ok(UnsubAck(GetUint16(body)));
    } else {
      r := Err(DecodeBadPacket);
    }
  }
}
