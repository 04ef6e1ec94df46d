/** Writing V3.1.1 packets. */
module Encoder {
  import opened Bytes
  import opened Packets
  import opened Streams
  import VarInt

  /** Two length bytes, which keep only sixteen bits of the length, and the data. */
  function EncodeBytesWithLen(data: bytes): bytes {
    [ToByte(|data| / 0x100), ToByte(|data|)] + data
  }

  const PROTOCOL_NAME: bytes := ['M' as int, 'Q' as int, 'T' as int, 'T' as int]

  // What is written, packet by packet.

  /** The connect flags, gathered bit by bit. An empty client id forces a clean session. */
  function Flags(p: Packet): byte
    requires p.Connect?
  {
    var clean := SetBits(0, p.cleanSession || p.clientId == [], 0x02);
    var will := if p.isWill
                then SetBits(Or8(Or8(clean, 0x04), ToByte(Shl(p.willQos, 3))), p.willRetain, 0x20)
                else clean;
    SetBits(SetBits(will, p.password != [], 0x40), p.username != [], 0x80)
  }

  function SetBits(flag: byte, condition: bool, bits: byte): byte {
    if condition then Or8(flag, bits) else flag
  }

  function Or8(a: byte, b: byte): byte {
    ToByte(Or(a, b))
  }

  function ConnHeader(p: Packet, version: byte): bytes
    requires p.Connect?
  {
    [0, 4] + PROTOCOL_NAME + [version, Flags(p)] + PutUint16(p.keepalive)
  }

  function ConnPayload(p: Packet): bytes
    requires p.Connect?
  {
    EncodeBytesWithLen(p.clientId)
    + (if p.isWill then EncodeBytesWithLen(p.willTopic) + EncodeBytesWithLen(p.willMessage) else [])
    + (if p.username != [] then EncodeBytesWithLen(p.username) else [])
    + (if p.password != [] then EncodeBytesWithLen(p.password) else [])
  }

  function PublishFirst(p: Packet): byte
    requires p.Publish?
  {
    Or8(Or8(Or8(Shl(CTRL_PUBLISH, 4), Shl(BoolToByte(p.isDup), 3)), BoolToByte(p.isRetain)), ToByte(Shl(p.qos, 1)))
  }

  function PublishPayload(p: Packet): bytes
    requires p.Publish?
  {
    EncodeBytesWithLen(p.topicName) + (if p.qos > 0 then PutUint16(p.packetId) else []) + p.payload
  }

  function SubscribePayload(topics: seq<Topic>): bytes {
    if topics == [] then []
    else EncodeBytesWithLen(topics[0].name) + [topics[0].qos] + SubscribePayload(topics[1..])
  }

  function UnsubPayload(names: seq<bytes>): bytes {
    if names == [] then [] else EncodeBytesWithLen(names[0]) + UnsubPayload(names[1..])
  }

  /** First byte of the fixed header. */
  function First(p: Packet): byte {
    match p
    case Connect(_, _, _, _, _, _, _, _, _, _, _) => 0x10
    case ConnAck(_, _) => 0x20
    case Publish(_, _, _, _, _, _) => PublishFirst(p)
    case PubAck(_) => 0x40
    case PubRecv(_) => 0x50
    case PubRel(_) => 0x62
    case PubComp(_) => 0x70
    case Subscribe(_, _) => 0x82
    case SubAck(_, _) => 0x90
    case Unsub(_, _) => 0xA2
    case UnsubAck(_) => 0xB0
    case PingReq => 0xC0
    case PingResp => 0xD0
    case Disconnect => 0xE0
    case Auth(_) => 0xF0
  }

  /** Everything after the fixed header. */
  function Body(p: Packet): bytes {
    match p
    case Connect(_, _, _, _, _, _, _, _, _, _, _) => ConnHeader(p, V311) + ConnPayload(p)
    case ConnAck(present, code) => [BoolToByte(present), code]
    case Publish(_, _, _, _, _, _) => PublishPayload(p)
    case PubAck(id) => PutUint16(id)
    case PubRecv(id) => PutUint16(id)
    case PubRel(id) => PutUint16(id)
    case PubComp(id) => PutUint16(id)
    case Subscribe(id, topics) => PutUint16(id) + SubscribePayload(topics)
    case SubAck(id, codes) => PutUint16(id) + codes
    case Unsub(id, names) => PutUint16(id) + UnsubPayload(names)
    case UnsubAck(id) => PutUint16(id)
    case PingReq => []
    case PingResp => []
    case Disconnect => []
    case Auth(code) => [code, 0]
  }

  /** The whole packet on the wire, or the error of a body over the size limit. */
  function Encode(p: Packet): Result<bytes> {
    var length :- VarInt.Encode(|Body(p)|);
    Ok([First(p)] + length + Body(p))
  }

  /** What writing a packet leaves behind: its encoding, or the first byte of a failed one. */
  function Content(p: Packet): bytes {
    match Encode(p)
    case Ok(b) => b
    case Err(_) => [First(p)]
  }

  /** The write a caller sees: a failed one leaves the first byte behind. */
  ghost predicate Wrote(before: bytes, after: bytes, p: Packet, err: Option<Error>) {
    match Encode(p)
    case Ok(b) => err == None && after == before + b
    case Err(e) => err == Some(e) && after == before + [First(p)]
  }

  // The writers.

  /** Length, first byte and body; shared by the packets without a fixed size. */
  method WriteBase(w: Writer, first: byte, varHeader: bytes, payload: bytes) returns (err: Option<Error>)
    modifies w
    ensures match VarInt.Encode(|varHeader + payload|)
      case Ok(b) => err == None && w.out == old(w.out) + ([first] + b + (varHeader + payload))
      case Err(e) => err == Some(e) && w.out == old(w.out) + [first]
  {
    w.Write([first]);
    var remaining := VarInt.VarIntBytes(|varHeader| + |payload|);
    if remaining.Err? {
      return Some(remaining.error);
    }
    w.Write(remaining.value);
    w.Write(varHeader);
    w.Write(payload);
    err := None;
  }

  /** Computes the connect flags; the packet comes back with the clean session it was given. */
  method ConnFlags(p: Packet) returns (flag: byte, p': Packet)
    requires p.Connect?
    ensures flag == Flags(p)
    ensures p' == if p.clientId == [] then p.(cleanSession := true) else p
  {
    p' := p;
    flag := 0;
    if p'.clientId == [] {
      p' := p'.(cleanSession := true);
    }
    flag := SetBits(flag, p'.cleanSession, 0x02);
    if p'.isWill {
      flag := Or8(flag, 0x04);
      flag := Or8(flag, ToByte(Shl(p'.willQos, 3)));
      flag := SetBits(flag, p'.willRetain, 0x20);
    }
    flag := SetBits(flag, p'.password != [], 0x40);
    flag := SetBits(flag, p'.username != [], 0x80);
  }

  method ConnPayloadBytes(p: Packet) returns (result: bytes)
    requires p.Connect?
    ensures result == ConnPayload(p)
  {
    result := EncodeBytesWithLen(p.clientId);
    if p.isWill {
      result := result + EncodeBytesWithLen(p.willTopic);
      result := result + EncodeBytesWithLen(p.willMessage);
    }
    if p.username != [] {
      result := result + EncodeBytesWithLen(p.username);
    }
    if p.password != [] {
      result := result + EncodeBytesWithLen(p.password);
    }
  }

  method SubscribePayloadBytes(topics: seq<Topic>) returns (result: bytes)
    ensures result == SubscribePayload(topics)
  {
    result := [];
    for i := 0 to |topics|
      invariant result + SubscribePayload(topics[i..]) == SubscribePayload(topics)
    {
      ghost var before := result;
      result := result + EncodeBytesWithLen(topics[i].name);
      result := result + [topics[i].qos];
      assert topics[i..][1..] == topics[i + 1..];
      assert result + SubscribePayload(topics[i + 1..]) == before + SubscribePayload(topics[i..]);
    }
  }

  method UnsubPayloadBytes(names: seq<bytes>) returns (result: bytes)
    ensures result == UnsubPayload(names)
  {
    result := [];
    for i := 0 to |names|
      invariant result + UnsubPayload(names[i..]) == UnsubPayload(names)
    {
      ghost var before := result;
      result := result + EncodeBytesWithLen(names[i]);
      assert names[i..][1..] == names[i + 1..];
      assert result + UnsubPayload(names[i + 1..]) == before + UnsubPayload(names[i..]);
    }
  }

  method WriteConn(p: Packet, w: Writer) returns (err: Option<Error>, p': Packet)
    requires p.Connect?
    modifies w
    ensures Wrote(old(w.out), w.out, p, err)
    ensures p' == if p.clientId == [] then p.(cleanSession := true) else p
  {
    hide Flags, PutUint16, SetBits;
    var flag: byte;
    flag, p' := ConnFlags(p);
    var varHeader := [0, 4] + PROTOCOL_NAME + [V311, flag] + PutUint16(p.keepalive);
    var payload := ConnPayloadBytes(p');
    err := WriteBase(w, 0x10, varHeader, payload);
  }

  /** Packets of a single byte header and known content. */
  method WriteFixed(p: Packet, w: Writer) returns (err: Option<Error>)
    requires p.ConnAck? || p.PingReq? || p.PingResp? || p.Disconnect?
    modifies w
    ensures Wrote(old(w.out), w.out, p, err)
  {
    match p {
      case ConnAck(present, code) => w.Write([0x20, 2, BoolToByte(present), code]);
      case PingReq => w.Write([0xC0]); w.Write([0]);
      case PingResp => w.Write([0xD0]); w.Write([0]);
      case Disconnect => w.Write([0xE0, 0]);
    }
    err := None;
  }

  /** Writes a packet in the V3.1.1 form, AUTH with its empty property section in the only form it has.
      Writing a connect packet may change it. */
  method WriteTo(p: Packet, w: Writer) returns (err: Option<Error>, p': Packet)
    modifies w
    ensures Wrote(old(w.out), w.out, p, err)
    ensures p' == if p.Connect? && p.clientId == [] then p.(cleanSession := true) else p
  {
    hide Flags, PublishFirst, PublishPayload, SubscribePayload, UnsubPayload, PutUint16;
    p' := p;
    var varHeader: bytes, payload: bytes := [], [];
    match p {
      case Connect(_, _, _, _, _, _, _, _, _, _, _) =>
        err, p' := WriteConn(p, w);
        return;
      case ConnAck(_, _) => err := WriteFixed(p, w); return;
      case PingReq => err := WriteFixed(p, w); return;
      case PingResp => err := WriteFixed(p, w); return;
      case Disconnect => err := WriteFixed(p, w); return;
      case Publish(_, _, _, _, _, _) => payload := PublishPayload(p);
      case PubAck(id) => varHeader := PutUint16(id);
      case PubRecv(id) => varHeader := PutUint16(id);
      case PubRel(id) => varHeader := PutUint16(id);
      case PubComp(id) => varHeader := PutUint16(id);
      case Subscribe(id, topics) => varHeader := PutUint16(id); payload := SubscribePayloadBytes(topics);
      case SubAck(id, codes) => varHeader := PutUint16(id); payload := codes;
      case Unsub(id, names) => varHeader := PutUint16(id); payload := UnsubPayloadBytes(names);
      case UnsubAck(id) => varHeader := PutUint16(id);
      case Auth(code) => varHeader := [code, 0];
    }
    assert varHeader + payload == Body(p);
    err := WriteBase(w, First(p), varHeader, payload);
  }
}
