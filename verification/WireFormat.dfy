/** The bytes of V3.1.1 packets as chapters 2 and 3 of MQTT Version 3.1.1 give them, without recourse to
    the encoder, and that these are the bytes written and read. */
module WireFormat {
  import opened Bytes
  import opened Codec
  import opened Encoder
  import opened Packets
  import opened RoundTrip
  import VarInt

  /** A word, its high byte first (section 1.5.2). */
  function Word(v: nat): bytes
    requires v <= 65535
  {
    [v / 256, v % 256]
  }

  /** Two bytes of length and the data (section 1.5.3). */
  function Text(data: bytes): bytes
    requires |data| <= 65535
  {
    Word(|data|) + data
  }

  /** The remaining length (section 2.2.3). */
  function Length(n: nat): bytes
    requires n <= 268435455
  {
    if n <= 127 then [n]
    else if n <= 16383 then [n % 128 + 128, n / 128]
    else if n <= 2097151 then [n % 128 + 128, n / 128 % 128 + 128, n / 16384]
    else [n % 128 + 128, n / 128 % 128 + 128, n / 16384 % 128 + 128, n / 2097152]
  }

  function Bit(b: bool, weight: byte): byte {
    if b then weight else 0
  }

  /** What two length bytes and two bits of level can carry. */
  predicate Regular(p: Packet) {
    match p
    case Connect(_, _, _, willQos, _, _, clientId, topic, message, username, password) =>
      && willQos <= 3
      && |clientId| <= 65535 && |topic| <= 65535 && |message| <= 65535 && |username| <= 65535 && |password| <= 65535
    case Publish(_, qos, _, topic, _, _) => qos <= 3 && |topic| <= 65535
    case Subscribe(_, topics) => forall t :: t in topics ==> |t.name| <= 65535
    case Unsub(_, names) => forall n :: n in names ==> |n| <= 65535
    case _ => true
  }

  /** Packet type and flags (sections 2.2.1 and 2.2.2). */
  function FirstByte(p: Packet): byte
    requires Regular(p)
  {
    match p
    case Connect(_, _, _, _, _, _, _, _, _, _, _) => 16
    case ConnAck(_, _) => 32
    case Publish(dup, qos, retain, _, _, _) => 48 + Bit(dup, 8) + 2 * qos + Bit(retain, 1)
    case PubAck(_) => 64
    case PubRecv(_) => 80
    case PubRel(_) => 98
    case PubComp(_) => 112
    case Subscribe(_, _) => 130
    case SubAck(_, _) => 144
    case Unsub(_, _) => 162
    case UnsubAck(_) => 176
    case PingReq => 192
    case PingResp => 208
    case Disconnect => 224
    case Auth(_) => 240
  }

  /** The connect flags (section 3.1.2.3); an empty client id asks for a clean session. */
  function ConnectFlags(p: Packet): byte
    requires p.Connect? && p.willQos <= 3
  {
    Bit(p.username != [], 128) + Bit(p.password != [], 64)
    + (if p.isWill then Bit(p.willRetain, 32) + 8 * p.willQos + 4 else 0)
    + Bit(p.cleanSession || p.clientId == [], 2)
  }

  function Filters(topics: seq<Topic>): bytes
    requires forall t :: t in topics ==> |t.name| <= 65535
  {
    if topics == [] then [] else Text(topics[0].name) + [topics[0].qos] + Filters(topics[1..])
  }

  function Names(names: seq<bytes>): bytes
    requires forall n :: n in names ==> |n| <= 65535
  {
    if names == [] then [] else Text(names[0]) + Names(names[1..])
  }

  function ConnectContent(p: Packet): bytes
    requires p.Connect? && Regular(p)
  {
    [0, 4, 77, 81, 84, 84, 4, ConnectFlags(p)] + Word(p.keepalive) + Text(p.clientId)
    + (if p.isWill then Text(p.willTopic) + Text(p.willMessage) else [])
    + (if p.username != [] then Text(p.username) else [])
    + (if p.password != [] then Text(p.password) else [])
  }

  /** Variable header and payload (chapter 3). AUTH is that of MQTT Version 5.0, without properties. */
  function Content(p: Packet): bytes
    requires Regular(p)
  {
    match p
    case Connect(_, _, _, _, _, _, _, _, _, _, _) => ConnectContent(p)
    case ConnAck(present, code) => [Bit(present, 1), code]
    case Publish(_, qos, _, topic, id, payload) => Text(topic) + (if qos > 0 then Word(id) else []) + payload
    case PubAck(id) => Word(id)
    case PubRecv(id) => Word(id)
    case PubRel(id) => Word(id)
    case PubComp(id) => Word(id)
    case Subscribe(id, topics) => Word(id) + Filters(topics)
    case SubAck(id, codes) => Word(id) + codes
    case Unsub(id, names) => Word(id) + Names(names)
    case UnsubAck(id) => Word(id)
    case PingReq => []
    case PingResp => []
    case Disconnect => []
    case Auth(code) => [code, 0]
  }

  /** The whole packet. */
  function Wire(p: Packet): bytes
    requires Regular(p) && |Content(p)| <= 268435455
  {
    [FirstByte(p)] + Length(|Content(p)|) + Content(p)
  }

  // The encoder writes this.

  lemma {:induction false} LengthWritten(n: nat)
    requires n <= 268435455
    ensures VarInt.VarInt(n) == Length(n)
  {
    if n > 127 {
      assert VarInt.VarInt(n) == [n % 128 + 128] + VarInt.VarInt(n / 128);
      Quotients(n);
      if n > 16383 {
        assert VarInt.VarInt(n / 128) == [n / 128 % 128 + 128] + VarInt.VarInt(n / 16384);
        if n > 2097151 {
          assert VarInt.VarInt(n / 16384) == [n / 16384 % 128 + 128] + VarInt.VarInt(n / 2097152);
        }
      }
    }
  }

  lemma Quotients(n: nat)
    ensures n / 128 / 128 == n / 16384 && n / 16384 / 128 == n / 2097152
  {
  }

  lemma {:induction false} WordWritten(v: u16)
    ensures PutUint16(v) == Word(v)
  {
  }

  lemma {:induction false} TextWritten(data: bytes)
    requires |data| <= 65535
    ensures EncodeBytesWithLen(data) == Text(data)
  {
  }

  lemma {:induction false} FiltersWritten(topics: seq<Topic>)
    requires forall t :: t in topics ==> |t.name| <= 65535
    ensures SubscribePayload(topics) == Filters(topics)
  {
    hide EncodeBytesWithLen, Text;
    if topics != [] {
      TextWritten(topics[0].name);
      FiltersWritten(topics[1..]);
    }
  }

  lemma {:induction false} NamesWritten(names: seq<bytes>)
    requires forall n :: n in names ==> |n| <= 65535
    ensures UnsubPayload(names) == Names(names)
  {
    hide EncodeBytesWithLen, Text;
    if names != [] {
      TextWritten(names[0]);
      NamesWritten(names[1..]);
    }
  }

  lemma ConnectFlagsWritten(p: Packet)
    requires p.Connect? && p.willQos <= 3
    ensures Flags(p) == ConnectFlags(p)
  {
    hide Flags;
    FlagsSum(p);
  }

  lemma ConnectWritten(p: Packet)
    requires p.Connect? && Regular(p)
    ensures Body(p) == ConnectContent(p)
  {
    hide Flags, EncodeBytesWithLen, Text, PutUint16, Word;
    ConnectFlagsWritten(p);
    WordWritten(p.keepalive);
    TextWritten(p.clientId);
    TextWritten(p.willTopic);
    TextWritten(p.willMessage);
    TextWritten(p.username);
    TextWritten(p.password);
    assert [0, 4] + PROTOCOL_NAME + [V311, Flags(p)] == [0, 4, 77, 81, 84, 84, 4, ConnectFlags(p)];
    ConnectParts([0, 4, 77, 81, 84, 84, 4, ConnectFlags(p)], Word(p.keepalive), Text(p.clientId),
                 if p.isWill then Text(p.willTopic) + Text(p.willMessage) else [],
                 if p.username != [] then Text(p.username) else [],
                 if p.password != [] then Text(p.password) else []);
  }

  lemma ConnectParts(a: bytes, b: bytes, c: bytes, d: bytes, e: bytes, f: bytes)
    ensures a + b + (c + d + e + f) == a + b + c + d + e + f
  {
  }

  lemma ContentWritten(p: Packet)
    requires Regular(p)
    ensures Body(p) == Content(p)
  {
    hide EncodeBytesWithLen, Text, PutUint16, Word, Flags, ConnectFlags, ConnectContent;
    match p {
      case Connect(_, _, _, _, _, _, _, _, _, _, _) => ConnectWritten(p);
      case Publish(_, _, _, topic, id, _) => TextWritten(topic); WordWritten(id);
      case PubAck(id) => WordWritten(id);
      case PubRecv(id) => WordWritten(id);
      case PubRel(id) => WordWritten(id);
      case PubComp(id) => WordWritten(id);
      case Subscribe(id, topics) => WordWritten(id); FiltersWritten(topics);
      case SubAck(id, _) => WordWritten(id);
      case Unsub(id, names) => WordWritten(id); NamesWritten(names);
      case UnsubAck(id) => WordWritten(id);
      case _ =>
    }
  }

  lemma {:induction false} FirstWritten(p: Packet)
    requires Regular(p)
    ensures First(p) == FirstByte(p)
  {
    hide PublishFirst;
    if p.Publish? {
      PublishFirstSum(p);
    }
  }

  /** The bytes written are those of the standard, for packets of every kind; exactly those are refused
      whose remaining length would be too large. */
  lemma {:induction false} WritesTheStandard(p: Packet)
    requires Regular(p)
    ensures Encode(p) == if |Content(p)| <= 268435455 then Ok(Wire(p)) else Err(EncodeLargePacket)
  {
    hide First, Body, Content, Length, VarInt.VarInt, FirstByte, ConnectFlags, Regular;
    ContentWritten(p);
    FirstWritten(p);
    if |Content(p)| <= 268435455 {
      LengthWritten(|Content(p)|);
    }
  }

  /** Acknowledgements, byte by byte. */
  lemma {:induction false} ShortPackets(id: u16)
    ensures Encode(PubAck(id)) == Ok([0x40, 2, id / 256, id % 256])
    ensures Encode(PubRecv(id)) == Ok([0x50, 2, id / 256, id % 256])
    ensures Encode(PubRel(id)) == Ok([0x62, 2, id / 256, id % 256])
    ensures Encode(PubComp(id)) == Ok([0x70, 2, id / 256, id % 256])
    ensures Encode(UnsubAck(id)) == Ok([0xB0, 2, id / 256, id % 256])
  {
    hide Encode;
    TwoByteBody(PubAck(id));
    TwoByteBody(PubRecv(id));
    TwoByteBody(PubRel(id));
    TwoByteBody(PubComp(id));
    TwoByteBody(UnsubAck(id));
  }

  /** Those without an identifier. */
  lemma {:induction false} ConstantPackets(present: bool, code: byte)
    ensures Encode(ConnAck(present, code)) == Ok([0x20, 2, if present then 1 else 0, code])
    ensures Encode(PingReq) == Ok([0xC0, 0]) && Encode(PingResp) == Ok([0xD0, 0]) && Encode(Disconnect) == Ok([0xE0, 0])
  {
    hide Encode;
    TwoByteBody(ConnAck(present, code));
    NoBody(PingReq);
    NoBody(PingResp);
    NoBody(Disconnect);
  }

  lemma TwoByteBody(p: Packet)
    requires Regular(p) && |Content(p)| == 2
    ensures Encode(p) == Ok([FirstByte(p), 2, Content(p)[0], Content(p)[1]])
  {
    hide Encode, Content, FirstByte;
    WritesTheStandard(p);
    assert Wire(p) == [FirstByte(p), 2, Content(p)[0], Content(p)[1]];
  }

  lemma NoBody(p: Packet)
    requires Regular(p) && Content(p) == []
    ensures Encode(p) == Ok([FirstByte(p), 0])
  {
    hide Encode, Content, FirstByte;
    WritesTheStandard(p);
    assert Wire(p) == [FirstByte(p), 0];
  }

  /** And they are read as that packet, whatever follows. */
  lemma {:induction false} ReadsTheStandard(p: Packet, rest: bytes)
    requires WellFormed(p)
    ensures Regular(p) && |Content(p)| <= 268435455
    ensures Decode(V311, Wire(p) + rest) == (Ok(Plain(p)), rest)
  {
    hide Body, Content, Encode, Decode, Wire, ConnectFlags;
    ContentWritten(p);
    WritesTheStandard(p);
    PacketRoundTrip(p, rest);
  }
}
