/** Encoding and decoding V3.1.1 packets are inverse, also in a stream. */
module RoundTrip {
  import opened Bytes
  import opened Codec
  import opened Decoder
  import opened Encoder
  import opened Packets
  import PropertyLaws
  import Streams
  import VarInt

  predicate Short(s: bytes) {
    |s| <= 65535
  }

  /** Packets the wire format can carry, in the form the decoder gives them. */
  predicate WellFormed(p: Packet) {
    && |Body(p)| <= VarInt.MAX_MSG_SIZE
    && match p
       case Connect(name, clean, isWill, willQos, willRetain, _, clientId, topic, message, username, password) =>
         && name == PROTOCOL_NAME
         && (clientId == [] ==> clean)
         && willQos <= 3
         && (!isWill ==> willQos == 0 && !willRetain && topic == [] && message == [])
         && Short(clientId) && Short(topic) && Short(message) && Short(username) && Short(password)
       case Publish(_, qos, _, topic, id, _) => qos <= 3 && Short(topic) && (qos == 0 ==> id == 0)
       case Subscribe(_, topics) => forall t :: t in topics ==> Short(t.name)
       case Unsub(_, names) => forall n :: n in names ==> Short(n)
       case Auth(_) => false
       case _ => true
  }

  // Flag bits.

  /** Reading bit `k` of a byte. */
  lemma ReadsBit(b: byte, k: nat, mask: byte)
    requires k < 8 && mask == Shl(1, k)
    ensures HasBits(b, mask) <==> b / mask % 2 == 1
  {
    AndShifted(b, 1, k);
    ShrIsDiv(b, k);
    AndLowBits(Shr(b, k), 1);
  }

  /** Reading the two bits from bit `k` on. */
  lemma ReadsField(b: byte, k: nat, mask: byte)
    requires k < 7 && mask == Shl(3, k)
    ensures BitField(b, mask, k) == b / Shl(1, k) % 4
  {
    AndShifted(b, 3, k);
    ShrIsDiv(b, k);
    AndLowBits(Shr(b, k), 2);
    ShrShl(And(Shr(b, k), 3), k);
  }

  lemma {:induction false} ShrShl(a: nat, k: nat)
    ensures Shr(Shl(a, k), k) == a
  {
    if k > 0 {
      ShrShl(a, k - 1);
    }
  }

  lemma ReadsConnFlags(b: byte)
    ensures HasBits(b, 0x02) <==> b / 2 % 2 == 1
    ensures HasBits(b, 0x04) <==> b / 4 % 2 == 1
    ensures HasBits(b, 0x20) <==> b / 32 % 2 == 1
    ensures HasBits(b, 0x40) <==> b / 64 % 2 == 1
    ensures HasBits(b, 0x80) <==> b / 128 % 2 == 1
    ensures BitField(b, 0x18, 3) == b / 8 % 4
  {
    hide HasBits, BitField;
    ReadsBit(b, 1, 0x02);
    ReadsBit(b, 2, 0x04);
    ReadsBit(b, 5, 0x20);
    ReadsBit(b, 6, 0x40);
    ReadsBit(b, 7, 0x80);
    ReadsField(b, 3, 0x18);
  }

  lemma ReadsHeader(b: byte)
    ensures HasBits(b, 0x01) <==> b % 2 == 1
    ensures HasBits(b, 0x08) <==> b / 8 % 2 == 1
    ensures BitField(b, 0x06, 1) == b / 2 % 4
    ensures Shr(b, 4) == b / 16
  {
    hide HasBits, BitField;
    ReadsBit(b, 0, 0x01);
    ReadsBit(b, 3, 0x08);
    ReadsField(b, 1, 0x06);
    ShrIsDiv(b, 4);
  }

  /** Setting a bit above all others adds it. */
  lemma SetBitsAdds(flag: byte, condition: bool, k: nat)
    requires flag < Shl(1, k) && k < 8
    ensures SetBits(flag, condition, ToByte(Shl(1, k))) == flag + if condition then Shl(1, k) else 0
  {
    hide Or, Shl;
    ShlBits(k);
    OrShifted(flag, 1, k);
  }

  /** The flags, each at its place. */
  lemma FlagsSum(p: Packet)
    requires p.Connect? && p.willQos <= 3
    ensures Flags(p) == (if p.cleanSession || p.clientId == [] then 2 else 0)
                        + (if p.isWill then 4 + 8 * p.willQos + (if p.willRetain then 32 else 0) else 0)
                        + (if p.password != [] then 64 else 0) + (if p.username != [] then 128 else 0)
  {
    hide Or, And, SetBits, Or8;
    var clean := SetBits(0, p.cleanSession || p.clientId == [], 0x02);
    SetBitsAdds(0, p.cleanSession || p.clientId == [], 1);
    var will := clean;
    if p.isWill {
      will := SetBits(Or8(Or8(clean, 0x04), ToByte(Shl(p.willQos, 3))), p.willRetain, 0x20);
      WillSum(clean, p.willQos, p.willRetain);
    }
    SetBitsAdds(will, p.password != [], 6);
    SetBitsAdds(SetBits(will, p.password != [], 0x40), p.username != [], 7);
  }

  lemma WillSum(clean: byte, willQos: byte, willRetain: bool)
    requires clean <= 2 && willQos <= 3
    ensures SetBits(Or8(Or8(clean, 0x04), ToByte(Shl(willQos, 3))), willRetain, 0x20)
            == clean + 4 + 8 * willQos + if willRetain then 32 else 0
  {
    hide Or, And, SetBits, Or8;
    var marked := Or8(clean, 0x04);
    OrAdds(clean, 1, 2);
    OrAdds(marked, willQos, 3);
    assert ToByte(Shl(willQos, 3)) == 8 * willQos;
    SetBitsAdds(Or8(marked, ToByte(Shl(willQos, 3))), willRetain, 5);
  }

  lemma OrAdds(flag: byte, x: byte, k: nat)
    requires flag < Shl(1, k) && flag + Shl(x, k) < 256
    ensures Or8(flag, ToByte(Shl(x, k))) == flag + Shl(x, k)
  {
    hide Or, Shl;
    OrShifted(flag, x, k);
  }

  /** The first byte of a publish packet. */
  lemma PublishFirstSum(p: Packet)
    requires p.Publish? && p.qos <= 3
    ensures PublishFirst(p) == 48 + 8 * BoolToByte(p.isDup) + 2 * p.qos + BoolToByte(p.isRetain)
  {
    hide Or, Body;
    PublishBits(BoolToByte(p.isDup), BoolToByte(p.isRetain), p.qos);
  }

  lemma PublishBits(d: nat, r: nat, q: nat)
    requires d <= 1 && r <= 1 && q <= 3
    ensures Or(48, 8 * d) == 48 + 8 * d
    ensures Or(48 + 8 * d, r) == 48 + 8 * d + r
    ensures Or(48 + 8 * d + r, 2 * q) == 48 + 8 * d + r + 2 * q
  {
    hide Or;
    OrShifted(8 * d, 3, 4);
    OrShifted(r, 6 + d, 3);
    OrShifted(q, 6 + d, 2);
    assert Shl(3, 4) == 48 && Shl(6 + d, 3) == 48 + 8 * d && Shl(6 + d, 2) == 24 + 4 * d;
    OrStep(24 + 4 * d, r, q, 0);
    OrCommutes(8 * d, 48);
    OrCommutes(r, 48 + 8 * d);
    OrCommutes(q, 24 + 4 * d);
  }

  lemma OrStep(a: nat, x: nat, b: nat, y: nat)
    requires x <= 1 && y <= 1
    ensures Or(2 * a + x, 2 * b + y) == 2 * Or(a, b) + if x == 1 || y == 1 then 1 else 0
  {
  }

  lemma {:induction false} OrCommutes(a: nat, b: nat)
    ensures Or(a, b) == Or(b, a)
    decreases a + b
  {
    if a != 0 && b != 0 {
      OrCommutes(a / 2, b / 2);
    }
  }

  // Bodies, packet by packet.

  function Optional(present: bool, data: bytes): bytes {
    if present then EncodeBytesWithLen(data) else []
  }

  lemma OptionalBack(present: bool, data: bytes, rest: bytes)
    requires Short(data) && (!present ==> data == [])
    ensures OptionalField(present, Optional(present, data) + rest) == Ok(Field(data, rest))
  {
    hide EncodeBytesWithLen, GetBinaryData;
    if present {
      PropertyLaws.FieldBack(data, rest);
    } else {
      assert [] + rest == rest;
    }
  }

  lemma ConnPayloadNested(p: Packet)
    requires p.Connect?
    ensures ConnPayload(p)
            == EncodeBytesWithLen(p.clientId)
               + (Optional(p.isWill, p.willTopic)
                  + (Optional(p.isWill, p.willMessage)
                     + (Optional(p.username != [], p.username) + (Optional(p.password != [], p.password) + []))))
  {
    hide EncodeBytesWithLen;
    Nested(EncodeBytesWithLen(p.clientId), Optional(p.isWill, p.willTopic), Optional(p.isWill, p.willMessage),
           Optional(p.username != [], p.username), Optional(p.password != [], p.password));
  }

  lemma Nested(a: bytes, b: bytes, c: bytes, d: bytes, e: bytes)
    ensures a + (b + (c + (d + (e + [])))) == a + (b + c) + d + e
  {
  }

  lemma ConnFieldsBack(p: Packet)
    requires p.Connect? && WellFormed(p)
    ensures ParseConnFields(p.isWill, p.username != [], p.password != [], ConnPayload(p))
            == Ok(ConnFields(p.clientId, p.willTopic, p.willMessage, p.username, p.password))
  {
    hide EncodeBytesWithLen, GetBinaryData, OptionalField, Body, ConnPayload, Optional;
    var pass := Optional(p.password != [], p.password) + [];
    var user := Optional(p.username != [], p.username) + pass;
    var message := Optional(p.isWill, p.willMessage) + user;
    var topic := Optional(p.isWill, p.willTopic) + message;
    ConnPayloadNested(p);
    PropertyLaws.FieldBack(p.clientId, topic);
    OptionalBack(p.isWill, p.willTopic, message);
    OptionalBack(p.isWill, p.willMessage, user);
    OptionalBack(p.username != [], p.username, pass);
    OptionalBack(p.password != [], p.password, []);
  }

  lemma WordLength(v: u16)
    ensures |PutUint16(v)| == 2
  {
  }

  lemma {:induction false} ConnFlagsBack(p: Packet)
    requires p.Connect? && WellFormed(p)
    ensures var f := Flags(p);
      && HasBits(f, 0x02) == p.cleanSession
      && HasBits(f, 0x04) == p.isWill
      && BitField(f, 0x18, 3) == p.willQos
      && HasBits(f, 0x20) == p.willRetain
      && HasBits(f, 0x40) == (p.password != [])
      && HasBits(f, 0x80) == (p.username != [])
  {
    hide HasBits, BitField, Flags, Body;
    FlagsSum(p);
    ReadsConnFlags(Flags(p));
    SevenBits(BoolToByte(p.cleanSession), BoolToByte(p.isWill), p.willQos, BoolToByte(p.willRetain),
              BoolToByte(p.password != []), BoolToByte(p.username != []));
  }

  lemma SevenBits(c: nat, w: nat, q: nat, r: nat, p: nat, u: nat)
    requires c <= 1 && w <= 1 && q <= 3 && r <= 1 && p <= 1 && u <= 1
    ensures var f := 2 * c + 4 * w + 8 * q + 32 * r + 64 * p + 128 * u;
      && f / 2 % 2 == c && f / 4 % 2 == w && f / 8 % 4 == q
      && f / 32 % 2 == r && f / 64 % 2 == p && f / 128 % 2 == u
  {
    var f := 2 * c + 4 * w + 8 * q + 32 * r + 64 * p + 128 * u;
    assert f / 2 == c + 2 * (w + 2 * q + 8 * r + 16 * p + 32 * u);
    assert f / 4 == w + 2 * (q + 4 * r + 8 * p + 16 * u);
    assert f / 8 == q + 4 * (r + 2 * p + 4 * u);
    assert f / 32 == r + 2 * (p + 2 * u);
    assert f / 64 == p + 2 * u;
  }

  lemma PublishHeaderBack(p: Packet)
    requires p.Publish? && WellFormed(p)
    ensures var h := PublishFirst(p);
      && HasBits(h, 0x08) == p.isDup
      && HasBits(h, 0x01) == p.isRetain
      && BitField(h, 0x06, 1) == p.qos
      && Shr(h, 4) == CTRL_PUBLISH
  {
    hide HasBits, BitField, PublishFirst, Body, Shr;
    PublishFirstSum(p);
    ReadsHeader(PublishFirst(p));
  }

  lemma {:induction false} ConnBack(p: Packet)
    requires p.Connect? && WellFormed(p)
    ensures ParseConn(Body(p)) == Ok(p)
  {
    hide ConnPayload, GetBinaryData, HasBits, BitField, Flags, ParseConnFields, PutUint16, GetUint16;
    assert |PutUint16(p.keepalive)| == 2 by { WordLength(p.keepalive); }
    var payload := ConnPayload(p);
    var head := [V311, Flags(p)] + PutUint16(p.keepalive) + payload;
    assert EncodeBytesWithLen(PROTOCOL_NAME) == [0, 4] + PROTOCOL_NAME;
    assert Body(p) == EncodeBytesWithLen(PROTOCOL_NAME) + head;
    PropertyLaws.FieldBack(PROTOCOL_NAME, head);
    assert head[4..] == payload;
    assert head[2..4] == PutUint16(p.keepalive);
    ConnFlagsBack(p);
    GetPutUint16(p.keepalive, []);
    assert PutUint16(p.keepalive) + [] == PutUint16(p.keepalive);
    ConnFieldsBack(p);
  }

  lemma {:induction false} PublishBack(p: Packet)
    requires p.Publish? && WellFormed(p)
    ensures ParsePublish(PublishFirst(p), Body(p)) == Ok(p)
  {
    hide EncodeBytesWithLen, GetBinaryData, HasBits, BitField, PublishFirst;
    var rest := (if p.qos > 0 then PutUint16(p.packetId) else []) + p.payload;
    assert Body(p) == EncodeBytesWithLen(p.topicName) + rest;
    PropertyLaws.FieldBack(p.topicName, rest);
    PublishHeaderBack(p);
    if p.qos > 0 {
      GetPutUint16(p.packetId, p.payload);
    } else {
      assert rest == p.payload;
    }
  }

  lemma {:induction false} TopicsBack(topics: seq<Topic>)
    requires forall t :: t in topics ==> Short(t.name)
    ensures ParseTopics(SubscribePayload(topics)) == Ok(topics)
  {
    hide EncodeBytesWithLen, GetBinaryData;
    if topics != [] {
      var t, more := topics[0], SubscribePayload(topics[1..]);
      assert SubscribePayload(topics) == EncodeBytesWithLen(t.name) + ([t.qos] + more);
      PropertyLaws.FieldBack(t.name, [t.qos] + more);
      PropertyLaws.TextLength(t.name);
      assert ([t.qos] + more)[1..] == more;
      TopicsBack(topics[1..]);
      assert [t] + topics[1..] == topics;
    }
  }

  lemma {:induction false} NamesBack(names: seq<bytes>)
    requires forall n :: n in names ==> Short(n)
    ensures ParseNames(UnsubPayload(names)) == Ok(names)
  {
    hide EncodeBytesWithLen, GetBinaryData;
    if names != [] {
      var more := UnsubPayload(names[1..]);
      assert names[0] in names;
      PropertyLaws.FieldBack(names[0], more);
      PropertyLaws.TextLength(names[0]);
      NamesBack(names[1..]);
      assert [names[0]] + names[1..] == names;
    }
  }

  predicate HasBody(p: Packet) {
    !p.PingReq? && !p.PingResp? && !p.Disconnect? && !p.Auth?
  }

  /** Header and body of a well-formed packet are parsed back to it. */
  lemma BodyBack(p: Packet)
    requires WellFormed(p) && HasBody(p)
    ensures |Body(p)| >= 2 && ParseV311(First(p), Body(p)) == Ok(p)
  {
    hide ParseConn, ParsePublish, ConnPayload, Flags, PublishFirst, ParseTopics, ParseNames, HasBits;
    ShrIsDiv(First(p), 4);
    match p {
      case Connect(_, _, _, _, _, _, _, _, _, _, _) => ConnBack(p);
      case ConnAck(present, code) => ReadsHeader(BoolToByte(present));
      case Publish(_, _, _, _, _, _) => PublishBack(p); PublishHeaderBack(p);
      case PubAck(id) => GetPutUint16(id, []);
      case PubRecv(id) => GetPutUint16(id, []);
      case PubRel(id) => GetPutUint16(id, []);
      case PubComp(id) => GetPutUint16(id, []);
      case Subscribe(id, topics) => GetPutUint16(id, SubscribePayload(topics)); TopicsBack(topics);
      case SubAck(id, codes) => GetPutUint16(id, codes);
      case Unsub(id, names) => GetPutUint16(id, UnsubPayload(names)); NamesBack(names);
      case UnsubAck(id) => GetPutUint16(id, []);
    }
  }

  // Whole packets and streams.

  /** Any packet the wire can carry comes back, and what follows it is left alone. */
  lemma {:induction false} PacketRoundTrip(p: Packet, rest: bytes)
    requires WellFormed(p)
    ensures Encode(p).Ok?
    ensures Decode(V311, Encode(p).value + rest) == (Ok(Plain(p)), rest)
  {
    hide Body, First, ParseV311, VarInt.VarInt, VarInt.RemainLength;
    var n := |Body(p)|;
    var s := Encode(p).value + rest;
    assert s[1..] == VarInt.VarInt(n) + (Body(p) + rest);
    VarInt.ReadsEncoded(n, Body(p) + rest);
    if HasBody(p) {
      BodyBack(p);
      assert (Body(p) + rest)[..n] == Body(p);
      assert (Body(p) + rest)[n..] == rest;
    } else {
      BodilessBack(p);
      assert Body(p) + rest == rest;
    }
  }

  lemma BodilessBack(p: Packet)
    requires WellFormed(p) && !HasBody(p)
    ensures Body(p) == [] && Bodiless(V311, First(p)) == Ok(Plain(p))
  {
  }

  function EncodeAll(ps: seq<Packet>): bytes
    requires forall p :: p in ps ==> WellFormed(p)
  {
    if ps == [] then []
    else
      PacketRoundTrip(ps[0], []);
      Encode(ps[0]).value + EncodeAll(ps[1..])
  }

  /** `n` packets off the front of a stream. */
  function DecodeMany(n: nat, s: bytes): Result<(seq<Message>, bytes)> {
    if n == 0 then Ok(([], s))
    else
      var (m, rest) := Decode(V311, s);
      var p :- m;
      var more :- DecodeMany(n - 1, rest);
      Ok(([p] + more.0, more.1))
  }

  function Messages(ps: seq<Packet>): seq<Message> {
    seq(|ps|, i requires 0 <= i < |ps| => Plain(ps[i]))
  }

  /** A stream of packets gives back exactly those packets in order, and the bytes after them. */
  lemma {:induction false} StreamRoundTrip(ps: seq<Packet>, rest: bytes)
    requires forall p :: p in ps ==> WellFormed(p)
    ensures DecodeMany(|ps|, EncodeAll(ps) + rest) == Ok((Messages(ps), rest))
  {
    hide WellFormed, Decode, Encode;
    if ps == [] {
      assert [] + rest == rest;
    } else {
      var more := EncodeAll(ps[1..]) + rest;
      PacketRoundTrip(ps[0], more);
      assert EncodeAll(ps) + rest == Encode(ps[0]).value + more;
      StreamRoundTrip(ps[1..], rest);
      assert Messages(ps) == [Plain(ps[0])] + Messages(ps[1..]);
    }
  }

  /** Framing is unique: bytes that hold `n` packets hold no other `n`, and no other rest. */
  lemma {:induction false} FramingUnique(ps: seq<Packet>, qs: seq<Packet>, x: bytes, y: bytes)
    requires forall p :: p in ps ==> WellFormed(p)
    requires forall q :: q in qs ==> WellFormed(q)
    requires |ps| == |qs| && EncodeAll(ps) + x == EncodeAll(qs) + y
    ensures ps == qs && x == y
  {
    hide EncodeAll, DecodeMany, WellFormed;
    StreamRoundTrip(ps, x);
    StreamRoundTrip(qs, y);
    assert Messages(ps) == Messages(qs);
    forall i | 0 <= i < |ps| ensures ps[i] == qs[i] {
      assert Messages(ps)[i] == Messages(qs)[i];
    }
  }

  /** Hence two streams of the same bytes are the same packets. */
  lemma {:induction false} StreamsInjective(ps: seq<Packet>, qs: seq<Packet>)
    requires forall p :: p in ps ==> WellFormed(p)
    requires forall q :: q in qs ==> WellFormed(q)
    requires EncodeAll(ps) == EncodeAll(qs)
    ensures ps == qs
  {
    hide EncodeAll, WellFormed;
    var n := if |ps| <= |qs| then |ps| else |qs|;
    var p', q' := ps[n..], qs[n..];
    EncodeAllSplit(ps, n);
    EncodeAllSplit(qs, n);
    FramingUnique(ps[..n], qs[..n], EncodeAll(p'), EncodeAll(q'));
    NothingEncoded(p');
    NothingEncoded(q');
    assert EncodeAll([]) == [] by { NothingEncoded([]); }
    assert ps == ps[..n] + p' && qs == qs[..n] + q';
  }

  lemma {:induction false} EncodeAllSplit(ps: seq<Packet>, n: nat)
    requires n <= |ps| && forall p :: p in ps ==> WellFormed(p)
    ensures EncodeAll(ps) == EncodeAll(ps[..n]) + EncodeAll(ps[n..])
  {
    hide WellFormed, Encode, Decode;
    if n > 0 {
      EncodeAllSplit(ps[1..], n - 1);
      assert ps[..n][0] == ps[0] && ps[..n][1..] == ps[1..][..n - 1];
      assert ps[1..][n - 1..] == ps[n..];
    } else {
      assert ps[..0] == [] && ps[0..] == ps;
    }
  }

  lemma NothingEncoded(ps: seq<Packet>)
    requires forall p :: p in ps ==> WellFormed(p)
    ensures EncodeAll(ps) == [] <==> ps == []
  {
    hide WellFormed, Decode, Encode;
    if ps != [] {
      PacketRoundTrip(ps[0], []);
      EncodeNonEmpty(ps[0]);
    }
  }

  lemma EncodeNonEmpty(p: Packet)
    requires Encode(p).Ok?
    ensures Encode(p).value != []
  {
  }
}
