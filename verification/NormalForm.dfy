/** What re-encoding does to packets that were decoded from arbitrary bytes. */
module NormalForm {
  import opened Bytes
  import opened Codec
  import opened Decoder
  import opened Encoder
  import opened Packets
  import opened RoundTrip
  import PropertyLaws
  import Streams
  import VarInt

  /** The three corrections re-encoding makes: the protocol name, the clean session of an empty
      client id, and will bits without a will. */
  function Norm(p: Packet): Packet {
    match p
    case Connect(_, clean, isWill, willQos, willRetain, _, clientId, _, _, _, _) =>
      p.(protoName := PROTOCOL_NAME,
         cleanSession := clean || clientId == [],
         willQos := if isWill then willQos else 0,
         willRetain := isWill && willRetain)
    case _ => p
  }

  lemma {:induction false} NormIdempotent(p: Packet)
    ensures Norm(Norm(p)) == Norm(p)
  {
  }

  lemma {:induction false} TopicsParsed(body: bytes)
    requires ParseTopics(body).Ok?
    ensures var topics := ParseTopics(body).value;
      |SubscribePayload(topics)| == |body| && forall t :: t in topics ==> Short(t.name)
    decreases |body|
  {
    if body != [] {
      var name := GetBinaryData(body).value;
      var rest := name.next[1..];
      TopicsParsed(rest);
      var topics := ParseTopics(body).value;
      assert topics[1..] == ParseTopics(rest).value;
    }
  }

  lemma {:induction false} NamesParsed(body: bytes)
    requires ParseNames(body).Ok?
    ensures var names := ParseNames(body).value;
      |UnsubPayload(names)| == |body| && forall n :: n in names ==> Short(n)
    decreases |body|
  {
    if body != [] {
      var name := GetBinaryData(body).value;
      NamesParsed(name.next);
      var names := ParseNames(body).value;
      assert names[1..] == ParseNames(name.next).value;
    }
  }

  predicate ConnShort(p: Packet)
    requires p.Connect?
  {
    Short(p.clientId) && Short(p.willTopic) && Short(p.willMessage) && Short(p.username) && Short(p.password)
  }

  lemma ConnSize(p: Packet)
    requires p.Connect? && ConnShort(p)
    ensures |ConnHeader(p, V311) + ConnPayload(p)| <= VarInt.MAX_MSG_SIZE
  {
    hide EncodeBytesWithLen, Flags;
    PropertyLaws.TextLength(p.clientId);
    PropertyLaws.TextLength(p.willTopic);
    PropertyLaws.TextLength(p.willMessage);
    PropertyLaws.TextLength(p.username);
    PropertyLaws.TextLength(p.password);
  }

  lemma ConnFieldsParsed(isWill: bool, hasUsername: bool, hasPassword: bool, data: bytes)
    requires ParseConnFields(isWill, hasUsername, hasPassword, data).Ok?
    ensures var f := ParseConnFields(isWill, hasUsername, hasPassword, data).value;
      && Short(f.clientId) && Short(f.willTopic) && Short(f.willMessage) && Short(f.username) && Short(f.password)
      && (!isWill ==> f.willTopic == [] && f.willMessage == [])
  {
  }

  lemma NormWritten(p: Packet)
    requires p.Connect?
    ensures ConnPayload(p) == ConnPayload(Norm(p)) && Flags(p) == Flags(Norm(p))
  {
    hide EncodeBytesWithLen, Or8;
  }

  lemma ConnParsed(body: bytes)
    requires ParseConn(body).Ok?
    ensures var p := ParseConn(body).value; p.Connect? && WellFormed(Norm(p))
  {
    hide HasBits, BitField, ConnHeader, ConnPayload, ParseConnFields;
    var p := ParseConn(body).value;
    var head := GetBinaryData(body).value.next;
    ReadsConnFlags(head[1]);
    ConnFieldsParsed(p.isWill, HasBits(head[1], 0x80), HasBits(head[1], 0x40), head[4..]);
    ConnSize(Norm(p));
  }

  lemma PublishParsed(header: byte, body: bytes)
    requires ParsePublish(header, body).Ok?
    ensures var p := ParsePublish(header, body).value;
      && p.Publish? && p.qos <= 3 && Short(p.topicName) && (p.qos == 0 ==> p.packetId == 0)
      && |PublishPayload(p)| == |body|
  {
    hide HasBits, BitField;
    ReadsHeader(header);
    var topic := GetBinaryData(body).value;
    PropertyLaws.TextLength(topic.data);
  }

  /** A decoded packet and its normal form are written alike, and the latter is well formed. */
  lemma ParsedNormal(header: byte, body: bytes)
    requires 2 <= |body| <= VarInt.MAX_MSG_SIZE && ParseV311(header, body).Ok?
    ensures var p := ParseV311(header, body).value;
      WellFormed(Norm(p)) && Encode(p) == Encode(Norm(p))
  {
    hide ParseConn, ParsePublish, ParseTopics, ParseNames, ConnPayload, Flags, PublishPayload, SubscribePayload,
      UnsubPayload, VarInt.Encode, PublishFirst;
    var p := ParseV311(header, body).value;
    var kind := Shr(header, 4);
    if kind == CTRL_CONN {
      ConnParsed(body);
      NormWritten(p);
    } else if kind == CTRL_PUBLISH {
      PublishParsed(header, body);
    } else if kind == CTRL_SUBSCRIBE {
      TopicsParsed(body[2..]);
    } else if kind == CTRL_UN_SUB {
      NamesParsed(body[2..]);
    }
  }

  lemma BodilessNormal(p: Packet, header: byte)
    requires Bodiless(V311, header) == Ok(Plain(p))
    ensures Norm(p) == p && WellFormed(p)
  {
  }

  lemma DecodedNormal(s: bytes)
    requires Decode(V311, s).0.Ok?
    ensures Decode(V311, s).0.value.Plain?
    ensures var p := Decode(V311, s).0.value.packet;
      WellFormed(Norm(p)) && Encode(p) == Encode(Norm(p))
  {
    hide Encode, ParseV311, WellFormed, VarInt.RemainLength, Norm;
    var len := VarInt.RemainLength(s[1..]);
    VarInt.LengthBound(s[1..]);
    if len.length >= 2 {
      ParsedNormal(s[0], len.rest[..len.length]);
    } else {
      BodilessNormal(Decode(V311, s).0.value.packet, s[0]);
    }
  }

  /** Whatever bytes V3.1.1 decoding accepts, the packet encodes again, and the encoding decodes
      to its normal form. */
  lemma {:induction false} AcceptedNormalForm(s: bytes)
    requires Decode(V311, s).0.Ok?
    ensures Decode(V311, s).0.value.Plain?
    ensures var p := Decode(V311, s).0.value.packet;
      Encode(p).Ok? && Decode(V311, Encode(p).value) == (Ok(Plain(Norm(p))), [])
  {
    hide Encode, WellFormed, Norm, Decode;
    DecodedNormal(s);
    var p := Norm(Decode(V311, s).0.value.packet);
    PacketRoundTrip(p, []);
    assert Encode(p).value + [] == Encode(p).value;
  }

  /** A packet that decoding delivers is left unchanged by re-encoding if and only if it is well formed. */
  lemma {:induction false} NormFixedPoint(s: bytes)
    requires Decode(V311, s).0.Ok?
    ensures Decode(V311, s).0.value.Plain?
    ensures var p := Decode(V311, s).0.value.packet;
      Encode(p).Ok? && (Decode(V311, Encode(p).value) == (Ok(Plain(p)), []) <==> WellFormed(p))
  {
    hide Encode, WellFormed, Decode;
    AcceptedNormalForm(s);
    DecodedNormal(s);
    var p := Decode(V311, s).0.value.packet;
    if WellFormed(p) {
      NormOfWellFormed(p);
    }
  }

  lemma NormOfWellFormed(p: Packet)
    requires WellFormed(p)
    ensures Norm(p) == p
  {
  }

  /** No proper prefix of the encoding of a packet with a body is taken for a packet; the error tells
      whether the input ended between two reads, in the body, or where the length should be. */
  lemma {:induction false} PrefixRejected(p: Packet, k: nat)
    requires WellFormed(p) && HasBody(p) && Encode(p).Ok? && k < |Encode(p).value|
    ensures var header := 1 + |VarInt.VarInt(|Body(p)|)|;
      Decode(V311, Encode(p).value[..k]).0
      == Err(if k == 0 || k == header then EOF else if k < header then DecodeBadPacket else UnexpectedEOF)
  {
    hide Body, First, ParseV311, VarInt.VarInt, VarInt.RemainLength, WellFormed;
    var n := |Body(p)|;
    var e := VarInt.VarInt(n);
    var s := Encode(p).value[..k];
    BodyLong(p);
    if k > |e| {
      assert s[1..] == e + Body(p)[..k - 1 - |e|];
      VarInt.ReadsEncoded(n, Body(p)[..k - 1 - |e|]);
    } else if k > 0 {
      assert s[1..] == e[..k - 1];
      VarInt.CutShort(n, k - 1);
      assert s[0] == First(p);
    }
  }

  lemma BodyLong(p: Packet)
    requires WellFormed(p) && HasBody(p)
    ensures 2 <= |Body(p)| <= VarInt.MAX_MSG_SIZE
    ensures Bodiless(V311, First(p)) == Err(DecodeBadPacket)
  {
    BodyBack(p);
    hide ParseV311, Body, PublishFirst;
    if p.Publish? {
      PublishHeaderBack(p);
    }
  }

  /** A missing length field is taken for zero: a lone header byte is a packet exactly when it
      announces a ping or, in this version, a disconnect. */
  lemma {:induction false} LoneHeader(header: byte)
    ensures Decode(V311, [header])
            == (if header / 16 == 12 then Ok(Plain(PingReq))
                else if header / 16 == 13 then Ok(Plain(PingResp))
                else if header / 16 == 14 then Ok(Plain(Disconnect))
                else Err(DecodeBadPacket), [])
  {
    hide VarInt.RemainLength;
    VarInt.CutShort(0, 0);
    assert [header][1..] == VarInt.VarInt(0)[..0];
    ShrIsDiv(header, 4);
    hide Shr;
  }

  /** With a length of zero pings are packets in both versions, DISCONNECT only in this one; with a
      length of one nothing is. */
  lemma {:induction false} ShortestPackets(version: byte, header: byte, rest: bytes)
    ensures Decode(version, [header, 0] + rest)
            == (if header / 16 == 12 then Ok(Plain(PingReq))
                else if header / 16 == 13 then Ok(Plain(PingResp))
                else if header / 16 == 14 && version == 4 then Ok(Plain(Disconnect))
                else Err(DecodeBadPacket), rest)
    ensures Decode(version, [header, 1] + rest) == (Err(DecodeBadPacket), rest)
  {
    hide VarInt.RemainLength;
    VarInt.ReadsEncoded(0, rest);
    VarInt.ReadsEncoded(1, rest);
    assert ([header, 0] + rest)[1..] == VarInt.VarInt(0) + rest;
    assert ([header, 1] + rest)[1..] == VarInt.VarInt(1) + rest;
    ShrIsDiv(header, 4);
    hide Shr;
  }
}
