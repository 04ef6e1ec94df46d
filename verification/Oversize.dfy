/** What becomes of a topic too long for its two length bytes: the peer reads another packet, and can
    acknowledge a message that was never written. */
module Oversize {
  import opened ArbitraryPeer
  import opened Bytes
  import opened Codec
  import opened Encoder
  import opened Exchange
  import opened Line
  import opened Packets
  import opened RoundTrip
  import opened Session
  import FirstRequests
  import IdGenerator
  import Keys
  import Ordering
  import P = MemPersist
  import VarInt

  /** The packet read in place of one with an oversize topic: the topic is cut, and what was cut off
      it is taken for the id and the payload. */
  function Misread(p: Packet): Packet
    requires p.Publish? && |p.topicName| > 65535
  {
    var n := |p.topicName| % 0x1_0000;
    var cut := p.topicName[n..];
    var id := if p.qos > 0 then PutUint16(p.packetId) else [];
    if p.qos == 0 then Publish(p.isDup, 0, p.isRetain, p.topicName[..n], 0, cut + p.payload)
    else Publish(p.isDup, p.qos, p.isRetain, p.topicName[..n], GetUint16(cut), cut[2..] + id + p.payload)
  }

  lemma SamePayload(p: Packet)
    requires p.Publish? && p.qos <= 2 && |p.topicName| > 65535
    ensures PublishPayload(Misread(p)) == PublishPayload(p) && PublishFirst(Misread(p)) == PublishFirst(p)
  {
    hide PublishFirst, PutUint16, GetUint16, EncodeBytesWithLen;
    var n := |p.topicName| % 0x1_0000;
    var size, topic, cut := PutUint16(n), p.topicName[..n], p.topicName[n..];
    assert p.topicName == topic + cut;
    Sized(p.topicName);
    Sized(topic);
    if p.qos > 0 {
      WordBack(cut);
      Regrouped(size, topic, cut, PutUint16(p.packetId), p.payload);
    } else {
      assert size + topic + [] + (cut + p.payload) == size + (topic + cut) + [] + p.payload;
    }
    FirstAlike(p, Misread(p));
  }

  lemma Sized(t: bytes)
    ensures EncodeBytesWithLen(t) == PutUint16(|t| % 0x1_0000) + t
    ensures |t| < 0x1_0000 ==> EncodeBytesWithLen(t) == PutUint16(|t|) + t
  {
    Halves(|t|);
  }

  lemma Halves(n: nat)
    ensures PutUint16(n % 0x1_0000) == [ToByte(n / 0x100), ToByte(n)]
    ensures n < 0x1_0000 ==> n % 0x1_0000 == n
  {
    var k, m := n / 0x1_0000, n % 0x1_0000;
    assert n == 0x1_0000 * k + m;
    assert n / 0x100 == 0x100 * k + m / 0x100;
  }

  lemma Regrouped(size: bytes, topic: bytes, cut: bytes, id: bytes, payload: bytes)
    requires |cut| >= 2
    ensures size + topic + cut[..2] + (cut[2..] + id + payload) == size + (topic + cut) + id + payload
  {
    assert cut == cut[..2] + cut[2..];
  }

  lemma WordBack(d: bytes)
    requires |d| >= 2
    ensures PutUint16(GetUint16(d)) == d[..2]
  {
  }

  lemma FirstAlike(p: Packet, q: Packet)
    requires p.Publish? && q.Publish? && p.isDup == q.isDup && p.qos == q.qos && p.isRetain == q.isRetain
    ensures PublishFirst(p) == PublishFirst(q)
  {
  }

  /** Whatever the topic, this is what is read from the bytes written. */
  lemma {:induction false} OversizeReads(p: Packet, rest: bytes)
    requires p.Publish? && p.qos <= 2 && |p.topicName| > 65535 && Encode(p).Ok?
    ensures Decode(V311, Encode(p).value + rest) == (Ok(Plain(Misread(p))), rest)
  {
    hide Decode, PublishPayload, PublishFirst, Misread;
    SamePayload(p);
    assert Encode(Misread(p)) == Encode(p) && WellFormed(Misread(p)) by { MisreadForm(p); }
    PacketRoundTrip(Misread(p), rest);
  }

  lemma MisreadForm(p: Packet)
    requires p.Publish? && p.qos <= 2 && |p.topicName| > 65535 && Encode(p).Ok?
    requires PublishPayload(Misread(p)) == PublishPayload(p) && PublishFirst(Misread(p)) == PublishFirst(p)
    ensures Encode(Misread(p)) == Encode(p) && WellFormed(Misread(p))
  {
    hide PublishPayload, PublishFirst;
  }

  // A run in which this goes wrong.

  lemma Submits(c: Client, st: P.Strategy, p: Packet)
    requires !c.stopped && p.Publish? && p.qos == 1 && p.packetId == 0 && c.gen.nextID < 65535
    requires forall id :: id in c.gen.used ==> FirstRequests.InRange(id, c.gen.nextID)
    ensures var c' := Apply(c, st, DoPublish(p));
      var id := c.gen.nextID + 1;
      var written := WithId(p, id);
      && c'.gen == IdGenerator.State(id, c.gen.used[id := Entry(written, c.nextTag)])
      && c'.nextTag == c.nextTag + 1 && c'.sendCh == c.sendCh + [Sent(written, Call(c.nextTag))]
      && c'.out == c.out && c'.logicCh == c.logicCh && c'.sending == c.sending && c'.stopped == c.stopped
      && Dones(c'.msgs) == Dones(c.msgs)
  {
    hide Dones, Keep, IdGenerator.Next;
    FirstRequests.NextLow(c.gen, Entry(p, c.nextTag));
    var written := WithId(p, c.gen.nextID + 1);
    var (id, gen) := Register(c.gen, p, c.nextTag);
    var c' := Handed(c, gen, written);
    KeepTable(c', st, Keys.SendKey(id), written);
    Ordering.KeepQueues(c', st, Keys.SendKey(id), written);
    KeepStopped(c', st, Keys.SendKey(id), written);
    assert gen.used == c.gen.used[id := Entry(written, c.nextTag)];
  }

  lemma KeepStopped(c: Client, st: P.Strategy, key: string, p: Packet)
    ensures Keep(c, st, key, p).stopped == c.stopped
  {
  }

  lemma LineAtMore(st: P.Strategy, steps: seq<NetStep>, step: NetStep)
    ensures LineAt(st, steps + [step]) == Carry(LineAt(st, steps), st, step)
  {
    assert (steps + [step])[..|steps|] == steps;
  }

  function Calls(first: Packet, second: Packet): seq<NetStep> {
    [Local(DoPublish(first)), Local(DoPublish(second)), Local(DoSendUser)]
  }

  lemma ClientCalls(st: P.Strategy, first: Packet, second: Packet)
    requires first.Publish? && first.qos == 1 && first.packetId == 0
    requires second.Publish? && second.qos == 1 && second.packetId == 0
    ensures var c := Apply(Apply(INIT, st, DoPublish(first)), st, DoPublish(second));
      && c.sendCh == [Sent(WithId(first, 1), Call(0)), Sent(WithId(second, 2), Call(1))]
      && c.out == [] && c.sending && !c.stopped && Dones(c.msgs) == []
      && 2 in c.gen.used && c.gen.used[2] == Entry(WithId(second, 2), 1)
  {
    hide Dones, Apply, WithId;
    assert Dones(INIT.msgs) == [] by { EmptyLedger(); }
    Submits(INIT, st, first);
    Submits(Apply(INIT, st, DoPublish(first)), st, second);
  }

  /** Two QoS 1 calls are made and the first is written. */
  lemma TwoCalls(st: P.Strategy, first: Packet, second: Packet)
    requires first.Publish? && first.qos == 1 && first.packetId == 0
    requires second.Publish? && second.qos == 1 && second.packetId == 0
    requires Encode(WithId(first, 1)).Ok?
    ensures var l := LineAt(st, Calls(first, second)); var c := l.net.client;
      && l.up == Encode(WithId(first, 1)).value && l.down == []
      && c.out == [Sent(WithId(first, 1), Call(0))] && l.net.taken == 0 && l.net.ready == 0
      && l.net.peer == START.peer
      && !c.stopped && Dones(c.msgs) == []
      && 2 in c.gen.used && c.gen.used[2] == Entry(WithId(second, 2), 1)
  {
    hide Dones, Apply, Encode, LineAt, PublishCalls;
    var a, b := Local(DoPublish(first)), Local(DoPublish(second));
    assert [] + [a] == [a] && [a] + [b] == [a, b] && [a, b] + [Local(DoSendUser)] == Calls(first, second);
    LineAtMore(st, [], a);
    LineAtMore(st, [a], b);
    LineAtMore(st, [a, b], Local(DoSendUser));
    assert LineAt(st, []) == IDLE by { LineStarts(st); }
    ClientCalls(st, first, second);
    SendsFirst(Apply(Apply(INIT, st, DoPublish(first)), st, DoPublish(second)), st, WithId(first, 1));
  }

  lemma LineStarts(st: P.Strategy)
    ensures LineAt(st, []) == IDLE
  {
  }

  lemma SendsFirst(c: Client, st: P.Strategy, p: Packet)
    requires !c.stopped && c.sending && c.sendCh != [] && c.sendCh[0].packet == p
    requires p.Publish? && p.qos == 1 && Encode(p).Ok?
    ensures Apply(c, st, DoSendUser) == c.(sendCh := c.sendCh[1..], out := c.out + [c.sendCh[0]])
    ensures Written(c, DoSendUser) == Encode(p).value
  {
    hide Encode;
  }

  /** With a topic of 65538 bytes of which the third and fourth are 0 and 2, the peer acknowledges
      identifier 2, and the client reports the second message, which it has not even written. */
  lemma {:induction false} OversizeMisreports(st: P.Strategy, topic: bytes, second: Packet)
    requires |topic| == 65538 && topic[2] == 0 && topic[3] == 2
    requires second.Publish? && second.qos == 1 && second.packetId == 0
    ensures var first := Publish(false, 1, false, topic, 0, []);
      var n := LineAt(st, Calls(first, second) + [PeerTakes([]), PeerSends(0), Deliver]).net;
      && PubAcked(1, 1, second.topicName) in Dones(n.client.msgs)
      && (forall s :: s in n.client.out ==> s.mark != Call(1))
      && (forall s :: s in n.peer.accepted ==> s.mark != Call(1))
  {
    hide Dones, Encode, Decode, Misread, LineAt, Apply;
    var first := Publish(false, 1, false, topic, 0, []);
    var written := WithId(first, 1);
    assert Encode(written).Ok? by { ShortEnough(written); }
    var steps := Calls(first, second);
    TwoCalls(st, first, second);
    LineAtMore(st, steps, PeerTakes([]));
    LineAtMore(st, steps + [PeerTakes([])], PeerSends(0));
    LineAtMore(st, steps + [PeerTakes([])] + [PeerSends(0)], Deliver);
    assert steps + [PeerTakes([])] + [PeerSends(0)] + [Deliver] == steps + [PeerTakes([]), PeerSends(0), Deliver];
    OversizeReads(written, []);
    assert Encode(written).value + [] == Encode(written).value;
    assert Misread(written).Publish? && Misread(written).qos == 1 && Misread(written).packetId == 2
      by { MisreadId(written); }
    var l := LineAt(st, steps + [PeerTakes([])]);
    AckRead();
    assert l.net.peer.back == [Sent(PubAck(2), Call(0))] && l.net.ready == 0;
    AckSent(l, st);
    Reports(l.net.client, st, second.topicName);
  }

  lemma ShortEnough(p: Packet)
    requires p.Publish? && |p.topicName| == 65538 && p.payload == []
    ensures Encode(p).Ok?
  {
    hide PublishFirst;
    assert |Body(p)| <= 65542;
  }

  lemma MisreadId(p: Packet)
    requires p.Publish? && p.qos == 1 && |p.topicName| == 65538 && p.topicName[2] == 0 && p.topicName[3] == 2
    ensures Misread(p).Publish? && Misread(p).qos == 1 && Misread(p).packetId == 2
  {
    assert 65538 % 0x1_0000 == 2;
    assert p.topicName[2..][0] == 0 && p.topicName[2..][1] == 2;
  }

  lemma AckRead()
    ensures Encode(PubAck(2)).Ok? && ReadPacket(Encode(PubAck(2)).value) == Some((PubAck(2), []))
    ensures Content(PubAck(2)) == Encode(PubAck(2)).value
    ensures Stream([Sent(PubAck(2), Call(0))]) == Encode(PubAck(2)).value
  {
    hide Encode, Decode;
    assert WellFormed(PubAck(2)) by { AnswerWellFormed(PubAck(2)); }
    PacketRoundTrip(PubAck(2), []);
    assert Encode(PubAck(2)).value + [] == Encode(PubAck(2)).value;
    StreamOne(Sent(PubAck(2), Call(0)));
  }

  lemma AckSent(l: Line, st: P.Strategy)
    requires l.net.peer.back == [Sent(PubAck(2), Call(0))] && l.net.ready == 0 && l.down == []
    ensures var l' := Carry(l, st, PeerSends(0));
      l'.net == l.net.(ready := 1) && l'.down == Content(PubAck(2))
  {
    hide Content;
    assert Overtake(l.net.peer.back, 0, 0) == l.net.peer.back;
  }

  lemma Reports(c: Client, st: P.Strategy, topic: bytes)
    requires !c.stopped && 2 in c.gen.used && c.gen.used[2].tag == 1
    requires var p := c.gen.used[2].packet; p.Publish? && p.qos == 1 && p.topicName == topic
    ensures PubAcked(1, 1, topic) in Dones(Apply(c, st, DoReceive(PubAck(2))).msgs)
    ensures Apply(c, st, DoReceive(PubAck(2))).out == c.out
  {
    hide Dones;
    StepsTable(c, st, DoReceive(PubAck(2)));
    assert Matches(c, DoReceive(PubAck(2)));
  }
}
