/** What the session tells the user and keeps for incoming messages, packet by packet and over whole runs. */
module Notices {
  import opened ArbitraryPeer
  import opened Bytes
  import opened Keys
  import opened Packets
  import opened Session
  import Encoder
  import IdGenerator
  import Ordering
  import P = MemPersist

  // Messages of level 0 are reported when they are written.

  datatype Note = Note(tag: nat, topic: bytes)

  /** The messages reported as written, in order. */
  function WrittenNotes(ms: seq<Msg>): seq<Note> {
    if ms == [] then []
    else
      var m := ms[|ms| - 1];
      WrittenNotes(ms[..|ms| - 1]) + if m.PubWritten? then [Note(m.tag, m.topic)] else []
  }

  /** The user's messages of level 0 among packets written, in order. */
  function ZeroNotes(ss: seq<Sent>): seq<Note> {
    if ss == [] then []
    else
      var s := ss[|ss| - 1];
      ZeroNotes(ss[..|ss| - 1])
      + if s.mark.Call? && s.packet.Publish? && s.packet.qos == 0 then [Note(s.mark.tag, s.packet.topicName)] else []
  }

  lemma WrittenLast(ms: seq<Msg>, m: Msg)
    ensures WrittenNotes(ms + [m]) == WrittenNotes(ms) + if m.PubWritten? then [Note(m.tag, m.topic)] else []
  {
    assert (ms + [m])[..|ms|] == ms;
  }

  lemma ZeroLast(ss: seq<Sent>, s: Sent)
    ensures ZeroNotes(ss + [s])
            == ZeroNotes(ss)
               + if s.mark.Call? && s.packet.Publish? && s.packet.qos == 0
                 then [Note(s.mark.tag, s.packet.topicName)] else []
  {
    assert (ss + [s])[..|ss|] == ss;
  }

  ghost predicate ZeroesTold(c: Client) {
    WrittenNotes(c.msgs) == ZeroNotes(c.out)
  }

  lemma KeepTold(c: Client, st: P.Strategy, key: string, p: Packet)
    ensures WrittenNotes(Keep(c, st, key, p).msgs) == WrittenNotes(c.msgs) && Keep(c, st, key, p).out == c.out
  {
    hide P.Store, WrittenNotes;
    WrittenLast(c.msgs, PersistFailed(p));
    assert WrittenNotes(c.msgs) + [] == WrittenNotes(c.msgs);
  }

  lemma SubmitTold(c: Client, st: P.Strategy, p: Packet)
    requires ZeroesTold(c)
    ensures ZeroesTold(Submit(c, st, p))
  {
    hide WrittenNotes, ZeroNotes, Keep, Register;
    var (id, gen) := if NeedsId(p) then Register(c.gen, p, c.nextTag) else (0, c.gen);
    var p' := if NeedsId(p) then WithId(p, id) else p;
    KeepTold(Handed(c, gen, p'), st, SendKey(id), p');
  }

  lemma SendUserTold(c: Client)
    requires ZeroesTold(c)
    ensures ZeroesTold(SendUser(c))
  {
    hide WrittenNotes, ZeroNotes, Encoder.Encode;
    if c.sendCh != [] {
      var s := c.sendCh[0];
      ZeroLast(c.out, s);
      if s.mark.Call? && s.packet.Publish? {
        WrittenLast(c.msgs, PubWritten(s.mark.tag, s.packet.topicName));
      }
      assert ZeroNotes(c.out) + [] == ZeroNotes(c.out);
    }
  }

  lemma SendLogicTold(c: Client, st: P.Strategy)
    requires ZeroesTold(c) && (c.logicCh != [] ==> !c.logicCh[0].mark.Call?)
    ensures ZeroesTold(SendLogic(c, st))
  {
    hide WrittenNotes, ZeroNotes, Encoder.Encode, Keep, P.Delete;
    if c.logicCh != [] {
      var s := c.logicCh[0];
      ZeroLast(c.out, s);
      assert ZeroNotes(c.out) + [] == ZeroNotes(c.out);
      if s.packet.PubRel? {
        KeepTold(c.(logicCh := c.logicCh[1..], out := c.out + [s]), st, SendKey(s.packet.packetId), s.packet);
      }
    }
  }

  lemma CompleteTold(c: Client, id: u16, ack: Packet)
    requires id in c.gen.used && Completes(c.gen.used[id].packet, ack) && ZeroesTold(c)
    ensures ZeroesTold(Complete(c, id, ack))
  {
    hide WrittenNotes, ZeroNotes, Granted, P.Delete;
    WrittenLast(c.msgs, DoneMsg(c.gen.used[id], ack));
    assert WrittenNotes(c.msgs) + [] == WrittenNotes(c.msgs);
  }

  lemma ReceiveTold(c: Client, st: P.Strategy, p: Packet)
    requires ZeroesTold(c)
    ensures ZeroesTold(Receive(c, st, p))
  {
    hide WrittenNotes, ZeroNotes, Keep, Complete;
    match p
    case SubAck(id, _) => if id in c.gen.used && Completes(c.gen.used[id].packet, p) { CompleteTold(c, id, p); }
    case UnsubAck(id) => if id in c.gen.used && Completes(c.gen.used[id].packet, p) { CompleteTold(c, id, p); }
    case PubAck(id) => if id in c.gen.used && Completes(c.gen.used[id].packet, p) { CompleteTold(c, id, p); }
    case Publish(_, qos, _, _, id, _) =>
      var c' := c.(recvCh := c.recvCh + [p]);
      KeepTold(Queue(c', PubAck(id), Other), st, RecvKey(id), p);
      KeepTold(Queue(c', PubRecv(id), Other), st, RecvKey(id), p);
    case PubRel(id) => KeepTold(Queue(c, PubComp(id), Other), st, RecvKey(id), p);
    case PubComp(id) =>
      if AwaitsRel(c, id) { CompleteTold(Queue(c, PubRel(id), LastRel(c.gen.used[id].tag)), id, p); }
    case _ =>
  }

  lemma StepTold(c: Client, st: P.Strategy, step: Step)
    requires ZeroesTold(c) && Ordering.Queues(c)
    ensures ZeroesTold(Apply(c, st, step))
  {
    hide ZeroesTold, SendUser, SendLogic, Receive, Submit;
    if !c.stopped {
      match step
      case DoSendUser => SendUserTold(c);
      case DoSendLogic => SendLogicTold(c, st);
      case DoReceive(p) => ReceiveTold(c, st, p);
      case DoKeepalive => QueuedTold(c, PingReq);
      case DoDisconnect => QueuedTold(c, Disconnect);
      case DoStop => StoppedTold(c);
      case _ =>
        match Submitted(step) {
          case Some(p) => SubmitTold(c, st, p);
          case None =>
        }
    }
  }

  lemma QueuedTold(c: Client, p: Packet)
    requires ZeroesTold(c)
    ensures ZeroesTold(Session.Queue(c, p, Other))
  {
  }

  lemma StoppedTold(c: Client)
    requires ZeroesTold(c)
    ensures ZeroesTold(c.(stopped := true))
  {
  }

  /** In every run, the user is told of exactly the level 0 messages that were written, each once, with its call
      number and topic, in the order they were written. */
  lemma {:induction false} ZeroesReported(st: P.Strategy, steps: seq<Step>)
    ensures WrittenNotes(At(st, steps).msgs) == ZeroNotes(At(st, steps).out)
    decreases |steps|
  {
    hide WrittenNotes, ZeroNotes, Apply;
    if steps == [] {
      assert WrittenNotes([]) == [] && ZeroNotes([]) == [] by { NothingNoted(); }
    } else {
      var before := steps[..|steps| - 1];
      ZeroesReported(st, before);
      Ordering.QueuesHold(st, before);
      StepTold(At(st, before), st, steps[|steps| - 1]);
    }
  }

  lemma NothingNoted()
    ensures WrittenNotes([]) == [] && ZeroNotes([]) == []
  {
  }

  // What an acknowledgement of a subscription tells.

  /** A SUBACK under a subscription's identifier reports it with its topics, each at the level its code
      grants, or as requested where there is no code; frees the identifier, and drops what was stored under
      it. Any other is ignored. */
  lemma {:induction false} SubscriptionGranted(c: Client, st: P.Strategy, id: u16, codes: bytes)
    requires !c.stopped
    ensures var c' := Apply(c, st, DoReceive(SubAck(id, codes)));
      if id in c.gen.used && c.gen.used[id].packet.Subscribe? then
        var e := c.gen.used[id];
        && |c'.msgs| == |c.msgs| + 1 && c'.msgs[..|c.msgs|] == c.msgs
        && var m := c'.msgs[|c.msgs|];
        && m.SubDone? && m.tag == e.tag && |m.topics| == |e.packet.topics|
        && (forall i :: 0 <= i < |m.topics| ==>
              && m.topics[i].name == e.packet.topics[i].name
              && m.topics[i].qos == if i < |codes| then codes[i] else e.packet.topics[i].qos)
        && c'.gen.used == c.gen.used - {id} && c'.store.data == c.store.data - {SendKey(id)}
      else c' == c
  {
  }

  lemma {:induction false} UnsubscriptionReported(c: Client, st: P.Strategy, id: u16)
    requires !c.stopped
    ensures var c' := Apply(c, st, DoReceive(UnsubAck(id)));
      if id in c.gen.used && c.gen.used[id].packet.Unsub? then
        var e := c.gen.used[id];
        && c'.msgs == c.msgs + [UnsubDone(e.tag, e.packet.topicNames)]
        && c'.gen.used == c.gen.used - {id} && c'.store.data == c.store.data - {SendKey(id)}
      else c' == c
  {
  }

  // What is kept of incoming messages.

  /** A message of level 1 or 2, and the release of one, are stored under the identifier as received, replacing what
      was there if the store replaces. A refusal is reported. Nothing else received is stored. */
  lemma {:induction false} IncomingStored(c: Client, st: P.Strategy, p: Packet)
    requires !c.stopped
    ensures var c' := Apply(c, st, DoReceive(p));
      var own := (p.Publish? && (p.qos == 1 || p.qos == 2))
                 || (p.PubRel? && p.packetId in c.gen.used && c.gen.used[p.packetId].packet.Publish?
                     && c.gen.used[p.packetId].packet.qos == 2);
      if own then
        var refused := st.maxCount > 0 && st.dropOnExceed && c.store.n >= st.maxCount;
        var key := RecvKey(p.packetId);
        && c'.msgs == c.msgs + (if refused then [PersistFailed(p)] else [])
        && (refused ==> c'.store == c.store)
        && (!refused ==> c'.store.data == c.store.data[key := if key in c.store.data && !st.duplicateReplace
                                                              then c.store.data[key] else p])
      else c'.store.data.Keys <= c.store.data.Keys
  {
    hide Granted;
    assert c.msgs + [] == c.msgs;
    if !p.Publish? && !p.PubRel? {
      OnlyRemoves(c, st, p);
    }
  }

  lemma OnlyRemoves(c: Client, st: P.Strategy, p: Packet)
    requires !p.Publish? && !p.PubRel?
    ensures Receive(c, st, p).store.data.Keys <= c.store.data.Keys
  {
    hide Granted;
  }

  // What the client answers.

  /** An own QoS 2 message is in flight under the identifier. */
  predicate OwnQos2(c: Client, id: u16) {
    id in c.gen.used && c.gen.used[id].packet.Publish? && c.gen.used[id].packet.qos == 2
  }

  /** Messages are handed over, and answered PUBACK or PUBREC by their level. PUBREC, PUBREL and PUBCOMP are
      answered PUBREL, PUBCOMP and once more PUBREL, all three only under the identifier of an own QoS 2
      message in flight. Nothing else is answered. */
  lemma {:induction false} AnswersQueued(c: Client, st: P.Strategy, p: Packet)
    requires !c.stopped
    ensures var c' := Apply(c, st, DoReceive(p));
      && c'.recvCh == c.recvCh + (if p.Publish? then [p] else [])
      && c'.logicCh
         == c.logicCh
            + if p.Publish? && p.qos == 1 then [Sent(PubAck(p.packetId), Other)]
              else if p.Publish? && p.qos == 2 then [Sent(PubRecv(p.packetId), Other)]
              else if p.PubRecv? && OwnQos2(c, p.packetId) then
                [Sent(PubRel(p.packetId), FirstRel(c.gen.used[p.packetId].tag))]
              else if p.PubRel? && OwnQos2(c, p.packetId) then [Sent(PubComp(p.packetId), Other)]
              else if p.PubComp? && OwnQos2(c, p.packetId) then
                [Sent(PubRel(p.packetId), LastRel(c.gen.used[p.packetId].tag))]
              else []
  {
    hide P.Store, P.Delete, Granted;
    assert c.recvCh + [] == c.recvCh && c.logicCh + [] == c.logicCh;
  }

  // What the client sends by itself.

  lemma SendsOne(c: Client, st: P.Strategy, p: Packet)
    requires !c.stopped && c.sending && c.logicCh == [] && (p.PingReq? || p.Disconnect?)
    ensures var c' := Apply(Session.Queue(c, p, Other), st, DoSendLogic);
      c'.out == c.out + [Sent(p, Other)] && c'.logicCh == [] && c'.stopped == p.Disconnect? && c'.sending
  {
    hide Encoder.Encode;
    Ordering.LogicEncodes(Sent(p, Other));
  }

  /** The keepalive writes a PINGREQ; disconnecting writes a DISCONNECT, after which the client does
      nothing any more. */
  lemma {:induction false} KeepaliveAndDisconnect(c: Client, st: P.Strategy, later: Step)
    requires !c.stopped && c.sending && c.logicCh == []
    ensures Apply(Apply(c, st, DoKeepalive), st, DoSendLogic).out == c.out + [Sent(PingReq, Other)]
    ensures var c' := Apply(Apply(c, st, DoDisconnect), st, DoSendLogic);
      c'.out == c.out + [Sent(Disconnect, Other)] && Apply(c', st, later) == c'
  {
    hide SendLogic;
    SendsOne(c, st, PingReq);
    SendsOne(c, st, Disconnect);
  }
}
