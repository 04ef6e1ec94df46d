/** Message ordering over whole runs, after section 4.6 of MQTT Version 3.1.1: acknowledgements go
    out in the order of the messages they answer, and messages in the order of the calls. */
module Ordering {
  import opened ArbitraryPeer
  import opened Bytes
  import opened Calls
  import opened Keys
  import opened Packets
  import opened Session
  import Encoder
  import IdGenerator
  import P = MemPersist

  /** PUBACK answers a QoS 1 message, PUBREC one of QoS 2. */
  predicate Answers(p: Packet, qos: byte) {
    (qos == 1 && p.PubAck?) || (qos == 2 && p.PubRecv?)
  }

  function Answered(ss: seq<Sent>, qos: byte): seq<u16> {
    if ss == [] then []
    else
      var p := ss[|ss| - 1].packet;
      Answered(ss[..|ss| - 1], qos) + if Answers(p, qos) then [p.packetId] else []
  }

  /** The ids of the messages of a level, in the order of the messages. */
  function Asked(ps: seq<Packet>, qos: byte): seq<u16> {
    if ps == [] then []
    else
      var p := ps[|ps| - 1];
      Asked(ps[..|ps| - 1], qos) + if p.Publish? && p.qos == qos then [p.packetId] else []
  }

  predicate Arrives(c: Client, step: Step) {
    !c.stopped && step.DoReceive? && step.p.Publish?
  }

  /** The messages received in a run until the client stopped. */
  function Arrived(st: P.Strategy, steps: seq<Step>): seq<Packet>
    decreases |steps|
  {
    if steps == [] then []
    else
      var before, last := steps[..|steps| - 1], steps[|steps| - 1];
      Arrived(st, before) + if Arrives(At(st, before), last) then [last.p] else []
  }

  function CallPacket(c: Client, p: Packet): Packet {
    if NeedsId(p) then WithId(p, TakenId(c, p)) else p
  }

  /** The packets the calls of a run submitted, in call order. */
  function Called(st: P.Strategy, steps: seq<Step>): seq<Packet>
    decreases |steps|
  {
    if steps == [] then []
    else
      var before, last := steps[..|steps| - 1], steps[|steps| - 1];
      var p := Calling(At(st, before), last);
      Called(st, before) + if p.Some? then [CallPacket(At(st, before), p.value)] else []
  }

  function UserPackets(ss: seq<Sent>): seq<Packet> {
    if ss == [] then []
    else
      var s := ss[|ss| - 1];
      UserPackets(ss[..|ss| - 1]) + if s.mark.Call? then [s.packet] else []
  }

  lemma AnsweredLast(ss: seq<Sent>, s: Sent, qos: byte)
    ensures Answered(ss + [s], qos) == Answered(ss, qos) + if Answers(s.packet, qos) then [s.packet.packetId] else []
  {
    assert (ss + [s])[..|ss|] == ss;
  }

  lemma {:induction false} AnsweredFirst(ss: seq<Sent>, qos: byte)
    requires ss != []
    ensures Answered(ss, qos)
            == (if Answers(ss[0].packet, qos) then [ss[0].packet.packetId] else []) + Answered(ss[1..], qos)
  {
    if |ss| > 1 {
      AnsweredFirst(ss[..|ss| - 1], qos);
      assert ss[..|ss| - 1][1..] == ss[1..][..|ss| - 2];
    }
  }

  lemma UserPacketsLast(ss: seq<Sent>, s: Sent)
    ensures UserPackets(ss + [s]) == UserPackets(ss) + if s.mark.Call? then [s.packet] else []
  {
    assert (ss + [s])[..|ss|] == ss;
  }

  lemma {:induction false} UserPacketsFirst(ss: seq<Sent>)
    requires ss != []
    ensures UserPackets(ss) == (if ss[0].mark.Call? then [ss[0].packet] else []) + UserPackets(ss[1..])
  {
    if |ss| > 1 {
      UserPacketsFirst(ss[..|ss| - 1]);
      assert ss[..|ss| - 1][1..] == ss[1..][..|ss| - 2];
    }
  }

  lemma AskedLast(ps: seq<Packet>, p: Packet, qos: byte)
    ensures Asked(ps + [p], qos) == Asked(ps, qos) + if p.Publish? && p.qos == qos then [p.packetId] else []
  {
    assert (ps + [p])[..|ps|] == ps;
  }

  // What the queues hold.

  /** Packets of the session logic: none of them is too long to be encoded. */
  predicate LogicSent(s: Sent) {
    && !s.mark.Call?
    && (s.packet.PubAck? || s.packet.PubRecv? || s.packet.PubRel? || s.packet.PubComp?
        || s.packet.PingReq? || s.packet.Disconnect?)
  }

  predicate UserSent(s: Sent) {
    s.mark.Call? && (s.packet.Publish? || s.packet.Subscribe? || s.packet.Unsub?)
  }

  lemma LogicEncodes(s: Sent)
    requires LogicSent(s)
    ensures Encoder.Encode(s.packet).Ok?
  {
    assert |Encoder.Body(s.packet)| <= 2;
  }

  lemma RelEncodes(s: Sent)
    requires s.packet.PubRel?
    ensures Encoder.Encode(s.packet).Ok?
  {
    assert |Encoder.Body(s.packet)| == 2;
  }

  predicate Queues(c: Client) {
    && (forall i :: 0 <= i < |c.sendCh| ==> UserSent(c.sendCh[i]))
    && (forall i :: 0 <= i < |c.logicCh| ==> LogicSent(c.logicCh[i]))
  }

  predicate Sendable(p: Packet) {
    Encoder.Encode(p).Ok?
  }

  predicate InOrder(c: Client, arrived: seq<Packet>, called: seq<Packet>) {
    && Queues(c)
    && c.recvCh == arrived
    && Answered(c.out, 1) + Answered(c.logicCh, 1) == Asked(arrived, 1)
    && Answered(c.out, 2) + Answered(c.logicCh, 2) == Asked(arrived, 2)
    && UserPackets(c.out) <= called
    && (c.sending ==> UserPackets(c.out) + UserPackets(c.sendCh) == called)
    && (!c.sending ==> exists p :: p in called && !Sendable(p))
  }

  // Steps keep the order.

  /** Nothing the order speaks of changes. */
  predicate SameQueues(c: Client, c': Client) {
    && c'.sendCh == c.sendCh && c'.logicCh == c.logicCh && c'.out == c.out
    && c'.recvCh == c.recvCh && c'.sending == c.sending
  }

  lemma SameQueuesOrder(c: Client, c': Client, arrived: seq<Packet>, called: seq<Packet>)
    requires InOrder(c, arrived, called) && SameQueues(c, c')
    ensures InOrder(c', arrived, called)
  {
    hide Answered, Asked, UserPackets, Sendable;
  }

  lemma KeepQueues(c: Client, st: P.Strategy, key: string, p: Packet)
    ensures SameQueues(c, Keep(c, st, key, p))
  {
    hide P.Store;
  }

  lemma QueueOrder(c: Client, p: Packet, mark: Mark, arrived: seq<Packet>, called: seq<Packet>)
    requires InOrder(c, arrived, called) && LogicSent(Sent(p, mark)) && !p.PubAck? && !p.PubRecv?
    ensures InOrder(Queue(c, p, mark), arrived, called)
  {
    hide Answered, Asked, UserPackets, Sendable;
    AnsweredLast(c.logicCh, Sent(p, mark), 1);
    AnsweredLast(c.logicCh, Sent(p, mark), 2);
    assert Answered(c.logicCh, 1) + [] == Answered(c.logicCh, 1);
    assert Answered(c.logicCh, 2) + [] == Answered(c.logicCh, 2);
  }

  lemma SubmitQueues(c: Client, st: P.Strategy, p: Packet)
    ensures SameQueues(c.(sendCh := c.sendCh + [Sent(CallPacket(c, p), Call(c.nextTag))]), Submit(c, st, p))
  {
    hide Register, Keep;
    var (id, gen) := if NeedsId(p) then Register(c.gen, p, c.nextTag) else (0, c.gen);
    var p' := if NeedsId(p) then WithId(p, id) else p;
    KeepQueues(Handed(c, gen, p'), st, SendKey(id), p');
  }

  lemma SubmitOrder(c: Client, st: P.Strategy, p: Packet, arrived: seq<Packet>, called: seq<Packet>)
    requires InOrder(c, arrived, called) && (p.Publish? || p.Subscribe? || p.Unsub?)
    ensures InOrder(Submit(c, st, p), arrived, called + [CallPacket(c, p)])
  {
    hide Answered, Asked, UserPackets, Sendable, Submit, CallPacket;
    var p' := CallPacket(c, p);
    var s := Sent(p', Call(c.nextTag));
    assert UserSent(s) by { CallKind(c, p); }
    SubmitQueues(c, st, p);
    UserPacketsLast(c.sendCh, s);
    assert UserPackets(c.out) + (UserPackets(c.sendCh) + [p']) == (UserPackets(c.out) + UserPackets(c.sendCh)) + [p'];
    if !c.sending {
      var q :| q in called && !Sendable(q);
      assert q in called + [p'];
    }
  }

  lemma CallKind(c: Client, p: Packet)
    requires p.Publish? || p.Subscribe? || p.Unsub?
    ensures var p' := CallPacket(c, p); p'.Publish? || p'.Subscribe? || p'.Unsub?
  {
    hide TakenId;
  }

  lemma SendUserOrder(c: Client, arrived: seq<Packet>, called: seq<Packet>)
    requires InOrder(c, arrived, called) && c.sending
    ensures InOrder(SendUser(c), arrived, called)
  {
    hide Answered, Asked, UserPackets, Encoder.Encode;
    if c.sendCh != [] {
      var s := c.sendCh[0];
      assert UserSent(s);
      UserPacketsFirst(c.sendCh);
      if Sendable(s.packet) {
        AnsweredLast(c.out, s, 1);
        AnsweredLast(c.out, s, 2);
        assert Answered(c.out, 1) + [] == Answered(c.out, 1);
        assert Answered(c.out, 2) + [] == Answered(c.out, 2);
        UserPacketsLast(c.out, s);
        var written, rest := UserPackets(c.out), UserPackets(c.sendCh[1..]);
        assert written + ([s.packet] + rest) == (written + [s.packet]) + rest;
      } else {
        assert called[|UserPackets(c.out)|] == s.packet;
      }
    }
  }

  lemma SendLogicQueues(c: Client, st: P.Strategy)
    requires c.logicCh != [] && LogicSent(c.logicCh[0])
    ensures SameQueues(c.(logicCh := c.logicCh[1..], out := c.out + [c.logicCh[0]]), SendLogic(c, st))
  {
    hide P.Store, P.Delete, Keep, Encoder.Encode;
    var s := c.logicCh[0];
    LogicEncodes(s);
    if s.packet.PubRel? {
      KeepQueues(c.(logicCh := c.logicCh[1..], out := c.out + [s]), st, SendKey(s.packet.packetId), s.packet);
    }
  }

  lemma SendLogicOrder(c: Client, st: P.Strategy, arrived: seq<Packet>, called: seq<Packet>)
    requires InOrder(c, arrived, called)
    ensures InOrder(SendLogic(c, st), arrived, called)
  {
    hide Answered, Asked, UserPackets, Sendable;
    if c.logicCh != [] {
      var s, rest := c.logicCh[0], c.logicCh[1..];
      assert InOrder(c.(logicCh := rest, out := c.out + [s]), arrived, called) by {
        hide SendLogic;
        MovesAnswer(c.out, c.logicCh, 1);
        MovesAnswer(c.out, c.logicCh, 2);
        UserPacketsLast(c.out, s);
        assert UserPackets(c.out) + [] == UserPackets(c.out);
      }
      SendLogicQueues(c, st);
      SameQueuesOrder(c.(logicCh := rest, out := c.out + [s]), SendLogic(c, st), arrived, called);
    }
  }

  lemma MovesAnswer(out: seq<Sent>, queue: seq<Sent>, qos: byte)
    requires queue != []
    ensures Answered(out + [queue[0]], qos) + Answered(queue[1..], qos) == Answered(out, qos) + Answered(queue, qos)
  {
    hide Answered;
    AnsweredLast(out, queue[0], qos);
    AnsweredFirst(queue, qos);
  }

  lemma PublishOrder(c: Client, st: P.Strategy, p: Packet, arrived: seq<Packet>, called: seq<Packet>)
    requires InOrder(c, arrived, called) && p.Publish?
    ensures InOrder(Receive(c, st, p), arrived + [p], called)
  {
    hide Answered, Asked, UserPackets, Sendable, Keep;
    AskedLast(arrived, p, 1);
    AskedLast(arrived, p, 2);
    var c' := c.(recvCh := c.recvCh + [p]);
    var id := p.packetId;
    var answer := if p.qos == 1 then PubAck(id) else PubRecv(id);
    if p.qos == 1 || p.qos == 2 {
      var q := Queue(c', answer, Other);
      AnsweredLast(c.logicCh, Sent(answer, Other), 1);
      AnsweredLast(c.logicCh, Sent(answer, Other), 2);
      KeepQueues(q, st, RecvKey(id), p);
      assert InOrder(q, arrived + [p], called) by {
        Appends(Answered(c.out, 1), Answered(c.logicCh, 1), id);
        Appends(Answered(c.out, 2), Answered(c.logicCh, 2), id);
      }
      SameQueuesOrder(q, Keep(q, st, RecvKey(id), p), arrived + [p], called);
    } else {
      assert Asked(arrived, 1) + [] == Asked(arrived, 1) && Asked(arrived, 2) + [] == Asked(arrived, 2);
    }
  }

  lemma Appends<T>(xs: seq<T>, ys: seq<T>, y: T)
    ensures xs + (ys + [y]) == (xs + ys) + [y]
    ensures xs + (ys + []) == (xs + ys) + []
  {
  }

  lemma ReceiveOrder(c: Client, st: P.Strategy, p: Packet, arrived: seq<Packet>, called: seq<Packet>)
    requires InOrder(c, arrived, called) && !p.Publish?
    ensures InOrder(Receive(c, st, p), arrived, called)
  {
    hide InOrder, P.Delete, Keep, DoneMsg;
    match p
    case PubRecv(id) =>
      if AwaitsRel(c, id) { QueueOrder(c, PubRel(id), FirstRel(c.gen.used[id].tag), arrived, called); }
    case PubRel(id) =>
      if AwaitsRel(c, id) {
        var c' := Queue(c, PubComp(id), Other);
        QueueOrder(c, PubComp(id), Other, arrived, called);
        KeepQueues(c', st, RecvKey(id), p);
        SameQueuesOrder(c', Keep(c', st, RecvKey(id), p), arrived, called);
      }
    case PubComp(id) =>
      if AwaitsRel(c, id) {
        var c' := Queue(c, PubRel(id), LastRel(c.gen.used[id].tag));
        QueueOrder(c, PubRel(id), LastRel(c.gen.used[id].tag), arrived, called);
        SameQueuesOrder(c', Complete(c', id, p), arrived, called);
      }
    case _ => SameQueuesOrder(c, Receive(c, st, p), arrived, called);
  }

  lemma StepOrder(c: Client, st: P.Strategy, step: Step, arrived: seq<Packet>, called: seq<Packet>)
    requires InOrder(c, arrived, called)
    ensures InOrder(Apply(c, st, step),
                    arrived + if Arrives(c, step) then [step.p] else [],
                    called + if Calling(c, step).Some? then [CallPacket(c, Calling(c, step).value)] else [])
  {
    hide InOrder, Receive, Submit, SendUser, SendLogic, CallPacket;
    assert arrived + [] == arrived && called + [] == called;
    if !c.stopped {
      match step
      case DoReceive(p) =>
        if p.Publish? { PublishOrder(c, st, p, arrived, called); } else { ReceiveOrder(c, st, p, arrived, called); }
      case DoSendUser => if c.sending { SendUserOrder(c, arrived, called); }
      case DoSendLogic => SendLogicOrder(c, st, arrived, called);
      case DoKeepalive => QueueOrder(c, PingReq, Other, arrived, called);
      case DoDisconnect => QueueOrder(c, Disconnect, Other, arrived, called);
      case DoStop => SameQueuesOrder(c, c.(stopped := true), arrived, called);
      case DoPublish(p) => if p.Publish? { SubmitOrder(c, st, Clamped(p), arrived, called); }
      case DoSubscribe(topics) => SubmitOrder(c, st, Subscribe(0, topics), arrived, called);
      case DoUnsubscribe(names) => SubmitOrder(c, st, Unsub(0, names), arrived, called);
    }
  }

  lemma {:induction false} RunInOrder(st: P.Strategy, steps: seq<Step>)
    ensures InOrder(At(st, steps), Arrived(st, steps), Called(st, steps))
    decreases |steps|
  {
    hide InOrder, Apply, Calling, CallPacket, Arrives;
    if steps == [] {
      NothingInOrder();
    } else {
      var before, last := steps[..|steps| - 1], steps[|steps| - 1];
      RunInOrder(st, before);
      StepOrder(At(st, before), st, last, Arrived(st, before), Called(st, before));
    }
  }

  lemma NothingInOrder()
    ensures InOrder(INIT, [], [])
  {
  }

  /** In every run, the acknowledgements written and queued are those of the messages received, in
      order, and each message was handed over once, in order of arrival. */
  lemma {:induction false} AnswersInOrder(st: P.Strategy, steps: seq<Step>)
    ensures var c := At(st, steps);
      && c.recvCh == Arrived(st, steps)
      && Answered(c.out, 1) + Answered(c.logicCh, 1) == Asked(Arrived(st, steps), 1)
      && Answered(c.out, 2) + Answered(c.logicCh, 2) == Asked(Arrived(st, steps), 2)
  {
    hide At, Answered, Asked, UserPackets, Arrived, Called;
    RunInOrder(st, steps);
  }

  lemma QueuesHold(st: P.Strategy, steps: seq<Step>)
    ensures Queues(At(st, steps))
  {
    hide At, Answered, Asked, UserPackets, Arrived, Called, Queues;
    RunInOrder(st, steps);
  }

  /** Packets submitted carry what was asked for, call by call; a stopped client takes no more. */
  ghost predicate AsAsked(c: Client, called: seq<Packet>, calls: seq<Step>) {
    && |called| == c.nextTag <= |calls| && (!c.stopped ==> |called| == |calls|)
    && forall i :: 0 <= i < |called| ==> Carries(called[i], calls[i])
  }

  lemma CallAsAsked(c: Client, st: P.Strategy, step: Step, called: seq<Packet>, calls: seq<Step>)
    requires AsAsked(c, called, calls)
    ensures var p := Calling(c, step);
      AsAsked(Apply(c, st, step), called + (if p.Some? then [CallPacket(c, p.value)] else []),
              calls + if IsRequest(step) then [step] else [])
  {
    hide Apply, Submitted, Carries, TakenId, WithId;
    NumbersCalls(c, st, step);
    var calls' := calls + if IsRequest(step) then [step] else [];
    assert forall i :: 0 <= i < |called| ==> calls'[i] == calls[i];
    if IsRequest(step) {
      SubmittedCarries(step, 0);
      SubmittedCarries(step, TakenId(c, Submitted(step).value));
    } else {
      NotSubmitted(step);
    }
    RunsOn(c, st, step);
  }

  lemma NotSubmitted(step: Step)
    requires !IsRequest(step)
    ensures Submitted(step) == None
  {
  }

  lemma RunsOn(c: Client, st: P.Strategy, step: Step)
    ensures c.stopped ==> Apply(c, st, step).stopped
  {
  }

  lemma {:induction false} CalledAsAsked(st: P.Strategy, steps: seq<Step>)
    ensures AsAsked(At(st, steps), Called(st, steps), Requests(steps))
    decreases |steps|
  {
    hide AsAsked, Apply, Calling, CallPacket;
    if steps == [] {
      assert AsAsked(INIT, [], []) by { NothingAsked(); }
    } else {
      var before, last := steps[..|steps| - 1], steps[|steps| - 1];
      CalledAsAsked(st, before);
      CallAsAsked(At(st, before), st, last, Called(st, before), Requests(before));
    }
  }

  lemma NothingAsked()
    ensures AsAsked(INIT, [], [])
  {
  }

  /** The user's packets written are the first ones called for, and with those queued they are all,
      unless one could not be encoded; and they are what the calls asked for. */
  lemma {:induction false} CallsInOrder(st: P.Strategy, steps: seq<Step>)
    ensures AsAsked(At(st, steps), Called(st, steps), Requests(steps))
    ensures var c := At(st, steps);
      && UserPackets(c.out) <= Called(st, steps)
      && ((forall p :: p in Called(st, steps) ==> Sendable(p)) ==>
            UserPackets(c.out) + UserPackets(c.sendCh) == Called(st, steps))
  {
    hide At, Answered, Asked, UserPackets, Arrived, Called, Sendable;
    hide AsAsked;
    CalledAsAsked(st, steps);
    RunInOrder(st, steps);
  }
}
