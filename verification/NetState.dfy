/** The composed system without what the exchanges do not depend on, and its moves. */
module NetState {
  import opened ArbitraryPeer
  import opened Bytes
  import opened Exchange
  import opened Keys
  import opened Packets
  import opened Session
  import Encoder
  import IdGenerator
  import Ordering
  import P = MemPersist

  datatype State = State(
    used: map<u16, Entry>, nextTag: nat, sendCh: seq<Sent>, logicCh: seq<Sent>, wired: seq<Sent>,
    called: seq<Sent>, dones: seq<Msg>, sending: bool, peer: Peer)

  function Abs(n: Net): State {
    State(n.client.gen.used, n.client.nextTag, n.client.sendCh, n.client.logicCh, Wired(n),
          n.called, Dones(n.client.msgs), n.client.sending, n.peer)
  }

  function Enqueue(a: State, p: Packet, mark: Mark): State {
    a.(logicCh := a.logicCh + [Sent(p, mark)])
  }

  function Finished(a: State, id: u16, ack: Packet): State
    requires id in a.used && Completes(a.used[id].packet, ack)
  {
    a.(used := a.used - {id}, dones := a.dones + [DoneMsg(a.used[id], ack)])
  }

  predicate Awaits2(a: State, id: u16) {
    id in a.used && OfKind(a.used[id].packet, Qos2Publish)
  }

  /** The client's reaction to a packet. */
  function Received(a: State, p: Packet): State {
    match p
    case SubAck(id, _) => if id in a.used && Completes(a.used[id].packet, p) then Finished(a, id, p) else a
    case UnsubAck(id) => if id in a.used && Completes(a.used[id].packet, p) then Finished(a, id, p) else a
    case PubAck(id) => if id in a.used && Completes(a.used[id].packet, p) then Finished(a, id, p) else a
    case Publish(_, qos, _, _, id, _) =>
      if qos == 1 then Enqueue(a, PubAck(id), Other) else if qos == 2 then Enqueue(a, PubRecv(id), Other) else a
    case PubRecv(id) => if Awaits2(a, id) then Enqueue(a, PubRel(id), FirstRel(a.used[id].tag)) else a
    case PubRel(id) => if Awaits2(a, id) then Enqueue(a, PubComp(id), Other) else a
    case PubComp(id) =>
      if Awaits2(a, id) then Finished(Enqueue(a, PubRel(id), LastRel(a.used[id].tag)), id, p) else a
    case _ => a
  }

  // Each step of the system is a move.

  lemma WiredGrows(n: Net, c: Client, s: Sent)
    requires n.taken <= |n.client.out| && c.out == n.client.out + [s]
    ensures Wired(n.(client := c)) == Wired(n) + [s]
  {
  }

  lemma SubmitMoves(n: Net, st: P.Strategy, p: Packet)
    requires n.taken <= |n.client.out|
    requires NeedsId(p) ==> IdGenerator.Fresh(n.client.gen, TakenId(n.client, p))
    ensures var s := Sent(Ordering.CallPacket(n.client, p), Call(n.client.nextTag));
      var a := Abs(n);
      Abs(n.(client := Submit(n.client, st, p)))
      == a.(sendCh := a.sendCh + [s], nextTag := a.nextTag + 1,
            used := if NeedsId(p) then a.used[TakenId(n.client, p) := NewEntry(n.client, p)] else a.used)
  {
    hide Submit, Dones, IdGenerator.Fresh, TakenId, NewEntry, Ordering.CallPacket;
    Ordering.SubmitQueues(n.client, st, p);
    SubmitTable(n.client, st, p);
  }

  lemma SendUserMoves(n: Net)
    requires n.taken <= |n.client.out| && n.client.sendCh != [] && n.client.sending
    ensures var s, a := n.client.sendCh[0], Abs(n);
      Abs(n.(client := SendUser(n.client)))
      == if Ordering.Sendable(s.packet) then a.(sendCh := a.sendCh[1..], wired := a.wired + [s])
         else a.(sendCh := a.sendCh[1..], sending := false)
  {
    hide Dones, Encoder.Encode;
    SendUserTable(n.client);
    var s := n.client.sendCh[0];
    if Ordering.Sendable(s.packet) {
      WiredGrows(n, SendUser(n.client), s);
    }
  }

  lemma SendLogicMoves(n: Net, st: P.Strategy)
    requires n.taken <= |n.client.out| && n.client.logicCh != [] && Ordering.LogicSent(n.client.logicCh[0])
    ensures var s, a := n.client.logicCh[0], Abs(n);
      Abs(n.(client := SendLogic(n.client, st))) == a.(logicCh := a.logicCh[1..], wired := a.wired + [s])
  {
    hide Dones, SendLogic;
    SendLogicTable(n.client, st);
    Ordering.SendLogicQueues(n.client, st);
    WiredGrows(n, SendLogic(n.client, st), n.client.logicCh[0]);
  }

  lemma TakenMoves(n: Net)
    requires n.taken < |n.client.out|
    ensures Wired(n) == [n.client.out[n.taken]] + Wired(n.(taken := n.taken + 1))
  {
  }

  lemma ReceiveMoves(n: Net, st: P.Strategy, p: Packet)
    requires n.taken <= |n.client.out| && !n.client.stopped
    ensures Abs(n.(client := Receive(n.client, st, p))) == Received(Abs(n), p)
  {
    hide Keep, Dones, DoneMsg;
    if p.Publish? || p.PubRel? {
      StoringMoves(n, st, p);
    } else {
      ReceiveTable(n.client, st, p);
    }
  }

  lemma StoringMoves(n: Net, st: P.Strategy, p: Packet)
    requires n.taken <= |n.client.out| && !n.client.stopped && (p.Publish? || p.PubRel?)
    ensures Abs(n.(client := Receive(n.client, st, p))) == Received(Abs(n), p)
  {
    hide Keep, Dones, DoneMsg, Complete, Completes;
    var c, id := n.client, p.packetId;
    ReceiveTable(c, st, p);
    if p.PubRel? {
      Ordering.KeepQueues(Queue(c, PubComp(id), Other), st, RecvKey(id), p);
      KeepTable(Queue(c, PubComp(id), Other), st, RecvKey(id), p);
    } else {
      var answer := if p.qos == 1 then PubAck(id) else PubRecv(id);
      var c' := Queue(c.(recvCh := c.recvCh + [p]), answer, Other);
      Ordering.KeepQueues(c', st, RecvKey(id), p);
      KeepTable(c', st, RecvKey(id), p);
    }
  }

  // Shapes of the queues.

  predicate UserShape(s: Sent) {
    s.mark.Call? && ((s.packet.Publish? && s.packet.qos <= 2) || s.packet.Subscribe? || s.packet.Unsub?)
  }

  predicate LogicShape(s: Sent) {
    Ordering.LogicSent(s) && (s.packet.PubRel? <==> !s.mark.Other?)
  }

  predicate WireShape(s: Sent) {
    UserShape(s) || LogicShape(s)
  }

  predicate BackShape(s: Sent) {
    match s.mark
    case Other => !IsAck(s.packet)
    case Call(_) => s.packet.PubAck? || s.packet.PubRecv? || s.packet.SubAck? || s.packet.UnsubAck?
    case _ => s.packet.PubComp?
  }

  predicate Shapes(a: State) {
    && (forall i :: 0 <= i < |a.sendCh| ==> UserShape(a.sendCh[i]))
    && (forall i :: 0 <= i < |a.logicCh| ==> LogicShape(a.logicCh[i]))
    && (forall i :: 0 <= i < |a.wired| ==> WireShape(a.wired[i]))
    && (forall i :: 0 <= i < |a.peer.back| ==> BackShape(a.peer.back[i]))
  }
}
