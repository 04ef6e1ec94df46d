/** The client side of a session on one connection: what callers, the sending loop and the
    receiving loop do to the id table, the store and the queues. */
module Session {
  import opened Bytes
  import opened Keys
  import opened Packets
  import Encoder
  import IdGenerator
  import P = MemPersist

  /** Why a packet was queued: a call of the user, numbered in call order; an answer to PUBREC or
      to PUBCOMP for that call's message; or something else. Labels only tell packets apart, as the
      addresses of the packet objects do; nothing depends on them. */
  datatype Mark = Call(tag: nat) | FirstRel(tag: nat) | LastRel(tag: nat) | Other

  datatype Sent = Sent(packet: Packet, mark: Mark)

  /** What the id table holds: the packet object, which its call number tells apart. */
  datatype Entry = Entry(packet: Packet, tag: nat)

  /** Messages to the user's handlers. A publish is reported when written or when acknowledged. */
  datatype Msg =
    | PubWritten(tag: nat, topic: bytes)
    | PubAcked(tag: nat, qos: byte, topic: bytes)
    | SubDone(tag: nat, topics: seq<Topic>)
    | UnsubDone(tag: nat, names: seq<bytes>)
    | PersistFailed(packet: Packet)

  type Gen = IdGenerator.State<Entry>

  datatype Client = Client(
    gen: Gen, store: P.Mem, nextTag: nat,
    sendCh: seq<Sent>, logicCh: seq<Sent>, out: seq<Sent>, recvCh: seq<Packet>, msgs: seq<Msg>,
    sending: bool, stopped: bool)

  const INIT: Client := Client(IdGenerator.State(0, map[]), P.Mem(map[], 0), 0, [], [], [], [], [], true, false)

  function Notify(c: Client, m: Msg): Client {
    c.(msgs := c.msgs + [m])
  }

  function Queue(c: Client, p: Packet, mark: Mark): Client {
    c.(logicCh := c.logicCh + [Sent(p, mark)])
  }

  /** Storing a packet; a failure is reported. */
  function Keep(c: Client, st: P.Strategy, key: string, p: Packet): Client {
    var (ok, store) := P.Store(c.store, st, key, p);
    if ok then c.(store := store) else Notify(c.(store := store), PersistFailed(p))
  }

  function Forget(c: Client, key: string): Client {
    c.(store := P.Delete(c.store, key))
  }

  function WithId(p: Packet, id: u16): Packet {
    match p
    case Publish(dup, qos, retain, topic, _, payload) => Publish(dup, qos, retain, topic, id, payload)
    case Subscribe(_, topics) => Subscribe(id, topics)
    case Unsub(_, names) => Unsub(id, names)
    case _ => p
  }

  function Clamped(p: Packet): Packet
    requires p.Publish?
  {
    p.(qos := if p.qos > 2 then 2 else p.qos)
  }

  /** Takes an id for a packet. The table refers to the packet itself, id included. */
  function Register(gen: Gen, p: Packet, tag: nat): (u16, Gen) {
    var (id, g) := IdGenerator.Next(gen, Entry(p, tag));
    (id, if id > 0 then g.(used := g.used[id := Entry(WithId(p, id), tag)]) else g)
  }

  // The user's calls.

  /** A publish takes an id, and is stored, only if it needs one and was not given one. */
  predicate NeedsId(p: Packet) {
    p.Subscribe? || p.Unsub? || (p.Publish? && p.qos != 0 && p.packetId == 0)
  }

  /** Appends a call's packet to the queue of the sending loop. */
  function Handed(c: Client, gen: Gen, p: Packet): Client {
    c.(gen := gen, nextTag := c.nextTag + 1, sendCh := c.sendCh + [Sent(p, Call(c.nextTag))])
  }

  /** Hands a packet to the sending loop, registered if necessary. */
  function Submit(c: Client, st: P.Strategy, p: Packet): Client {
    var (id, gen) := if NeedsId(p) then Register(c.gen, p, c.nextTag) else (0, c.gen);
    var p' := if NeedsId(p) then WithId(p, id) else p;
    var c' := Handed(c, gen, p');
    if p.Publish? && NeedsId(p) then Keep(c', st, SendKey(id), p') else c'
  }

  // The sending loop.

  function SendUser(c: Client): Client {
    if c.sendCh == [] then c
    else
      var s, c' := c.sendCh[0], c.(sendCh := c.sendCh[1..]);
      if Encoder.Encode(s.packet).Err? then c'.(sending := false)
      else
        var w := c'.(out := c'.out + [s]);
        if s.packet.Publish? && s.packet.qos == 0 && s.mark.Call?
        then Notify(w, PubWritten(s.mark.tag, s.packet.topicName))
        else w
  }

  function SendLogic(c: Client, st: P.Strategy): Client {
    if c.logicCh == [] then c
    else
      var s, c' := c.logicCh[0], c.(logicCh := c.logicCh[1..]);
      if Encoder.Encode(s.packet).Err? then c'.(sending := false)
      else
        var w := c'.(out := c'.out + [s]);
        match s.packet
        case PubRel(id) => Keep(w, st, SendKey(id), s.packet)
        case PubAck(id) => Forget(w, SendKey(id))
        case PubComp(id) => Forget(w, SendKey(id))
        case Disconnect => w.(stopped := true)
        case _ => w
  }

  // The receiving loop.

  /** Topics with the return codes in place of the requested levels, as far as there are codes. */
  function Granted(topics: seq<Topic>, codes: bytes): seq<Topic> {
    seq(|topics|, i requires 0 <= i < |topics| =>
                    if i < |codes| then Topic(topics[i].name, codes[i]) else topics[i])
  }

  /** The packet whose request `ack` completes. */
  predicate Completes(request: Packet, ack: Packet) {
    match ack
    case SubAck(_, _) => request.Subscribe?
    case UnsubAck(_) => request.Unsub?
    case PubAck(_) => request.Publish? && request.qos == 1
    case PubComp(_) => request.Publish? && request.qos == 2
    case _ => false
  }

  function DoneMsg(e: Entry, ack: Packet): Msg
    requires Completes(e.packet, ack)
  {
    match e.packet
    case Publish(_, qos, _, topic, _, _) => PubAcked(e.tag, qos, topic)
    case Subscribe(_, topics) => SubDone(e.tag, Granted(topics, ack.codes))
    case Unsub(_, names) => UnsubDone(e.tag, names)
  }

  /** Reports a request as done, frees its id and removes it from the store. */
  function Complete(c: Client, id: u16, ack: Packet): Client
    requires id in c.gen.used && Completes(c.gen.used[id].packet, ack)
  {
    Forget(Notify(c, DoneMsg(c.gen.used[id], ack)).(gen := IdGenerator.Free(c.gen, id)), SendKey(id))
  }

  predicate AwaitsRel(c: Client, id: u16) {
    id in c.gen.used && c.gen.used[id].packet.Publish? && c.gen.used[id].packet.qos == 2
  }

  function Receive(c: Client, st: P.Strategy, p: Packet): Client {
    match p
    case SubAck(id, _) =>
      if id in c.gen.used && c.gen.used[id].packet.Subscribe? then Complete(c, id, p) else c
    case UnsubAck(id) =>
      if id in c.gen.used && c.gen.used[id].packet.Unsub? then Complete(c, id, p) else c
    case Publish(_, qos, _, _, id, _) =>
      var c' := c.(recvCh := c.recvCh + [p]);
      if qos == 1 then Keep(Queue(c', PubAck(id), Other), st, RecvKey(id), p)
      else if qos == 2 then Keep(Queue(c', PubRecv(id), Other), st, RecvKey(id), p)
      else c'
    case PubAck(id) =>
      if id in c.gen.used && Completes(c.gen.used[id].packet, p) then Complete(c, id, p) else c
    case PubRecv(id) =>
      if AwaitsRel(c, id) then Queue(c, PubRel(id), FirstRel(c.gen.used[id].tag)) else c
    case PubRel(id) =>
      if AwaitsRel(c, id) then Keep(Queue(c, PubComp(id), Other), st, RecvKey(id), p) else c
    case PubComp(id) =>
      if AwaitsRel(c, id) then Complete(Queue(c, PubRel(id), LastRel(c.gen.used[id].tag)), id, p) else c
    case _ => c
  }

  // Steps, in any order.

  datatype Step =
    | DoPublish(p: Packet)
    | DoSubscribe(topics: seq<Topic>)
    | DoUnsubscribe(names: seq<bytes>)
    | DoSendUser
    | DoSendLogic
    | DoReceive(p: Packet)
    | DoKeepalive
    | DoDisconnect
    | DoStop

  /** The packet a user's call submits. */
  function Submitted(step: Step): Option<Packet> {
    match step
    case DoPublish(p) => if p.Publish? then Some(Clamped(p)) else None
    case DoSubscribe(topics) => Some(Subscribe(0, topics))
    case DoUnsubscribe(names) => Some(Unsub(0, names))
    case _ => None
  }

  function Apply(c: Client, st: P.Strategy, step: Step): Client {
    if c.stopped then c
    else match step
      case DoSendUser => if c.sending then SendUser(c) else c
      case DoSendLogic => if c.sending then SendLogic(c, st) else c
      case DoReceive(p) => Receive(c, st, p)
      case DoKeepalive => Queue(c, PingReq, Other)
      case DoDisconnect => Queue(c, Disconnect, Other)
      case DoStop => c.(stopped := true)
      case _ =>
        match Submitted(step)
        case Some(p) => Submit(c, st, p)
        case None => c
  }

  function Run(c: Client, st: P.Strategy, steps: seq<Step>): Client
    decreases |steps|
  {
    if steps == [] then c else Apply(Run(c, st, steps[..|steps| - 1]), st, steps[|steps| - 1])
  }

  // The client object.

  class ClientConn {
    const idGen: IdGenerator.IdGenerator<Entry>
    const persist: P.MemPersist
    var nextTag: nat
    var sendCh: seq<Sent>
    var logicSendC: seq<Sent>
    var out: seq<Sent>
    var recvCh: seq<Packet>
    var msgCh: seq<Msg>
    var sending: bool
    var stopped: bool

    ghost function View(): Client
      reads this, idGen, persist
    {
      Client(idGen.View(), persist.View(), nextTag, sendCh, logicSendC, out, recvCh, msgCh, sending, stopped)
    }

    constructor (strategy: P.Strategy)
      ensures View() == INIT && persist.strategy == strategy
      ensures fresh(idGen) && fresh(persist)
    {
      idGen := new IdGenerator.IdGenerator<Entry>();
      persist := new P.MemPersist(strategy);
      nextTag := 0;
      sendCh, logicSendC, out, recvCh, msgCh := [], [], [], [], [];
      sending, stopped := true, false;
    }

    method NotifyPersist(ok: bool, p: Packet)
      modifies this`msgCh
      ensures msgCh == old(msgCh) + if ok then [] else [PersistFailed(p)]
    {
      if !ok {
        msgCh := msgCh + [PersistFailed(p)];
      }
    }

    method Send(p: Packet, mark: Mark)
      modifies this`logicSendC
      ensures logicSendC == old(logicSendC) + [Sent(p, mark)]
    {
      logicSendC := logicSendC + [Sent(p, mark)];
    }

    /** Takes an id for a packet object; the table then refers to the object with its id set. */
    method NextId(p: Packet) returns (id: u16)
      modifies idGen
      ensures (id, idGen.View()) == Register(old(idGen.View()), p, nextTag)
    {
      id := idGen.Allocate(Entry(p, nextTag));
      if id > 0 {
        idGen.SetUsed(id, Entry(WithId(p, id), nextTag));
      }
    }

    method PublishOne(msg: Packet)
      requires msg.Publish? && !stopped
      modifies this, idGen, persist
      ensures View() == Apply(old(View()), persist.strategy, DoPublish(msg))
    {
      hide P.Store, P.Delete, IdGenerator.Next, IdGenerator.Free, Encoder.Encode;
      var p := msg;
      if p.qos > 2 {
        p := Clamped(p);
      }
      assert p == Clamped(msg);
      if p.qos != 0 {
        if p.packetId == 0 {
          var id := NextId(p);
          p := WithId(p, id);
          var ok := persist.StoreKey(SendKey(id), p);
          NotifyPersist(ok, p);
        }
      }
      sendCh := sendCh + [Sent(p, Call(nextTag))];
      nextTag := nextTag + 1;
    }

    /** Publishes messages one by one, skipping missing ones; nothing is taken from a client that
        is closing. */
    method Publish(msgs: seq<Option<Packet>>)
      requires forall m :: m in msgs && m.Some? ==> m.value.Publish?
      modifies this, idGen, persist
      ensures View() == PublishAll(old(View()), persist.strategy, msgs)
    {
      hide P.Store, P.Delete, IdGenerator.Next, IdGenerator.Free, Encoder.Encode;
      if stopped {
        AllStopped(View(), persist.strategy, msgs);
        return;
      }
      for i := 0 to |msgs|
        invariant PublishAll(View(), persist.strategy, msgs[i..]) == PublishAll(old(View()), persist.strategy, msgs)
        invariant !stopped
      {
        ghost var before := View();
        assert msgs[i..][1..] == msgs[i + 1..];
        if msgs[i].Some? {
          PublishOne(msgs[i].value);
          RunningStays(before, persist.strategy, msgs[i].value);
        }
      }
    }

    method Subscribe(topics: seq<Topic>)
      modifies this, idGen, persist
      ensures View() == Apply(old(View()), persist.strategy, DoSubscribe(topics))
    {
      hide P.Store, P.Delete, IdGenerator.Next, IdGenerator.Free, Encoder.Encode;
      if stopped {
        return;
      }
      var s := Packet.Subscribe(0, topics);
      var id := NextId(s);
      sendCh := sendCh + [Sent(WithId(s, id), Call(nextTag))];
      nextTag := nextTag + 1;
    }

    method Unsubscribe(topics: seq<bytes>)
      modifies this, idGen, persist
      ensures View() == Apply(old(View()), persist.strategy, DoUnsubscribe(topics))
    {
      hide P.Store, P.Delete, IdGenerator.Next, IdGenerator.Free, Encoder.Encode;
      if stopped {
        return;
      }
      var u := Packet.Unsub(0, topics);
      var id := NextId(u);
      sendCh := sendCh + [Sent(WithId(u, id), Call(nextTag))];
      nextTag := nextTag + 1;
    }

    /** One round of the sending loop with a packet of the user. */
    method HandleSendUser()
      requires sending && !stopped && sendCh != []
      modifies this
      ensures View() == Apply(old(View()), persist.strategy, DoSendUser)
    {
      hide P.Store, P.Delete, IdGenerator.Next, IdGenerator.Free, Encoder.Encode;
      var pkt := sendCh[0];
      sendCh := sendCh[1..];
      if Encoder.Encode(pkt.packet).Err? {
        sending := false;
        return;
      }
      out := out + [pkt];
      if pkt.packet.Publish? && pkt.packet.qos == 0 && pkt.mark.Call? {
        msgCh := msgCh + [PubWritten(pkt.mark.tag, pkt.packet.topicName)];
      }
    }

    /** One round of the sending loop with a packet of the session logic. */
    method HandleSendLogic()
      requires sending && !stopped && logicSendC != []
      modifies this, persist
      ensures View() == Apply(old(View()), persist.strategy, DoSendLogic)
    {
      hide P.Store, P.Delete, IdGenerator.Next, IdGenerator.Free, Encoder.Encode;
      var pkt := logicSendC[0];
      logicSendC := logicSendC[1..];
      if Encoder.Encode(pkt.packet).Err? {
        sending := false;
        return;
      }
      out := out + [pkt];
      match pkt.packet {
        case PubRel(id) =>
          var ok := persist.StoreKey(SendKey(id), pkt.packet);
          NotifyPersist(ok, pkt.packet);
        case PubAck(id) => persist.DeleteKey(SendKey(id));
        case PubComp(id) => persist.DeleteKey(SendKey(id));
        case Disconnect => stopped := true;
        case _ =>
      }
    }

    method Grant(topics: seq<Topic>, codes: bytes) returns (granted: seq<Topic>)
      ensures granted == Granted(topics, codes)
    {
      granted := topics;
      var n := |codes|;
      for i := 0 to |topics|
        invariant |granted| == |topics|
        invariant forall j :: 0 <= j < |topics| ==> granted[j] == if j < i then Granted(topics, codes)[j] else topics[j]
      {
        if i < n {
          granted := granted[i := Topic(topics[i].name, codes[i])];
        }
      }
    }

    /** Reports a request as done, frees its id and removes it from the store. */
    method Finish(id: u16, m: Msg)
      modifies this, idGen, persist
      ensures View() == Forget(Notify(old(View()), m).(gen := IdGenerator.Free(old(idGen.View()), id)), SendKey(id))
    {
      msgCh := msgCh + [m];
      idGen.Release(id);
      persist.DeleteKey(SendKey(id));
    }

    method OnSubAck(p: Packet)
      requires p.SubAck?
      modifies this, idGen, persist
      ensures View() == Receive(old(View()), persist.strategy, p)
    {
      hide P.Store, P.Delete, IdGenerator.Free;
      var origin := idGen.GetExtra(p.packetId);
      if origin.Some? && origin.value.packet.Subscribe? {
        var topics := Grant(origin.value.packet.topics, p.codes);
        Finish(p.packetId, SubDone(origin.value.tag, topics));
      }
    }

    method OnUnsubAck(p: Packet)
      requires p.UnsubAck?
      modifies this, idGen, persist
      ensures View() == Receive(old(View()), persist.strategy, p)
    {
      hide P.Store, P.Delete, IdGenerator.Free;
      var origin := idGen.GetExtra(p.packetId);
      if origin.Some? && origin.value.packet.Unsub? {
        Finish(p.packetId, UnsubDone(origin.value.tag, origin.value.packet.topicNames));
      }
    }

    method OnPublish(p: Packet)
      requires p.Publish?
      modifies this, persist
      ensures View() == Receive(old(View()), persist.strategy, p)
    {
      hide P.Store, P.Delete, IdGenerator.Free;
      recvCh := recvCh + [p];
      if p.qos == 1 {
        Send(PubAck(p.packetId), Other);
        var ok := persist.StoreKey(RecvKey(p.packetId), p);
        NotifyPersist(ok, p);
      } else if p.qos == 2 {
        Send(PubRecv(p.packetId), Other);
        var ok := persist.StoreKey(RecvKey(p.packetId), p);
        NotifyPersist(ok, p);
      }
    }

    method OnPubAck(p: Packet)
      requires p.PubAck?
      modifies this, idGen, persist
      ensures View() == Receive(old(View()), persist.strategy, p)
    {
      hide P.Store, P.Delete, IdGenerator.Free;
      var origin := idGen.GetExtra(p.packetId);
      if origin.Some? && origin.value.packet.Publish? && origin.value.packet.qos == 1 {
        Finish(p.packetId, PubAcked(origin.value.tag, 1, origin.value.packet.topicName));
      }
    }

    /** Answers in a QoS 2 exchange; the id is looked up among the packets this client sent,
        for PUBREL as well. */
    method OnQos2(p: Packet)
      requires p.PubRecv? || p.PubRel? || p.PubComp?
      modifies this, idGen, persist
      ensures View() == Receive(old(View()), persist.strategy, p)
    {
      hide P.Store, P.Delete, IdGenerator.Free;
      var id := p.packetId;
      var origin := idGen.GetExtra(id);
      if origin.Some? && origin.value.packet.Publish? && origin.value.packet.qos == 2 {
        match p {
          case PubRecv(_) =>
            Send(PubRel(id), FirstRel(origin.value.tag));
          case PubRel(_) =>
            Send(PubComp(id), Other);
            var ok := persist.StoreKey(RecvKey(id), p);
            NotifyPersist(ok, p);
          case PubComp(_) =>
            Send(PubRel(id), LastRel(origin.value.tag));
            Finish(id, PubAcked(origin.value.tag, 2, origin.value.packet.topicName));
        }
      }
    }

    /** One round of the receiving loop. */
    method Logic(p: Packet)
      requires !stopped
      modifies this, idGen, persist
      ensures View() == Apply(old(View()), persist.strategy, DoReceive(p))
    {
      hide Receive;
      match p {
        case SubAck(_, _) => OnSubAck(p);
        case UnsubAck(_) => OnUnsubAck(p);
        case Publish(_, _, _, _, _, _) => OnPublish(p);
        case PubAck(_) => OnPubAck(p);
        case PubRecv(_) => OnQos2(p);
        case PubRel(_) => OnQos2(p);
        case PubComp(_) => OnQos2(p);
        case _ => Ignored(View(), persist.strategy, p);
      }
    }
  }

  lemma Ignored(c: Client, st: P.Strategy, p: Packet)
    requires !(p.SubAck? || p.UnsubAck? || p.Publish? || p.PubAck? || p.PubRecv? || p.PubRel? || p.PubComp?)
    ensures Receive(c, st, p) == c
  {
  }

  function PublishAll(c: Client, st: P.Strategy, msgs: seq<Option<Packet>>): Client
    decreases |msgs|
  {
    if msgs == [] then c
    else PublishAll(if msgs[0].Some? then Apply(c, st, DoPublish(msgs[0].value)) else c, st, msgs[1..])
  }

  lemma {:induction false} AllStopped(c: Client, st: P.Strategy, msgs: seq<Option<Packet>>)
    requires c.stopped
    ensures PublishAll(c, st, msgs) == c
    decreases |msgs|
  {
    if msgs != [] {
      AllStopped(c, st, msgs[1..]);
    }
  }

  lemma RunningStays(c: Client, st: P.Strategy, p: Packet)
    ensures Apply(c, st, DoPublish(p)).stopped == c.stopped
  {
  }
}
