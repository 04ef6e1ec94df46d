/** What a user's call puts on the queue: the message asked for, told field by field. */
module Calls {
  import opened Bytes
  import opened Keys
  import opened Packets
  import opened Session
  import Encoder
  import IdGenerator
  import P = MemPersist

  /** A call that submits a packet. */
  predicate IsRequest(call: Step) {
    call.DoSubscribe? || call.DoUnsubscribe? || (call.DoPublish? && call.p.Publish?)
  }

  /** The packet is the one asked for: levels above 2 count as 2, and a message that needs no identifier
      keeps the one it has. */
  predicate Carries(p: Packet, call: Step) {
    match call
    case DoPublish(q) =>
      && p.Publish? && q.Publish?
      && p.isDup == q.isDup && p.isRetain == q.isRetain && p.topicName == q.topicName && p.payload == q.payload
      && p.qos == (if q.qos <= 2 then q.qos else 2)
      && (q.qos == 0 || q.packetId != 0 ==> p.packetId == q.packetId)
    case DoSubscribe(topics) => p.Subscribe? && p.topics == topics
    case DoUnsubscribe(names) => p.Unsub? && p.topicNames == names
    case _ => false
  }

  /** The client is to find an identifier. */
  predicate Numbered(call: Step) {
    call.DoSubscribe? || call.DoUnsubscribe?
    || (call.DoPublish? && call.p.Publish? && call.p.qos != 0 && call.p.packetId == 0)
  }

  /** Every call a running client takes puts one packet at the end of the queue, with the next call number and the
      message asked for; under an identifier found for it, it also goes to the table, and if it is
      a publish to the store. */
  lemma {:induction false} CallQueues(c: Client, st: P.Strategy, call: Step)
    requires !c.stopped && IsRequest(call)
    ensures var c' := Apply(c, st, call);
      && |c'.sendCh| == |c.sendCh| + 1 && c'.sendCh[..|c.sendCh|] == c.sendCh
      && var s := c'.sendCh[|c.sendCh|];
      && Carries(s.packet, call) && s.mark == Call(c.nextTag) && c'.nextTag == c.nextTag + 1
      && c'.logicCh == c.logicCh && c'.out == c.out && c'.recvCh == c.recvCh
      && c'.sending == c.sending && !c'.stopped
      && (!Numbered(call) ==> c'.gen == c.gen && c'.store == c.store && c'.msgs == c.msgs)
      && (Numbered(call) ==>
            && s.packet.packetId == IdGenerator.Next(c.gen, Entry(Submitted(call).value, c.nextTag)).0
            && (s.packet.packetId > 0 ==>
                  s.packet.packetId in c'.gen.used
                  && c'.gen.used[s.packet.packetId] == Entry(s.packet, c.nextTag))
            && var (kept, store) := P.Store(c.store, st, SendKey(s.packet.packetId), s.packet);
            && c'.store == (if call.DoPublish? then store else c.store)
            && c'.msgs == c.msgs + if call.DoPublish? && !kept then [PersistFailed(s.packet)] else [])
  {
    hide P.Store, IdGenerator.Next, WithId, Carries, Submitted;
    assert c.msgs + [] == c.msgs;
    SubmittedCarries(call, 0);
    var id := IdGenerator.Next(c.gen, Entry(Submitted(call).value, c.nextTag)).0;
    SubmittedCarries(call, id);
  }

  lemma SubmittedCarries(call: Step, id: u16)
    requires IsRequest(call)
    ensures Submitted(call).Some?
    ensures var p := Submitted(call).value;
      && (NeedsId(p) <==> Numbered(call))
      && (p.Publish? <==> call.DoPublish?)
      && Carries(if NeedsId(p) then WithId(p, id) else p, call)
      && (NeedsId(p) ==> WithId(p, id).packetId == id)
  {
  }

  /** Calls of a running client are numbered one after the other; nothing else is. */
  lemma {:induction false} NumbersCalls(c: Client, st: P.Strategy, step: Step)
    ensures var c' := Apply(c, st, step);
      && c'.nextTag == c.nextTag + (if !c.stopped && IsRequest(step) then 1 else 0)
      && (c.stopped ==> c' == c)
  {
    hide Receive, Submit, SendUser, SendLogic;
    match step
    case DoReceive(p) => ReceiveNumbers(c, st, p);
    case DoSendUser => SendUserNumbers(c);
    case DoSendLogic => SendLogicNumbers(c, st);
    case _ =>
      match Submitted(step) {
        case Some(p) => SubmitNumbers(c, st, p);
        case None =>
      }
  }

  lemma ReceiveNumbers(c: Client, st: P.Strategy, p: Packet)
    ensures Receive(c, st, p).nextTag == c.nextTag
  {
    hide P.Store, P.Delete, DoneMsg;
  }

  lemma SendUserNumbers(c: Client)
    ensures SendUser(c).nextTag == c.nextTag
  {
    hide Encoder.Encode;
  }

  lemma SendLogicNumbers(c: Client, st: P.Strategy)
    ensures SendLogic(c, st).nextTag == c.nextTag
  {
    hide Encoder.Encode, P.Store, P.Delete;
  }

  lemma SubmitNumbers(c: Client, st: P.Strategy, p: Packet)
    ensures Submit(c, st, p).nextTag == c.nextTag + 1
  {
    hide P.Store, Register;
  }

  /** The messages among those handed to one call, missing ones left out. */
  function Present(msgs: seq<Option<Packet>>): seq<Packet> {
    if msgs == [] then []
    else (if msgs[0].Some? then [msgs[0].value] else []) + Present(msgs[1..])
  }

  /** The client went from one state to another queueing these messages in order. */
  ghost predicate Queued(c: Client, c': Client, ps: seq<Packet>) {
    && !c'.stopped && c'.nextTag == c.nextTag + |ps|
    && |c'.sendCh| == |c.sendCh| + |ps| && c'.sendCh[..|c.sendCh|] == c.sendCh
    && forall i :: 0 <= i < |ps| ==> QueuedAt(c, c', ps, i)
  }

  predicate QueuedAt(c: Client, c': Client, ps: seq<Packet>, i: nat)
    requires i < |ps|
  {
    && |c.sendCh| + i < |c'.sendCh|
    && var s := c'.sendCh[|c.sendCh| + i];
    s.mark == Call(c.nextTag + i) && Carries(s.packet, DoPublish(ps[i]))
  }

  lemma QueuedFirst(a: Client, b: Client, c: Client, p: Packet, more: seq<Packet>)
    requires Queued(a, b, [p]) && Queued(b, c, more)
    ensures Queued(a, c, [p] + more)
  {
    hide Carries;
    var ps := [p] + more;
    assert c.sendCh[..|a.sendCh|] == c.sendCh[..|b.sendCh|][..|a.sendCh|];
    forall i | 0 <= i < |ps| ensures QueuedAt(a, c, ps, i) {
      if i == 0 {
        assert QueuedAt(a, b, [p], 0);
        assert c.sendCh[|a.sendCh|] == c.sendCh[..|b.sendCh|][|a.sendCh|];
      } else {
        assert QueuedAt(b, c, more, i - 1);
        assert ps[i] == more[i - 1];
      }
    }
  }

  /** Publishing several messages queues them one by one, in order. */
  lemma {:induction false} PublishesInOrder(c: Client, st: P.Strategy, msgs: seq<Option<Packet>>)
    requires !c.stopped && forall m :: m in msgs && m.Some? ==> m.value.Publish?
    ensures Queued(c, PublishAll(c, st, msgs), Present(msgs))
    decreases |msgs|
  {
    hide Apply, Carries, Queued;
    if msgs == [] {
      assert Queued(c, c, []) by { NothingQueued(c); }
    } else {
      var first, rest := msgs[0], msgs[1..];
      if first.Some? {
        assert first in msgs;
        var next := Apply(c, st, DoPublish(first.value));
        OneQueued(c, st, first.value);
        PublishesInOrder(next, st, rest);
        QueuedFirst(c, next, PublishAll(next, st, rest), first.value, Present(rest));
      } else {
        PublishesInOrder(c, st, rest);
        assert Present(msgs) == Present(rest);
      }
    }
  }

  lemma NothingQueued(c: Client)
    requires !c.stopped
    ensures Queued(c, c, [])
  {
  }

  lemma OneQueued(c: Client, st: P.Strategy, p: Packet)
    requires !c.stopped && p.Publish?
    ensures Queued(c, Apply(c, st, DoPublish(p)), [p]) && !Apply(c, st, DoPublish(p)).stopped
  {
    hide Apply, Carries;
    CallQueues(c, st, DoPublish(p));
  }

  /** The calls among some steps, in order. */
  function Requests(steps: seq<Step>): seq<Step> {
    if steps == [] then []
    else
      var last := steps[|steps| - 1];
      Requests(steps[..|steps| - 1]) + if IsRequest(last) then [last] else []
  }
}
