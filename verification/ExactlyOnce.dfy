/** Against a conforming peer, whatever the client reports as published with QoS 2 was accepted exactly
    once and released exactly once, in call order. */
module ExactlyOnce {
  import opened ArbitraryPeer
  import opened Bytes
  import opened Exchange
  import opened NetState
  import opened Packets
  import opened Pipeline
  import opened Session
  import opened TokenSteps
  import IdGenerator
  import OneToken
  import Ordering
  import P = MemPersist

  ghost predicate Sound(n: Net) {
    n.taken <= |n.client.out| && n.ready <= |n.peer.back| && OneEach(Abs(n)) && Staged(Abs(n))
  }

  lemma StartSound()
    ensures Sound(START)
  {
    hide Tags, Publishes, Acked, Toks;
    var a := Abs(START);
    assert a == State(map[], 0, [], [], [], [], [], true, Peer([], [], map[], [], [])) by {
      assert Dones([]) == [];
    }
    NothingQueued();
  }

  lemma NothingQueued()
    ensures forall place :: Toks([], place) == multiset{}
    ensures forall role :: Tags([], role) == []
    ensures Publishes([]) == [] && forall qos :: Acked([], qos) == []
  {
  }

  lemma StepSound(n: Net, st: P.Strategy, step: NetStep)
    requires Sound(n) && Allowed(n, step)
    ensures Sound(Advance(n, st, step))
  {
    hide Sound, Abs, Apply, FreshStep, Allocates, PublishCalls, InFlight, Serve, TakenId;
    match step
    case Local(s) => LocalSound(n, st, s);
    case PeerTakes(codes) => if n.taken < |n.client.out| { PeerSound(n, codes); }
    case PeerSends(i) => if MaySend(n.peer.back, n.ready, i) { SendsSound(n, i); }
    case Deliver => if Delivers(n) { DeliverSound(n, st); }
    case Inject(p) => InjectSound(n, p);
  }

  lemma InjectSound(n: Net, p: Packet)
    requires Sound(n) && !IsAck(p)
    ensures Sound(n.(peer := Answer(n.peer, p, Other)))
  {
    hide OneEach, Staged, Dones;
    InjectOther(Abs(n), p);
    InjectStaged(Abs(n), p);
  }

  lemma SendsSound(n: Net, i: nat)
    requires Sound(n) && MaySend(n.peer.back, n.ready, i)
    ensures Sound(n.(ready := n.ready + 1, peer := n.peer.(back := Overtake(n.peer.back, n.ready, i))))
  {
    hide OneEach, Staged, Dones, Overtake;
    OvertakeSame(n.peer.back, n.ready, i);
    OvertakeTokens(Abs(n), n.ready, i);
    OvertakeStaged(Abs(n), n.ready, i);
    var n' := n.(ready := n.ready + 1, peer := n.peer.(back := Overtake(n.peer.back, n.ready, i)));
    assert Abs(n') == Abs(n).(peer := n'.peer);
  }

  lemma ServeAnswers(r: Peer, s: Sent, codes: bytes)
    ensures r.back <= Serve(r, s, codes).back
  {
  }

  lemma PeerSound(n: Net, codes: bytes)
    requires Sound(n) && n.taken < |n.client.out|
    ensures Sound(n.(taken := n.taken + 1, peer := Serve(n.peer, n.client.out[n.taken], codes)))
  {
    hide OneEach, Staged, Dones, Serve;
    var a, n' := Abs(n), n.(taken := n.taken + 1, peer := Serve(n.peer, n.client.out[n.taken], codes));
    TakenMoves(n);
    assert a.wired != [] && a.wired[0] == n.client.out[n.taken];
    assert Abs(n').wired == a.wired[1..];
    assert Abs(n') == Taken(a).(peer := Serve(a.peer, a.wired[0], codes));
    ServePacket(a, codes);
    ServeStaged(a, codes);
    ServeAnswers(n.peer, n.client.out[n.taken], codes);
  }

  lemma DeliverSound(n: Net, st: P.Strategy)
    requires Sound(n) && Delivers(n)
    ensures Sound(Advance(n, st, Deliver))
  {
    hide OneEach, Staged, Dones, Receive, Received;
    var r := n.(ready := n.ready - 1, peer := n.peer.(back := n.peer.back[1..]));
    ReceiveMoves(r, st, n.peer.back[0].packet);
    DeliverPacket(Abs(n));
    DeliverStaged(Abs(n));
    OutGrows(n.client, st, n.peer.back[0].packet);
    assert Abs(r) == Delivered(Abs(n));
    assert Advance(n, st, Deliver) == r.(client := Receive(n.client, st, n.peer.back[0].packet));
  }

  lemma OutGrows(c: Client, st: P.Strategy, p: Packet)
    ensures Receive(c, st, p).out == c.out
  {
    hide P.Store, P.Delete, DoneMsg;
  }

  lemma LocalSound(n: Net, st: P.Strategy, s: Step)
    requires Sound(n) && Allowed(n, Local(s))
    ensures Sound(Advance(n, st, Local(s)))
  {
    hide Sound, Abs, InFlight, Submit, SendUser, SendLogic, TakenId, FreshStep;
    assert n.called + [] == n.called;
    if !n.client.stopped {
      match s
      case DoPublish(p) => if p.Publish? { SubmitSound(n, st, s, Clamped(p)); }
      case DoSubscribe(topics) => SubmitSound(n, st, s, Subscribe(0, topics));
      case DoUnsubscribe(names) => SubmitSound(n, st, s, Unsub(0, names));
      case DoSendUser =>
        NoSend(n.client, st);
        if n.client.sending && n.client.sendCh != [] { SendUserSound(n); }
      case DoSendLogic =>
        NoSend(n.client, st);
        if n.client.sending && n.client.logicCh != [] { SendLogicSound(n, st); }
      case DoKeepalive => EnqueueSound(n, PingReq);
      case DoDisconnect => EnqueueSound(n, Disconnect);
      case DoStop => StopSound(n);
      case DoReceive(_) => assert false;
    }
  }

  lemma NoSend(c: Client, st: P.Strategy)
    ensures c.sendCh == [] ==> SendUser(c) == c
    ensures c.logicCh == [] ==> SendLogic(c, st) == c
  {
  }

  lemma StopSound(n: Net)
    requires Sound(n)
    ensures Sound(n.(client := n.client.(stopped := true)))
  {
    hide OneEach, Staged, Dones;
    assert Abs(n.(client := n.client.(stopped := true))) == Abs(n);
  }

  lemma EnqueueSound(n: Net, p: Packet)
    requires Sound(n) && (p.PingReq? || p.Disconnect?)
    ensures Sound(n.(client := Session.Queue(n.client, p, Other)))
  {
    hide OneEach, Staged, Dones;
    EnqueueOther(Abs(n), p);
    EnqueueStaged(Abs(n), p);
    assert Abs(n.(client := Session.Queue(n.client, p, Other))) == Enqueue(Abs(n), p, Other);
  }

  lemma SendUserSound(n: Net)
    requires Sound(n) && n.client.sending && n.client.sendCh != []
    ensures Sound(n.(client := SendUser(n.client)))
  {
    hide Staged, OneToken.OnePerId, Dones, SendUser, Ordering.Sendable, UserShape, LogicShape;
    SendUserMoves(n);
    OutLonger(n.client);
    if Ordering.Sendable(n.client.sendCh[0].packet) {
      WriteUser(Abs(n));
      WriteUserStaged(Abs(n));
    } else {
      FailUser(Abs(n));
      FailUserStaged(Abs(n));
    }
  }

  lemma OutLonger(c: Client)
    ensures |c.out| <= |SendUser(c).out|
  {
  }

  lemma SendLogicSound(n: Net, st: P.Strategy)
    requires Sound(n) && n.client.logicCh != []
    ensures Sound(n.(client := SendLogic(n.client, st)))
  {
    hide Staged, OneToken.OnePerId, Dones, SendLogic, UserShape, Ordering.LogicSent;
    assert LogicShape(Abs(n).logicCh[0]);
    SendLogicMoves(n, st);
    Ordering.SendLogicQueues(n.client, st);
    WriteLogic(Abs(n));
    WriteLogicStaged(Abs(n));
  }

  lemma SubmitSound(n: Net, st: P.Strategy, s: Step, p: Packet)
    requires Sound(n) && Allowed(n, Local(s)) && Calling(n.client, s) == Some(p)
    requires p.Publish? || p.Subscribe? || p.Unsub?
    ensures Sound(n.(client := Submit(n.client, st, p), called := n.called + PublishCalls(n.client, s)))
  {
    hide Staged, OneToken.OnePerId, Dones, Submit, TakenId, UserShape, IdGenerator.Fresh, Toks;
    var c, a := n.client, Abs(n);
    var sent := Sent(Ordering.CallPacket(c, p), Call(c.nextTag));
    var n1 := n.(client := Submit(c, st, p));
    var used := if NeedsId(p) then a.used[TakenId(c, p) := NewEntry(c, p)] else a.used;
    SubmitMoves(n, st, p);
    Ordering.SubmitQueues(c, st, p);
    CallShape(n, s, p);
    var calls := PublishCalls(c, s);
    assert calls == if IsPublish(sent) then [sent] else [];
    assert Abs(n1.(called := n.called + calls)) == Abs(n1).(called := n.called + calls);
    SubmitStaged(a, sent, used);
    if NeedsId(p) {
      var id := TakenId(c, p);
      assert id !in a.used by { FreshUnused(c.gen, id); }
      SubmitNumbered(a, sent, n.called + calls, id, NewEntry(c, p));
    } else {
      SubmitPlain(a, sent, n.called + calls);
    }
  }

  lemma FreshUnused(gen: Gen, id: u16)
    requires IdGenerator.Fresh(gen, id)
    ensures id !in gen.used
  {
  }

  /** The packet a call queues is a message without id, or carries the id it was given. */
  lemma CallShape(n: Net, s: Step, p: Packet)
    requires Allowed(n, Local(s)) && Calling(n.client, s) == Some(p)
    requires p.Publish? || p.Subscribe? || p.Unsub?
    ensures var sent := Sent(Ordering.CallPacket(n.client, p), Call(n.client.nextTag));
      && UserShape(sent) && (IsPublish(sent) <==> p.Publish?)
      && (NeedsId(p) ==>
            && sent.packet == NewEntry(n.client, p).packet && sent.packet.packetId == TakenId(n.client, p)
            && (p.Publish? ==> sent.packet.qos != 0))
      && (!NeedsId(p) ==> TokOf(sent, Queued) == None)
  {
    hide TakenId, FreshStep, InFlight;
  }

  // Runs.

  lemma {:induction false} RunSound(st: P.Strategy, steps: seq<NetStep>)
    requires AllowedRun(st, steps)
    ensures Sound(NetAt(st, steps))
    decreases |steps|
  {
    hide Sound, Advance, Allowed;
    if steps == [] {
      StartSound();
    } else {
      AllowedBefore(st, steps);
      RunSound(st, steps[..|steps| - 1]);
      StepSound(NetAt(st, steps[..|steps| - 1]), st, steps[|steps| - 1]);
    }
  }

  /** A call occurs once in a list of packets. */
  ghost predicate Once(ss: seq<Sent>, tag: nat) {
    exists i ::
      && 0 <= i < |ss| && ss[i].mark == Call(tag)
      && forall j :: 0 <= j < |ss| && ss[j].mark == Call(tag) ==> j == i
  }

  predicate Rising(ts: seq<nat>) {
    forall i, j :: 0 <= i < j < |ts| ==> ts[i] < ts[j]
  }

  /** Stage by stage, in call order: what the client reports is a beginning of what the peer released,
      and so on back to what was called for. */
  lemma {:induction false} StagesInOrder(st: P.Strategy, steps: seq<NetStep>)
    requires AllowedRun(st, steps)
    ensures var n := NetAt(st, steps);
      && Acked(Dones(n.client.msgs), 2) <= Tags(n.peer.released, Pub2) <= Tags(n.peer.accepted, Pub2)
      && Acked(Dones(n.client.msgs), 1) <= Tags(n.peer.accepted, Pub1)
      && n.peer.accepted <= n.called
      && (forall s :: s in n.peer.released ==> s in n.peer.accepted)
  {
    hide NetAt, OneEach, Tags, Publishes, Acked, CallsRise;
    RunSound(st, steps);
  }

  lemma {:induction false} TagsFrom(ss: seq<Sent>, role: Role, tag: nat)
    requires tag in Tags(ss, role)
    ensures exists i :: 0 <= i < |ss| && Plays(ss[i], role) && ss[i].mark.tag == tag
  {
    if Plays(ss[|ss| - 1], role) && ss[|ss| - 1].mark.tag == tag {
    } else {
      TagsFrom(ss[..|ss| - 1], role, tag);
      var i :| 0 <= i < |ss| - 1 && Plays(ss[..|ss| - 1][i], role) && ss[..|ss| - 1][i].mark.tag == tag;
      assert Plays(ss[i], role);
    }
  }

  /** Tags picked from rising calls rise. */
  lemma {:induction false} TagsRise(ss: seq<Sent>, role: Role)
    requires forall i :: 0 <= i < |ss| ==> IsPublish(ss[i])
    requires forall i, j :: 0 <= i < j < |ss| && IsPublish(ss[i]) && IsPublish(ss[j]) ==>
               ss[i].mark.tag < ss[j].mark.tag
    ensures Rising(Tags(ss, role))
  {
    if ss != [] {
      var start, last := ss[..|ss| - 1], ss[|ss| - 1];
      TagsRise(start, role);
      var ts := Tags(start, role);
      if Plays(last, role) {
        forall k | 0 <= k < |ts| ensures ts[k] < last.mark.tag {
          TagsFrom(start, role, ts[k]);
          var i :| 0 <= i < |start| && Plays(start[i], role) && start[i].mark.tag == ts[k];
          assert IsPublish(ss[i]) && IsPublish(last);
        }
        assert Tags(ss, role) == ts + [last.mark.tag];
      } else {
        assert Tags(ss, role) == ts;
      }
    }
  }

  /** Where every packet plays the part, tags are the packets' own. */
  lemma {:induction false} TagsAll(ss: seq<Sent>, role: Role)
    requires forall s :: s in ss ==> Plays(s, role)
    ensures |Tags(ss, role)| == |ss|
    ensures forall i :: 0 <= i < |ss| ==> Plays(ss[i], role) && Tags(ss, role)[i] == ss[i].mark.tag
  {
    hide Plays;
    if ss != [] {
      TagsAll(ss[..|ss| - 1], role);
    }
  }

  lemma OnceAccepted(called: seq<Sent>, next: nat, accepted: seq<Sent>, role: Role, tag: nat)
    requires CallsRise(called, next) && accepted <= called && tag in Tags(accepted, role)
    requires (role == Pub1 || role == Pub2)
    ensures Once(accepted, tag)
  {
    hide Tags;
    TagsFrom(accepted, role, tag);
    var i :| 0 <= i < |accepted| && Plays(accepted[i], role) && accepted[i].mark.tag == tag;
    forall j | 0 <= j < |accepted| && accepted[j].mark == Call(tag) ensures j == i {
      assert accepted[j] == called[j] && accepted[i] == called[i];
    }
  }

  lemma OnceReleased(released: seq<Sent>, tag: nat)
    requires forall s :: s in released ==> Plays(s, Pub2)
    requires Rising(Tags(released, Pub2)) && tag in Tags(released, Pub2)
    ensures Once(released, tag)
  {
    TagsAll(released, Pub2);
    hide Tags;
    var i :| 0 <= i < |released| && Tags(released, Pub2)[i] == tag;
    assert released[i].mark == Call(tag);
    forall j | 0 <= j < |released| && released[j].mark == Call(tag) ensures j == i {
      assert Tags(released, Pub2)[j] == tag;
    }
  }

  /** Exactly once: for every QoS 2 publish the client reports, the peer accepted that call's message
      exactly once and released it exactly once. For QoS 1 in these runs, it accepted it exactly once. */
  lemma {:induction false} ExactlyOnceDelivery(st: P.Strategy, steps: seq<NetStep>, tag: nat)
    requires AllowedRun(st, steps)
    ensures var n := NetAt(st, steps);
      && (tag in Acked(Dones(n.client.msgs), 2) ==> Once(n.peer.accepted, tag) && Once(n.peer.released, tag))
      && (tag in Acked(Dones(n.client.msgs), 1) ==> Once(n.peer.accepted, tag))
  {
    hide NetAt, OneEach, Tags, Publishes, Acked, Once, Plays;
    RunSound(st, steps);
    StagesInOrder(st, steps);
    var n := NetAt(st, steps);
    var r := n.peer;
    assert CallsRise(n.called, n.client.nextTag);
    if tag in Acked(Dones(n.client.msgs), 2) {
      assert tag in Tags(r.released, Pub2) && tag in Tags(r.accepted, Pub2);
      OnceAccepted(n.called, n.client.nextTag, r.accepted, Pub2, tag);
      AcceptedRise(n.called, n.client.nextTag, r.accepted);
      OnceReleased(r.released, tag);
    }
    if tag in Acked(Dones(n.client.msgs), 1) {
      OnceAccepted(n.called, n.client.nextTag, r.accepted, Pub1, tag);
    }
  }

  lemma AcceptedRise(called: seq<Sent>, next: nat, accepted: seq<Sent>)
    requires CallsRise(called, next) && accepted <= called
    ensures Rising(Tags(accepted, Pub2))
  {
    hide Tags, IsPublish;
    forall i | 0 <= i < |accepted| ensures accepted[i] == called[i] {}
    TagsRise(accepted, Pub2);
  }
}
