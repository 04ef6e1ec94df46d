/** Every exchange drains: each protocol step leaves less to do, and with nothing left to do every
    request was reported. */
module Drain {
  import opened ArbitraryPeer
  import opened Bytes
  import opened Exchange
  import opened ExactlyOnce
  import opened NetState
  import opened OneToken
  import opened Packets
  import opened Pipeline
  import opened Session
  import opened TokenSteps
  import Ordering
  import P = MemPersist
  import VarInt

  /** Steps a queued packet can still cause. */
  function Weight(s: Sent, place: Place): (w: nat)
    ensures w > 0
  {
    match TokOf(s, place)
    case Some(t) => if t.left > 0 then t.left else 1
    case None =>
      match place
      case Queued => if s.packet.PingReq? then 3 else 2
      case Wire => if s.packet.PingReq? then 2 else 1
      case Back => if s.packet.PubRel? || (s.packet.Publish? && (s.packet.qos == 1 || s.packet.qos == 2)) then 3 else 1
  }

  function Load(ss: seq<Sent>, place: Place): (w: nat)
    ensures ss != [] ==> w > 0
  {
    if ss == [] then 0 else Load(ss[..|ss| - 1], place) + Weight(ss[|ss| - 1], place)
  }

  lemma LoadLast(ss: seq<Sent>, s: Sent, place: Place)
    ensures Load(ss + [s], place) == Load(ss, place) + Weight(s, place)
  {
    hide Weight;
    assert (ss + [s])[..|ss|] == ss;
  }

  lemma {:induction false} LoadFirst(ss: seq<Sent>, place: Place)
    requires ss != []
    ensures Load(ss, place) == Weight(ss[0], place) + Load(ss[1..], place)
  {
    hide Weight;
    var start, tail := ss[..|ss| - 1], ss[1..];
    if tail == [] {
      assert start == [];
    } else {
      LoadFirst(start, place);
      assert start[1..] == tail[..|tail| - 1];
    }
  }

  lemma {:induction false} LoadConcat(a: seq<Sent>, b: seq<Sent>, place: Place)
    ensures Load(a + b, place) == Load(a, place) + Load(b, place)
    decreases |b|
  {
    hide Weight;
    if b == [] {
      assert a + b == a;
    } else {
      LoadConcat(a, b[..|b| - 1], place);
      assert (a + b)[..|a + b| - 1] == a + b[..|b| - 1];
    }
  }

  lemma OvertakeLoad(back: seq<Sent>, ready: nat, i: nat, place: Place)
    requires ready + i < |back|
    ensures Load(Overtake(back, ready, i), place) == Load(back, place)
  {
    hide Load;
    var x, y, s, z := back[..ready], back[ready..ready + i], [back[ready + i]], back[ready + i + 1..];
    OvertakeParts(back, ready, i);
    LoadConcat(x + (y + s), z, place);
    LoadConcat(x, y + s, place);
    LoadConcat(y, s, place);
    LoadConcat(x + (s + y), z, place);
    LoadConcat(x, s + y, place);
    LoadConcat(s, y, place);
  }

  function Measure(a: State): nat {
    Load(a.sendCh, Queued) + Load(a.logicCh, Queued) + Load(a.wired, Wire) + Load(a.peer.back, Back)
  }

  /** Answers not sent yet. */
  function Waiting(n: Net): nat {
    if n.ready <= |n.peer.back| then |n.peer.back| - n.ready else 0
  }

  function Remaining(n: Net): nat {
    2 * Measure(Abs(n)) + Waiting(n)
  }

  /** The protocol's own steps: a send of either side, a packet taken by the peer, a packet delivered. */
  predicate Enabled(n: Net, step: NetStep) {
    && !n.client.stopped && n.client.sending
    && match step
       case Local(s) => (s.DoSendUser? && n.client.sendCh != []) || (s.DoSendLogic? && n.client.logicCh != [])
       case PeerTakes(codes) => n.taken < |n.client.out| && |codes| + 2 <= VarInt.MAX_MSG_SIZE
       case PeerSends(i) => MaySend(n.peer.back, n.ready, i)
       case Deliver => n.ready > 0 && n.peer.back != []
       case Inject(_) => false
  }

  /** Each of them leaves less to do. */
  lemma {:induction false} StepDrops(n: Net, st: P.Strategy, step: NetStep)
    requires Sound(n) && Enabled(n, step)
    ensures Remaining(Advance(n, st, step)) < Remaining(n)
  {
    hide Measure, Abs, Sound, Overtake, Serve, SendUser, SendLogic;
    assert n.ready <= |n.peer.back| by { ReadyBound(n); }
    match step
    case PeerSends(i) =>
      OvertakeSame(n.peer.back, n.ready, i);
      SendsKeeps(n, i);
    case PeerTakes(codes) =>
      OneAnswerMore(n.peer, n.client.out[n.taken], codes);
      StepEases(n, st, step);
    case _ => StepEases(n, st, step);
  }

  lemma ReadyBound(n: Net)
    requires Sound(n)
    ensures n.ready <= |n.peer.back|
  {
  }

  lemma OneAnswerMore(r: Peer, s: Sent, codes: bytes)
    ensures |r.back| <= |Serve(r, s, codes).back| <= |r.back| + 1
  {
  }

  lemma SendsKeeps(n: Net, i: nat)
    requires MaySend(n.peer.back, n.ready, i)
    ensures Measure(Abs(n.(ready := n.ready + 1, peer := n.peer.(back := Overtake(n.peer.back, n.ready, i)))))
            == Measure(Abs(n))
  {
    hide Load, Overtake;
    OvertakeLoad(n.peer.back, n.ready, i, Back);
  }

  /** All but the peer's sending drop the measure. */
  lemma StepEases(n: Net, st: P.Strategy, step: NetStep)
    requires Sound(n) && Enabled(n, step) && !step.PeerSends?
    ensures Measure(Abs(Advance(n, st, step))) < Measure(Abs(n))
  {
    hide Measure, OneEach, Staged, Received, Receive, Serve, SendUser, SendLogic, Dones;
    var a := Abs(n);
    match step
    case Local(s) =>
      assert n.called + PublishCalls(n.client, s) == n.called;
      if s.DoSendUser? { UserDrops(n); } else { LogicDrops(n, st); }
    case PeerTakes(codes) =>
      TakenMoves(n);
      var n' := Advance(n, st, step);
      assert a.wired != [] && Abs(n').wired == a.wired[1..] && a.wired[0] == n.client.out[n.taken];
      assert Abs(n') == Taken(a).(peer := Serve(a.peer, a.wired[0], codes));
      ServeDrops(a, codes);
    case Deliver =>
      var r := n.(ready := n.ready - 1, peer := n.peer.(back := n.peer.back[1..]));
      ReceiveMoves(r, st, n.peer.back[0].packet);
      assert Abs(r) == Delivered(a);
      DeliverDrops(a);
  }

  lemma UserDrops(n: Net)
    requires n.taken <= |n.client.out| && n.client.sendCh != [] && n.client.sending && OneEach(Abs(n))
    ensures Measure(Abs(n.(client := SendUser(n.client)))) < Measure(Abs(n))
  {
    hide Load, Weight, SendUser, Dones, OnePerId, UserShape, LogicShape, Ordering.Sendable;
    var a, s := Abs(n), n.client.sendCh[0];
    SendUserMoves(n);
    LoadFirst(a.sendCh, Queued);
    LoadLast(a.wired, s, Wire);
    assert Weight(s, Wire) < Weight(s, Queued) by { Lighter(s); }
  }

  lemma LogicDrops(n: Net, st: P.Strategy)
    requires n.taken <= |n.client.out| && n.client.logicCh != [] && OneEach(Abs(n))
    ensures Measure(Abs(n.(client := SendLogic(n.client, st)))) < Measure(Abs(n))
  {
    hide Load, Weight, SendLogic, Dones, OnePerId, UserShape, Ordering.LogicSent;
    var a, s := Abs(n), n.client.logicCh[0];
    assert LogicShape(a.logicCh[0]);
    SendLogicMoves(n, st);
    LoadFirst(a.logicCh, Queued);
    LoadLast(a.wired, s, Wire);
    assert Weight(s, Wire) < Weight(s, Queued) by { Lighter(s); }
  }

  lemma Lighter(s: Sent)
    requires WireShape(s)
    ensures Weight(s, Wire) < Weight(s, Queued)
  {
  }

  lemma ServeDrops(a: State, codes: bytes)
    requires OneEach(a) && a.wired != []
    ensures Measure(Taken(a).(peer := Serve(a.peer, a.wired[0], codes))) < Measure(a)
  {
    hide Load, OnePerId, Weight;
    var s := a.wired[0];
    assert WireShape(s);
    LoadFirst(a.wired, Wire);
    var back := Serve(a.peer, s, codes).back;
    if back != a.peer.back {
      var answer := back[|a.peer.back|];
      assert back == a.peer.back + [answer];
      LoadLast(a.peer.back, answer, Back);
      AnswerLighter(a.peer, s, codes);
    }
  }

  lemma AnswerLighter(r: Peer, s: Sent, codes: bytes)
    requires WireShape(s) && |Serve(r, s, codes).back| > |r.back|
    ensures Weight(Serve(r, s, codes).back[|r.back|], Back) < Weight(s, Wire)
  {
  }

  lemma DeliverDrops(a: State)
    requires OneEach(a) && a.peer.back != []
    ensures Measure(Received(Delivered(a), a.peer.back[0].packet)) < Measure(a)
  {
    hide Load, OnePerId, Weight, Received, UserShape, LogicShape;
    var s := a.peer.back[0];
    assert BackShape(s);
    if s.mark.LastRel? {
      DeliverLastComp(a);
    }
    LoadFirst(a.peer.back, Back);
    Reaction(Delivered(a), s);
    var a' := Received(Delivered(a), s.packet);
    if a'.logicCh != a.logicCh {
      LoadLast(a.logicCh, a'.logicCh[|a.logicCh|], Queued);
    }
  }

  /** What the client queues on a packet is at most one packet that weighs less. */
  lemma Reaction(a: State, s: Sent)
    requires BackShape(s) && (s.mark.LastRel? ==> s.packet.packetId !in a.used)
    ensures var a' := Received(a, s.packet);
      && a'.sendCh == a.sendCh && a'.wired == a.wired && a'.peer == a.peer
      && (a'.logicCh != a.logicCh ==>
            && a'.logicCh == a.logicCh + [a'.logicCh[|a.logicCh|]]
            && Weight(a'.logicCh[|a.logicCh|], Queued) < Weight(s, Back))
  {
    hide Weight, DoneMsg;
    var a' := Received(a, s.packet);
    if a'.logicCh != a.logicCh {
      ReactionLighter(s, a'.logicCh[|a.logicCh|]);
    }
  }

  /** What the client queues on a packet weighs less than the packet. */
  lemma ReactionLighter(s: Sent, q: Sent)
    requires BackShape(s) && !s.mark.LastRel?
    requires match s.packet
      case Publish(_, qos, _, _, _, _) =>
        (qos == 1 || qos == 2) && q.mark.Other? && (q.packet.PubAck? || q.packet.PubRecv?)
      case PubRel(_) => q.mark.Other? && q.packet.PubComp?
      case PubRecv(_) => q.mark.FirstRel? && q.packet.PubRel?
      case PubComp(_) => q.mark.LastRel? && q.packet.PubRel?
      case _ => false
    ensures Weight(q, Queued) < Weight(s, Back)
  {
  }

  // Runs of protocol steps.

  function From(n: Net, st: P.Strategy, steps: seq<NetStep>): Net
    decreases |steps|
  {
    if steps == [] then n else From(Advance(n, st, steps[0]), st, steps[1..])
  }

  predicate EnabledRun(n: Net, st: P.Strategy, steps: seq<NetStep>)
    decreases |steps|
  {
    steps != [] ==> Enabled(n, steps[0]) && EnabledRun(Advance(n, st, steps[0]), st, steps[1..])
  }

  lemma EnabledAllowed(n: Net, step: NetStep)
    requires Enabled(n, step)
    ensures Allowed(n, step)
  {
  }

  lemma {:induction false} RunDrops(n: Net, st: P.Strategy, steps: seq<NetStep>)
    requires Sound(n) && EnabledRun(n, st, steps)
    ensures Sound(From(n, st, steps))
    ensures |steps| + Remaining(From(n, st, steps)) <= Remaining(n)
    decreases |steps|
  {
    hide Sound, Enabled, Allowed, Advance, Remaining;
    if steps != [] {
      EnabledAllowed(n, steps[0]);
      StepSound(n, st, steps[0]);
      StepDrops(n, st, steps[0]);
      RunDrops(Advance(n, st, steps[0]), st, steps[1..]);
    }
  }

  /** From every reachable state, only so many protocol steps can follow until something else happens. */
  lemma {:induction false} ProtocolTerminates(st: P.Strategy, past: seq<NetStep>, steps: seq<NetStep>)
    requires AllowedRun(st, past) && EnabledRun(NetAt(st, past), st, steps)
    ensures |steps| <= Remaining(NetAt(st, past))
  {
    hide Sound, Enabled, Allowed, Advance, Remaining, NetAt;
    RunSound(st, past);
    RunDrops(NetAt(st, past), st, steps);
  }

  /** When no protocol step is left, on a connection still sending, everything called for has been
      accepted, released and reported, and no id is in use. */
  lemma {:induction false} DrainedMeansDone(st: P.Strategy, steps: seq<NetStep>)
    requires AllowedRun(st, steps) && NetAt(st, steps).client.sending && !NetAt(st, steps).client.stopped
    requires forall step :: !Enabled(NetAt(st, steps), step)
    ensures var n := NetAt(st, steps);
      && n.client.gen.used == map[] && n.peer.held == map[]
      && n.peer.accepted == n.called
      && Acked(Dones(n.client.msgs), 2) == Tags(n.peer.released, Pub2) == Tags(n.called, Pub2)
      && Acked(Dones(n.client.msgs), 1) == Tags(n.called, Pub1)
  {
    hide Sound, NetAt, Dones;
    RunSound(st, steps);
    var n := NetAt(st, steps);
    assert !Enabled(n, Local(DoSendUser)) && !Enabled(n, Local(DoSendLogic));
    assert !Enabled(n, PeerTakes([])) && !Enabled(n, PeerSends(0)) && !Enabled(n, Deliver);
    assert n.peer.back == [] by { AllSent(n); }
    EmptyMeansDone(n);
  }

  lemma AllSent(n: Net)
    requires Sound(n) && !MaySend(n.peer.back, n.ready, 0) && (n.ready == 0 || n.peer.back == [])
    ensures n.peer.back == []
  {
  }

  lemma EmptyMeansDone(n: Net)
    requires Sound(n) && n.client.sending
    requires n.client.sendCh == [] && n.client.logicCh == [] && n.taken >= |n.client.out| && n.peer.back == []
    ensures n.client.gen.used == map[] && n.peer.held == map[] && n.peer.accepted == n.called
    ensures Acked(Dones(n.client.msgs), 2) == Tags(n.peer.released, Pub2) == Tags(n.called, Pub2)
    ensures Acked(Dones(n.client.msgs), 1) == Tags(n.called, Pub1)
  {
    hide Dones, Tags, Publishes, Acked, Toks, Shapes;
    NothingQueued();
    var a := Abs(n);
    assert a.wired == [];
    assert Tokens(a) == multiset{};
    forall id: u16 ensures id !in a.used && id !in a.peer.held {
      assert Absent(Tokens(a), id);
    }
    assert a.peer.accepted + [] + [] == a.peer.accepted;
    assert Tags(a.peer.released, Pub2) + [] + [] + [] == Tags(a.peer.released, Pub2);
    assert Acked(a.dones, 2) + [] == Acked(a.dones, 2) && Acked(a.dones, 1) + [] == Acked(a.dones, 1);
  }
}
