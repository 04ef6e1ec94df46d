/** The first 65535 requests of a client take ids that nothing carries yet, so for them the guarantees
    of the exchanges need no assumption about ids. */
module FirstRequests {
  import opened ArbitraryPeer
  import opened Bytes
  import opened Exchange
  import opened ExactlyOnce
  import opened Keys
  import opened NetState
  import opened Packets
  import opened Session
  import opened TokenSteps
  import Asking
  import Delivery
  import IdGenerator
  import Line
  import OneToken
  import Ordering
  import Pipeline
  import P = MemPersist
  import RoundTrip
  import VarInt

  predicate IsCall(step: NetStep) {
    step.Local? && (step.step.DoPublish? || step.step.DoSubscribe? || step.step.DoUnsubscribe?)
  }

  function CallsMade(steps: seq<NetStep>): nat {
    if steps == [] then 0 else CallsMade(steps[..|steps| - 1]) + if IsCall(steps[|steps| - 1]) then 1 else 0
  }

  /** What is asked of users and peer: ids are left to the client, topics fit, the peer's packets are
      well formed, and acknowledgements are answers. */
  predicate Orderly(step: NetStep) {
    match step
    case Local(s) =>
      && !s.DoReceive?
      && (s.DoPublish? && s.p.Publish? && s.p.qos != 0 ==> s.p.packetId == 0)
      && (Submitted(s).Some? ==> Fits(Submitted(s).value))
    case PeerTakes(codes) => |codes| + 2 <= VarInt.MAX_MSG_SIZE
    case Inject(p) => !IsAck(p) && RoundTrip.WellFormed(p)
    case _ => true
  }

  predicate InRange(id: u16, top: nat) {
    1 <= id <= top
  }

  /** A queued packet of an exchange carries an id handed out before. */
  predicate Low(s: Sent, top: nat) {
    !s.mark.Other? && TokOf(s, Queued).Some? ==> InRange(TokOf(s, Queued).value.id, top)
  }

  predicate AllLow(ss: seq<Sent>, top: nat) {
    forall i :: 0 <= i < |ss| ==> Low(ss[i], top)
  }

  predicate LowState(a: State, top: nat) {
    && AllLow(a.sendCh, top) && AllLow(a.logicCh, top) && AllLow(a.wired, top) && AllLow(a.peer.back, top)
    && (forall id :: id in a.used ==> InRange(id, top))
  }

  ghost predicate LowIds(n: Net) {
    n.client.gen.nextID <= 65535 && LowState(Abs(n), n.client.gen.nextID)
  }

  lemma SamePlace(s: Sent, place: Place)
    ensures TokOf(s, place).Some? <==> TokOf(s, Queued).Some?
    ensures TokOf(s, place).Some? ==> !s.mark.Other? && TokOf(s, place).value.id == TokOf(s, Queued).value.id
  {
  }

  lemma {:induction false} LowToks(ss: seq<Sent>, place: Place, top: nat)
    requires AllLow(ss, top)
    ensures forall t :: t in Toks(ss, place) ==> InRange(t.id, top)
  {
    hide TokOf, InRange;
    if ss != [] {
      LowToks(ss[..|ss| - 1], place, top);
      SamePlace(ss[|ss| - 1], place);
      assert Low(ss[|ss| - 1], top);
    }
  }

  lemma LowFlow(a: State, top: nat, id: u16)
    requires LowState(a, top) && id > top
    ensures Absent(Tokens(a), id) && id !in a.used
  {
    hide Toks, AllLow;
    LowToks(a.sendCh, Queued, top);
    LowToks(a.logicCh, Queued, top);
    LowToks(a.wired, Wire, top);
    LowToks(a.peer.back, Back, top);
  }

  lemma NextLow(gen: Gen, e: Entry)
    requires gen.nextID < 65535 && forall id :: id in gen.used ==> InRange(id, gen.nextID)
    ensures IdGenerator.Next(gen, e)
            == (gen.nextID + 1, IdGenerator.State(gen.nextID + 1, gen.used[gen.nextID + 1 := e]))
  {
    var c := IdGenerator.Candidate(gen.nextID);
    assert c == gen.nextID + 1 && ToU16(c) == c;
    assert c !in gen.used;
  }

  lemma TakenLow(c: Client, p: Packet)
    requires c.gen.nextID < 65535 && forall id :: id in c.gen.used ==> InRange(id, c.gen.nextID)
    ensures TakenId(c, p) == c.gen.nextID + 1 && IdGenerator.Fresh(c.gen, TakenId(c, p))
    ensures Register(c.gen, p, c.nextTag).1.nextID == c.gen.nextID + 1
  {
    NextLow(c.gen, Entry(p, c.nextTag));
  }

  // Moves keep ids low.

  lemma Raised(a: State, top: nat, top': nat)
    requires LowState(a, top) && top <= top'
    ensures LowState(a, top')
  {
    hide TokOf;
    assert forall s :: Low(s, top) ==> Low(s, top');
  }

  lemma ServeLow(a: State, codes: bytes, top: nat)
    requires LowState(a, top) && a.wired != [] && WireShape(a.wired[0])
    ensures LowState(Taken(a).(peer := Serve(a.peer, a.wired[0], codes)), top)
  {
    hide InRange;
    var s := a.wired[0];
    assert Low(s, top);
    var back := Serve(a.peer, s, codes).back;
    if back != a.peer.back {
      var answer := back[|a.peer.back|];
      assert back == a.peer.back + [answer];
      AnswerLow(a.peer, s, codes, top);
    }
  }

  lemma AnswerLow(r: Peer, s: Sent, codes: bytes, top: nat)
    requires WireShape(s) && Low(s, top) && |Serve(r, s, codes).back| > |r.back|
    ensures Low(Serve(r, s, codes).back[|r.back|], top)
  {
    hide InRange;
  }

  lemma ReceiveLow(a: State, top: nat)
    requires LowState(a, top) && a.peer.back != []
    ensures LowState(Received(Delivered(a), a.peer.back[0].packet), top)
  {
    hide InRange, DoneMsg;
    var s, r := a.peer.back[0], Delivered(a);
    var a' := Received(r, s.packet);
    assert forall id :: id in a'.used ==> id in a.used;
    if a'.logicCh != a.logicCh {
      var q := a'.logicCh[|a.logicCh|];
      assert a'.logicCh == a.logicCh + [q];
      assert Low(q, top);
    }
  }

  lemma ReceiveGen(c: Client, st: P.Strategy, p: Packet)
    ensures Receive(c, st, p).gen.nextID == c.gen.nextID
  {
    hide P.Store, P.Delete, DoneMsg;
  }

  lemma JustTaken(c: Client, p: Packet, top: nat)
    requires NeedsId(p) ==> TakenId(c, p) > 0 && TakenId(c, p) <= top
    ensures NeedsId(p) ==> InRange(TakenId(c, p), top)
  {
    hide TakenId;
  }

  lemma SubmitGen(c: Client, st: P.Strategy, p: Packet)
    ensures Submit(c, st, p).gen == if NeedsId(p) then Register(c.gen, p, c.nextTag).1 else c.gen
  {
    hide Register, Keep;
    var (id, gen) := if NeedsId(p) then Register(c.gen, p, c.nextTag) else (0, c.gen);
    var p' := if NeedsId(p) then WithId(p, id) else p;
    KeepTable(Handed(c, gen, p'), st, SendKey(id), p');
  }

  lemma CallLow(c: Client, p: Packet, top: nat)
    requires p.Publish? || p.Subscribe? || p.Unsub?
    requires p.Publish? && p.qos != 0 ==> p.packetId == 0
    requires NeedsId(p) ==> InRange(TakenId(c, p), top)
    ensures Low(Sent(Ordering.CallPacket(c, p), Call(c.nextTag)), top)
  {
    hide TakenId;
  }

  lemma SubmitLow(n: Net, st: P.Strategy, p: Packet)
    requires LowIds(n) && n.taken <= |n.client.out|
    requires p.Publish? || p.Subscribe? || p.Unsub?
    requires p.Publish? && p.qos != 0 ==> p.packetId == 0
    requires n.client.gen.nextID < 65535
    ensures LowIds(n.(client := Submit(n.client, st, p)))
    ensures Submit(n.client, st, p).gen.nextID <= n.client.gen.nextID + 1
    ensures NeedsId(p) ==>
              IdGenerator.Fresh(n.client.gen, TakenId(n.client, p)) && Absent(InFlight(n), TakenId(n.client, p))
  {
    hide Submit, Dones, IdGenerator.Fresh, TakenId, Toks, Low, InRange;
    var c, a, top := n.client, Abs(n), n.client.gen.nextID as nat;
    TakenLow(c, p);
    LowFlow(a, top, TakenId(c, p));
    SubmitMoves(n, st, p);
    SubmitGen(c, st, p);
    var top' := Submit(c, st, p).gen.nextID as nat;
    Raised(a, top, top');
    JustTaken(c, p, top');
    CallLow(c, p, top');
  }

  /** The steps of the client's loops. */
  lemma LoopLow(n: Net, st: P.Strategy, s: Step)
    requires LowIds(n) && Sound(n) && !IsCall(Local(s)) && !s.DoReceive?
    ensures LowIds(n.(client := Apply(n.client, st, s))) && Apply(n.client, st, s).gen == n.client.gen
  {
    hide Sound, LowIds, SendUser, SendLogic;
    var c := n.client;
    if !c.stopped {
      match s
      case DoSendUser =>
        NoSend(c, st);
        if c.sending && c.sendCh != [] { UserLow(n); }
      case DoSendLogic =>
        NoSend(c, st);
        if c.sending && c.logicCh != [] { LogicLow(n, st); }
      case DoKeepalive => EnqueueLow(n, PingReq);
      case DoDisconnect => EnqueueLow(n, Disconnect);
      case _ => StoppedLow(n);
    }
  }

  lemma StoppedLow(n: Net)
    requires LowIds(n)
    ensures LowIds(n.(client := n.client.(stopped := true)))
  {
    hide LowState, Dones;
    assert Abs(n.(client := n.client.(stopped := true))) == Abs(n);
  }

  lemma EnqueueLow(n: Net, p: Packet)
    requires LowIds(n)
    ensures LowIds(n.(client := Session.Queue(n.client, p, Other)))
  {
    hide Low, InRange, Dones;
    OtherLow(p, n.client.gen.nextID);
  }

  lemma UserLow(n: Net)
    requires LowIds(n) && Sound(n) && n.client.sending && n.client.sendCh != []
    ensures LowIds(n.(client := SendUser(n.client))) && SendUser(n.client).gen == n.client.gen
  {
    hide Sound, Dones, SendUser, Low, InRange, Ordering.Sendable;
    OutTaken(n);
    SendUserTable(n.client);
    SendUserMoves(n);
  }

  lemma LogicLow(n: Net, st: P.Strategy)
    requires LowIds(n) && Sound(n) && n.client.logicCh != []
    ensures LowIds(n.(client := SendLogic(n.client, st))) && SendLogic(n.client, st).gen == n.client.gen
  {
    hide Sound, Dones, SendLogic, Low, InRange, Ordering.LogicSent;
    OutTaken(n);
    HeadShape(n);
    SendLogicTable(n.client, st);
    SendLogicMoves(n, st);
  }

  lemma HeadShape(n: Net)
    requires Sound(n) && n.client.logicCh != []
    ensures Ordering.LogicSent(n.client.logicCh[0])
  {
    hide OneToken.OnePerId, Pipeline.Staged, Dones, Ordering.LogicSent, UserShape;
    assert LogicShape(Abs(n).logicCh[0]);
  }

  lemma OtherLow(p: Packet, top: nat)
    ensures Low(Sent(p, Other), top)
  {
  }

  /** As long as the counter is below 65535, the next step is allowed and keeps the ids low. */
  lemma {:induction false} StepLow(n: Net, st: P.Strategy, step: NetStep)
    requires LowIds(n) && Sound(n) && Orderly(step) && (IsCall(step) ==> n.client.gen.nextID < 65535)
    ensures Allowed(n, step) && LowIds(Advance(n, st, step))
    ensures Advance(n, st, step).client.gen.nextID <= n.client.gen.nextID + if IsCall(step) then 1 else 0
  {
    hide Sound, Abs, Submit, Receive, Serve, TakenId, InFlight, IdGenerator.Fresh, LowState;
    match step
    case Local(s) =>
      var c' := Apply(n.client, st, s);
      if IsCall(step) {
        if Calling(n.client, s).Some? {
          assert n.taken <= |n.client.out| by { OutTaken(n); }
          SubmitLow(n, st, Calling(n.client, s).value);
        }
      } else {
        LoopLow(n, st, s);
      }
      SameLow(n.(client := c'), Advance(n, st, step));
    case PeerTakes(codes) => if n.taken < |n.client.out| { PeerLow(n, codes); }
    case PeerSends(i) => if MaySend(n.peer.back, n.ready, i) { SendsLow(n, i); }
    case Deliver => if Delivers(n) { DeliverLow(n, st); }
    case Inject(p) => InjectLow(n, p);
  }

  lemma OutTaken(n: Net)
    requires Sound(n)
    ensures n.taken <= |n.client.out|
  {
  }

  lemma SameLow(n: Net, n': Net)
    requires LowIds(n) && n' == n.(called := n'.called)
    ensures LowIds(n')
  {
    hide Dones, AllLow;
  }

  lemma InjectLow(n: Net, p: Packet)
    requires LowIds(n)
    ensures LowIds(n.(peer := Answer(n.peer, p, Other)))
  {
    hide Dones, Low, InRange;
    OtherLow(p, n.client.gen.nextID);
  }

  lemma SendsLow(n: Net, i: nat)
    requires LowIds(n) && MaySend(n.peer.back, n.ready, i)
    ensures LowIds(n.(ready := n.ready + 1, peer := n.peer.(back := Overtake(n.peer.back, n.ready, i))))
  {
    hide Dones, Low, InRange, Overtake;
    OvertakeSame(n.peer.back, n.ready, i);
    var back, top := Overtake(n.peer.back, n.ready, i), n.client.gen.nextID as nat;
    forall j | 0 <= j < |back| ensures Low(back[j], top) {
      assert back[j] in n.peer.back;
    }
  }

  lemma PeerLow(n: Net, codes: bytes)
    requires LowIds(n) && Sound(n) && n.taken < |n.client.out|
    ensures LowIds(n.(taken := n.taken + 1, peer := Serve(n.peer, n.client.out[n.taken], codes)))
  {
    hide Dones, LowState, Serve, OneToken.OnePerId, Pipeline.Staged, UserShape, LogicShape;
    var a := Abs(n);
    var n' := n.(taken := n.taken + 1, peer := Serve(n.peer, n.client.out[n.taken], codes));
    TakenMoves(n);
    assert a.wired != [] && a.wired[0] == n.client.out[n.taken] && Abs(n').wired == a.wired[1..];
    assert Abs(n') == Taken(a).(peer := Serve(a.peer, a.wired[0], codes));
    assert WireShape(a.wired[0]);
    ServeLow(a, codes, n.client.gen.nextID);
  }

  lemma DeliverLow(n: Net, st: P.Strategy)
    requires LowIds(n) && Sound(n) && Delivers(n)
    ensures LowIds(Advance(n, st, Deliver)) && Advance(n, st, Deliver).client.gen.nextID == n.client.gen.nextID
  {
    hide Dones, LowState, Receive, Received, Sound;
    OutTaken(n);
    var p := n.peer.back[0].packet;
    var r := n.(ready := n.ready - 1, peer := n.peer.(back := n.peer.back[1..]));
    ReceiveMoves(r, st, p);
    ReceiveGen(n.client, st, p);
    assert Abs(r) == Delivered(Abs(n));
    ReceiveLow(Abs(n), n.client.gen.nextID);
  }

  lemma {:induction false} RunLow(st: P.Strategy, steps: seq<NetStep>)
    requires (forall s :: s in steps ==> Orderly(s)) && CallsMade(steps) <= 65535
    ensures AllowedRun(st, steps) && LowIds(NetAt(st, steps))
    ensures NetAt(st, steps).client.gen.nextID <= CallsMade(steps)
    decreases |steps|
  {
    hide Sound, Advance, Allowed, LowIds, Orderly, IsCall;
    if steps == [] {
      StartLow();
    } else {
      var before, last := steps[..|steps| - 1], steps[|steps| - 1];
      RunLow(st, before);
      RunSound(st, before);
      assert Orderly(last);
      StepLow(NetAt(st, before), st, last);
      AllowedOneMore(st, steps);
    }
  }

  lemma StartLow()
    ensures LowIds(START)
  {
  }

  lemma AllowedOneMore(st: P.Strategy, steps: seq<NetStep>)
    requires steps != [] && AllowedRun(st, steps[..|steps| - 1])
    requires Allowed(NetAt(st, steps[..|steps| - 1]), steps[|steps| - 1])
    ensures AllowedRun(st, steps)
  {
    hide NetAt, Allowed;
    var before := steps[..|steps| - 1];
    forall i | 0 <= i < |steps| ensures Allowed(NetAt(st, steps[..i]), steps[i]) {
      if i < |before| {
        assert before[i] == steps[i] && before[..i] == steps[..i];
      }
    }
  }

  /** In a client's first 65535 requests every publish reported as acknowledged was accepted exactly
      once, and with QoS 2 released exactly once, whatever the interleaving. */
  lemma {:induction false} FirstRequestsDelivered(st: P.Strategy, steps: seq<NetStep>, d: Msg)
    requires (forall s :: s in steps ==> Orderly(s)) && CallsMade(steps) <= 65535
    requires d in Dones(Line.LineAt(st, steps).net.client.msgs) && d.PubAcked?
    ensures var n := Line.LineAt(st, steps).net;
      exists s ::
        && Delivery.TellsOf(d, s) && s in n.called && Asking.AskedFor(s, steps)
        && s in n.peer.accepted && Once(n.peer.accepted, d.tag)
        && (d.qos == 2 ==> s in n.peer.released && Once(n.peer.released, d.tag))
  {
    hide Line.LineAt, Orderly, Once, Dones, AllowedRun, Delivery.TellsOf, Asking.AskedFor;
    RunLow(st, steps);
    Line.DeliveredOnBytes(st, steps, d);
  }
}
