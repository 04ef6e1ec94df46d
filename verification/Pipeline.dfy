/** The stages of an exchange as queues of call numbers: what is reported, released, accepted and
    called for, with what is queued in between, always adds up, in order. */
module Pipeline {
  import opened ArbitraryPeer
  import opened Bytes
  import opened Exchange
  import opened NetState
  import opened Packets
  import opened Session
  import opened TokenSteps
  import OneToken
  import Ordering

  /** The parts queued packets play. */
  datatype Role = Pub1 | Pub2 | Rel | Last | Recv | Comp | Ack

  predicate Plays(s: Sent, role: Role) {
    match role
    case Pub1 => s.mark.Call? && s.packet.Publish? && s.packet.qos == 1
    case Pub2 => s.mark.Call? && s.packet.Publish? && s.packet.qos == 2
    case Rel => s.mark.FirstRel? && s.packet.PubRel?
    case Last => s.mark.LastRel? && s.packet.PubRel?
    case Recv => s.mark.Call? && s.packet.PubRecv?
    case Comp => s.mark.FirstRel? && s.packet.PubComp?
    case Ack => s.mark.Call? && s.packet.PubAck?
  }

  /** The call numbers of the packets that play a part, in queue order. */
  function Tags(ss: seq<Sent>, role: Role): seq<nat> {
    if ss == [] then []
    else
      var s := ss[|ss| - 1];
      Tags(ss[..|ss| - 1], role) + if Plays(s, role) then [s.mark.tag] else []
  }

  predicate IsPublish(s: Sent) {
    s.mark.Call? && s.packet.Publish?
  }

  function Publishes(ss: seq<Sent>): seq<Sent> {
    if ss == [] then []
    else
      var s := ss[|ss| - 1];
      Publishes(ss[..|ss| - 1]) + if IsPublish(s) then [s] else []
  }

  /** The publishes of a level reported as acknowledged, in order of the reports. */
  function Acked(ds: seq<Msg>, qos: byte): seq<nat> {
    if ds == [] then []
    else
      var d := ds[|ds| - 1];
      Acked(ds[..|ds| - 1], qos) + if d.PubAcked? && d.qos == qos then [d.tag] else []
  }

  lemma TagsLast(ss: seq<Sent>, s: Sent, role: Role)
    ensures Tags(ss + [s], role) == Tags(ss, role) + if Plays(s, role) then [s.mark.tag] else []
  {
    assert (ss + [s])[..|ss|] == ss;
  }

  lemma {:induction false} TagsFirst(ss: seq<Sent>, role: Role)
    requires ss != []
    ensures Tags(ss, role) == (if Plays(ss[0], role) then [ss[0].mark.tag] else []) + Tags(ss[1..], role)
  {
    if |ss| > 1 {
      TagsFirst(ss[..|ss| - 1], role);
      assert ss[..|ss| - 1][1..] == ss[1..][..|ss| - 2];
    }
  }

  lemma TagsSkip(ss: seq<Sent>, role: Role)
    requires ss != [] && !Plays(ss[0], role)
    ensures Tags(ss, role) == Tags(ss[1..], role)
  {
    hide Tags, Plays;
    TagsFirst(ss, role);
    assert [] + Tags(ss[1..], role) == Tags(ss[1..], role);
  }

  lemma TagsKeep(ss: seq<Sent>, s: Sent, role: Role)
    requires !Plays(s, role)
    ensures Tags(ss + [s], role) == Tags(ss, role)
  {
    hide Tags, Plays;
    TagsLast(ss, s, role);
  }

  lemma PublishesLast(ss: seq<Sent>, s: Sent)
    ensures Publishes(ss + [s]) == Publishes(ss) + if IsPublish(s) then [s] else []
  {
    assert (ss + [s])[..|ss|] == ss;
  }

  lemma {:induction false} PublishesFirst(ss: seq<Sent>)
    requires ss != []
    ensures Publishes(ss) == (if IsPublish(ss[0]) then [ss[0]] else []) + Publishes(ss[1..])
  {
    if |ss| > 1 {
      PublishesFirst(ss[..|ss| - 1]);
      assert ss[..|ss| - 1][1..] == ss[1..][..|ss| - 2];
    }
  }

  lemma AckedLast(ds: seq<Msg>, d: Msg, qos: byte)
    ensures Acked(ds + [d], qos) == Acked(ds, qos) + if d.PubAcked? && d.qos == qos then [d.tag] else []
  {
    assert (ds + [d])[..|ds|] == ds;
  }

  // The stages.

  /** Calls, in the order they were made. */
  predicate CallsRise(called: seq<Sent>, next: nat) {
    && (forall i :: 0 <= i < |called| ==> IsPublish(called[i]) && called[i].mark.tag < next)
    && (forall i, j :: 0 <= i < j < |called| && IsPublish(called[i]) && IsPublish(called[j]) ==>
          called[i].mark.tag < called[j].mark.tag)
  }

  /** Called for, written, accepted: the peer takes the publishes in call order. */
  predicate Accepting(a: State) {
    && a.peer.accepted + Publishes(a.wired) <= a.called
    && (a.sending ==> a.peer.accepted + Publishes(a.wired) + Publishes(a.sendCh) == a.called)
  }

  /** QoS 2, from acceptance to release: PUBREC, then the first PUBREL. */
  predicate Releasing(a: State) {
    Tags(a.peer.released, Pub2) + Tags(a.wired, Rel) + Tags(a.logicCh, Rel) + Tags(a.peer.back, Recv)
    == Tags(a.peer.accepted, Pub2)
  }

  /** QoS 2, from release to report: the first PUBCOMP. */
  predicate Reporting2(a: State) {
    Acked(a.dones, 2) + Tags(a.peer.back, Comp) == Tags(a.peer.released, Pub2)
  }

  /** QoS 1, from acceptance to report: PUBACK. */
  predicate Reporting1(a: State) {
    Acked(a.dones, 1) + Tags(a.peer.back, Ack) == Tags(a.peer.accepted, Pub1)
  }

  /** What the peer holds or released it had accepted. */
  predicate FromAccepted(held: map<u16, Sent>, accepted: seq<Sent>, released: seq<Sent>) {
    && (forall id: u16 :: id in held ==> held[id] in accepted && Plays(held[id], Pub2))
    && (forall s :: s in released ==> s in accepted && Plays(s, Pub2))
  }

  predicate Staged(a: State) {
    && CallsRise(a.called, a.nextTag) && Accepting(a) && Releasing(a) && Reporting2(a) && Reporting1(a)
    && FromAccepted(a.peer.held, a.peer.accepted, a.peer.released)
  }

  // Moves of the client's queues.

  lemma WriteUserStaged(a: State)
    requires Staged(a) && OneEach(a) && a.sendCh != [] && a.sending
    ensures Staged(a.(sendCh := a.sendCh[1..], wired := a.wired + [a.sendCh[0]]))
  {
    hide OneToken.OnePerId, Tags, Publishes, CallsRise, FromAccepted, Acked;
    var s := a.sendCh[0];
    assert UserShape(s);
    TagsLast(a.wired, s, Rel);
    assert Tags(a.wired, Rel) + [] == Tags(a.wired, Rel);
    PublishesFirst(a.sendCh);
    PublishesLast(a.wired, s);
    var p := if IsPublish(s) then [s] else [];
    Regroup3(a.peer.accepted, Publishes(a.wired), p, Publishes(a.sendCh[1..]));
  }

  lemma Regroup3<T>(a: seq<T>, b: seq<T>, c: seq<T>, d: seq<T>)
    ensures a + b + (c + d) == a + (b + c) + d
    ensures a + (b + c) == a + b + c
    ensures a + b + c <= a + b + (c + d)
  {
    assert a + b + (c + d) == (a + b + c) + d;
  }

  lemma FailUserStaged(a: State)
    requires Staged(a) && a.sendCh != []
    ensures Staged(a.(sendCh := a.sendCh[1..], sending := false))
  {
    hide Tags, Publishes, CallsRise, FromAccepted, Acked;
  }

  lemma WriteLogicStaged(a: State)
    requires Staged(a) && OneEach(a) && a.logicCh != []
    ensures Staged(a.(logicCh := a.logicCh[1..], wired := a.wired + [a.logicCh[0]]))
  {
    hide OneToken.OnePerId, Tags, Publishes, CallsRise, FromAccepted, Acked;
    var s := a.logicCh[0];
    assert LogicShape(s);
    TagsLast(a.wired, s, Rel);
    TagsFirst(a.logicCh, Rel);
    PublishesLast(a.wired, s);
    assert Publishes(a.wired) + [] == Publishes(a.wired);
    var moved := if Plays(s, Rel) then [s.mark.tag] else [];
    Regroup3(Tags(a.peer.released, Pub2), Tags(a.wired, Rel), moved, Tags(a.logicCh[1..], Rel));
  }

  lemma EnqueueStaged(a: State, p: Packet)
    requires Staged(a)
    ensures Staged(Enqueue(a, p, Other))
  {
    hide Tags, Publishes, CallsRise, FromAccepted, Acked;
    TagsLast(a.logicCh, Sent(p, Other), Rel);
    assert Tags(a.logicCh, Rel) + [] == Tags(a.logicCh, Rel);
  }

  lemma SubmitStaged(a: State, s: Sent, used: map<u16, Entry>)
    requires Staged(a) && s.mark == Call(a.nextTag)
    ensures Staged(a.(sendCh := a.sendCh + [s], nextTag := a.nextTag + 1, used := used,
                      called := a.called + if IsPublish(s) then [s] else []))
  {
    hide Tags, Publishes, FromAccepted, Acked;
    PublishesLast(a.sendCh, s);
    var p := if IsPublish(s) then [s] else [];
    Regroup3(a.peer.accepted, Publishes(a.wired), Publishes(a.sendCh), p);
    assert a.called <= a.called + p;
  }

  // The peer takes a packet.

  lemma ServeStaged(a: State, codes: bytes)
    requires Staged(a) && OneEach(a) && a.wired != []
    ensures Staged(Taken(a).(peer := Serve(a.peer, a.wired[0], codes)))
  {
    hide OneToken.OnePerId, Staged, Serve;
    var s := a.wired[0];
    assert WireShape(s);
    match s.packet
    case Publish(_, _, _, _, _, _) =>
      if s.packet.qos == 2 { ServeAccept(a, codes); }
      ServePublishStaged(a, codes);
    case PubRel(_) =>
      ServeRelease(a, codes);
      if s.mark.FirstRel? { ServeFirstRelStaged(a, codes); } else { ServeLastRelStaged(a, codes); }
    case _ => ServeOtherStaged(a, codes);
  }

  /** A packet outside every stage goes by, answered or not. */
  lemma PassesBy(a: State, p: Packet, mark: Mark)
    requires a.wired != [] && !Plays(a.wired[0], Rel) && !IsPublish(a.wired[0])
    requires var s := Sent(p, mark); !Plays(s, Recv) && !Plays(s, Comp) && !Plays(s, Ack)
    ensures Tags(a.wired, Rel) == Tags(a.wired[1..], Rel) && Publishes(a.wired) == Publishes(a.wired[1..])
    ensures var back := a.peer.back + [Sent(p, mark)];
      && Tags(back, Recv) == Tags(a.peer.back, Recv)
      && Tags(back, Comp) == Tags(a.peer.back, Comp)
      && Tags(back, Ack) == Tags(a.peer.back, Ack)
  {
    hide Tags, Publishes, Plays;
    var s := Sent(p, mark);
    TagsSkip(a.wired, Rel);
    PublishesFirst(a.wired);
    assert [] + Publishes(a.wired[1..]) == Publishes(a.wired[1..]);
    TagsKeep(a.peer.back, s, Recv);
    TagsKeep(a.peer.back, s, Comp);
    TagsKeep(a.peer.back, s, Ack);
  }

  lemma ServeOtherStaged(a: State, codes: bytes)
    requires Staged(a) && a.wired != [] && WireShape(a.wired[0])
    requires !a.wired[0].packet.Publish? && !a.wired[0].packet.PubRel?
    ensures Staged(Taken(a).(peer := Serve(a.peer, a.wired[0], codes)))
  {
    hide Tags, Publishes, CallsRise, FromAccepted, Acked;
    var s := a.wired[0];
    match s.packet
    case Subscribe(id, _) => PassesBy(a, SubAck(id, codes), s.mark);
    case Unsub(id, _) => PassesBy(a, UnsubAck(id), s.mark);
    case PingReq => PassesBy(a, PingResp, Other);
    case _ => PassesBy(a, s.packet, Other);
  }

  lemma ServeLastRelStaged(a: State, codes: bytes)
    requires Staged(a) && a.wired != [] && a.wired[0].packet.PubRel? && a.wired[0].mark.LastRel?
    requires a.wired[0].packet.packetId !in a.peer.held
    ensures Staged(Taken(a).(peer := Serve(a.peer, a.wired[0], codes)))
  {
    hide Tags, Publishes, CallsRise, FromAccepted, Acked;
    PassesBy(a, PubComp(a.wired[0].packet.packetId), a.wired[0].mark);
  }

  lemma ServeFirstRelStaged(a: State, codes: bytes)
    requires Staged(a) && a.wired != [] && a.wired[0].packet.PubRel? && a.wired[0].mark.FirstRel?
    requires var (s, id) := (a.wired[0], a.wired[0].packet.packetId);
      id in a.peer.held && a.peer.held[id].mark == Call(s.mark.tag)
    ensures Staged(Taken(a).(peer := Serve(a.peer, a.wired[0], codes)))
  {
    hide Tags, Publishes, CallsRise, Acked;
    var s := a.wired[0];
    var id, tag := s.packet.packetId, s.mark.tag;
    var answer := Sent(PubComp(id), s.mark);
    TagsFirst(a.wired, Rel);
    PublishesFirst(a.wired);
    TagsLast(a.peer.back, answer, Recv);
    TagsLast(a.peer.back, answer, Comp);
    TagsLast(a.peer.back, answer, Ack);
    TagsLast(a.peer.released, a.peer.held[id], Pub2);
    assert [] + Publishes(a.wired[1..]) == Publishes(a.wired[1..]);
    assert Tags(a.peer.back, Recv) + [] == Tags(a.peer.back, Recv);
    assert Tags(a.peer.back, Ack) + [] == Tags(a.peer.back, Ack);
    var done, rest := Tags(a.peer.released, Pub2), Tags(a.wired[1..], Rel);
    assert done + ([tag] + rest) == (done + [tag]) + rest;
    var reported, waiting := Acked(a.dones, 2), Tags(a.peer.back, Comp);
    assert reported + (waiting + [tag]) == (reported + waiting) + [tag];
  }

  lemma ServePublishStaged(a: State, codes: bytes)
    requires Staged(a) && a.wired != [] && UserShape(a.wired[0]) && a.wired[0].packet.Publish?
    requires a.wired[0].packet.qos == 2 ==> a.wired[0].packet.packetId !in a.peer.held
    ensures Staged(Taken(a).(peer := Serve(a.peer, a.wired[0], codes)))
  {
    hide Tags, Publishes, CallsRise, Acked;
    var s := a.wired[0];
    TagsFirst(a.wired, Rel);
    PublishesFirst(a.wired);
    assert a.peer.accepted + ([s] + Publishes(a.wired[1..])) == (a.peer.accepted + [s]) + Publishes(a.wired[1..]);
    assert [] + Tags(a.wired[1..], Rel) == Tags(a.wired[1..], Rel);
    AcceptedTags(a, s);
    var id := s.packet.packetId;
    var answer := Sent(if s.packet.qos == 1 then PubAck(id) else PubRecv(id), s.mark);
    AnswerTags(a.peer.back, answer);
    assert forall t :: t in a.peer.accepted ==> t in a.peer.accepted + [s];
  }

  /** What accepting a publish adds to the stages that end there. */
  lemma AcceptedTags(a: State, s: Sent)
    requires IsPublish(s)
    ensures Tags(a.peer.accepted + [s], Pub1)
            == Tags(a.peer.accepted, Pub1) + (if s.packet.qos == 1 then [s.mark.tag] else [])
    ensures Tags(a.peer.accepted + [s], Pub2)
            == Tags(a.peer.accepted, Pub2) + (if s.packet.qos == 2 then [s.mark.tag] else [])
  {
    hide Tags;
    TagsLast(a.peer.accepted, s, Pub1);
    TagsLast(a.peer.accepted, s, Pub2);
  }

  lemma AnswerTags(back: seq<Sent>, answer: Sent)
    requires answer.mark.Call? && (answer.packet.PubAck? || answer.packet.PubRecv?)
    ensures Tags(back + [answer], Recv) == Tags(back, Recv) + if answer.packet.PubRecv? then [answer.mark.tag] else []
    ensures Tags(back + [answer], Ack) == Tags(back, Ack) + if answer.packet.PubAck? then [answer.mark.tag] else []
    ensures Tags(back + [answer], Comp) == Tags(back, Comp)
  {
    hide Tags;
    TagsLast(back, answer, Recv);
    TagsLast(back, answer, Ack);
    TagsKeep(back, answer, Comp);
  }

  lemma InjectStaged(a: State, p: Packet)
    requires Staged(a)
    ensures Staged(a.(peer := Answer(a.peer, p, Other)))
  {
    hide Tags, Publishes, CallsRise, Acked;
    var s := Sent(p, Other);
    TagsKeep(a.peer.back, s, Recv);
    TagsKeep(a.peer.back, s, Comp);
    TagsKeep(a.peer.back, s, Ack);
  }

  lemma {:induction false} TagsConcat(xs: seq<Sent>, ys: seq<Sent>, role: Role)
    ensures Tags(xs + ys, role) == Tags(xs, role) + Tags(ys, role)
    decreases |ys|
  {
    hide Plays;
    if ys == [] {
      assert xs + ys == xs;
    } else {
      TagsConcat(xs, ys[..|ys| - 1], role);
      assert (xs + ys)[..|xs + ys| - 1] == xs + ys[..|ys| - 1];
    }
  }

  lemma {:induction false} NonePlays(ss: seq<Sent>, role: Role)
    requires forall s :: s in ss ==> !Plays(s, role)
    ensures Tags(ss, role) == []
  {
    hide Plays;
    if ss != [] {
      NonePlays(ss[..|ss| - 1], role);
    }
  }

  /** Answers of one part keep their order. */
  lemma OvertakeTags(back: seq<Sent>, ready: nat, i: nat, role: Role)
    requires MaySend(back, ready, i) && (role == Recv || role == Comp || role == Ack)
    ensures Tags(Overtake(back, ready, i), role) == Tags(back, role)
  {
    hide Tags, Overtake;
    var x, y, s, z := back[..ready], back[ready..ready + i], [back[ready + i]], back[ready + i + 1..];
    if Plays(back[ready + i], role) {
      forall t | t in y ensures !Plays(t, role) {
        var j :| 0 <= j < |y| && y[j] == t;
        assert back[ready + j] == t;
      }
      NonePlays(y, role);
    } else {
      NonePlays(s, role);
    }
    hide Plays;
    OvertakeParts(back, ready, i);
    TagsConcat(x + (y + s), z, role);
    TagsConcat(x, y + s, role);
    TagsConcat(y, s, role);
    TagsConcat(x + (s + y), z, role);
    TagsConcat(x, s + y, role);
    TagsConcat(s, y, role);
    assert Tags(y, role) + Tags(s, role) == Tags(s, role) + Tags(y, role);
  }

  lemma OvertakeStaged(a: State, ready: nat, i: nat)
    requires Staged(a) && MaySend(a.peer.back, ready, i)
    ensures Staged(a.(peer := a.peer.(back := Overtake(a.peer.back, ready, i))))
  {
    hide Tags, Publishes, CallsRise, FromAccepted, Acked, MaySend, Overtake;
    assert a.peer.back != [] by { SomethingToSend(a.peer.back, ready, i); }
    OvertakeTags(a.peer.back, ready, i, Recv);
    OvertakeTags(a.peer.back, ready, i, Comp);
    OvertakeTags(a.peer.back, ready, i, Ack);
  }

  lemma SomethingToSend(back: seq<Sent>, ready: nat, i: nat)
    requires MaySend(back, ready, i)
    ensures ready + i < |back|
  {
  }

  // The client takes a packet.

  lemma DeliverStaged(a: State)
    requires Staged(a) && OneEach(a) && a.peer.back != []
    ensures Staged(Received(Delivered(a), a.peer.back[0].packet))
  {
    hide OneToken.OnePerId, Staged, Received;
    var s := a.peer.back[0];
    assert BackShape(s);
    match s.mark
    case Other => DeliverOtherStaged(a);
    case Call(_) =>
      if s.packet.PubRecv? {
        DeliverRecv(a);
        DeliverRecvStaged(a);
      } else {
        DeliverAck(a);
        DeliverAckStaged(a);
      }
    case FirstRel(_) =>
      DeliverFirstComp(a);
      DeliverFirstCompStaged(a);
    case LastRel(_) =>
      DeliverLastComp(a);
      DeliverLastCompStaged(a);
  }

  lemma SkipStaged(a: State)
    requires Staged(a) && a.peer.back != []
    requires !Plays(a.peer.back[0], Recv) && !Plays(a.peer.back[0], Comp) && !Plays(a.peer.back[0], Ack)
    ensures Staged(Delivered(a))
  {
    hide Tags, Publishes, CallsRise, Acked, Plays;
    TagsSkip(a.peer.back, Recv);
    TagsSkip(a.peer.back, Comp);
    TagsSkip(a.peer.back, Ack);
  }

  lemma DeliverOtherStaged(a: State)
    requires Staged(a) && a.peer.back != [] && a.peer.back[0].mark.Other? && !IsAck(a.peer.back[0].packet)
    ensures Staged(Received(Delivered(a), a.peer.back[0].packet))
  {
    hide Staged;
    SkipStaged(a);
    var r, p := Delivered(a), a.peer.back[0].packet;
    match p
    case Publish(_, qos, _, _, id, _) =>
      if qos == 1 { EnqueueStaged(r, PubAck(id)); } else if qos == 2 { EnqueueStaged(r, PubRecv(id)); }
    case PubRel(id) => EnqueueStaged(r, PubComp(id));
    case _ =>
  }

  lemma DeliverLastCompStaged(a: State)
    requires Staged(a) && a.peer.back != [] && a.peer.back[0].mark.LastRel? && a.peer.back[0].packet.PubComp?
    requires a.peer.back[0].packet.packetId !in a.used
    ensures Staged(Received(Delivered(a), a.peer.back[0].packet))
  {
    hide Staged;
    SkipStaged(a);
  }

  lemma DeliverRecvStaged(a: State)
    requires Staged(a) && a.peer.back != [] && a.peer.back[0].mark.Call? && a.peer.back[0].packet.PubRecv?
    requires var (s, id) := (a.peer.back[0], a.peer.back[0].packet.packetId);
      Awaits2(a, id) && a.used[id].tag == s.mark.tag
    ensures Staged(Received(Delivered(a), a.peer.back[0].packet))
  {
    hide Tags, Publishes, CallsRise, FromAccepted, Acked;
    var s := a.peer.back[0];
    var tag := s.mark.tag;
    TagsFirst(a.peer.back, Recv);
    TagsSkip(a.peer.back, Comp);
    TagsSkip(a.peer.back, Ack);
    TagsLast(a.logicCh, Sent(PubRel(s.packet.packetId), FirstRel(tag)), Rel);
    var before := Tags(a.peer.released, Pub2) + Tags(a.wired, Rel);
    var queue, rest := Tags(a.logicCh, Rel), Tags(a.peer.back[1..], Recv);
    assert before + queue + ([tag] + rest) == before + (queue + [tag]) + rest;
  }

  lemma DeliverAckStaged(a: State)
    requires Staged(a) && a.peer.back != [] && a.peer.back[0].mark.Call?
    requires a.peer.back[0].packet.PubAck? || a.peer.back[0].packet.SubAck? || a.peer.back[0].packet.UnsubAck?
    requires var (s, id) := (a.peer.back[0], a.peer.back[0].packet.packetId);
      id in a.used && Completes(a.used[id].packet, s.packet) && a.used[id].tag == s.mark.tag
    ensures Staged(Received(Delivered(a), a.peer.back[0].packet))
  {
    hide Tags, Publishes, CallsRise, FromAccepted, Acked, Granted;
    var s := a.peer.back[0];
    TagsSkip(a.peer.back, Recv);
    TagsSkip(a.peer.back, Comp);
    TagsFirst(a.peer.back, Ack);
    assert [] + Tags(a.peer.back[1..], Ack) == Tags(a.peer.back[1..], Ack);
    var d := DoneMsg(a.used[s.packet.packetId], s.packet);
    AckedLast(a.dones, d, 1);
    AckedLast(a.dones, d, 2);
    assert Acked(a.dones, 1) + [] == Acked(a.dones, 1) && Acked(a.dones, 2) + [] == Acked(a.dones, 2);
    var done, rest := Acked(a.dones, 1), Tags(a.peer.back[1..], Ack);
    assert done + ([s.mark.tag] + rest) == (done + [s.mark.tag]) + rest;
  }

  lemma DeliverFirstCompStaged(a: State)
    requires Staged(a) && a.peer.back != [] && a.peer.back[0].mark.FirstRel? && a.peer.back[0].packet.PubComp?
    requires var (s, id) := (a.peer.back[0], a.peer.back[0].packet.packetId);
      Awaits2(a, id) && a.used[id].tag == s.mark.tag
    ensures Staged(Received(Delivered(a), a.peer.back[0].packet))
  {
    hide Tags, Publishes, CallsRise, FromAccepted, Acked;
    var s := a.peer.back[0];
    var id, tag := s.packet.packetId, s.mark.tag;
    TagsSkip(a.peer.back, Recv);
    TagsFirst(a.peer.back, Comp);
    TagsSkip(a.peer.back, Ack);
    TagsKeep(a.logicCh, Sent(PubRel(id), LastRel(tag)), Rel);
    var d := DoneMsg(a.used[id], s.packet);
    AckedLast(a.dones, d, 1);
    AckedLast(a.dones, d, 2);
    assert Acked(a.dones, 1) + [] == Acked(a.dones, 1);
    var done, rest := Acked(a.dones, 2), Tags(a.peer.back[1..], Comp);
    assert done + ([tag] + rest) == (done + [tag]) + rest;
  }
}
