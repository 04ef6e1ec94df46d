/** Every move of the composed system keeps one packet in flight per exchange. */
module TokenSteps {
  import opened ArbitraryPeer
  import opened Bytes
  import opened Exchange
  import opened NetState
  import opened OneToken
  import opened Packets
  import opened Session
  import Ordering

  function Tokens(a: State): multiset<Tok> {
    Flow(a.sendCh, a.logicCh, a.wired, a.peer.back)
  }

  ghost predicate OneEach(a: State) {
    Shapes(a) && OnePerId(Tokens(a), a.used, a.peer.held, a.sending)
  }

  // Queues that change at their ends.

  lemma SendHead(a: State, a': State)
    requires a.sendCh != [] && a' == a.(sendCh := a.sendCh[1..])
    ensures Tokens(a) == Tokens(a') + One(TokOf(a.sendCh[0], Queued))
  {
    hide TokOf, One, Toks;
    ToksFirst(a.sendCh, Queued);
  }

  lemma LogicHead(a: State, a': State)
    requires a.logicCh != [] && a' == a.(logicCh := a.logicCh[1..])
    ensures Tokens(a) == Tokens(a') + One(TokOf(a.logicCh[0], Queued))
  {
    hide TokOf, One, Toks;
    ToksFirst(a.logicCh, Queued);
  }

  lemma WiredHead(a: State, a': State)
    requires a.wired != [] && a' == a.(wired := a.wired[1..])
    ensures Tokens(a) == Tokens(a') + One(TokOf(a.wired[0], Wire))
  {
    hide TokOf, One, Toks;
    ToksFirst(a.wired, Wire);
  }

  lemma BackHead(a: State, a': State)
    requires a.peer.back != [] && a' == a.(peer := a.peer.(back := a.peer.back[1..]))
    ensures Tokens(a) == Tokens(a') + One(TokOf(a.peer.back[0], Back))
  {
    hide TokOf, One, Toks;
    ToksFirst(a.peer.back, Back);
  }

  lemma SendTail(a: State, s: Sent)
    ensures Tokens(a.(sendCh := a.sendCh + [s])) == Tokens(a) + One(TokOf(s, Queued))
  {
    hide TokOf, One, Toks;
    ToksLast(a.sendCh, s, Queued);
  }

  lemma LogicTail(a: State, s: Sent)
    ensures Tokens(a.(logicCh := a.logicCh + [s])) == Tokens(a) + One(TokOf(s, Queued))
  {
    hide TokOf, One, Toks;
    ToksLast(a.logicCh, s, Queued);
  }

  lemma WiredTail(a: State, s: Sent)
    ensures Tokens(a.(wired := a.wired + [s])) == Tokens(a) + One(TokOf(s, Wire))
  {
    hide TokOf, One, Toks;
    ToksLast(a.wired, s, Wire);
  }

  lemma BackTail(a: State, p: Packet, mark: Mark)
    ensures Tokens(a.(peer := Answer(a.peer, p, mark))) == Tokens(a) + One(TokOf(Sent(p, mark), Back))
  {
    hide TokOf, One, Toks;
    ToksLast(a.peer.back, Sent(p, mark), Back);
  }

  /** One token is replaced, or none is touched, and only what it settles changes. */
  lemma Turn(a: State, a': State, t: Option<Tok>, t': Option<Tok>, rest: multiset<Tok>)
    requires OneEach(a) && Shapes(a')
    requires Tokens(a) == rest + One(t) && Tokens(a') == rest + One(t')
    requires a'.sending ==> a.sending
    requires match t
      case None => t' == None && a'.used == a.used && a'.peer.held == a.peer.held
      case Some(tok) =>
        && (t'.Some? ==> t'.value.id == tok.id)
        && SameElsewhere(tok.id, a.used, a'.used) && SameElsewhere(tok.id, a.peer.held, a'.peer.held)
        && (Settled(tok.id, t, a.used, a.peer.held, a.sending) ==>
              Settled(tok.id, t', a'.used, a'.peer.held, a'.sending))
    ensures OneEach(a')
  {
    hide Settled, Tokens, Shapes, TokOf, SameElsewhere;
    match t
    case None => Stays(Tokens(a), a.used, a.peer.held, a.sending, a'.sending);
    case Some(tok) =>
      assert tok in Tokens(a);
      assert Tokens(a') == Tokens(a) - multiset{tok} + One(t');
      Moves(Tokens(a), Tokens(a'), tok, t', a.used, a'.used, a.peer.held, a'.peer.held, a.sending, a'.sending);
  }

  /** A packet that moves on without settling anything new. */
  predicate Alike(t: Option<Tok>, t': Option<Tok>) {
    && (t.Some? <==> t'.Some?)
    && (t.Some? ==>
          && t'.value.id == t.value.id && t'.value.tag == t.value.tag && t'.value.kind == t.value.kind
          && (Owns(t'.value) <==> Owns(t.value)) && (HeldByPeer(t'.value) <==> HeldByPeer(t.value)))
  }

  lemma TurnAlike(a: State, a': State, t: Option<Tok>, t': Option<Tok>, rest: multiset<Tok>)
    requires OneEach(a) && Shapes(a') && Alike(t, t')
    requires Tokens(a) == rest + One(t) && Tokens(a') == rest + One(t')
    requires a'.sending == a.sending && a'.used == a.used && a'.peer.held == a.peer.held
    ensures OneEach(a')
  {
    hide Tokens, Shapes, OnePerId, One;
    Turn(a, a', t, t', rest);
  }

  lemma SameTokens(a: State, a': State)
    requires a'.sendCh == a.sendCh && a'.logicCh == a.logicCh && a'.wired == a.wired && a'.peer.back == a.peer.back
    ensures Tokens(a') == Tokens(a)
  {
  }

  /** Whatever token is queued is settled. */
  lemma TokenSettled(a: State, t: Option<Tok>, rest: multiset<Tok>)
    requires OneEach(a) && Tokens(a) == rest + One(t)
    ensures t.Some? ==> Settled(t.value.id, t, a.used, a.peer.held, a.sending)
  {
    hide Tokens, Shapes, Settled;
    if t.Some? {
      assert t.value in Tokens(a);
    }
  }

  // Moves of the client's queues.

  lemma Written(s: Sent)
    requires WireShape(s)
    ensures Alike(TokOf(s, Queued), TokOf(s, Wire))
  {
  }

  lemma WriteUser(a: State)
    requires OneEach(a) && a.sendCh != []
    ensures OneEach(a.(sendCh := a.sendCh[1..], wired := a.wired + [a.sendCh[0]]))
  {
    hide Tokens, OnePerId, Alike, TokOf, One, UserShape, LogicShape;
    var s, r := a.sendCh[0], a.(sendCh := a.sendCh[1..]);
    SendHead(a, r);
    WiredTail(r, s);
    Written(s);
    TurnAlike(a, r.(wired := r.wired + [s]), TokOf(s, Queued), TokOf(s, Wire), Tokens(r));
  }

  lemma WriteLogic(a: State)
    requires OneEach(a) && a.logicCh != []
    ensures OneEach(a.(logicCh := a.logicCh[1..], wired := a.wired + [a.logicCh[0]]))
  {
    hide Tokens, OnePerId, Alike, TokOf, One, UserShape, LogicShape;
    var s, r := a.logicCh[0], a.(logicCh := a.logicCh[1..]);
    LogicHead(a, r);
    WiredTail(r, s);
    Written(s);
    TurnAlike(a, r.(wired := r.wired + [s]), TokOf(s, Queued), TokOf(s, Wire), Tokens(r));
  }

  /** A packet that cannot be encoded is lost, and the sending loop ends. */
  lemma FailUser(a: State)
    requires OneEach(a) && a.sendCh != []
    ensures OneEach(a.(sendCh := a.sendCh[1..], sending := false))
  {
    hide Tokens, OnePerId, LogicShape;
    var s, r := a.sendCh[0], a.(sendCh := a.sendCh[1..]);
    SendHead(a, r);
    assert UserShape(s);
    SameTokens(r, r.(sending := false));
    Turn(a, r.(sending := false), TokOf(s, Queued), None, Tokens(r));
  }

  /** Packets outside any exchange change nothing. */
  lemma EnqueueOther(a: State, p: Packet)
    requires OneEach(a) && LogicShape(Sent(p, Other))
    ensures OneEach(Enqueue(a, p, Other))
  {
    hide Tokens, OnePerId, LogicShape, UserShape;
    LogicTail(a, Sent(p, Other));
    TurnAlike(a, Enqueue(a, p, Other), None, None, Tokens(a));
  }

  // The user's calls.

  lemma SubmitPlain(a: State, s: Sent, called: seq<Sent>)
    requires OneEach(a) && UserShape(s) && TokOf(s, Queued) == None
    ensures OneEach(a.(sendCh := a.sendCh + [s], nextTag := a.nextTag + 1, called := called))
  {
    hide Tokens, OnePerId, LogicShape, UserShape, TokOf;
    var r := a.(sendCh := a.sendCh + [s]);
    var a' := r.(nextTag := a.nextTag + 1, called := called);
    SendTail(a, s);
    SameTokens(r, a');
    TurnAlike(a, a', None, None, Tokens(a));
  }

  lemma SubmitNumbered(a: State, s: Sent, called: seq<Sent>, id: u16, e: Entry)
    requires OneEach(a) && UserShape(s) && Absent(Tokens(a), id) && id !in a.used
    requires e.packet == s.packet && s.mark == Call(e.tag) && s.packet.packetId == id
    requires (s.packet.Publish? ==> s.packet.qos != 0)
    ensures OneEach(a.(sendCh := a.sendCh + [s], nextTag := a.nextTag + 1, called := called, used := a.used[id := e]))
  {
    hide Tokens, OnePerId, LogicShape;
    var r := a.(sendCh := a.sendCh + [s]);
    var a' := r.(nextTag := a.nextTag + 1, called := called, used := a.used[id := e]);
    SendTail(a, s);
    SameTokens(r, a');
    var t := TokOf(s, Queued).value;
    assert Settled(id, None, a.used, a.peer.held, a.sending) by { NoToken(a, id); }
    Enters(Tokens(a), t, a.used, a'.used, a.peer.held, a.sending);
  }

  lemma NoToken(a: State, id: u16)
    requires OneEach(a) && Absent(Tokens(a), id)
    ensures Settled(id, None, a.used, a.peer.held, a.sending)
  {
    hide Tokens, Settled, Absent;
  }

  // The peer takes a packet.

  function Taken(a: State): State
    requires a.wired != []
  {
    a.(wired := a.wired[1..])
  }

  lemma {:induction false} ServePacket(a: State, codes: bytes)
    requires OneEach(a) && a.wired != []
    ensures OneEach(Taken(a).(peer := Serve(a.peer, a.wired[0], codes)))
  {
    hide Tokens, OnePerId;
    var s := a.wired[0];
    assert WireShape(s);
    match s.packet
    case Publish(_, _, _, _, _, _) => ServePublish(a, codes);
    case PubRel(_) => ServeRelease(a, codes);
    case Subscribe(id, _) => ServeAlike(a, codes, SubAck(id, codes));
    case Unsub(id, _) => ServeAlike(a, codes, UnsubAck(id));
    case PingReq => ServePing(a, codes);
    case _ => ServeNothing(a, codes);
  }

  /** An answer that settles nothing. */
  lemma ServeAlike(a: State, codes: bytes, p: Packet)
    requires OneEach(a) && a.wired != []
    requires var s := a.wired[0]; BackShape(Sent(p, s.mark)) && Alike(TokOf(s, Wire), TokOf(Sent(p, s.mark), Back))
    requires var r := Serve(a.peer, a.wired[0], codes);
      r.back == a.peer.back + [Sent(p, a.wired[0].mark)] && r.held == a.peer.held
    ensures OneEach(Taken(a).(peer := Serve(a.peer, a.wired[0], codes)))
  {
    hide Tokens, OnePerId, Serve, Alike, TokOf, LogicShape, UserShape, BackShape, One;
    var s, r := a.wired[0], Taken(a);
    var a' := r.(peer := Serve(a.peer, s, codes));
    WiredHead(a, r);
    BackTail(r, p, s.mark);
    SameTokens(r.(peer := Answer(r.peer, p, s.mark)), a');
    TurnAlike(a, a', TokOf(s, Wire), TokOf(Sent(p, s.mark), Back), Tokens(r));
  }

  lemma ServeNothing(a: State, codes: bytes)
    requires OneEach(a) && a.wired != [] && TokOf(a.wired[0], Wire) == None
    requires var r := Serve(a.peer, a.wired[0], codes); r.back == a.peer.back && r.held == a.peer.held
    ensures OneEach(Taken(a).(peer := Serve(a.peer, a.wired[0], codes)))
  {
    hide Tokens, OnePerId, Serve, TokOf, LogicShape, UserShape, BackShape;
    var r := Taken(a);
    var a' := r.(peer := Serve(a.peer, a.wired[0], codes));
    WiredHead(a, r);
    SameTokens(r, a');
    TurnAlike(a, a', None, None, Tokens(r));
  }

  lemma ServePing(a: State, codes: bytes)
    requires OneEach(a) && a.wired != [] && a.wired[0].packet.PingReq? && a.wired[0].mark.Other?
    ensures OneEach(Taken(a).(peer := Serve(a.peer, a.wired[0], codes)))
  {
    hide Tokens, OnePerId, UserShape, LogicShape;
    ServeAlike(a, codes, PingResp);
  }

  lemma ServePublish(a: State, codes: bytes)
    requires OneEach(a) && a.wired != [] && a.wired[0].packet.Publish? && UserShape(a.wired[0])
    ensures OneEach(Taken(a).(peer := Serve(a.peer, a.wired[0], codes)))
  {
    hide Tokens, OnePerId, LogicShape;
    var qos := a.wired[0].packet.qos;
    if qos == 0 {
      ServeNothing(a, codes);
    } else if qos == 1 {
      ServeAlike(a, codes, PubAck(a.wired[0].packet.packetId));
    } else {
      ServeAccept(a, codes);
    }
  }

  lemma ServeAccept(a: State, codes: bytes)
    requires OneEach(a) && a.wired != [] && UserShape(a.wired[0])
    requires a.wired[0].packet.Publish? && a.wired[0].packet.qos == 2
    ensures OneEach(Taken(a).(peer := Serve(a.peer, a.wired[0], codes)))
    ensures a.wired[0].packet.packetId !in a.peer.held
  {
    hide Tokens, OnePerId, LogicShape;
    var s, r := a.wired[0], Taken(a);
    var answer := PubRecv(s.packet.packetId);
    WiredHead(a, r);
    TokenSettled(a, TokOf(s, Wire), Tokens(r));
    var a' := r.(peer := Serve(a.peer, s, codes));
    BackTail(r, answer, s.mark);
    SameTokens(r.(peer := Answer(r.peer, answer, s.mark)), a');
    Turn(a, a', TokOf(s, Wire), TokOf(Sent(answer, s.mark), Back), Tokens(r));
  }

  lemma ServeRelease(a: State, codes: bytes)
    requires OneEach(a) && a.wired != [] && a.wired[0].packet.PubRel? && LogicShape(a.wired[0])
    ensures OneEach(Taken(a).(peer := Serve(a.peer, a.wired[0], codes)))
    ensures var (s, id) := (a.wired[0], a.wired[0].packet.packetId);
      if s.mark.FirstRel? then id in a.peer.held && a.peer.held[id].mark == Call(s.mark.tag) else id !in a.peer.held
  {
    hide Tokens, OnePerId, UserShape, Serve;
    var s, r := a.wired[0], Taken(a);
    var answer := Sent(PubComp(s.packet.packetId), s.mark);
    WiredHead(a, r);
    TokenSettled(a, TokOf(s, Wire), Tokens(r));
    var a' := r.(peer := Serve(a.peer, s, codes));
    BackTail(r, answer.packet, s.mark);
    ReleaseAnswers(a.peer, s, codes);
    SameTokens(r.(peer := Answer(r.peer, answer.packet, s.mark)), a');
    Turn(a, a', TokOf(s, Wire), TokOf(answer, Back), Tokens(r));
  }

  lemma ReleaseAnswers(r: Peer, s: Sent, codes: bytes)
    requires s.packet.PubRel?
    ensures var r' := Serve(r, s, codes);
      r'.back == r.back + [Sent(PubComp(s.packet.packetId), s.mark)] && r'.held == r.held - {s.packet.packetId}
  {
  }

  lemma InjectOther(a: State, p: Packet)
    requires OneEach(a) && !IsAck(p)
    ensures OneEach(a.(peer := Answer(a.peer, p, Other)))
  {
    hide Tokens, OnePerId, LogicShape, UserShape;
    BackTail(a, p, Other);
    TurnAlike(a, a.(peer := Answer(a.peer, p, Other)), None, None, Tokens(a));
  }

  /** Sending answers out of turn changes nothing the client has not seen. */
  lemma OvertakeTokens(a: State, ready: nat, i: nat)
    requires OneEach(a) && ready + i < |a.peer.back|
    ensures OneEach(a.(peer := a.peer.(back := Overtake(a.peer.back, ready, i))))
  {
    hide TokOf, Toks, One, OnePerId, UserShape, LogicShape, BackShape, Overtake;
    OvertakeToks(a.peer.back, ready, i, Back);
    OvertakeSame(a.peer.back, ready, i);
    var back := Overtake(a.peer.back, ready, i);
    forall j | 0 <= j < |back| ensures BackShape(back[j]) {
      assert back[j] in a.peer.back;
    }
  }

  // The client takes a packet.

  function Delivered(a: State): State
    requires a.peer.back != []
  {
    a.(peer := a.peer.(back := a.peer.back[1..]))
  }

  lemma {:induction false} DeliverPacket(a: State)
    requires OneEach(a) && a.peer.back != []
    ensures OneEach(Received(Delivered(a), a.peer.back[0].packet))
  {
    hide Tokens, OnePerId, Received;
    var s := a.peer.back[0];
    assert BackShape(s);
    match s.mark
    case Other => DeliverOther(a);
    case Call(_) => if s.packet.PubRecv? { DeliverRecv(a); } else { DeliverAck(a); }
    case FirstRel(_) => DeliverFirstComp(a);
    case LastRel(_) => DeliverLastComp(a);
  }

  lemma DeliverOther(a: State)
    requires OneEach(a) && a.peer.back != [] && a.peer.back[0].mark.Other? && !IsAck(a.peer.back[0].packet)
    ensures OneEach(Received(Delivered(a), a.peer.back[0].packet))
  {
    hide Tokens, OnePerId, UserShape;
    var r, p := Delivered(a), a.peer.back[0].packet;
    BackHead(a, r);
    TurnAlike(a, r, None, None, Tokens(r));
    match p
    case Publish(_, qos, _, _, id, _) =>
      if qos == 1 { EnqueueOther(r, PubAck(id)); } else if qos == 2 { EnqueueOther(r, PubRecv(id)); }
    case PubRel(id) => if Awaits2(r, id) { EnqueueOther(r, PubComp(id)); }
    case _ =>
  }

  lemma DeliverRecv(a: State)
    requires OneEach(a) && a.peer.back != [] && a.peer.back[0].mark.Call? && a.peer.back[0].packet.PubRecv?
    ensures OneEach(Received(Delivered(a), a.peer.back[0].packet))
    ensures var (s, id) := (a.peer.back[0], a.peer.back[0].packet.packetId);
      Awaits2(a, id) && a.used[id].tag == s.mark.tag
  {
    hide Tokens, OnePerId, UserShape;
    var r, s := Delivered(a), a.peer.back[0];
    var id := s.packet.packetId;
    BackHead(a, r);
    TokenSettled(a, TokOf(s, Back), Tokens(r));
    var first := Sent(PubRel(id), FirstRel(s.mark.tag));
    LogicTail(r, first);
    TurnAlike(a, Received(r, s.packet), TokOf(s, Back), TokOf(first, Queued), Tokens(r));
  }

  lemma DeliverAck(a: State)
    requires OneEach(a) && a.peer.back != [] && a.peer.back[0].mark.Call?
    requires a.peer.back[0].packet.PubAck? || a.peer.back[0].packet.SubAck? || a.peer.back[0].packet.UnsubAck?
    ensures OneEach(Received(Delivered(a), a.peer.back[0].packet))
    ensures var (s, id) := (a.peer.back[0], a.peer.back[0].packet.packetId);
      id in a.used && Completes(a.used[id].packet, s.packet) && a.used[id].tag == s.mark.tag
  {
    hide Tokens, OnePerId, LogicShape, UserShape, DoneMsg;
    var r, s := Delivered(a), a.peer.back[0];
    BackHead(a, r);
    TokenSettled(a, TokOf(s, Back), Tokens(r));
    var a' := Received(r, s.packet);
    SameTokens(r, a');
    Turn(a, a', TokOf(s, Back), None, Tokens(r));
  }

  lemma {:induction false} DeliverFirstComp(a: State)
    requires OneEach(a) && a.peer.back != [] && a.peer.back[0].mark.FirstRel? && a.peer.back[0].packet.PubComp?
    ensures OneEach(Received(Delivered(a), a.peer.back[0].packet))
    ensures var (s, id) := (a.peer.back[0], a.peer.back[0].packet.packetId);
      Awaits2(a, id) && a.used[id].tag == s.mark.tag
  {
    hide Tokens, OnePerId, UserShape, DoneMsg;
    var r, s := Delivered(a), a.peer.back[0];
    var id := s.packet.packetId;
    BackHead(a, r);
    TokenSettled(a, TokOf(s, Back), Tokens(r));
    var last := Sent(PubRel(id), LastRel(s.mark.tag));
    var a' := Received(r, s.packet);
    LogicTail(r, last);
    SameTokens(r.(logicCh := r.logicCh + [last]), a');
    Turn(a, a', TokOf(s, Back), TokOf(last, Queued), Tokens(r));
  }

  lemma {:induction false} DeliverLastComp(a: State)
    requires OneEach(a) && a.peer.back != [] && a.peer.back[0].mark.LastRel? && a.peer.back[0].packet.PubComp?
    ensures OneEach(Received(Delivered(a), a.peer.back[0].packet))
    ensures a.peer.back[0].packet.packetId !in a.used
  {
    hide Tokens, OnePerId, LogicShape, UserShape;
    var r, s := Delivered(a), a.peer.back[0];
    BackHead(a, r);
    TokenSettled(a, TokOf(s, Back), Tokens(r));
    Turn(a, r, TokOf(s, Back), None, Tokens(r));
  }
}
