/** The composed system on bytes: client and peer exchange what the encoder writes, and take what the
    decoder reads from it. */
module Line {
  import opened ArbitraryPeer
  import opened Bytes
  import opened Codec
  import opened Encoder
  import opened Exchange
  import opened ExactlyOnce
  import opened NetState
  import opened Packets
  import opened Pipeline
  import opened RoundTrip
  import opened TokenSteps
  import Asking
  import Delivery
  import Drain
  import NormalForm
  import OneToken
  import Ordering
  import P = MemPersist
  import S = Session
  import VarInt

  // What the wire carries of a call's packet.

  /** A message of QoS 0 is written without an id. */
  function AsRead(p: Packet): Packet {
    match p
    case Publish(dup, qos, retain, topic, id, payload) =>
      Publish(dup, qos, retain, topic, if qos == 0 then 0 else id, payload)
    case _ => p
  }

  predicate IsCallPacket(p: Packet) {
    (p.Publish? && p.qos <= 2) || p.Subscribe? || p.Unsub?
  }

  lemma ReadsTheSame(p: Packet)
    ensures Encode(AsRead(p)) == Encode(p) && AsRead(AsRead(p)) == AsRead(p)
  {
  }

  lemma FitsWellFormed(p: Packet)
    requires IsCallPacket(p) && Encode(p).Ok?
    ensures WellFormed(AsRead(p)) <==> Fits(p)
  {
    assert |Body(p)| <= VarInt.MAX_MSG_SIZE;
    assert Body(AsRead(p)) == Body(p);
  }

  /** A call's packet that can be written is read back if and only if its topics fit. */
  lemma {:induction false} ReadBackIff(p: Packet)
    requires IsCallPacket(p) && Encode(p).Ok?
    ensures Decode(V311, Encode(p).value).0 == Ok(Plain(AsRead(p))) <==> Fits(p)
  {
    hide Encode, Decode, WellFormed, Fits;
    var q := AsRead(p);
    ReadsTheSame(p);
    FitsWellFormed(p);
    if Fits(p) {
      PacketRoundTrip(q, []);
      assert Encode(q).value + [] == Encode(q).value;
    }
    if Decode(V311, Encode(p).value).0 == Ok(Plain(q)) {
      NormalForm.DecodedNormal(Encode(p).value);
      assert NormalForm.Norm(q) == q;
    }
  }

  // The system.

  /** `up` and `down` are the bytes on their way to the peer and to the client. */
  datatype Line = Line(net: Net, up: bytes, down: bytes)

  const IDLE: Line := Line(START, [], [])

  /** What a step of the sending loop writes. */
  function Written(c: S.Client, s: S.Step): bytes {
    if c.stopped || !c.sending then []
    else match s
      case DoSendUser => if c.sendCh == [] then [] else Content(c.sendCh[0].packet)
      case DoSendLogic => if c.logicCh == [] then [] else Content(c.logicCh[0].packet)
      case _ => []
  }

  function Stream(ss: seq<S.Sent>): bytes {
    if ss == [] then [] else Content(ss[0].packet) + Stream(ss[1..])
  }

  /** The label of the packet the peer reads next. */
  function NextMark(n: Net): S.Mark {
    if n.taken < |n.client.out| then n.client.out[n.taken].mark else S.Other
  }

  /** The packet at the front of some bytes, and the bytes after it. */
  function ReadPacket(s: bytes): Option<(Packet, bytes)> {
    match Decode(V311, s)
    case (Ok(Plain(p)), rest) => Some((p, rest))
    case _ => None
  }

  function Taking(l: Line, p: Packet, rest: bytes, codes: bytes): Line {
    Line(l.net.(taken := l.net.taken + 1, peer := Serve(l.net.peer, S.Sent(p, NextMark(l.net)), codes)),
         rest, l.down)
  }

  function Handing(l: Line, st: P.Strategy, p: Packet, rest: bytes): Line {
    var peer := l.net.peer;
    Line(l.net.(client := S.Apply(l.net.client, st, S.DoReceive(p)),
                ready := if l.net.ready == 0 then 0 else l.net.ready - 1,
                peer := peer.(back := if peer.back == [] then [] else peer.back[1..])),
         l.up, rest)
  }

  /** One step. Peer and client take the packet they read, if there is one. */
  function Carry(l: Line, st: P.Strategy, step: NetStep): Line {
    match step
    case Local(s) => Line(Advance(l.net, st, step), l.up + Written(l.net.client, s), l.down)
    case PeerTakes(codes) =>
      (match ReadPacket(l.up)
       case Some((p, rest)) => Taking(l, p, rest, codes)
       case None => l)
    case PeerSends(i) =>
      var back, ready := l.net.peer.back, l.net.ready;
      if MaySend(back, ready, i)
      then Line(Advance(l.net, st, step), l.up, l.down + Content(back[ready + i].packet)) else l
    case Deliver =>
      if l.net.client.stopped then l
      else (match ReadPacket(l.down)
            case Some((p, rest)) => Handing(l, st, p, rest)
            case None => l)
    case Inject(_) => l.(net := Advance(l.net, st, step))
  }

  function LineAt(st: P.Strategy, steps: seq<NetStep>): Line
    decreases |steps|
  {
    if steps == [] then IDLE
    else Carry(LineAt(st, steps[..|steps| - 1]), st, steps[|steps| - 1])
  }

  // It does what the system on packets does.

  function AllAsRead(ss: seq<S.Sent>): seq<S.Sent> {
    seq(|ss|, i requires 0 <= i < |ss| => S.Sent(AsRead(ss[i].packet), ss[i].mark))
  }

  function ReadPeer(r: Peer): Peer {
    r.(accepted := AllAsRead(r.accepted))
  }

  predicate Callable(p: Packet) {
    IsCallPacket(p) && Fits(p)
  }

  /** Everything queued or written can be read back. */
  predicate Readable(n: Net) {
    && n.taken <= |n.client.out| && n.ready <= |n.peer.back|
    && (forall i :: 0 <= i < |n.client.sendCh| ==> Callable(n.client.sendCh[i].packet))
    && (forall i :: 0 <= i < |n.client.out| ==> WellFormed(AsRead(n.client.out[i].packet)))
    && (forall i :: 0 <= i < |n.peer.back| ==> WellFormed(n.peer.back[i].packet))
  }

  /** What a failed write left behind, which is no packet, and after which nothing is written. */
  predicate Stray(s: bytes, sending: bool) {
    s == [] || (!sending && ReadPacket(s) == None)
  }

  ghost predicate Agrees(l: Line, n: Net) {
    && l.net == n.(peer := ReadPeer(n.peer))
    && n.ready <= |n.peer.back| && l.down == Stream(n.peer.back[..n.ready])
    && exists stray: bytes :: l.up == Stream(Wired(n)) + stray && Stray(stray, n.client.sending)
  }

  lemma {:induction false} StreamConcat(a: seq<S.Sent>, b: seq<S.Sent>)
    ensures Stream(a + b) == Stream(a) + Stream(b)
  {
    hide Content;
    if a == [] {
      assert a + b == b;
    } else {
      StreamConcat(a[1..], b);
      assert (a + b)[0] == a[0] && (a + b)[1..] == a[1..] + b;
      var first := Content(a[0].packet);
      assert first + (Stream(a[1..]) + Stream(b)) == first + Stream(a[1..]) + Stream(b);
    }
  }

  lemma StreamOne(s: S.Sent)
    ensures Stream([s]) == Content(s.packet)
  {
    hide Content;
    assert [s][1..] == [];
  }

  /** The first packet of a stream is read off it. */
  lemma ReadsFirst(ss: seq<S.Sent>, rest: bytes)
    requires ss != [] && WellFormed(AsRead(ss[0].packet))
    ensures ReadPacket(Stream(ss) + rest) == Some((AsRead(ss[0].packet), Stream(ss[1..]) + rest))
  {
    hide Encode, Decode, WellFormed, AsRead;
    var p := ss[0].packet;
    ReadsTheSame(p);
    PacketRoundTrip(AsRead(p), Stream(ss[1..]) + rest);
    assert Stream(ss) + rest == Encode(p).value + (Stream(ss[1..]) + rest);
  }

  lemma ReadsNothing(stray: bytes, sending: bool)
    requires Stray(stray, sending)
    ensures ReadPacket(Stream([]) + stray) == None
  {
    hide VarInt.RemainLength;
    assert [] + stray == stray;
  }

  /** The first byte of a failed write announces no packet of its own. */
  lemma FailedIsStray(p: Packet)
    requires IsCallPacket(p) && Encode(p).Err?
    ensures Stray(Content(p), false)
  {
    hide PublishFirst, Encode, Decode;
    NormalForm.LoneHeader(First(p));
    assert First(p) / 16 == 3 || First(p) / 16 == 8 || First(p) / 16 == 10 by { FirstKind(p); }
  }

  lemma FirstKind(p: Packet)
    requires IsCallPacket(p)
    ensures First(p) / 16 == if p.Publish? then 3 else if p.Subscribe? then 8 else 10
  {
    if p.Publish? {
      hide PublishFirst;
      PublishFirstSum(Publish(p.isDup, p.qos, p.isRetain, [], if p.qos == 0 then 0 else p.packetId, []));
      FirstOf(p);
    }
  }

  lemma FirstOf(p: Packet)
    requires p.Publish?
    ensures PublishFirst(p)
            == PublishFirst(Publish(p.isDup, p.qos, p.isRetain, [], if p.qos == 0 then 0 else p.packetId, []))
  {
  }

  // What a client step writes.

  predicate Fails(c: S.Client, s: S.Step) {
    !c.stopped && c.sending && s.DoSendUser? && c.sendCh != [] && Encode(c.sendCh[0].packet).Err?
  }

  /** The packets of which a step writes all. */
  function WrittenWhole(c: S.Client, s: S.Step): seq<S.Sent> {
    if c.stopped || !c.sending || Fails(c, s) then []
    else match s
      case DoSendUser => if c.sendCh == [] then [] else [c.sendCh[0]]
      case DoSendLogic => if c.logicCh == [] then [] else [c.logicCh[0]]
      case _ => []
  }

  lemma ClientWrites(c: S.Client, st: P.Strategy, s: S.Step)
    requires c.logicCh != [] ==> Ordering.LogicSent(c.logicCh[0])
    ensures var c' := S.Apply(c, st, s);
      && c'.out == c.out + WrittenWhole(c, s) && c'.sending == (c.sending && !Fails(c, s))
      && Written(c, s) == if Fails(c, s) then Content(c.sendCh[0].packet) else Stream(WrittenWhole(c, s))
  {
    hide S.SendLogic, S.Submit, S.Receive, Encode, Content, Stream;
    assert Stream([]) == [] by { NothingStreams(); }
    assert c.out + [] == c.out;
    match s
    case DoReceive(p) => ReceiveWrites(c, st, p);
    case DoSendUser => if c.sendCh != [] { StreamOne(c.sendCh[0]); }
    case DoSendLogic =>
      NoSend(c, st);
      if c.logicCh != [] {
        StreamOne(c.logicCh[0]);
        Ordering.SendLogicQueues(c, st);
      }
    case _ =>
      match S.Submitted(s) {
        case Some(p) => Ordering.SubmitQueues(c, st, p);
        case None =>
      }
  }

  lemma NothingStreams()
    ensures Stream([]) == []
  {
  }

  lemma ReceiveWrites(c: S.Client, st: P.Strategy, p: Packet)
    ensures S.Receive(c, st, p).out == c.out && S.Receive(c, st, p).sending == c.sending
    ensures S.Receive(c, st, p).sendCh == c.sendCh
  {
    hide P.Store, P.Delete, S.DoneMsg;
  }

  lemma LogicHeadSent(n: Net)
    requires Sound(n)
    ensures n.client.logicCh != [] ==> Ordering.LogicSent(n.client.logicCh[0])
  {
    hide OneToken.OnePerId, Staged, Dones, Ordering.LogicSent, UserShape;
    assert n.client.logicCh != [] ==> LogicShape(Abs(n).logicCh[0]);
  }

  // Everything stays readable.

  lemma LogicReadable(s: S.Sent)
    requires Ordering.LogicSent(s)
    ensures WellFormed(AsRead(s.packet))
  {
  }

  lemma LocalReadable(n: Net, st: P.Strategy, s: S.Step)
    requires Sound(n) && Readable(n) && Allowed(n, Local(s))
    ensures Readable(Advance(n, st, Local(s)))
  {
    hide Sound, WellFormed, Callable, S.Apply, FreshStep, Allocates, InFlight, TakenId, Encode, Fits;
    var c := n.client;
    LogicHeadSent(n);
    ClientWrites(c, st, s);
    forall x | x in WrittenWhole(c, s) ensures WellFormed(AsRead(x.packet)) {
      if s.DoSendLogic? {
        LogicReadable(x);
      } else {
        UserReadable(x.packet);
      }
    }
    QueueReadable(c, st, s);
  }

  lemma UserReadable(p: Packet)
    requires Callable(p) && Encode(p).Ok?
    ensures WellFormed(AsRead(p))
  {
    hide WellFormed, Encode, Fits;
    FitsWellFormed(p);
  }

  lemma QueueReadable(c: S.Client, st: P.Strategy, s: S.Step)
    requires !s.DoReceive? && (S.Submitted(s).Some? ==> Fits(S.Submitted(s).value))
    requires forall i :: 0 <= i < |c.sendCh| ==> Callable(c.sendCh[i].packet)
    ensures var c' := S.Apply(c, st, s); forall i :: 0 <= i < |c'.sendCh| ==> Callable(c'.sendCh[i].packet)
  {
    hide S.Submit, S.SendUser, S.SendLogic, Callable, Fits;
    if !c.stopped {
      match s
      case DoSendUser => SendUserQueue(c);
      case DoSendLogic => SendLogicQueue(c, st);
      case _ =>
        match S.Submitted(s) {
          case Some(p) =>
            Ordering.SubmitQueues(c, st, p);
            CallFits(c, p);
          case None =>
        }
    }
  }

  lemma CallFits(c: S.Client, p: Packet)
    requires IsCallPacket(p) && Fits(p)
    ensures Callable(Ordering.CallPacket(c, p))
  {
    hide TakenId;
  }

  lemma SendUserQueue(c: S.Client)
    ensures S.SendUser(c).sendCh == if c.sendCh == [] then [] else c.sendCh[1..]
  {
    hide Encode;
  }

  lemma SendLogicQueue(c: S.Client, st: P.Strategy)
    ensures S.SendLogic(c, st).sendCh == c.sendCh
  {
    hide P.Store, P.Delete, Encode;
  }

  lemma AnswersReadable(r: Peer, s: S.Sent, codes: bytes)
    requires |codes| + 2 <= VarInt.MAX_MSG_SIZE
    ensures var r' := Serve(r, s, codes);
      && |r'.back| <= |r.back| + 1 && r.back <= r'.back
      && (forall i :: |r.back| <= i < |r'.back| ==> WellFormed(r'.back[i].packet))
  {
    hide WellFormed;
    var r' := Serve(r, s, codes);
    if |r'.back| > |r.back| {
      AnswerWellFormed(r'.back[|r.back|].packet);
    }
  }

  lemma AnswerWellFormed(p: Packet)
    requires p.PubAck? || p.PubRecv? || p.PubComp? || p.UnsubAck? || p.PingResp?
             || (p.SubAck? && |p.codes| + 2 <= VarInt.MAX_MSG_SIZE)
    ensures WellFormed(p)
  {
  }

  lemma StepReadable(n: Net, st: P.Strategy, step: NetStep)
    requires Sound(n) && Readable(n) && Allowed(n, step)
    ensures Readable(Advance(n, st, step))
  {
    hide Sound, WellFormed, Callable, S.Receive, Serve, AsRead, FreshStep, Allocates, InFlight, TakenId, Fits;
    match step
    case Local(s) => LocalReadable(n, st, s);
    case PeerTakes(codes) =>
      if n.taken < |n.client.out| { AnswersReadable(n.peer, n.client.out[n.taken], codes); }
    case PeerSends(i) => if MaySend(n.peer.back, n.ready, i) { OvertakeSame(n.peer.back, n.ready, i); }
    case Deliver => if Delivers(n) { ReceiveWrites(n.client, st, n.peer.back[0].packet); }
    case Inject(p) =>
  }

  // Step by step.

  lemma LocalAgrees(l: Line, n: Net, st: P.Strategy, s: S.Step)
    requires Sound(n) && Readable(n) && Agrees(l, n) && !s.DoReceive?
    ensures Agrees(Carry(l, st, Local(s)), Advance(n, st, Local(s)))
  {
    hide Sound, S.Apply, Stream, Content, Stray, Written, WrittenWhole, Fails, PublishCalls, ReadPeer;
    var c, whole := n.client, WrittenWhole(n.client, s);
    var n' := Advance(n, st, Local(s));
    LogicHeadSent(n);
    ClientWrites(c, st, s);
    assert Wired(n') == Wired(n) + whole;
    StreamConcat(Wired(n), whole);
    var stray: bytes :| l.up == Stream(Wired(n)) + stray && Stray(stray, c.sending);
    var stray' := StrayAfter(c, s, stray, Stream(whole));
    assert Stream(Wired(n)) + stray + Written(c, s) == Stream(Wired(n)) + (stray + Written(c, s));
    assert Stream(Wired(n)) + (Stream(whole) + stray') == Stream(Wired(n')) + stray';
  }

  /** Something is written only onto whole packets. */
  lemma StrayAfter(c: S.Client, s: S.Step, stray: bytes, whole: bytes) returns (stray': bytes)
    requires Stray(stray, c.sending) && whole == Stream(WrittenWhole(c, s))
    requires Written(c, s) == if Fails(c, s) then Content(c.sendCh[0].packet) else whole
    requires forall i :: 0 <= i < |c.sendCh| ==> Callable(c.sendCh[i].packet)
    ensures stray + Written(c, s) == whole + stray' && Stray(stray', c.sending && !Fails(c, s))
  {
    hide Content, ReadPacket, Encode, Fits;
    assert Stream([]) == [] by { NothingStreams(); }
    if Fails(c, s) {
      stray' := Content(c.sendCh[0].packet);
      FailedIsStray(c.sendCh[0].packet);
    } else {
      stray' := stray;
    }
  }

  lemma PeerAgrees(l: Line, n: Net, st: P.Strategy, codes: bytes)
    requires Readable(n) && Agrees(l, n) && |codes| + 2 <= VarInt.MAX_MSG_SIZE
    ensures Agrees(Carry(l, st, PeerTakes(codes)), Advance(n, st, PeerTakes(codes)))
  {
    hide ReadPacket, Stream, Stray, Serve, ReadPeer, AsRead, WellFormed;
    var stray: bytes :| l.up == Stream(Wired(n)) + stray && Stray(stray, n.client.sending);
    if n.taken == |n.client.out| {
      assert Wired(n) == [];
      ReadsNothing(stray, n.client.sending);
    } else {
      var s := n.client.out[n.taken];
      TakenMoves(n);
      var later := Wired(n)[1..];
      ReadsFirst(Wired(n), stray);
      TakingAgrees(l, n, later, stray, codes);
    }
  }

  /** Taking a packet as it is read leaves the two systems in agreement. */
  lemma TakingAgrees(l: Line, n: Net, later: seq<S.Sent>, stray: bytes, codes: bytes)
    requires Readable(n) && Agrees(l, n) && |codes| + 2 <= VarInt.MAX_MSG_SIZE
    requires n.taken < |n.client.out| && later == Wired(n)[1..] && Stray(stray, n.client.sending)
    ensures var s := n.client.out[n.taken];
      Agrees(Taking(l, AsRead(s.packet), Stream(later) + stray, codes),
             n.(taken := n.taken + 1, peer := Serve(n.peer, s, codes)))
  {
    hide ReadPacket, Stream, Stray, Serve, ReadPeer, AsRead, WellFormed, Callable;
    var s := n.client.out[n.taken];
    var n' := n.(taken := n.taken + 1, peer := Serve(n.peer, s, codes));
    assert later == Wired(n') by { TakenMoves(n); }
    assert NextMark(l.net) == s.mark;
    ServesTheSame(n.peer, s, codes);
    AnswersReadable(n.peer, s, codes);
    assert n'.peer.back[..n.ready] == n.peer.back[..n.ready];
  }

  lemma ReadPeerKeeps(r: Peer)
    ensures ReadPeer(r).back == r.back
  {
  }

  /** The peer does the same with a packet as read, but for the id it keeps of a QoS 0 message. */
  lemma ServesTheSame(r: Peer, s: S.Sent, codes: bytes)
    ensures Serve(ReadPeer(r), S.Sent(AsRead(s.packet), s.mark), codes) == ReadPeer(Serve(r, s, codes))
  {
    var read := S.Sent(AsRead(s.packet), s.mark);
    assert AllAsRead(r.accepted + [s]) == AllAsRead(r.accepted) + [read];
  }

  lemma SendsAgrees(l: Line, n: Net, st: P.Strategy, i: nat)
    requires Agrees(l, n)
    ensures Agrees(Carry(l, st, PeerSends(i)), Advance(n, st, PeerSends(i)))
  {
    hide Stream, Stray, Content, MaySend, AllAsRead;
    var stray: bytes :| l.up == Stream(Wired(n)) + stray && Stray(stray, n.client.sending);
    assert Wired(Advance(n, st, PeerSends(i))) == Wired(n);
    if MaySend(n.peer.back, n.ready, i) {
      SomethingToSend(n.peer.back, n.ready, i);
      var back, next := n.peer.back, n.peer.back[n.ready + i];
      assert Overtake(back, n.ready, i)[..n.ready + 1] == back[..n.ready] + [next];
      StreamConcat(back[..n.ready], [next]);
      StreamOne(next);
    }
  }

  lemma DeliverAgrees(l: Line, n: Net, st: P.Strategy)
    requires Readable(n) && Agrees(l, n)
    ensures Agrees(Carry(l, st, Deliver), Advance(n, st, Deliver))
  {
    hide ReadPacket, Stream, Stray, ReadPeer, AsRead, WellFormed, S.Receive;
    var stray: bytes :| l.up == Stream(Wired(n)) + stray && Stray(stray, n.client.sending);
    var back := n.peer.back;
    ReadPeerKeeps(n.peer);
    var sent := back[..n.ready];
    assert Stream(sent) + [] == Stream(sent);
    if n.ready == 0 {
      assert sent == [];
      ReadsNothing([], true) by { assert Stray([], true) by { EmptyStray(); } }
    } else if !n.client.stopped {
      WellFormedReads(back[0].packet);
      ReadsFirst(sent, []);
      assert sent[1..] == back[1..][..n.ready - 1];
      assert Stream(sent[1..]) + [] == Stream(sent[1..]);
      ReceiveWrites(n.client, st, back[0].packet);
      assert Wired(Advance(n, st, Deliver)) == Wired(n);
      ReadPeerBack(n.peer);
    }
  }

  lemma EmptyStray()
    ensures Stray([], true)
  {
  }

  lemma WellFormedReads(p: Packet)
    requires WellFormed(p)
    ensures AsRead(p) == p
  {
  }

  lemma ReadPeerBack(r: Peer)
    requires r.back != []
    ensures ReadPeer(r.(back := r.back[1..])) == ReadPeer(r).(back := ReadPeer(r).back[1..])
  {
  }

  lemma InjectAgrees(l: Line, n: Net, st: P.Strategy, p: Packet)
    requires Readable(n) && Agrees(l, n)
    ensures Agrees(Carry(l, st, Inject(p)), Advance(n, st, Inject(p)))
  {
    hide Stream, Stray;
    var stray: bytes :| l.up == Stream(Wired(n)) + stray && Stray(stray, n.client.sending);
    var n' := Advance(n, st, Inject(p));
    assert Wired(n') == Wired(n) && n'.peer.back[..n.ready] == n.peer.back[..n.ready];
  }

  lemma StepAgrees(l: Line, n: Net, st: P.Strategy, step: NetStep)
    requires Sound(n) && Readable(n) && Agrees(l, n) && Allowed(n, step)
    ensures Agrees(Carry(l, st, step), Advance(n, st, step))
  {
    hide Sound, Readable, Agrees, Carry, Advance, FreshStep, InFlight, TakenId, Fits, WellFormed;
    match step
    case Local(s) => LocalAgrees(l, n, st, s);
    case PeerTakes(codes) => PeerAgrees(l, n, st, codes);
    case PeerSends(i) => SendsAgrees(l, n, st, i);
    case Deliver => DeliverAgrees(l, n, st);
    case Inject(p) => InjectAgrees(l, n, st, p);
  }

  // Runs.

  /** Whatever the interleaving, client and peer that read each other's bytes do what they would do
      with the packets themselves. */
  lemma {:induction false} LineRuns(st: P.Strategy, steps: seq<NetStep>)
    requires AllowedRun(st, steps)
    ensures Agrees(LineAt(st, steps), NetAt(st, steps)) && Readable(NetAt(st, steps))
    decreases |steps|
  {
    hide Sound, Readable, Agrees, Carry, Advance, Allowed;
    if steps == [] {
      IdleAgrees();
    } else {
      var before, last := steps[..|steps| - 1], steps[|steps| - 1];
      AllowedBefore(st, steps);
      LineRuns(st, before);
      RunSound(st, before);
      StepAgrees(LineAt(st, before), NetAt(st, before), st, last);
      StepReadable(NetAt(st, before), st, last);
    }
  }

  lemma IdleAgrees()
    ensures Agrees(IDLE, START) && Readable(START)
  {
    assert AllAsRead([]) == [];
    assert Stream(Wired(START)) + [] == [];
  }

  /** In every reachable state, decoding all the bytes the client wrote gives exactly the packets it
      wrote, in order. */
  lemma {:induction false} WrittenDecodes(st: P.Strategy, steps: seq<NetStep>)
    requires AllowedRun(st, steps)
    ensures var out := NetAt(st, steps).client.out;
      DecodeMany(|out|, Stream(out)) == Ok((seq(|out|, i requires 0 <= i < |out| => Plain(AsRead(out[i].packet))), []))
  {
    hide NetAt, Agrees;
    LineRuns(st, steps);
    StreamDecodes(NetAt(st, steps).client.out);
  }

  lemma {:induction false} StreamDecodes(ss: seq<S.Sent>)
    requires forall i :: 0 <= i < |ss| ==> WellFormed(AsRead(ss[i].packet))
    ensures DecodeMany(|ss|, Stream(ss)) == Ok((seq(|ss|, i requires 0 <= i < |ss| => Plain(AsRead(ss[i].packet))), []))
  {
    var ps := seq(|ss|, i requires 0 <= i < |ss| => AsRead(ss[i].packet));
    StreamIsEncoding(ss, ps);
    hide Stream, EncodeAll, DecodeMany, AsRead;
    StreamRoundTrip(ps, []);
    assert EncodeAll(ps) + [] == EncodeAll(ps);
    assert Messages(ps) == seq(|ss|, i requires 0 <= i < |ss| => Plain(AsRead(ss[i].packet)));
  }

  lemma {:induction false} StreamIsEncoding(ss: seq<S.Sent>, ps: seq<Packet>)
    requires |ps| == |ss| && forall i :: 0 <= i < |ss| ==> ps[i] == AsRead(ss[i].packet) && WellFormed(ps[i])
    ensures (forall p :: p in ps ==> WellFormed(p)) && Stream(ss) == EncodeAll(ps)
    decreases |ss|
  {
    hide WellFormed, AsRead, Encode, Decode;
    if ss != [] {
      StreamIsEncoding(ss[1..], ps[1..]);
      ReadsTheSame(ss[0].packet);
      PacketRoundTrip(ps[0], []);
      assert forall p :: p in ps ==> p == ps[0] || p in ps[1..];
    }
  }

  // The results on bytes.

  lemma AllAsReadPrefix(a: seq<S.Sent>, b: seq<S.Sent>)
    requires a <= b
    ensures AllAsRead(a) <= AllAsRead(b)
  {
    assert forall i :: 0 <= i < |a| ==> a[i] == b[i];
  }

  lemma {:induction false} TagsRead(ss: seq<S.Sent>, role: Role)
    ensures Tags(AllAsRead(ss), role) == Tags(ss, role)
  {
    if ss != [] {
      TagsRead(ss[..|ss| - 1], role);
      assert AllAsRead(ss)[..|ss| - 1] == AllAsRead(ss[..|ss| - 1]);
    }
  }

  /** The calls the client took. */
  function FirstCalls(steps: seq<NetStep>, n: Net): seq<S.Step> {
    var calls := Asking.CallsOf(steps);
    if n.client.nextTag <= |calls| then calls[..n.client.nextTag] else calls
  }

  /** Client and peer on bytes: what the client reports is, in order, a beginning of what the peer
      released, that of the QoS 2 messages it accepted, and those are the first messages called for,
      as the wire carries them, each what its call asked for. */
  lemma {:induction false} StagesOnBytes(st: P.Strategy, steps: seq<NetStep>)
    requires AllowedRun(st, steps)
    ensures var n := LineAt(st, steps).net;
      && Acked(Dones(n.client.msgs), 2) <= Tags(n.peer.released, Pub2) <= Tags(n.peer.accepted, Pub2)
      && Acked(Dones(n.client.msgs), 1) <= Tags(n.peer.accepted, Pub1)
      && n.peer.accepted <= AllAsRead(n.called)
      && Asking.CalledFor(n.called, FirstCalls(steps, n))
  {
    hide NetAt, LineAt, Tags, Acked, Dones, AllAsRead, Readable, Asking.CalledFor, Asking.CallsOf;
    LineRuns(st, steps);
    Asking.CalledAsAsked(st, steps);
    StagesInOrder(st, steps);
    var n := NetAt(st, steps);
    TagsRead(n.peer.accepted, Pub1);
    TagsRead(n.peer.accepted, Pub2);
    AllAsReadPrefix(n.peer.accepted, n.called);
  }

  /** Every publish reported as acknowledged is one the user called for, with that topic and level, and
      carries what that call asked for; among the packets the peer read from its bytes and accepted it
      is exactly once, and with QoS 2 it was also released exactly once. */
  lemma {:induction false} DeliveredOnBytes(st: P.Strategy, steps: seq<NetStep>, d: S.Msg)
    requires AllowedRun(st, steps)
    requires d in Dones(LineAt(st, steps).net.client.msgs) && d.PubAcked?
    ensures var n := LineAt(st, steps).net;
      exists s ::
        && Delivery.TellsOf(d, s) && s in n.called && Asking.AskedFor(s, steps)
        && s in n.peer.accepted && Once(n.peer.accepted, d.tag)
        && (d.qos == 2 ==> s in n.peer.released && Once(n.peer.released, d.tag))
  {
    hide NetAt, LineAt, Dones, Once, Readable, Delivery.TellsOf, Asking.AskedFor;
    LineRuns(st, steps);
    var n := NetAt(st, steps);
    Delivery.ReportedMeansDelivered(st, steps, d);
    var s :|
      && Delivery.TellsOf(d, s) && s in n.called && Asking.AskedFor(s, steps)
      && s in n.peer.accepted && Once(n.peer.accepted, d.tag)
      && (d.qos == 2 ==> s in n.peer.released && Once(n.peer.released, d.tag));
    Delivery.ReportedLevel(st, steps, d);
    AcceptedRead(n.peer.accepted, s, d);
    OnceRead(n.peer.accepted, d.tag);
  }

  lemma AcceptedRead(accepted: seq<S.Sent>, s: S.Sent, d: S.Msg)
    requires s in accepted && Delivery.TellsOf(d, s) && d.qos >= 1
    ensures s in AllAsRead(accepted)
  {
    var i :| 0 <= i < |accepted| && accepted[i] == s;
    assert AllAsRead(accepted)[i] == s;
  }

  lemma OnceRead(accepted: seq<S.Sent>, tag: nat)
    requires Once(accepted, tag)
    ensures Once(AllAsRead(accepted), tag)
  {
    var read := AllAsRead(accepted);
    var i :| 0 <= i < |accepted| && accepted[i].mark == S.Call(tag)
             && forall j :: 0 <= j < |accepted| && accepted[j].mark == S.Call(tag) ==> j == i;
    assert read[i].mark == S.Call(tag);
    forall j | 0 <= j < |read| && read[j].mark == S.Call(tag) ensures j == i {
      assert accepted[j].mark == S.Call(tag);
    }
  }

  /** When no protocol step is left on a live connection, everything called for was read and accepted
      by the peer, released and reported, no id is in use, and no bytes are on their way. What was
      called for is one message for each publish among the user's calls, and what that asked for. */
  lemma {:induction false} DrainedOnBytes(st: P.Strategy, steps: seq<NetStep>)
    requires AllowedRun(st, steps)
    requires var n := LineAt(st, steps).net;
      n.client.sending && !n.client.stopped && forall step :: !Drain.Enabled(n, step)
    ensures var l := LineAt(st, steps);
      && l.up == [] && l.down == []
      && l.net.client.gen.used == map[] && l.net.peer.held == map[]
      && l.net.peer.accepted == AllAsRead(l.net.called)
      && Acked(Dones(l.net.client.msgs), 2) == Tags(l.net.peer.released, Pub2) == Tags(l.net.called, Pub2)
      && Acked(Dones(l.net.client.msgs), 1) == Tags(l.net.called, Pub1)
      && Asking.CalledFor(l.net.called, Asking.CallsOf(steps))
  {
    hide NetAt, LineAt, Tags, Acked, Dones, AllAsRead, Asking.CalledFor, Asking.CallsOf, Agrees, Readable,
      Drain.Enabled;
    LineRuns(st, steps);
    Asking.CalledAsAsked(st, steps);
    assert Asking.CallsOf(steps)[..|Asking.CallsOf(steps)|] == Asking.CallsOf(steps);
    var l, n := LineAt(st, steps), NetAt(st, steps);
    SameNet(l, n);
    forall step ensures !Drain.Enabled(n, step) {
      SameSteps(l, n, step);
    }
    Drain.DrainedMeansDone(st, steps);
    NothingOnLine(l, n);
  }

  lemma SameNet(l: Line, n: Net)
    requires Agrees(l, n)
    ensures l.net == n.(peer := ReadPeer(n.peer))
  {
  }

  lemma SameSteps(l: Line, n: Net, step: NetStep)
    requires l.net == n.(peer := ReadPeer(n.peer))
    ensures Drain.Enabled(l.net, step) <==> Drain.Enabled(n, step)
  {
    hide AllAsRead;
  }

  lemma NothingOnLine(l: Line, n: Net)
    requires Agrees(l, n) && Readable(n) && n.client.sending && !n.client.stopped
    requires forall step :: !Drain.Enabled(n, step)
    ensures l.up == [] && l.down == []
  {
    hide AllAsRead, WellFormed, Callable, AsRead, Stream, ReadPacket;
    assert !Drain.Enabled(n, PeerTakes([])) && !Drain.Enabled(n, Deliver);
    assert Wired(n) == [] && n.peer.back[..n.ready] == [];
    assert Stream([]) == [] by { NothingStreams(); }
  }
}
