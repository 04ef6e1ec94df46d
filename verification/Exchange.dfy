/** A client composed with a conforming peer over one connection: the receiver's side of sections
    4.3.2, 4.3.3 and 4.6 of MQTT Version 3.1.1, and first-in first-out queues between the two. */
module Exchange {
  import opened ArbitraryPeer
  import opened Bytes
  import opened Packets
  import opened Session
  import IdGenerator
  import Ordering
  import P = MemPersist
  import RoundTrip
  import VarInt

  /** The peer: its answers wait in `back`, and `made` keeps all it ever made; it holds QoS 2 messages
      by id between PUBLISH and PUBREL. */
  datatype Peer = Peer(back: seq<Sent>, made: seq<Sent>, held: map<u16, Sent>, accepted: seq<Sent>, released: seq<Sent>)

  /** The peer has taken the first `taken` packets of those the client wrote, and sent the first
      `ready` of its answers. `called` lists the publishes the user called for. */
  datatype Net = Net(client: Client, called: seq<Sent>, taken: nat, peer: Peer, ready: nat)

  const START: Net := Net(INIT, [], 0, Peer([], [], map[], [], []), 0)

  // The peer.

  function Answer(r: Peer, p: Packet, mark: Mark): Peer {
    r.(back := r.back + [Sent(p, mark)], made := r.made + [Sent(p, mark)])
  }

  /** What a receiver does with one packet. An answer keeps the label of what it answers. */
  function Serve(r: Peer, s: Sent, codes: bytes): Peer {
    match s.packet
    case Publish(_, qos, _, _, id, _) =>
      if qos == 0 then r.(accepted := r.accepted + [s])
      else if qos == 1 then Answer(r.(accepted := r.accepted + [s]), PubAck(id), s.mark)
      else if id in r.held then Answer(r, PubRecv(id), s.mark)
      else Answer(r.(accepted := r.accepted + [s], held := r.held[id := s]), PubRecv(id), s.mark)
    case PubRel(id) =>
      if id in r.held
      then Answer(r.(released := r.released + [r.held[id]], held := r.held - {id}), PubComp(id), s.mark)
      else Answer(r, PubComp(id), s.mark)
    case Subscribe(id, _) => Answer(r, SubAck(id, codes), s.mark)
    case Unsub(id, _) => Answer(r, UnsubAck(id), s.mark)
    case PingReq => Answer(r, PingResp, Other)
    case _ => r
  }

  /** Acknowledgements: what a peer sends only as an answer. */
  predicate IsAck(p: Packet) {
    p.SubAck? || p.UnsubAck? || p.PubAck? || p.PubRecv? || p.PubComp?
  }

  /** PUBACKs leave in the order they were made, and so do PUBRECs and PUBCOMPs. */
  predicate Ordered(p: Packet, q: Packet) {
    (p.PubAck? && q.PubAck?) || (p.PubRecv? && q.PubRecv?) || (p.PubComp? && q.PubComp?)
  }

  /** Of the answers not sent yet the `i`-th may be next: it overtakes none it must stay behind. */
  predicate MaySend(back: seq<Sent>, ready: nat, i: nat) {
    && ready + i < |back|
    && forall j :: ready <= j < ready + i ==> !Ordered(back[j].packet, back[ready + i].packet)
  }

  function Overtake(back: seq<Sent>, ready: nat, i: nat): seq<Sent>
    requires ready + i < |back|
  {
    back[..ready] + [back[ready + i]] + back[ready..ready + i] + back[ready + i + 1..]
  }

  // The two together.

  datatype NetStep =
    | Local(step: Step)
    | PeerTakes(codes: bytes)
    | PeerSends(i: nat)
    | Deliver
    | Inject(p: Packet)

  function PublishCalls(c: Client, step: Step): seq<Sent> {
    match Calling(c, step)
    case Some(p) => if p.Publish? then [Sent(Ordering.CallPacket(c, p), Call(c.nextTag))] else []
    case None => []
  }

  /** Something is on its way to a client that still reads. */
  predicate Delivers(n: Net) {
    !n.client.stopped && n.ready > 0 && n.peer.back != []
  }

  function Advance(n: Net, st: P.Strategy, step: NetStep): Net {
    match step
    case Local(s) => n.(client := Apply(n.client, st, s), called := n.called + PublishCalls(n.client, s))
    case PeerTakes(codes) =>
      if n.taken < |n.client.out|
      then n.(taken := n.taken + 1, peer := Serve(n.peer, n.client.out[n.taken], codes)) else n
    case PeerSends(i) =>
      if MaySend(n.peer.back, n.ready, i)
      then n.(ready := n.ready + 1, peer := n.peer.(back := Overtake(n.peer.back, n.ready, i))) else n
    case Deliver =>
      if !Delivers(n) then n
      else n.(client := Apply(n.client, st, DoReceive(n.peer.back[0].packet)),
              ready := n.ready - 1, peer := n.peer.(back := n.peer.back[1..]))
    case Inject(p) => n.(peer := Answer(n.peer, p, Other))
  }

  function Wired(n: Net): seq<Sent> {
    if n.taken <= |n.client.out| then n.client.out[n.taken..] else []
  }

  // Packets of an exchange in flight.

  datatype Kind = Qos1Publish | Qos2Publish | Subscription | Unsubscription

  /** A queued packet of an exchange: its id, the call it belongs to, and how many moves are left. */
  datatype Tok = Tok(id: u16, tag: nat, kind: Kind, left: nat)

  datatype Place = Queued | Wire | Back

  predicate OfKind(p: Packet, kind: Kind) {
    match kind
    case Qos1Publish => p.Publish? && p.qos == 1
    case Qos2Publish => p.Publish? && p.qos == 2
    case Subscription => p.Subscribe?
    case Unsubscription => p.Unsub?
  }

  function TokOf(s: Sent, place: Place): Option<Tok> {
    var w := if place == Wire then 1 else 0;
    match s.mark
    case Other => None
    case Call(tag) =>
      (match s.packet
       case Publish(_, qos, _, _, id, _) =>
         if qos == 1 then Some(Tok(id, tag, Qos1Publish, 3 - w))
         else if qos == 2 then Some(Tok(id, tag, Qos2Publish, 9 - w))
         else None
       case Subscribe(id, _) => Some(Tok(id, tag, Subscription, 3 - w))
       case Unsub(id, _) => Some(Tok(id, tag, Unsubscription, 3 - w))
       case PubRecv(id) => Some(Tok(id, tag, Qos2Publish, 7))
       case PubAck(id) => Some(Tok(id, tag, Qos1Publish, 1))
       case SubAck(id, _) => Some(Tok(id, tag, Subscription, 1))
       case UnsubAck(id) => Some(Tok(id, tag, Unsubscription, 1))
       case _ => None)
    case FirstRel(tag) =>
      (match s.packet
       case PubRel(id) => Some(Tok(id, tag, Qos2Publish, 6 - w))
       case PubComp(id) => Some(Tok(id, tag, Qos2Publish, 4))
       case _ => None)
    case LastRel(tag) =>
      (match s.packet
       case PubRel(id) => Some(Tok(id, tag, Qos2Publish, 3 - w))
       case PubComp(id) => Some(Tok(id, tag, Qos2Publish, 1))
       case _ => None)
  }

  function One(t: Option<Tok>): multiset<Tok> {
    if t.Some? then multiset{t.value} else multiset{}
  }

  function Toks(ss: seq<Sent>, place: Place): multiset<Tok> {
    if ss == [] then multiset{}
    else Toks(ss[..|ss| - 1], place) + One(TokOf(ss[|ss| - 1], place))
  }

  /** Everything in flight, in all four queues. */
  function Flow(sendCh: seq<Sent>, logicCh: seq<Sent>, wired: seq<Sent>, back: seq<Sent>): multiset<Tok> {
    Toks(sendCh, Queued) + Toks(logicCh, Queued) + Toks(wired, Wire) + Toks(back, Back)
  }

  function InFlight(n: Net): multiset<Tok> {
    Flow(n.client.sendCh, n.client.logicCh, Wired(n), n.peer.back)
  }

  predicate Absent(f: multiset<Tok>, id: u16) {
    forall t :: t in f ==> t.id != id
  }

  /** Topics and topic names have at most 65535 bytes, so that two length bytes can tell their size. */
  predicate Fits(p: Packet) {
    match p
    case Publish(_, _, _, topic, _, _) => RoundTrip.Short(topic)
    case Subscribe(_, topics) => forall t :: t in topics ==> RoundTrip.Short(t.name)
    case Unsub(_, names) => forall n :: n in names ==> RoundTrip.Short(n)
    case _ => true
  }

  /** Calls leave ids to the client, and their topics fit. No id is handed out that is zero, in use, or
      carried by a queued packet. The peer sends well-formed packets, acknowledgements only as answers. */
  predicate Allowed(n: Net, step: NetStep) {
    match step
    case Local(s) =>
      && !s.DoReceive?
      && (s.DoPublish? && s.p.Publish? && s.p.qos != 0 ==> s.p.packetId == 0)
      && (Submitted(s).Some? ==> Fits(Submitted(s).value))
      && FreshStep(n.client, s)
      && (Allocates(n.client, s) ==> Absent(InFlight(n), TakenId(n.client, Calling(n.client, s).value)))
    case PeerTakes(codes) => |codes| + 2 <= VarInt.MAX_MSG_SIZE
    case Inject(p) => !IsAck(p) && RoundTrip.WellFormed(p)
    case _ => true
  }

  function NetAt(st: P.Strategy, steps: seq<NetStep>): Net
    decreases |steps|
  {
    if steps == [] then START
    else Advance(NetAt(st, steps[..|steps| - 1]), st, steps[|steps| - 1])
  }

  ghost predicate AllowedRun(st: P.Strategy, steps: seq<NetStep>) {
    forall i {:trigger steps[i]} :: 0 <= i < |steps| ==> Allowed(NetAt(st, steps[..i]), steps[i])
  }

  lemma AllowedBefore(st: P.Strategy, steps: seq<NetStep>)
    requires steps != [] && AllowedRun(st, steps)
    ensures AllowedRun(st, steps[..|steps| - 1])
    ensures Allowed(NetAt(st, steps[..|steps| - 1]), steps[|steps| - 1])
  {
    hide NetAt, Allowed;
    var before := steps[..|steps| - 1];
    forall i | 0 <= i < |before| ensures Allowed(NetAt(st, before[..i]), before[i]) {
      assert before[..i] == steps[..i] && before[i] == steps[i];
    }
  }

  // Queues of tokens.

  lemma ToksLast(ss: seq<Sent>, s: Sent, place: Place)
    ensures Toks(ss + [s], place) == Toks(ss, place) + One(TokOf(s, place))
  {
    hide TokOf;
    assert (ss + [s])[..|ss|] == ss;
  }

  lemma {:induction false} ToksFirst(ss: seq<Sent>, place: Place)
    requires ss != []
    ensures Toks(ss, place) == One(TokOf(ss[0], place)) + Toks(ss[1..], place)
  {
    hide TokOf, One;
    var start, tail := ss[..|ss| - 1], ss[1..];
    if tail == [] {
      assert start == [];
    } else {
      ToksFirst(start, place);
      assert start[1..] == tail[..|tail| - 1];
      Regroup(One(TokOf(ss[0], place)), Toks(start[1..], place), One(TokOf(ss[|ss| - 1], place)));
    }
  }

  lemma {:induction false} ToksConcat(a: seq<Sent>, b: seq<Sent>, place: Place)
    ensures Toks(a + b, place) == Toks(a, place) + Toks(b, place)
    decreases |b|
  {
    hide TokOf, One;
    if b == [] {
      assert a + b == a;
    } else {
      ToksConcat(a, b[..|b| - 1], place);
      assert (a + b)[..|a + b| - 1] == a + b[..|b| - 1];
      Regroup(Toks(a, place), Toks(b[..|b| - 1], place), One(TokOf(b[|b| - 1], place)));
    }
  }

  /** The parts of a queue that an overtaking packet exchanges. */
  lemma OvertakeParts(back: seq<Sent>, ready: nat, i: nat)
    requires ready + i < |back|
    ensures var (x, y, s, z) := (back[..ready], back[ready..ready + i], [back[ready + i]], back[ready + i + 1..]);
      back == x + (y + s) + z && Overtake(back, ready, i) == x + (s + y) + z
  {
  }

  lemma OvertakeToks(back: seq<Sent>, ready: nat, i: nat, place: Place)
    requires ready + i < |back|
    ensures Toks(Overtake(back, ready, i), place) == Toks(back, place)
  {
    hide Toks;
    var x, y, s, z := back[..ready], back[ready..ready + i], [back[ready + i]], back[ready + i + 1..];
    OvertakeParts(back, ready, i);
    ToksConcat(x + (y + s), z, place);
    ToksConcat(x, y + s, place);
    ToksConcat(y, s, place);
    ToksConcat(x + (s + y), z, place);
    ToksConcat(x, s + y, place);
    ToksConcat(s, y, place);
  }

  lemma OvertakeSame(back: seq<Sent>, ready: nat, i: nat)
    requires ready + i < |back|
    ensures |Overtake(back, ready, i)| == |back|
    ensures forall s :: s in Overtake(back, ready, i) ==> s in back
  {
    OvertakeParts(back, ready, i);
  }

  lemma Regroup(a: multiset<Tok>, b: multiset<Tok>, c: multiset<Tok>)
    ensures (a + b) + c == a + (b + c)
  {
  }
}
