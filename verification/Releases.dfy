/** How many PUBRELs a publish causes: one on PUBREC, one more on PUBCOMP, and never another. */
module Releases {
  import opened ArbitraryPeer
  import opened Bytes
  import opened Exchange
  import opened ExactlyOnce
  import opened Keys
  import opened NetState
  import opened Packets
  import opened Pipeline
  import opened Session
  import opened TokenSteps
  import Encoder
  import OneToken
  import Ordering
  import P = MemPersist

  /** A packet of the release of a call's message. */
  predicate ReleaseOf(s: Sent, tag: nat) {
    s.mark == FirstRel(tag) || s.mark == LastRel(tag)
  }

  /** The PUBRELs among packets that a call's message caused. */
  function Rels(ss: seq<Sent>, tag: nat): nat {
    if ss == [] then 0
    else
      var s := ss[|ss| - 1];
      Rels(ss[..|ss| - 1], tag)
      + if s.packet.PubRel? && ReleaseOf(s, tag) then 1 else 0
  }

  function Count(ts: seq<nat>, tag: nat): nat {
    multiset(ts)[tag]
  }

  lemma {:induction false} RelsCounted(ss: seq<Sent>, tag: nat)
    ensures Rels(ss, tag) == Count(Tags(ss, Rel), tag) + Count(Tags(ss, Last), tag)
  {
    hide Count;
    if ss == [] {
      NoneCounted(tag);
    } else {
      var start, s := ss[..|ss| - 1], ss[|ss| - 1];
      RelsCounted(start, tag);
      if Plays(s, Rel) || Plays(s, Last) {
        CountLast(Tags(start, Rel), s.mark.tag, tag);
        CountLast(Tags(start, Last), s.mark.tag, tag);
      }
      assert Tags(start, Rel) + [] == Tags(start, Rel) && Tags(start, Last) + [] == Tags(start, Last);
    }
  }

  lemma NoneCounted(tag: nat)
    ensures Count([], tag) == 0
  {
  }

  lemma CountLast(ts: seq<nat>, t: nat, tag: nat)
    ensures Count(ts + [t], tag) == Count(ts, tag) + if t == tag then 1 else 0
  {
  }

  lemma {:induction false} RisingCount(ts: seq<nat>, tag: nat)
    requires Rising(ts)
    ensures Count(ts, tag) == if tag in ts then 1 else 0
  {
    if ts != [] {
      var start := ts[..|ts| - 1];
      RisingCount(start, tag);
      assert ts == start + [ts[|ts| - 1]];
      if tag in start {
        var i :| 0 <= i < |start| && start[i] == tag;
        assert ts[i] == tag;
      }
    }
  }

  /** The first PUBRELs taken are the releases; the last ones written or queued are the reports. */
  ghost predicate Booked(n: Net) {
    && n.taken <= |n.client.out|
    && Tags(n.client.out[..n.taken], Rel) == Tags(n.peer.released, Pub2)
    && Tags(n.client.out, Last) + Tags(n.client.logicCh, Last) == Acked(Dones(n.client.msgs), 2)
  }

  lemma StepBooked(n: Net, st: P.Strategy, step: NetStep)
    requires Sound(n) && Booked(n) && Allowed(n, step)
    ensures Booked(Advance(n, st, step))
  {
    hide Sound, Booked, Apply, FreshStep, Allocates, PublishCalls, InFlight, Serve, TakenId;
    hide Submit, SendUser, SendLogic;
    match step
    case Local(s) =>
      if n.client.stopped {
        assert Apply(n.client, st, s) == n.client by { StoppedStays(n.client, st, s); }
        SameBooked(n, Advance(n, st, step));
      } else {
        LocalBooked(n, st, s);
        SameBooked(n.(client := Apply(n.client, st, s)), Advance(n, st, step));
      }
    case PeerTakes(codes) => if n.taken < |n.client.out| { PeerBooked(n, codes); }
    case Deliver => if Delivers(n) { DeliverBooked(n, st); }
    case _ => SameBooked(n, Advance(n, st, step));
  }

  lemma StoppedStays(c: Client, st: P.Strategy, s: Step)
    requires c.stopped
    ensures Apply(c, st, s) == c
  {
  }

  lemma SameBooked(n: Net, n': Net)
    requires Booked(n)
    requires n'.taken == n.taken && n'.peer.released == n.peer.released
    requires n'.client.out == n.client.out && n'.client.logicCh == n.client.logicCh
    requires Dones(n'.client.msgs) == Dones(n.client.msgs)
    ensures Booked(n')
  {
    hide Tags, Dones, Acked;
  }

  lemma LocalBooked(n: Net, st: P.Strategy, s: Step)
    requires Sound(n) && Booked(n) && !s.DoReceive? && !n.client.stopped
    ensures Booked(n.(client := Apply(n.client, st, s)))
  {
    hide Sound, Booked, Submit, SendUser, SendLogic, Dones;
    var c := n.client;
    match s
    case DoSendUser => if c.sending && c.sendCh != [] { SendUserBooked(n); } else { NoSend(c, st); }
    case DoSendLogic => if c.sending && c.logicCh != [] { SendLogicBooked(n, st); } else { NoSend(c, st); }
    case DoKeepalive => EnqueueBooked(n, PingReq);
    case DoDisconnect => EnqueueBooked(n, Disconnect);
    case DoStop => SameBooked(n, n.(client := c.(stopped := true)));
    case _ =>
      match Submitted(s) {
        case Some(p) =>
          Ordering.SubmitQueues(c, st, p);
          SubmitTable(c, st, p);
        case None =>
      }
      SameBooked(n, n.(client := Apply(c, st, s)));
  }

  lemma EnqueueBooked(n: Net, p: Packet)
    requires Booked(n)
    ensures Booked(n.(client := Session.Queue(n.client, p, Other)))
  {
    hide Tags, Dones, Acked;
    TagsKeep(n.client.logicCh, Sent(p, Other), Last);
  }

  lemma Prefix<T>(xs: seq<T>, x: T, k: nat)
    requires k <= |xs|
    ensures (xs + [x])[..k] == xs[..k]
  {
  }

  lemma SendUserBooked(n: Net)
    requires Sound(n) && Booked(n) && n.client.sendCh != []
    ensures Booked(n.(client := SendUser(n.client)))
  {
    hide Tags, Dones, Acked, Encoder.Encode, Sound, Plays;
    var s := n.client.sendCh[0];
    assert !Plays(s, Last) by { UserHead(n); }
    SendUserTable(n.client);
    TagsKeep(n.client.out, s, Last);
    Prefix(n.client.out, s, n.taken);
  }

  lemma UserHead(n: Net)
    requires Sound(n) && n.client.sendCh != []
    ensures !Plays(n.client.sendCh[0], Last)
  {
    hide Dones, OneToken.OnePerId, Staged, LogicShape;
    assert UserShape(Abs(n).sendCh[0]);
  }

  lemma SendLogicBooked(n: Net, st: P.Strategy)
    requires Sound(n) && Booked(n) && n.client.logicCh != []
    ensures Booked(n.(client := SendLogic(n.client, st)))
  {
    hide Tags, Dones, Acked, SendLogic, OneToken.OnePerId, Staged, UserShape, Ordering.LogicSent;
    var s := n.client.logicCh[0];
    assert LogicShape(Abs(n).logicCh[0]);
    SendLogicTable(n.client, st);
    Ordering.SendLogicQueues(n.client, st);
    TagsLast(n.client.out, s, Last);
    TagsFirst(n.client.logicCh, Last);
    Prefix(n.client.out, s, n.taken);
    var p := if Plays(s, Last) then [s.mark.tag] else [];
    var rest := Tags(n.client.logicCh[1..], Last);
    assert (Tags(n.client.out, Last) + p) + rest == Tags(n.client.out, Last) + (p + rest);
  }

  lemma PeerBooked(n: Net, codes: bytes)
    requires Sound(n) && Booked(n) && n.taken < |n.client.out|
    ensures Booked(n.(taken := n.taken + 1, peer := Serve(n.peer, n.client.out[n.taken], codes)))
  {
    hide Tags, Dones, Acked, OneToken.OnePerId, Staged, Serve;
    var s, a := n.client.out[n.taken], Abs(n);
    TakenMoves(n);
    assert a.wired[0] == s && WireShape(a.wired[0]);
    assert n.client.out[..n.taken + 1] == n.client.out[..n.taken] + [s];
    if Plays(s, Rel) {
      TagsLast(n.client.out[..n.taken], s, Rel);
      ServeRelease(a, codes);
      HeldPlays(a, s.packet.packetId);
      Releases(n.peer, s, codes);
    } else {
      TagsKeep(n.client.out[..n.taken], s, Rel);
      if s.packet.PubRel? { ServeRelease(a, codes); }
      ReleasesNothing(n.peer, s, codes);
    }
  }

  lemma Releases(r: Peer, s: Sent, codes: bytes)
    requires s.packet.PubRel? && s.packet.packetId in r.held && Plays(r.held[s.packet.packetId], Pub2)
    ensures Tags(Serve(r, s, codes).released, Pub2) == Tags(r.released, Pub2) + [r.held[s.packet.packetId].mark.tag]
  {
    hide Tags;
    TagsLast(r.released, r.held[s.packet.packetId], Pub2);
  }

  lemma ReleasesNothing(r: Peer, s: Sent, codes: bytes)
    requires s.packet.PubRel? ==> s.packet.packetId !in r.held
    ensures Serve(r, s, codes).released == r.released
  {
  }

  lemma HeldPlays(a: State, id: u16)
    requires Staged(a) && id in a.peer.held
    ensures Plays(a.peer.held[id], Pub2)
  {
    hide Plays, CallsRise, Accepting, Releasing, Reporting2, Reporting1;
  }

  lemma DeliverBooked(n: Net, st: P.Strategy)
    requires Sound(n) && Booked(n) && Delivers(n)
    ensures Booked(Advance(n, st, Deliver))
  {
    hide Tags, Dones, Acked, Receive, Granted, Sound;
    var r := n.(ready := n.ready - 1, peer := n.peer.(back := n.peer.back[1..]));
    var c, p := n.client, n.peer.back[0].packet;
    assert r.taken <= |r.client.out| by { TakenBound(n); }
    ReceiveMoves(r, st, p);
    OutGrows(c, st, p);
    var a := Abs(r);
    var a' := Received(a, p);
    assert a' == Abs(r.(client := Receive(c, st, p)));
    if p.PubComp? && Awaits2(a, p.packetId) {
      var tag := a.used[p.packetId].tag;
      FinishBooks(a, p);
      var out, logic := Tags(c.out, Last), Tags(c.logicCh, Last);
      assert out + (logic + [tag]) == (out + logic) + [tag];
    } else {
      NothingBooks(a, p);
    }
  }

  lemma TakenBound(n: Net)
    requires Sound(n)
    ensures n.taken <= |n.client.out|
  {
  }

  /** The client queues a last PUBREL as it reports a QoS 2 publish. */
  lemma FinishBooks(a: State, p: Packet)
    requires p.PubComp? && Awaits2(a, p.packetId)
    ensures var a', tag := Received(a, p), a.used[p.packetId].tag;
      Tags(a'.logicCh, Last) == Tags(a.logicCh, Last) + [tag] && Acked(a'.dones, 2) == Acked(a.dones, 2) + [tag]
  {
    hide Tags, Acked;
    TagsLast(a.logicCh, Sent(PubRel(p.packetId), LastRel(a.used[p.packetId].tag)), Last);
    AckedLast(a.dones, DoneMsg(a.used[p.packetId], p), 2);
  }

  lemma NothingBooks(a: State, p: Packet)
    requires !(p.PubComp? && Awaits2(a, p.packetId))
    ensures var a' := Received(a, p);
      Tags(a'.logicCh, Last) == Tags(a.logicCh, Last) && Acked(a'.dones, 2) == Acked(a.dones, 2)
  {
    hide Tags, Acked, Granted;
    var a' := Received(a, p);
    if a'.logicCh != a.logicCh {
      var q := a'.logicCh[|a.logicCh|];
      assert a'.logicCh == a.logicCh + [q];
      TagsKeep(a.logicCh, q, Last);
    }
    if a'.dones != a.dones {
      AckedLast(a.dones, DoneMsg(a.used[p.packetId], p), 2);
      assert Acked(a.dones, 2) + [] == Acked(a.dones, 2);
    }
  }

  lemma {:induction false} RunBooked(st: P.Strategy, steps: seq<NetStep>)
    requires AllowedRun(st, steps)
    ensures Booked(NetAt(st, steps))
    decreases |steps|
  {
    hide Sound, Booked, Advance, Allowed;
    if steps == [] {
      StartBooked();
    } else {
      var before := steps[..|steps| - 1];
      AllowedBefore(st, steps);
      RunSound(st, before);
      RunBooked(st, before);
      StepBooked(NetAt(st, before), st, steps[|steps| - 1]);
    }
  }

  lemma StartBooked()
    ensures Booked(START)
  {
    NothingQueued();
    assert Dones([]) == [];
  }

  lemma CountSum(xs: seq<nat>, ys: seq<nat>, tag: nat)
    ensures Count(xs + ys, tag) == Count(xs, tag) + Count(ys, tag)
  {
  }

  lemma RisingPrefix(xs: seq<nat>, ys: seq<nat>)
    requires xs <= ys && Rising(ys)
    ensures Rising(xs)
  {
    forall i, j | 0 <= i < j < |xs| ensures xs[i] < xs[j] {
      assert xs[i] == ys[i] && xs[j] == ys[j];
    }
  }

  lemma FirstOnes(n: Net, tag: nat)
    requires Sound(n) && Booked(n)
    ensures var first := Count(Tags(n.client.out, Rel), tag) + Count(Tags(n.client.logicCh, Rel), tag);
      first <= 1 && (tag in Acked(Dones(n.client.msgs), 2) ==> first == 1)
  {
    hide Tags, Dones, Acked, Count, OneEach, Publishes, FromAccepted;
    var c, wired := n.client, Wired(n);
    assert c.out == c.out[..n.taken] + wired;
    TagsConcat(c.out[..n.taken], wired, Rel);
    var rels := Tags(c.out, Rel) + Tags(c.logicCh, Rel);
    AcceptedRise(n.called, c.nextTag, n.peer.accepted) by {
      assert n.peer.accepted <= n.called;
    }
    RisingPrefix(rels, Tags(n.peer.accepted, Pub2)) by {
      assert rels + Tags(n.peer.back, Recv) == Tags(n.peer.accepted, Pub2);
    }
    RisingCount(rels, tag);
    CountSum(Tags(c.out, Rel), Tags(c.logicCh, Rel), tag);
    if tag in Acked(Dones(c.msgs), 2) {
      assert tag in Tags(n.peer.released, Pub2);
      assert tag in rels;
    }
  }

  lemma LastOnes(n: Net, tag: nat)
    requires Sound(n) && Booked(n)
    ensures Count(Tags(n.client.out, Last), tag) + Count(Tags(n.client.logicCh, Last), tag)
            == if tag in Acked(Dones(n.client.msgs), 2) then 1 else 0
  {
    hide Tags, Dones, Acked, Count, OneEach, Publishes, FromAccepted;
    var c, reported := n.client, Acked(Dones(n.client.msgs), 2);
    AcceptedRise(n.called, c.nextTag, n.peer.accepted) by {
      assert n.peer.accepted <= n.called;
    }
    RisingPrefix(reported, Tags(n.peer.accepted, Pub2)) by {
      assert reported <= Tags(n.peer.released, Pub2) <= Tags(n.peer.accepted, Pub2);
    }
    RisingCount(reported, tag);
    CountSum(Tags(c.out, Last), Tags(c.logicCh, Last), tag);
  }

  /** Of the PUBRELs for one publish there are never more than two, written or still queued: one
      answers its PUBREC, and one more goes out exactly if it is reported as done. */
  lemma {:induction false} AtMostTwoReleases(st: P.Strategy, steps: seq<NetStep>, tag: nat)
    requires AllowedRun(st, steps)
    ensures var c := NetAt(st, steps).client;
      var rels := Rels(c.out, tag) + Rels(c.logicCh, tag);
      && rels <= 2
      && (tag in Acked(Dones(c.msgs), 2) <==> rels == 2)
  {
    hide NetAt, Sound, Tags, Dones, Acked, Count, Rels;
    var n := NetAt(st, steps);
    var c := n.client;
    RunSound(st, steps);
    RunBooked(st, steps);
    StagesInOrder(st, steps);
    RelsCounted(c.out, tag);
    RelsCounted(c.logicCh, tag);
    FirstOnes(n, tag);
    LastOnes(n, tag);
  }

  // The peer's side: every PUBREL it takes is answered by one PUBCOMP.

  /** The PUBCOMPs among packets that a call's message caused. */
  function Comps(ss: seq<Sent>, tag: nat): nat {
    if ss == [] then 0
    else
      var s := ss[|ss| - 1];
      Comps(ss[..|ss| - 1], tag)
      + if s.packet.PubComp? && ReleaseOf(s, tag) then 1 else 0
  }

  lemma CompsLast(ss: seq<Sent>, s: Sent, tag: nat)
    ensures Comps(ss + [s], tag)
            == Comps(ss, tag) + if s.packet.PubComp? && ReleaseOf(s, tag) then 1 else 0
  {
    assert (ss + [s])[..|ss|] == ss;
  }

  lemma RelsLast(ss: seq<Sent>, s: Sent, tag: nat)
    ensures Rels(ss + [s], tag)
            == Rels(ss, tag) + if s.packet.PubRel? && ReleaseOf(s, tag) then 1 else 0
  {
    assert (ss + [s])[..|ss|] == ss;
  }

  ghost predicate Replied(n: Net, tag: nat) {
    n.taken <= |n.client.out| && Comps(n.peer.made, tag) == Rels(n.client.out[..n.taken], tag)
  }

  lemma OutExtends(c: Client, st: P.Strategy, s: Step)
    ensures c.out <= Apply(c, st, s).out
  {
    hide SendLogic, Submit, Receive, Encoder.Encode;
    match s
    case DoReceive(p) => OutGrows(c, st, p);
    case DoSendLogic => LogicOutExtends(c, st);
    case _ =>
      match Submitted(s) {
        case Some(p) => Ordering.SubmitQueues(c, st, p);
        case None =>
      }
  }

  lemma LogicOutExtends(c: Client, st: P.Strategy)
    ensures c.out <= SendLogic(c, st).out
  {
    hide Keep, P.Delete, Encoder.Encode;
    if c.logicCh != [] && c.logicCh[0].packet.PubRel? {
      var s := c.logicCh[0];
      Ordering.KeepQueues(c.(logicCh := c.logicCh[1..], out := c.out + [s]), st, SendKey(s.packet.packetId), s.packet);
    }
  }

  lemma StepReplied(n: Net, st: P.Strategy, step: NetStep, tag: nat)
    requires Sound(n) && Replied(n, tag) && Allowed(n, step)
    ensures Replied(Advance(n, st, step), tag)
  {
    hide Sound, Apply, FreshStep, Allocates, PublishCalls, InFlight, Serve, TakenId, Rels, Comps;
    match step
    case Local(s) =>
      OutExtends(n.client, st, s);
      assert Apply(n.client, st, s).out[..n.taken] == n.client.out[..n.taken];
    case PeerTakes(codes) => if n.taken < |n.client.out| { ServeReplied(n, codes, tag); }
    case Deliver =>
      if Delivers(n) {
        OutExtends(n.client, st, DoReceive(n.peer.back[0].packet));
        assert Advance(n, st, step).client.out[..n.taken] == n.client.out[..n.taken];
      }
    case Inject(p) => CompsLast(n.peer.made, Sent(p, Other), tag);
    case PeerSends(_) =>
  }

  lemma ServeReplied(n: Net, codes: bytes, tag: nat)
    requires Sound(n) && Replied(n, tag) && n.taken < |n.client.out|
    ensures Replied(n.(taken := n.taken + 1, peer := Serve(n.peer, n.client.out[n.taken], codes)), tag)
  {
    hide Rels, Comps, OneEach, Staged, Serve;
    var s := n.client.out[n.taken];
    assert WireShape(s) by { NextShape(n); }
    assert n.client.out[..n.taken + 1] == n.client.out[..n.taken] + [s];
    RelsLast(n.client.out[..n.taken], s, tag);
    OneAnswer(n.peer, s, codes, tag);
  }

  lemma NextShape(n: Net)
    requires Sound(n) && n.taken < |n.client.out|
    ensures WireShape(n.client.out[n.taken])
  {
    hide OneToken.OnePerId, Staged, Dones, WireShape;
    TakenMoves(n);
    assert WireShape(Abs(n).wired[0]);
  }

  lemma OneAnswer(r: Peer, s: Sent, codes: bytes, tag: nat)
    requires WireShape(s)
    ensures Comps(Serve(r, s, codes).made, tag)
            == Comps(r.made, tag) + if s.packet.PubRel? && ReleaseOf(s, tag) then 1 else 0
  {
    hide Comps;
    var made := Serve(r, s, codes).made;
    if made != r.made {
      assert made == r.made + [made[|r.made|]];
      CompsLast(r.made, made[|r.made|], tag);
    }
  }

  lemma {:induction false} RunReplied(st: P.Strategy, steps: seq<NetStep>, tag: nat)
    requires AllowedRun(st, steps)
    ensures Replied(NetAt(st, steps), tag)
    decreases |steps|
  {
    hide Sound, Replied, Advance, Allowed;
    if steps == [] {
      assert Replied(START, tag) by { NoReplies(tag); }
    } else {
      var before := steps[..|steps| - 1];
      AllowedBefore(st, steps);
      RunSound(st, before);
      RunReplied(st, before, tag);
      StepReplied(NetAt(st, before), st, steps[|steps| - 1], tag);
    }
  }

  lemma NoReplies(tag: nat)
    ensures Replied(START, tag)
  {
  }

  lemma {:induction false} RelsPrefix(ss: seq<Sent>, k: nat, tag: nat)
    requires k <= |ss|
    ensures Rels(ss[..k], tag) <= Rels(ss, tag)
    decreases |ss|
  {
    if k == |ss| {
      assert ss[..k] == ss;
    } else {
      RelsPrefix(ss[..|ss| - 1], k, tag);
      assert ss[..|ss| - 1][..k] == ss[..k];
    }
  }

  /** Nor are there ever more than two PUBCOMPs: one for each PUBREL taken. */
  lemma {:induction false} AtMostTwoCompletions(st: P.Strategy, steps: seq<NetStep>, tag: nat)
    requires AllowedRun(st, steps)
    ensures var n := NetAt(st, steps);
      n.taken <= |n.client.out| && Comps(n.peer.made, tag) == Rels(n.client.out[..n.taken], tag) <= 2
  {
    hide NetAt, Rels, Comps, Dones, Acked, Sound;
    var n := NetAt(st, steps);
    RunReplied(st, steps, tag);
    RelsPrefix(n.client.out, n.taken, tag);
    AtMostTwoReleases(st, steps, tag);
  }
}
