/** What a report says: the topic and level of a message the peer accepted exactly once. */
module Delivery {
  import opened ArbitraryPeer
  import opened Bytes
  import opened Exchange
  import opened ExactlyOnce
  import opened Packets
  import opened Pipeline
  import opened Session
  import Asking
  import IdGenerator
  import NetState
  import Ordering
  import P = MemPersist
  import TokenSteps

  /** A report tells of this call's message. */
  predicate TellsOf(d: Msg, s: Sent) {
    && d.PubAcked? && s.packet.Publish?
    && s.mark == Call(d.tag) && s.packet.qos == d.qos && s.packet.topicName == d.topic
  }

  /** Table entries and reports go back to what was called for. */
  ghost predicate Linked(used: map<u16, Entry>, dones: seq<Msg>, called: seq<Sent>) {
    && (forall id :: id in used && used[id].packet.Publish? ==> Sent(used[id].packet, Call(used[id].tag)) in called)
    && (forall d :: d in dones && d.PubAcked? ==> 1 <= d.qos <= 2 && exists s :: s in called && TellsOf(d, s))
  }

  lemma StepLinked(c: Client, c': Client, step: Step, called: seq<Sent>)
    requires Linked(c.gen.used, Dones(c.msgs), called)
    requires TableStep(c, c', step) && FreshStep(c, step)
    ensures Linked(c'.gen.used, Dones(c'.msgs), called + PublishCalls(c, step))
  {
    hide Linked, Dones, IdGenerator.Fresh, TakenId, Report, PublishCalls;
    var more := PublishCalls(c, step);
    MoreCalled(c.gen.used, Dones(c.msgs), called, more);
    if Allocates(c, step) {
      EntryLinked(c, step);
      var p := Calling(c, step).value;
      TakenLinked(c.gen.used, TakenId(c, p), NewEntry(c, p), Dones(c.msgs), called + more);
    } else if Matches(c, step) {
      ReportLinked(c, step, called + more);
    }
  }

  lemma MoreCalled(used: map<u16, Entry>, dones: seq<Msg>, called: seq<Sent>, more: seq<Sent>)
    requires Linked(used, dones, called)
    ensures Linked(used, dones, called + more)
  {
    hide TellsOf;
    assert forall s :: s in called ==> s in called + more;
  }

  lemma EntryLinked(c: Client, step: Step)
    requires Allocates(c, step)
    ensures var e := NewEntry(c, Calling(c, step).value);
      e.packet.Publish? ==> Sent(e.packet, Call(e.tag)) in PublishCalls(c, step)
  {
    hide TakenId;
  }

  lemma TakenLinked(used: map<u16, Entry>, id: u16, e: Entry, dones: seq<Msg>, called: seq<Sent>)
    requires Linked(used, dones, called) && (e.packet.Publish? ==> Sent(e.packet, Call(e.tag)) in called)
    ensures Linked(used[id := e], dones, called)
  {
    hide TellsOf;
  }

  lemma ReportLinked(c: Client, step: Step, called: seq<Sent>)
    requires Linked(c.gen.used, Dones(c.msgs), called) && Matches(c, step)
    ensures Linked(c.gen.used - {step.p.packetId}, Dones(c.msgs) + [Report(c, step)], called)
  {
    hide Dones, Granted;
    var e := c.gen.used[step.p.packetId];
    if e.packet.Publish? {
      assert TellsOf(Report(c, step), Sent(e.packet, Call(e.tag)));
    }
  }

  lemma {:induction false} RunLinked(st: P.Strategy, steps: seq<NetStep>)
    requires AllowedRun(st, steps)
    ensures var n := NetAt(st, steps); Linked(n.client.gen.used, Dones(n.client.msgs), n.called)
    decreases |steps|
  {
    hide Linked, TableStep, Apply, Serve, FreshStep, InFlight, Dones, PublishCalls;
    if steps == [] {
      NothingLinked();
    } else {
      var before, last := steps[..|steps| - 1], steps[|steps| - 1];
      var n := NetAt(st, before);
      AllowedBefore(st, steps);
      RunLinked(st, before);
      match last
      case Local(s) =>
        StepsTable(n.client, st, s);
        StepLinked(n.client, Apply(n.client, st, s), s, n.called);
      case Deliver =>
        if Delivers(n) {
          DeliverLinked(n, st);
        }
      case _ =>
    }
  }

  lemma NothingLinked()
    ensures Linked(map[], Dones([]), [])
  {
  }

  lemma DeliverLinked(n: Net, st: P.Strategy)
    requires Linked(n.client.gen.used, Dones(n.client.msgs), n.called) && n.peer.back != []
    ensures var c' := Apply(n.client, st, DoReceive(n.peer.back[0].packet));
      Linked(c'.gen.used, Dones(c'.msgs), n.called)
  {
    hide Linked, TableStep, Apply, Dones;
    var step := DoReceive(n.peer.back[0].packet);
    StepsTable(n.client, st, step);
    StepLinked(n.client, Apply(n.client, st, step), step, n.called);
    assert n.called + PublishCalls(n.client, step) == n.called;
  }

  lemma {:induction false} AckedHas(ds: seq<Msg>, d: Msg)
    requires d in ds && d.PubAcked?
    ensures d.tag in Acked(ds, d.qos)
  {
    if d != ds[|ds| - 1] {
      AckedHas(ds[..|ds| - 1], d);
    }
  }

  lemma OneCall(called: seq<Sent>, next: nat, s: Sent, t: Sent)
    requires CallsRise(called, next) && s in called && t in called && s.mark == t.mark
    ensures s == t
  {
    var i :| 0 <= i < |called| && called[i] == s;
    var j :| 0 <= j < |called| && called[j] == t;
  }

  /** The main result: every publish reported as acknowledged is one the user called for, with that
      topic and level, and is what that call asked for; the peer accepted exactly that message, exactly
      once; and with QoS 2 it also released exactly that message, exactly once. */
  lemma {:induction false} ReportedMeansDelivered(st: P.Strategy, steps: seq<NetStep>, d: Msg)
    requires AllowedRun(st, steps)
    requires d in Dones(NetAt(st, steps).client.msgs) && d.PubAcked?
    ensures var n := NetAt(st, steps);
      exists s ::
        && TellsOf(d, s) && s in n.called && Asking.AskedFor(s, steps)
        && s in n.peer.accepted && Once(n.peer.accepted, d.tag)
        && (d.qos == 2 ==> s in n.peer.released && Once(n.peer.released, d.tag))
  {
    hide NetAt, Dones, Once, AllowedRun, Acked, TokenSteps.OneEach, Accepting, Releasing, Reporting1, Reporting2,
      Asking.AskedFor, Asking.CalledFor, Asking.CallsOf;
    var n := NetAt(st, steps);
    var r := n.peer;
    RunLinked(st, steps);
    assert CallsRise(n.called, n.client.nextTag) by { RunSound(st, steps); }
    ExactlyOnceDelivery(st, steps, d.tag);
    StagesInOrder(st, steps);
    AckedHas(Dones(n.client.msgs), d);
    var s :| s in n.called && TellsOf(d, s);
    Asking.CalledAsAsked(st, steps);
    OnceIs(r.accepted, n.called, n.client.nextTag, s);
    if d.qos == 2 {
      OnceIs(r.released, n.called, n.client.nextTag, s);
    }
  }

  /** Only levels 1 and 2 are reported as acknowledged. */
  lemma ReportedLevel(st: P.Strategy, steps: seq<NetStep>, d: Msg)
    requires AllowedRun(st, steps)
    requires d in Dones(NetAt(st, steps).client.msgs) && d.PubAcked?
    ensures 1 <= d.qos <= 2
  {
    hide NetAt, Dones, AllowedRun;
    RunLinked(st, steps);
  }

  lemma OnceIs(ss: seq<Sent>, called: seq<Sent>, next: nat, s: Sent)
    requires CallsRise(called, next) && s in called && s.mark.Call? && Once(ss, s.mark.tag)
    requires forall t :: t in ss ==> t in called
    ensures s in ss
  {
    var i :| 0 <= i < |ss| && ss[i].mark == Call(s.mark.tag);
    OneCall(called, next, s, ss[i]);
  }
}
