/** Identifiers handed out again: the guarantees of the exchanges hold across the restart of the
    counter as long as nothing in use or queued carries an identifier of long ago. */
module RecentRequests {
  import opened ArbitraryPeer
  import opened Bytes
  import opened Exchange
  import opened ExactlyOnce
  import opened FirstRequests
  import opened Packets
  import opened Session
  import Asking
  import Delivery
  import IdGenerator
  import Line
  import P = MemPersist

  predicate Numbers(n: Net, step: NetStep) {
    step.Local? && Allocates(n.client, step.step)
  }

  /** How many requests took an identifier in a run. */
  function Issued(st: P.Strategy, steps: seq<NetStep>): nat
    decreases |steps|
  {
    if steps == [] then 0
    else
      var before := steps[..|steps| - 1];
      Issued(st, before) + if Numbers(NetAt(st, before), steps[|steps| - 1]) then 1 else 0
  }

  /** The identifier is that of one of the last 65534 requests. */
  ghost predicate LatelyIssued(id: u16, issued: nat) {
    exists j: nat {:trigger IdGenerator.Cyclic(j)} :: j < issued <= j + 65534 && id == IdGenerator.Cyclic(j)
  }

  /** Every identifier in use or carried by a queued packet of an exchange is a recent one. */
  ghost predicate RecentIds(n: Net, issued: nat) {
    forall id: u16 :: id in n.client.gen.used || !Absent(InFlight(n), id) ==> LatelyIssued(id, issued)
  }

  ghost predicate RecentRun(st: P.Strategy, steps: seq<NetStep>) {
    forall i {:trigger steps[i]} :: 0 <= i < |steps| && Numbers(NetAt(st, steps[..i]), steps[i]) ==>
      RecentIds(NetAt(st, steps[..i]), Issued(st, steps[..i]))
  }

  /** The counter stands where this many allocations in a row leave it. */
  predicate InCycle(gen: Gen, issued: nat) {
    gen.nextID == if issued == 0 then 0 else IdGenerator.Cyclic(issued - 1)
  }

  lemma NextInCycle(gen: Gen, e: Entry, issued: nat)
    requires InCycle(gen, issued) && IdGenerator.Cyclic(issued) !in gen.used
    ensures var (id, g) := IdGenerator.Next(gen, e);
      id == IdGenerator.Cyclic(issued) && IdGenerator.Fresh(gen, id) && InCycle(g, issued + 1)
  {
    hide IdGenerator.InUse, IdGenerator.Candidate, IdGenerator.Next;
    var log := IdGenerator.Log(gen, seq(issued, j requires 0 <= j < issued => IdGenerator.Cyclic(j)));
    IdGenerator.NextInStep(log);
    IdGenerator.NextTakes(gen, e);
    IdGenerator.CyclicPositive(issued);
  }

  lemma NotLately(id: u16, issued: nat)
    requires id == IdGenerator.Cyclic(issued)
    ensures !LatelyIssued(id, issued)
  {
    hide IdGenerator.Cyclic;
    forall j: nat | j < issued <= j + 65534 ensures IdGenerator.Cyclic(j) != id {
      IdGenerator.CyclicDistinct(j, issued);
    }
  }

  lemma TakenInCycle(n: Net, p: Packet, issued: nat)
    requires InCycle(n.client.gen, issued) && RecentIds(n, issued)
    ensures TakenId(n.client, p) == IdGenerator.Cyclic(issued)
    ensures IdGenerator.Fresh(n.client.gen, TakenId(n.client, p)) && Absent(InFlight(n), TakenId(n.client, p))
    ensures InCycle(Register(n.client.gen, p, n.client.nextTag).1, issued + 1)
  {
    hide InFlight, Absent, LatelyIssued, IdGenerator.Next, IdGenerator.Cyclic, IdGenerator.Fresh;
    var id := IdGenerator.Cyclic(issued);
    NotLately(id, issued);
    assert id !in n.client.gen.used && Absent(InFlight(n), id);
    NextInCycle(n.client.gen, Entry(p, n.client.nextTag), issued);
  }

  /** Steps that register nothing leave the counter where it is. */
  lemma CounterStays(c: Client, st: P.Strategy, s: Step)
    requires !Allocates(c, s)
    ensures Apply(c, st, s).gen.nextID == c.gen.nextID
  {
    hide Receive, Submit, SendUser, SendLogic, Register;
    match s
    case DoReceive(p) => ReceiveGen(c, st, p);
    case DoSendUser => SendUserTable(c);
    case DoSendLogic => SendLogicTable(c, st);
    case _ =>
      match Submitted(s) {
        case Some(p) => SubmitGen(c, st, p);
        case None =>
      }
  }

  lemma StepInCycle(n: Net, st: P.Strategy, step: NetStep, issued: nat)
    requires InCycle(n.client.gen, issued) && Orderly(step) && (Numbers(n, step) ==> RecentIds(n, issued))
    ensures Allowed(n, step)
    ensures InCycle(Advance(n, st, step).client.gen, issued + if Numbers(n, step) then 1 else 0)
  {
    hide RecentIds, InFlight, TakenId, IdGenerator.Fresh, IdGenerator.Cyclic, Register, Submit, Serve;
    var c := n.client;
    match step
    case Local(s) =>
      if Allocates(c, s) {
        var p := Calling(c, s).value;
        TakenInCycle(n, p, issued);
        SubmitGen(c, st, p);
        assert Apply(c, st, s) == Submit(c, st, p);
      } else {
        CounterStays(c, st, s);
      }
    case Deliver =>
      if Delivers(n) {
        CounterStays(c, st, DoReceive(n.peer.back[0].packet));
      }
    case _ =>
  }

  lemma {:induction false} RunInCycle(st: P.Strategy, steps: seq<NetStep>)
    requires (forall s :: s in steps ==> Orderly(s)) && RecentRun(st, steps)
    ensures AllowedRun(st, steps) && InCycle(NetAt(st, steps).client.gen, Issued(st, steps))
    decreases |steps|
  {
    hide Advance, Allowed, Orderly, Numbers, InCycle, RecentIds;
    if steps == [] {
      assert InCycle(START.client.gen, 0) by { StartInCycle(); }
    } else {
      var before, last := steps[..|steps| - 1], steps[|steps| - 1];
      RecentBefore(st, steps);
      RunInCycle(st, before);
      assert Orderly(last);
      StepInCycle(NetAt(st, before), st, last, Issued(st, before));
      AllowedOneMore(st, steps);
    }
  }

  lemma StartInCycle()
    ensures InCycle(START.client.gen, 0)
  {
  }

  lemma RecentBefore(st: P.Strategy, steps: seq<NetStep>)
    requires steps != [] && RecentRun(st, steps)
    ensures var before, last := steps[..|steps| - 1], steps[|steps| - 1];
      RecentRun(st, before) && (Numbers(NetAt(st, before), last) ==> RecentIds(NetAt(st, before), Issued(st, before)))
  {
    hide NetAt, Issued, Numbers, RecentIds;
    var before := steps[..|steps| - 1];
    forall i | 0 <= i < |before| && Numbers(NetAt(st, before[..i]), before[i])
      ensures RecentIds(NetAt(st, before[..i]), Issued(st, before[..i]))
    {
      assert before[..i] == steps[..i] && before[i] == steps[i];
    }
  }

  /** Runs of any length: as long as every identifier in use or queued was issued within the last
      65534 requests, every publish reported as acknowledged was accepted exactly once, and with
      QoS 2 released exactly once. */
  lemma {:induction false} RecentRequestsDelivered(st: P.Strategy, steps: seq<NetStep>, d: Msg)
    requires (forall s :: s in steps ==> Orderly(s)) && RecentRun(st, steps)
    requires d in Dones(Line.LineAt(st, steps).net.client.msgs) && d.PubAcked?
    ensures var n := Line.LineAt(st, steps).net;
      exists s ::
        && Delivery.TellsOf(d, s) && s in n.called && Asking.AskedFor(s, steps)
        && s in n.peer.accepted && Once(n.peer.accepted, d.tag)
        && (d.qos == 2 ==> s in n.peer.released && Once(n.peer.released, d.tag))
  {
    hide Line.LineAt, Orderly, Once, Dones, AllowedRun, RecentRun, Delivery.TellsOf, Asking.AskedFor;
    RunInCycle(st, steps);
    Line.DeliveredOnBytes(st, steps, d);
  }
}
