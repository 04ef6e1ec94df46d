/** Whole runs of a client against a peer that sends anything, in any order. */
module ArbitraryPeer {
  import opened Bytes
  import opened Keys
  import opened Packets
  import opened Session
  import Encoder
  import IdGenerator
  import P = MemPersist

  // What a run does, read off its steps.

  /** The packet a call submits in a state, its id still missing. */
  function Calling(c: Client, step: Step): Option<Packet> {
    if c.stopped then None else Submitted(step)
  }

  predicate Allocates(c: Client, step: Step) {
    Calling(c, step).Some? && NeedsId(Calling(c, step).value)
  }

  /** The id a call's packet takes. */
  function TakenId(c: Client, p: Packet): u16 {
    Register(c.gen, p, c.nextTag).0
  }

  /** A step takes an id only when the allocator finds one that is positive and not in use. */
  predicate FreshStep(c: Client, step: Step) {
    Allocates(c, step) ==> IdGenerator.Fresh(c.gen, TakenId(c, Calling(c, step).value))
  }

  function At(st: P.Strategy, steps: seq<Step>): Client {
    Run(INIT, st, steps)
  }

  ghost predicate FreshRun(st: P.Strategy, steps: seq<Step>) {
    forall i {:trigger steps[i]} :: 0 <= i < |steps| ==> FreshStep(At(st, steps[..i]), steps[i])
  }

  /** The calls of a run that took an id, by number. */
  function Registered(st: P.Strategy, steps: seq<Step>): seq<nat>
    decreases |steps|
  {
    if steps == [] then []
    else
      var before, last := steps[..|steps| - 1], steps[|steps| - 1];
      Registered(st, before) + if Allocates(At(st, before), last) then [At(st, before).nextTag] else []
  }

  /** The packet received in a step is the acknowledgement that completes the request using its id. */
  predicate Matches(c: Client, step: Step) {
    && !c.stopped && step.DoReceive?
    && (step.p.SubAck? || step.p.UnsubAck? || step.p.PubAck? || step.p.PubComp?)
    && step.p.packetId in c.gen.used
    && Completes(c.gen.used[step.p.packetId].packet, step.p)
  }

  /** The report due in a step. */
  function Report(c: Client, step: Step): Msg
    requires Matches(c, step)
  {
    DoneMsg(c.gen.used[step.p.packetId], step.p)
  }

  /** One report per matching acknowledgement of a run, in order. */
  function Reports(st: P.Strategy, steps: seq<Step>): seq<Msg>
    decreases |steps|
  {
    if steps == [] then []
    else
      var before, last := steps[..|steps| - 1], steps[|steps| - 1];
      Reports(st, before) + if Matches(At(st, before), last) then [Report(At(st, before), last)] else []
  }

  // What the user was told.

  predicate IsDone(m: Msg) {
    m.PubAcked? || m.SubDone? || m.UnsubDone?
  }

  function Dones(ms: seq<Msg>): (ds: seq<Msg>)
    ensures forall i :: 0 <= i < |ds| ==> IsDone(ds[i])
  {
    if ms == [] then []
    else Dones(ms[..|ms| - 1]) + if IsDone(ms[|ms| - 1]) then [ms[|ms| - 1]] else []
  }

  lemma DonesLast(ms: seq<Msg>, m: Msg)
    ensures Dones(ms + [m]) == Dones(ms) + if IsDone(m) then [m] else []
  {
    assert (ms + [m])[..|ms|] == ms;
  }

  // The id table step by step.

  function NewEntry(c: Client, p: Packet): Entry {
    Entry(WithId(p, TakenId(c, p)), c.nextTag)
  }

  /** The table and the reports change in two ways only. */
  ghost predicate TableStep(c: Client, c': Client, step: Step) {
    && c.nextTag <= c'.nextTag
    && if Allocates(c, step) then
         var p := Calling(c, step).value;
         && c'.nextTag == c.nextTag + 1
         && Dones(c'.msgs) == Dones(c.msgs)
         && (IdGenerator.Fresh(c.gen, TakenId(c, p)) ==>
               c'.gen.used == c.gen.used[TakenId(c, p) := NewEntry(c, p)])
       else if Matches(c, step) then
         && c'.gen.used == c.gen.used - {step.p.packetId}
         && Dones(c'.msgs) == Dones(c.msgs) + [Report(c, step)]
       else
         c'.gen.used == c.gen.used && Dones(c'.msgs) == Dones(c.msgs)
  }

  lemma {:induction false} StepsTable(c: Client, st: P.Strategy, step: Step)
    ensures TableStep(c, Apply(c, st, step), step)
  {
    hide P.Store, P.Delete, IdGenerator.Next, IdGenerator.Fresh, Encoder.Encode, Dones, Granted;
    if !c.stopped {
      match step
      case DoReceive(p) => ReceiveTable(c, st, p);
      case DoSendUser => SendUserTable(c);
      case DoSendLogic => SendLogicTable(c, st);
      case DoPublish(p) => if p.Publish? { SubmitTable(c, st, Clamped(p)); }
      case DoSubscribe(topics) => SubmitTable(c, st, Subscribe(0, topics));
      case DoUnsubscribe(names) => SubmitTable(c, st, Unsub(0, names));
      case _ =>
    }
  }

  lemma RegisterTable(gen: Gen, p: Packet, tag: nat)
    ensures var (id, g) := Register(gen, p, tag);
      g.used == if id > 0 then gen.used[id := Entry(WithId(p, id), tag)] else gen.used
  {
    hide IdGenerator.InUse, IdGenerator.Plus, IdGenerator.Candidate;
    var (id, g) := IdGenerator.Next(gen, Entry(p, tag));
    if id > 0 {
      assert g.used == gen.used[id := Entry(p, tag)];
    }
  }

  lemma KeepTable(c: Client, st: P.Strategy, key: string, p: Packet)
    ensures Keep(c, st, key, p).gen == c.gen && Keep(c, st, key, p).nextTag == c.nextTag
    ensures Dones(Keep(c, st, key, p).msgs) == Dones(c.msgs)
  {
    hide P.Store, Dones;
    DonesLast(c.msgs, PersistFailed(p));
  }

  lemma SubmitTable(c: Client, st: P.Strategy, p: Packet)
    ensures var c' := Submit(c, st, p);
      && c'.nextTag == c.nextTag + 1 && Dones(c'.msgs) == Dones(c.msgs)
      && if NeedsId(p) then
           IdGenerator.Fresh(c.gen, TakenId(c, p)) ==> c'.gen.used == c.gen.used[TakenId(c, p) := NewEntry(c, p)]
         else c'.gen == c.gen
  {
    hide P.Store, Register, Keep, Dones;
    RegisterTable(c.gen, p, c.nextTag);
    var (id, gen) := if NeedsId(p) then Register(c.gen, p, c.nextTag) else (0, c.gen);
    var p' := if NeedsId(p) then WithId(p, id) else p;
    KeepTable(Handed(c, gen, p'), st, SendKey(id), p');
  }

  lemma SendUserTable(c: Client)
    ensures SendUser(c).gen == c.gen && SendUser(c).nextTag == c.nextTag
    ensures Dones(SendUser(c).msgs) == Dones(c.msgs)
  {
    hide Dones, Encoder.Encode;
    if c.sendCh != [] && c.sendCh[0].mark.Call? && c.sendCh[0].packet.Publish? {
      DonesLast(c.msgs, PubWritten(c.sendCh[0].mark.tag, c.sendCh[0].packet.topicName));
    }
  }

  lemma SendLogicTable(c: Client, st: P.Strategy)
    ensures SendLogic(c, st).gen == c.gen && SendLogic(c, st).nextTag == c.nextTag
    ensures Dones(SendLogic(c, st).msgs) == Dones(c.msgs)
  {
    hide P.Store, P.Delete, Keep, Dones, Encoder.Encode;
    if c.logicCh != [] {
      var s := c.logicCh[0];
      if s.packet.PubRel? {
        KeepTable(c.(logicCh := c.logicCh[1..], out := c.out + [s]), st, SendKey(s.packet.packetId), s.packet);
      }
    }
  }

  lemma ReceiveTable(c: Client, st: P.Strategy, p: Packet)
    requires !c.stopped
    ensures TableStep(c, Receive(c, st, p), DoReceive(p))
  {
    hide P.Store, P.Delete, Keep, Dones, Granted;
    match p
    case SubAck(id, _) => if Matches(c, DoReceive(p)) { DonesLast(c.msgs, Report(c, DoReceive(p))); }
    case UnsubAck(id) => if Matches(c, DoReceive(p)) { DonesLast(c.msgs, Report(c, DoReceive(p))); }
    case PubAck(id) => if Matches(c, DoReceive(p)) { DonesLast(c.msgs, Report(c, DoReceive(p))); }
    case PubComp(id) => if Matches(c, DoReceive(p)) { DonesLast(c.msgs, Report(c, DoReceive(p))); }
    case Publish(_, qos, _, _, id, _) =>
      var c' := c.(recvCh := c.recvCh + [p]);
      KeepTable(Queue(c', PubAck(id), Other), st, RecvKey(id), p);
      KeepTable(Queue(c', PubRecv(id), Other), st, RecvKey(id), p);
    case PubRel(id) => KeepTable(Queue(c, PubComp(id), Other), st, RecvKey(id), p);
    case _ =>
  }

  // The ledger of requests.

  ghost predicate InTable(c: Client, tag: nat) {
    exists id: u16 :: id in c.gen.used && c.gen.used[id].tag == tag
  }

  ghost predicate Told(c: Client, tag: nat) {
    exists m :: m in Dones(c.msgs) && m.tag == tag
  }

  predicate TagsDiffer(ms: seq<Msg>)
  {
    forall i, j :: 0 <= i < j < |ms| && IsDone(ms[i]) && IsDone(ms[j]) ==> ms[i].tag != ms[j].tag
  }

  predicate TableTagsDiffer(used: map<u16, Entry>) {
    forall i, j :: i in used && j in used && used[i].tag == used[j].tag ==> i == j
  }

  /** Every entry is a request that carries its id and still waits for an acknowledgement. */
  predicate Waits(id: u16, e: Entry) {
    (e.packet.Subscribe? || e.packet.Unsub? || (e.packet.Publish? && 1 <= e.packet.qos <= 2)) && e.packet.packetId == id
  }

  ghost predicate Ledger(c: Client, registered: seq<nat>) {
    && TagsDiffer(Dones(c.msgs)) && TableTagsDiffer(c.gen.used)
    && |c.gen.used| + |Dones(c.msgs)| == |registered|
    && (forall t: nat :: t in registered <==> InTable(c, t) || Told(c, t))
    && (forall t: nat :: !(InTable(c, t) && Told(c, t)))
    && (forall t :: t in registered ==> t < c.nextTag)
    && (forall id :: id in c.gen.used ==> Waits(id, c.gen.used[id]))
  }

  lemma {:induction false} RunLedger(st: P.Strategy, steps: seq<Step>)
    requires FreshRun(st, steps)
    ensures Ledger(At(st, steps), Registered(st, steps))
    ensures Dones(At(st, steps).msgs) == Reports(st, steps)
    decreases |steps|
  {
    hide Apply, FreshStep, Ledger, Dones, Matches, Allocates, Report;
    if steps == [] {
      EmptyLedger();
    } else {
      var before, last := steps[..|steps| - 1], steps[|steps| - 1];
      FreshBefore(st, steps);
      RunLedger(st, before);
      StepLedger(At(st, before), st, last, Registered(st, before));
    }
  }

  lemma EmptyLedger()
    ensures Ledger(INIT, []) && Dones(INIT.msgs) == []
  {
  }

  lemma FreshBefore(st: P.Strategy, steps: seq<Step>)
    requires steps != [] && FreshRun(st, steps)
    ensures FreshRun(st, steps[..|steps| - 1])
    ensures FreshStep(At(st, steps[..|steps| - 1]), steps[|steps| - 1])
  {
    hide At, FreshStep;
    var before := steps[..|steps| - 1];
    forall i | 0 <= i < |before| ensures FreshStep(At(st, before[..i]), before[i]) {
      assert before[..i] == steps[..i] && before[i] == steps[i];
    }
  }

  lemma StepLedger(c: Client, st: P.Strategy, step: Step, registered: seq<nat>)
    requires Ledger(c, registered) && FreshStep(c, step)
    ensures Ledger(Apply(c, st, step), registered + if Allocates(c, step) then [c.nextTag] else [])
    ensures Dones(Apply(c, st, step).msgs) == Dones(c.msgs) + if Matches(c, step) then [Report(c, step)] else []
  {
    hide Apply, Ledger, Dones, Granted, IdGenerator.Fresh, Report, NewEntry, TakenId;
    var c' := Apply(c, st, step);
    StepsTable(c, st, step);
    if Allocates(c, step) {
      assert registered + [c.nextTag] == registered + if Allocates(c, step) then [c.nextTag] else [];
      TakenLedger(c, c', step, registered);
    } else if Matches(c, step) {
      ReportLedger(c, c', step, registered);
      assert registered + [] == registered;
    } else {
      assert registered + [] == registered;
      SameLedger(c, c', registered);
    }
  }

  lemma SameLedger(c: Client, c': Client, registered: seq<nat>)
    requires Ledger(c, registered)
    requires c'.gen.used == c.gen.used && Dones(c'.msgs) == Dones(c.msgs) && c.nextTag <= c'.nextTag
    ensures Ledger(c', registered)
  {
    hide Dones, Waits;
    assert forall t :: InTable(c', t) == InTable(c, t) && Told(c', t) == Told(c, t);
  }

  lemma TakenLedger(c: Client, c': Client, step: Step, registered: seq<nat>)
    requires Ledger(c, registered) && FreshStep(c, step) && Allocates(c, step)
    requires TableStep(c, c', step)
    ensures Ledger(c', registered + [c.nextTag])
  {
    hide Dones, Waits, WithId, NeedsId;
    var p := Calling(c, step).value;
    var id := TakenId(c, p);
    assert Waits(id, NewEntry(c, p)) by { NewEntryWaits(c, step); }
    assert |c'.gen.used| == |c.gen.used| + 1;
    forall t: nat ensures InTable(c', t) <==> InTable(c, t) || t == c.nextTag {
      if InTable(c, t) {
        var i :| i in c.gen.used && c.gen.used[i].tag == t;
        assert i in c'.gen.used && c'.gen.used[i].tag == t;
      }
      assert c'.gen.used[id].tag == c.nextTag;
    }
    assert forall t :: Told(c', t) == Told(c, t);
    forall i, j | i in c'.gen.used && j in c'.gen.used && c'.gen.used[i].tag == c'.gen.used[j].tag ensures i == j {
      assert i != id ==> InTable(c, c'.gen.used[i].tag);
      assert j != id ==> InTable(c, c'.gen.used[j].tag);
    }
  }

  lemma NewEntryWaits(c: Client, step: Step)
    requires Allocates(c, step)
    ensures Waits(TakenId(c, Calling(c, step).value), NewEntry(c, Calling(c, step).value))
  {
    hide TakenId;
  }

  lemma ReportLedger(c: Client, c': Client, step: Step, registered: seq<nat>)
    requires Ledger(c, registered) && Matches(c, step) && !Allocates(c, step)
    requires TableStep(c, c', step)
    ensures Ledger(c', registered)
  {
    hide Dones, Waits, Granted, Completes, Allocates;
    var id := step.p.packetId;
    var m := Report(c, step);
    var tag := c.gen.used[id].tag;
    assert m.tag == tag && IsDone(m) by { ReportTag(c, step); }
    assert InTable(c, tag);
    RemoveSize(c.gen.used, id);
    forall t: nat
      ensures InTable(c', t) <==> InTable(c, t) && t != tag
      ensures Told(c', t) <==> Told(c, t) || t == tag
    {
      if InTable(c, t) && t != tag {
        var i :| i in c.gen.used && c.gen.used[i].tag == t;
        assert i in c'.gen.used && c'.gen.used[i].tag == t;
      }
      assert m in Dones(c'.msgs);
      if Told(c, t) {
        var d :| d in Dones(c.msgs) && d.tag == t;
        assert d in Dones(c'.msgs);
      }
    }
    assert TagsDiffer(Dones(c'.msgs)) by {
      forall i | 0 <= i < |Dones(c.msgs)| ensures Dones(c.msgs)[i].tag != tag {
        assert Dones(c.msgs)[i] in Dones(c.msgs);
        assert Told(c, Dones(c.msgs)[i].tag);
      }
    }
  }

  lemma ReportTag(c: Client, step: Step)
    requires Matches(c, step)
    ensures IsDone(Report(c, step)) && Report(c, step).tag == c.gen.used[step.p.packetId].tag
  {
    hide Granted;
  }

  lemma RemoveSize<K, V>(m: map<K, V>, k: K)
    requires k in m
    ensures |m - {k}| == |m| - 1
  {
    assert m == (m - {k})[k := m[k]];
  }

  /** Every registered request is either waiting under exactly one id or reported exactly once, never
      both; requests in use and reports add up to requests registered; and the reports are exactly
      those of the matching acknowledgements received, in order. */
  lemma {:induction false} Conservation(st: P.Strategy, steps: seq<Step>)
    requires FreshRun(st, steps)
    ensures var c := At(st, steps);
      && |c.gen.used| == |Registered(st, steps)| - |Dones(c.msgs)|
      && Dones(c.msgs) == Reports(st, steps)
      && (forall i, j :: 0 <= i < j < |Dones(c.msgs)| ==> Dones(c.msgs)[i].tag != Dones(c.msgs)[j].tag)
      && (forall i, j :: i in c.gen.used && j in c.gen.used && c.gen.used[i].tag == c.gen.used[j].tag ==> i == j)
      && (forall t :: t in Registered(st, steps) <==> InTable(c, t) || Told(c, t))
      && (forall t :: !(InTable(c, t) && Told(c, t)))
  {
    hide At, Registered, Reports, Dones, Waits, FreshRun;
    RunLedger(st, steps);
  }
}
