/** The session store against the id table: what is in flight is stored, as long as nothing is dropped. */
module PersistAgreement {
  import opened ArbitraryPeer
  import opened Bytes
  import opened Keys
  import opened Packets
  import opened Session
  import Encoder
  import IdGenerator
  import Ordering
  import P = MemPersist

  function StoredKeys(c: Client): set<string> {
    c.store.data.Keys
  }

  /** The publish waiting under an id. */
  predicate InFlight(c: Client, id: u16) {
    id in c.gen.used && c.gen.used[id].packet.Publish?
  }

  /** Peers that send no messages of QoS 1 or 2, nor releases of such messages. */
  predicate Quiet(step: Step) {
    step.DoReceive? ==> !step.p.PubRel? && !(step.p.Publish? && (step.p.qos == 1 || step.p.qos == 2))
  }

  /** No call publishes with QoS 2. */
  predicate WithoutQos2(step: Step) {
    step.DoPublish? && step.p.Publish? ==> step.p.qos < 2
  }

  predicate NoDeletions(ss: seq<Sent>) {
    forall i :: 0 <= i < |ss| ==> !ss[i].packet.PubAck? && !ss[i].packet.PubComp?
  }

  predicate NoReleases(ss: seq<Sent>) {
    forall i :: 0 <= i < |ss| ==> !ss[i].packet.PubRel?
  }

  predicate NoQos2(c: Client) {
    forall id: u16 :: !AwaitsRel(c, id)
  }

  lemma StoreKeeps(m: P.Mem, st: P.Strategy, key: string, p: Packet)
    requires !P.Limits(st)
    ensures P.Store(m, st, key, p).0
    ensures P.Store(m, st, key, p).1.data.Keys == m.data.Keys + {key}
  {
  }

  lemma KeepKeys(c: Client, st: P.Strategy, key: string, p: Packet)
    requires !P.Limits(st)
    ensures Keep(c, st, key, p) == c.(store := Keep(c, st, key, p).store)
    ensures StoredKeys(Keep(c, st, key, p)) == StoredKeys(c) + {key}
  {
    hide P.Store, P.Limits;
    StoreKeeps(c.store, st, key, p);
  }

  /** The sending loop writes a PUBREL. */
  predicate SendsRel(c: Client, step: Step) {
    !c.stopped && c.sending && step.DoSendLogic? && c.logicCh != [] && c.logicCh[0].packet.PubRel?
  }

  function RelKey(c: Client, step: Step): set<string> {
    if SendsRel(c, step) then {SendKey(c.logicCh[0].packet.packetId)} else {}
  }

  /** How one step changes the table and the stored keys, while no deletion is queued. */
  ghost predicate StoreStep(c: Client, c': Client, step: Step) {
    if Allocates(c, step) then
      var p := Calling(c, step).value;
      var id := TakenId(c, p);
      && c'.gen.used == (if id > 0 then c.gen.used[id := NewEntry(c, p)] else c.gen.used)
      && StoredKeys(c') == StoredKeys(c) + (if p.Publish? then {SendKey(id)} else {})
      && c'.logicCh == c.logicCh
    else if Matches(c, step) then
      && c'.gen.used == c.gen.used - {step.p.packetId}
      && StoredKeys(c') == StoredKeys(c) - {SendKey(step.p.packetId)}
      && (NoReleases(c.logicCh) && NoQos2(c) ==> NoReleases(c'.logicCh))
    else
      && c'.gen.used == c.gen.used
      && StoredKeys(c') == StoredKeys(c) + RelKey(c, step)
      && (NoReleases(c.logicCh) && NoQos2(c) ==> NoReleases(c'.logicCh))
  }

  lemma StepStores(c: Client, st: P.Strategy, step: Step)
    requires !P.Limits(st) && Quiet(step) && NoDeletions(c.logicCh)
    ensures StoreStep(c, Apply(c, st, step), step) && NoDeletions(Apply(c, st, step).logicCh)
  {
    hide Receive, Submit, SendUser, SendLogic, SendKey, TakenId, NewEntry, P.Limits, NoQos2;
    if !c.stopped {
      match step
      case DoReceive(p) => ReceiveStores(c, st, p);
      case DoSendUser => SendUserStores(c);
      case DoSendLogic => if c.sending { SendLogicStores(c, st); }
      case DoPublish(p) => if p.Publish? { SubmitStores(c, st, Clamped(p)); }
      case DoSubscribe(topics) => SubmitStores(c, st, Subscribe(0, topics));
      case DoUnsubscribe(names) => SubmitStores(c, st, Unsub(0, names));
      case _ =>
    }
  }

  lemma SubmitStores(c: Client, st: P.Strategy, p: Packet)
    requires !P.Limits(st)
    ensures var c' := Submit(c, st, p);
      && c'.logicCh == c.logicCh
      && if NeedsId(p) then
           var id := TakenId(c, p);
           && c'.gen.used == (if id > 0 then c.gen.used[id := NewEntry(c, p)] else c.gen.used)
           && StoredKeys(c') == StoredKeys(c) + (if p.Publish? then {SendKey(id)} else {})
         else
           c'.gen == c.gen && StoredKeys(c') == StoredKeys(c)
  {
    hide Register, Keep, SendKey, P.Limits;
    RegisterTable(c.gen, p, c.nextTag);
    var (id, gen) := if NeedsId(p) then Register(c.gen, p, c.nextTag) else (0, c.gen);
    var p' := if NeedsId(p) then WithId(p, id) else p;
    KeepKeys(Handed(c, gen, p'), st, SendKey(id), p');
  }

  lemma SendUserStores(c: Client)
    ensures var c' := SendUser(c); c'.gen == c.gen && c'.store == c.store && c'.logicCh == c.logicCh
  {
    hide Encoder.Encode;
  }

  lemma SendLogicStores(c: Client, st: P.Strategy)
    requires !P.Limits(st) && NoDeletions(c.logicCh) && !c.stopped && c.sending
    ensures var c' := SendLogic(c, st);
      && c'.gen == c.gen && NoDeletions(c'.logicCh)
      && StoredKeys(c') == StoredKeys(c) + RelKey(c, DoSendLogic)
      && (NoReleases(c.logicCh) ==> NoReleases(c'.logicCh))
  {
    hide Keep, SendKey, Encoder.Encode, P.Limits;
    if c.logicCh != [] {
      var s := c.logicCh[0];
      if s.packet.PubRel? {
        Ordering.RelEncodes(s);
        KeepKeys(c.(logicCh := c.logicCh[1..], out := c.out + [s]), st, SendKey(s.packet.packetId), s.packet);
      }
    }
  }

  lemma ReceiveStores(c: Client, st: P.Strategy, p: Packet)
    requires !P.Limits(st) && Quiet(DoReceive(p)) && NoDeletions(c.logicCh) && !c.stopped
    ensures StoreStep(c, Receive(c, st, p), DoReceive(p)) && NoDeletions(Receive(c, st, p).logicCh)
  {
    hide Keep, SendKey, DoneMsg, P.Limits;
    if p.PubRecv? || p.PubComp? {
      assert NoQos2(c) ==> !AwaitsRel(c, p.packetId);
    }
  }

  // Every publish in flight is stored.

  predicate AllStored(c: Client) {
    NoDeletions(c.logicCh) && forall id: u16 :: InFlight(c, id) ==> SendKey(id) in StoredKeys(c)
  }

  lemma StepAllStored(c: Client, st: P.Strategy, step: Step)
    requires !P.Limits(st) && Quiet(step) && AllStored(c)
    ensures AllStored(Apply(c, st, step))
  {
    hide Apply, TakenId, SendKey, NoDeletions, P.Limits;
    var c' := Apply(c, st, step);
    StepStores(c, st, step);
    forall id: u16 | InFlight(c', id) ensures SendKey(id) in StoredKeys(c') {
      if Matches(c, step) {
        KeysDistinct(id, step.p.packetId);
      }
      if Allocates(c, step) && id == TakenId(c, Calling(c, step).value) {
        assert NewEntry(c, Calling(c, step).value).packet.Publish? ==> Calling(c, step).value.Publish?;
      }
      assert InFlight(c, id) ==> SendKey(id) in StoredKeys(c);
    }
  }

  /** With a store that never drops and a peer sending no QoS 1 or 2 messages, every registered
      publish that was not reported yet can be found in the store, in every reachable state. */
  lemma {:induction false} InFlightStored(st: P.Strategy, steps: seq<Step>)
    requires !P.Limits(st) && forall s :: s in steps ==> Quiet(s)
    ensures forall id: u16 :: InFlight(At(st, steps), id) ==> SendKey(id) in StoredKeys(At(st, steps))
    ensures AllStored(At(st, steps))
    decreases |steps|
  {
    hide Apply, SendKey, P.Limits, Quiet;
    if steps != [] {
      InFlightStored(st, steps[..|steps| - 1]);
      StepAllStored(At(st, steps[..|steps| - 1]), st, steps[|steps| - 1]);
    }
  }

  // With QoS 1 publishes only, nothing else is stored.

  function InFlightKeys(c: Client): set<string> {
    set id | id in c.gen.used && c.gen.used[id].packet.Publish? :: SendKey(id)
  }

  predicate Agree(c: Client) {
    && NoDeletions(c.logicCh) && NoReleases(c.logicCh) && NoQos2(c)
    && StoredKeys(c) == InFlightKeys(c)
  }

  lemma StepAgree(c: Client, st: P.Strategy, step: Step)
    requires !P.Limits(st) && Quiet(step) && WithoutQos2(step) && FreshStep(c, step) && Agree(c)
    ensures Agree(Apply(c, st, step))
  {
    hide Apply, TakenId, SendKey, Allocates, NoDeletions, NoReleases, P.Limits, StoreStep;
    var c' := Apply(c, st, step);
    StepStores(c, st, step);
    if Allocates(c, step) {
      TakenAgree(c, c', step);
    } else if Matches(c, step) {
      MatchAgree(c, c', step);
    } else {
      assert c'.gen.used == c.gen.used by { UnchangedTable(c, c', step); }
      assert forall id: u16 :: AwaitsRel(c', id) == AwaitsRel(c, id);
      assert NoReleases(c'.logicCh) && StoredKeys(c') == StoredKeys(c) by { UnchangedTable(c, c', step); }
    }
  }

  lemma UnchangedTable(c: Client, c': Client, step: Step)
    requires StoreStep(c, c', step) && !Allocates(c, step) && !Matches(c, step)
    requires NoReleases(c.logicCh) && NoQos2(c)
    ensures c'.gen.used == c.gen.used && NoReleases(c'.logicCh) && StoredKeys(c') == StoredKeys(c)
  {
    hide Allocates, Matches, NoQos2, SendKey;
    assert StoredKeys(c) + {} == StoredKeys(c);
  }

  lemma TakenAgree(c: Client, c': Client, step: Step)
    requires WithoutQos2(step) && FreshStep(c, step) && Agree(c)
    requires Allocates(c, step) && StoreStep(c, c', step) && NoDeletions(c'.logicCh)
    ensures Agree(c')
  {
    hide TakenId, SendKey, NoDeletions, NoReleases;
    var p := Calling(c, step).value;
    var id := TakenId(c, p);
    assert NewEntry(c, p).packet.Publish? <==> p.Publish?;
    forall i: u16 ensures !AwaitsRel(c', i) {
      assert !AwaitsRel(c, i);
    }
    forall key ensures key in StoredKeys(c') <==> key in InFlightKeys(c') {
      if key in InFlightKeys(c) {
        var i :| i in c.gen.used && c.gen.used[i].packet.Publish? && key == SendKey(i);
        assert i in c'.gen.used && c'.gen.used[i].packet.Publish?;
      }
      if p.Publish? && key == SendKey(id) {
        assert id in c'.gen.used && c'.gen.used[id].packet.Publish?;
      }
    }
  }

  lemma MatchAgree(c: Client, c': Client, step: Step)
    requires Agree(c) && !Allocates(c, step) && Matches(c, step) && StoreStep(c, c', step) && NoDeletions(c'.logicCh)
    ensures Agree(c')
  {
    hide SendKey, NoDeletions, NoReleases, Allocates, Completes;
    var id := step.p.packetId;
    forall i: u16 ensures !AwaitsRel(c', i) {
      assert !AwaitsRel(c, i);
    }
    forall key ensures key in StoredKeys(c') <==> key in InFlightKeys(c') {
      if key in InFlightKeys(c) && key != SendKey(id) {
        var i :| i in c.gen.used && c.gen.used[i].packet.Publish? && key == SendKey(i);
        assert i in c'.gen.used && c'.gen.used[i].packet.Publish?;
      }
      if key in InFlightKeys(c') {
        var i :| i in c'.gen.used && c'.gen.used[i].packet.Publish? && key == SendKey(i);
        KeysDistinct(i, id);
        assert i in c.gen.used && c.gen.used[i].packet.Publish?;
      }
    }
  }

  /** In runs that publish with QoS 0 and 1 only, the stored keys are exactly those of the
      publishes in flight. */
  lemma {:induction false} StoredExactly(st: P.Strategy, steps: seq<Step>)
    requires !P.Limits(st) && FreshRun(st, steps)
    requires forall s :: s in steps ==> Quiet(s) && WithoutQos2(s)
    ensures StoredKeys(At(st, steps)) == InFlightKeys(At(st, steps))
    ensures Agree(At(st, steps))
    decreases |steps|
  {
    hide Apply, SendKey, P.Limits, Quiet, WithoutQos2, FreshStep;
    if steps != [] {
      FreshBefore(st, steps);
      StoredExactly(st, steps[..|steps| - 1]);
      StepAgree(At(st, steps[..|steps| - 1]), st, steps[|steps| - 1]);
    }
  }

  // With any mix of levels, keys of completed QoS 2 publishes are left behind.

  /** The identifiers under which a PUBREL was sent since a request was last completed under them. */
  function LeftBehind(st: P.Strategy, steps: seq<Step>): set<u16>
    decreases |steps|
  {
    if steps == [] then {}
    else
      var before, last := steps[..|steps| - 1], steps[|steps| - 1];
      var c := At(st, before);
      if Matches(c, last) then LeftBehind(st, before) - {last.p.packetId}
      else if SendsRel(c, last) then LeftBehind(st, before) + {c.logicCh[0].packet.packetId}
      else LeftBehind(st, before)
  }

  function KeysOf(ids: set<u16>): set<string> {
    set id | id in ids :: SendKey(id)
  }

  function FlightIds(c: Client): set<u16> {
    set id | id in c.gen.used && InFlight(c, id)
  }

  predicate Accounts(c: Client, left: set<u16>) {
    NoDeletions(c.logicCh) && StoredKeys(c) == KeysOf(FlightIds(c) + left)
  }

  lemma KeysOfIn(ids: set<u16>, id: u16)
    ensures SendKey(id) in KeysOf(ids) <==> id in ids
  {
    hide SendKey;
    if SendKey(id) in KeysOf(ids) {
      var i :| i in ids && SendKey(i) == SendKey(id);
      KeysDistinct(i, id);
    }
  }

  lemma KeysOfPlus(ids: set<u16>, id: u16)
    ensures KeysOf(ids + {id}) == KeysOf(ids) + {SendKey(id)}
  {
    hide SendKey;
    assert id in ids + {id};
    forall key | key in KeysOf(ids) ensures key in KeysOf(ids + {id}) {
      var i :| i in ids && SendKey(i) == key;
      assert i in ids + {id};
    }
  }

  lemma KeysOfMinus(ids: set<u16>, id: u16)
    ensures KeysOf(ids - {id}) == KeysOf(ids) - {SendKey(id)}
  {
    hide SendKey;
    forall key ensures key in KeysOf(ids - {id}) <==> key in KeysOf(ids) && key != SendKey(id) {
      if key in KeysOf(ids - {id}) {
        var i :| i in ids - {id} && SendKey(i) == key;
        KeysDistinct(i, id);
      }
      if key in KeysOf(ids) && key != SendKey(id) {
        var i :| i in ids && SendKey(i) == key;
        assert i in ids - {id};
      }
    }
  }

  lemma StepAccounts(c: Client, st: P.Strategy, step: Step, left: set<u16>)
    requires !P.Limits(st) && Quiet(step) && FreshStep(c, step) && Accounts(c, left)
    ensures Accounts(Apply(c, st, step),
                     if Matches(c, step) then left - {step.p.packetId}
                     else if SendsRel(c, step) then left + {c.logicCh[0].packet.packetId}
                     else left)
  {
    hide Apply, TakenId, SendKey, NoDeletions, P.Limits, KeysOf, FlightIds;
    hide Quiet, Matches, SendsRel, Allocates, StoreStep;
    var c' := Apply(c, st, step);
    StepStores(c, st, step);
    if Allocates(c, step) {
      TakenAccounts(c, c', step, left);
    } else if Matches(c, step) {
      MatchAccounts(c, c', step, left);
    } else {
      OtherAccounts(c, c', step, left);
    }
  }

  lemma TakenAccounts(c: Client, c': Client, step: Step, left: set<u16>)
    requires FreshStep(c, step) && Allocates(c, step) && StoreStep(c, c', step)
    requires StoredKeys(c) == KeysOf(FlightIds(c) + left)
    ensures StoredKeys(c') == KeysOf(FlightIds(c') + left)
    ensures !Matches(c, step) && !SendsRel(c, step)
  {
    hide TakenId, SendKey, KeysOf;
    var p := Calling(c, step).value;
    var id := TakenId(c, p);
    assert NewEntry(c, p).packet.Publish? <==> p.Publish?;
    if p.Publish? {
      assert FlightIds(c') == FlightIds(c) + {id};
      assert FlightIds(c') + left == FlightIds(c) + left + {id};
      KeysOfPlus(FlightIds(c) + left, id);
    } else {
      assert FlightIds(c') == FlightIds(c);
    }
  }

  lemma MatchAccounts(c: Client, c': Client, step: Step, left: set<u16>)
    requires Matches(c, step) && StoreStep(c, c', step)
    requires StoredKeys(c) == KeysOf(FlightIds(c) + left)
    ensures StoredKeys(c') == KeysOf(FlightIds(c') + (left - {step.p.packetId}))
  {
    hide SendKey, KeysOf, Completes;
    var id := step.p.packetId;
    assert FlightIds(c') == FlightIds(c) - {id};
    assert FlightIds(c') + (left - {id}) == FlightIds(c) + left - {id};
    KeysOfMinus(FlightIds(c) + left, id);
  }

  lemma OtherAccounts(c: Client, c': Client, step: Step, left: set<u16>)
    requires !Allocates(c, step) && !Matches(c, step) && StoreStep(c, c', step)
    requires StoredKeys(c) == KeysOf(FlightIds(c) + left)
    ensures StoredKeys(c')
            == KeysOf(FlightIds(c') + if SendsRel(c, step) then left + {c.logicCh[0].packet.packetId} else left)
  {
    hide SendKey, KeysOf, Allocates, Matches;
    assert FlightIds(c') == FlightIds(c);
    assert StoredKeys(c) + {} == StoredKeys(c);
    if SendsRel(c, step) {
      var id := c.logicCh[0].packet.packetId;
      assert FlightIds(c) + (left + {id}) == FlightIds(c) + left + {id};
      KeysOfPlus(FlightIds(c) + left, id);
    }
  }

  /** With a store that never drops, a peer sending no QoS 1 or 2 messages and fresh identifiers, the
      stored keys are exactly those of the publishes in flight and of the identifiers left behind. */
  lemma {:induction false} StoredOrLeft(st: P.Strategy, steps: seq<Step>)
    requires !P.Limits(st) && FreshRun(st, steps) && forall s :: s in steps ==> Quiet(s)
    ensures StoredKeys(At(st, steps)) == KeysOf(FlightIds(At(st, steps)) + LeftBehind(st, steps))
    ensures NoDeletions(At(st, steps).logicCh)
    decreases |steps|
  {
    hide Apply, SendKey, P.Limits, Quiet, FreshStep, KeysOf, FlightIds, Matches, SendsRel, NoDeletions;
    if steps == [] {
      NothingLeft();
    } else {
      FreshBefore(st, steps);
      StoredOrLeft(st, steps[..|steps| - 1]);
      StepAccounts(At(st, steps[..|steps| - 1]), st, steps[|steps| - 1], LeftBehind(st, steps[..|steps| - 1]));
    }
  }

  lemma NothingLeft()
    ensures Accounts(INIT, {})
  {
    assert FlightIds(INIT) + {} == {};
    assert KeysOf({}) == {};
  }

  /** Hence stored and in flight agree, as they are meant to, exactly when nothing is left behind
      under an identifier that is not in flight again. */
  lemma {:induction false} AgreeIff(st: P.Strategy, steps: seq<Step>)
    requires !P.Limits(st) && FreshRun(st, steps) && forall s :: s in steps ==> Quiet(s)
    ensures var c := At(st, steps);
      StoredKeys(c) == KeysOf(FlightIds(c)) <==> LeftBehind(st, steps) <= FlightIds(c)
  {
    hide At, SendKey, FlightIds, LeftBehind, KeysOf, Quiet, FreshRun;
    var flight, left := FlightIds(At(st, steps)), LeftBehind(st, steps);
    StoredOrLeft(st, steps);
    if left <= flight {
      assert flight + left == flight;
    } else {
      var id :| id in left && id !in flight;
      KeysOfIn(flight, id);
      KeysOfIn(flight + left, id);
    }
  }

  // Single steps at which table and store part.

  predicate Idle(c: Client) {
    !c.stopped && c.sending && c.logicCh == []
  }

  /** A request completed from an idle state leaves its key behind if and only if it is a QoS 2
      publish: the last PUBREL, when it is sent, stores the key again. */
  lemma {:induction false} CompletionLeavesKeyIff(c: Client, st: P.Strategy, ack: Packet)
    requires !P.Limits(st) && Idle(c) && Matches(c, DoReceive(ack))
    ensures var c' := Run(c, st, [DoReceive(ack), DoSendLogic]);
      ack.packetId !in c'.gen.used && (SendKey(ack.packetId) in StoredKeys(c') <==> AwaitsRel(c, ack.packetId))
  {
    hide Keep, SendKey, P.Limits, DoneMsg;
    var id := ack.packetId;
    var one := Apply(c, st, DoReceive(ack));
    RunTwo(c, st, [DoReceive(ack), DoSendLogic]);
    if AwaitsRel(c, id) {
      var s := one.logicCh[0];
      assert one.logicCh == [Sent(PubRel(id), LastRel(c.gen.used[id].tag))];
      Ordering.LogicEncodes(s);
      KeepKeys(one.(logicCh := one.logicCh[1..], out := one.out + [s]), st, SendKey(id), s.packet);
    }
  }

  predicate FlightStored(c: Client) {
    forall id: u16 :: InFlight(c, id) ==> SendKey(id) in StoredKeys(c)
  }

  /** Sending the next packet of the session logic keeps everything in flight stored if and only if
      it is no PUBACK or PUBCOMP under an identifier that an own publish is in flight under. */
  lemma {:induction false} SendingKeepsIff(c: Client, st: P.Strategy)
    requires !P.Limits(st) && !c.stopped && c.sending && c.logicCh != [] && Ordering.LogicSent(c.logicCh[0])
    requires FlightStored(c)
    ensures var p := c.logicCh[0].packet;
      FlightStored(Apply(c, st, DoSendLogic)) <==> !((p.PubAck? || p.PubComp?) && InFlight(c, p.packetId))
  {
    hide Keep, SendKey, P.Limits, Encoder.Encode;
    var s, c' := c.logicCh[0], Apply(c, st, DoSendLogic);
    var w := c.(logicCh := c.logicCh[1..], out := c.out + [s]);
    Ordering.LogicEncodes(s);
    if s.packet.PubRel? {
      KeepKeys(w, st, SendKey(s.packet.packetId), s.packet);
    }
    assert c'.gen == c.gen;
    forall id: u16 | InFlight(c, id) ensures SendKey(id) in StoredKeys(c)
    {
    }
    if s.packet.PubAck? || s.packet.PubComp? {
      assert StoredKeys(c') == StoredKeys(c) - {SendKey(s.packet.packetId)};
      forall id: u16 | InFlight(c, id) && id != s.packet.packetId ensures SendKey(id) in StoredKeys(c') {
        KeysDistinct(id, s.packet.packetId);
      }
      assert InFlight(c, s.packet.packetId) ==> InFlight(c', s.packet.packetId);
    } else {
      assert StoredKeys(c) <= StoredKeys(c');
    }
  }

  /** So taking a peer's message and answering it keeps everything in flight stored if and only if the
      message is not one of QoS 1 under an identifier that an own publish is in flight under. */
  lemma {:induction false} InboundKeepsIff(c: Client, st: P.Strategy, p: Packet)
    requires !P.Limits(st) && Idle(c) && FlightStored(c) && p.Publish?
    ensures FlightStored(Run(c, st, [DoReceive(p), DoSendLogic])) <==> !(p.qos == 1 && InFlight(c, p.packetId))
  {
    hide Keep, SendKey, RecvKey, P.Limits, SendLogic, FlightStored;
    var one := Apply(c, st, DoReceive(p));
    RunTwo(c, st, [DoReceive(p), DoSendLogic]);
    ReceivedStaysStored(c, st, p);
    if p.qos == 1 || p.qos == 2 {
      var answer := if p.qos == 1 then PubAck(p.packetId) else PubRecv(p.packetId);
      assert one.logicCh == [Sent(answer, Other)];
      SendingKeepsIff(one, st);
    } else {
      assert Apply(one, st, DoSendLogic) == one by { NothingToSend(one, st); }
    }
  }

  lemma NothingToSend(c: Client, st: P.Strategy)
    requires c.logicCh == []
    ensures SendLogic(c, st) == c
  {
  }

  lemma ReceivedStaysStored(c: Client, st: P.Strategy, p: Packet)
    requires !P.Limits(st) && FlightStored(c) && p.Publish?
    ensures var c' := Receive(c, st, p);
      && FlightStored(c') && c'.gen == c.gen && c'.stopped == c.stopped && c'.sending == c.sending
      && c'.logicCh == c.logicCh + (if p.qos == 1 then [Sent(PubAck(p.packetId), Other)]
                                    else if p.qos == 2 then [Sent(PubRecv(p.packetId), Other)]
                                    else [])
  {
    hide Keep, SendKey, RecvKey, P.Limits;
    var c' := c.(recvCh := c.recvCh + [p]);
    var id := p.packetId;
    KeepKeys(Queue(c', PubAck(id), Other), st, RecvKey(id), p);
    KeepKeys(Queue(c', PubRecv(id), Other), st, RecvKey(id), p);
    assert StoredKeys(c) <= StoredKeys(Receive(c, st, p));
    forall i: u16 | InFlight(c, i) ensures SendKey(i) in StoredKeys(c) {
    }
  }

  lemma RunTwo(c: Client, st: P.Strategy, steps: seq<Step>)
    requires |steps| == 2
    ensures Run(c, st, steps) == Apply(Apply(c, st, steps[0]), st, steps[1])
  {
    hide Apply;
    var one := steps[..1];
    assert one[..|one| - 1] == [] && one[|one| - 1] == steps[0];
    assert Run(c, st, one) == Apply(c, st, steps[0]);
    assert steps[..|steps| - 1] == one;
  }
}
