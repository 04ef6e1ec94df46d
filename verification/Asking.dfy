/** The messages of a run of client and peer are those the user's calls asked for, one for each call. */
module Asking {
  import opened ArbitraryPeer
  import opened Bytes
  import opened Calls
  import opened Exchange
  import opened Packets
  import opened Session
  import Ordering
  import P = MemPersist

  /** The user's calls in a run, in order. */
  function CallsOf(steps: seq<NetStep>): seq<Step> {
    if steps == [] then []
    else
      var last := steps[|steps| - 1];
      CallsOf(steps[..|steps| - 1]) + if last.Local? && IsRequest(last.step) then [last.step] else []
  }

  /** The places of the publishes among some calls. */
  function Publishes(calls: seq<Step>): seq<nat> {
    if calls == [] then []
    else
      var k := |calls| - 1;
      Publishes(calls[..k]) + if calls[k].DoPublish? then [k] else []
  }

  /** The message carries what the call with its number asked for. */
  predicate AskedFor(s: Sent, steps: seq<NetStep>) {
    s.mark.Call? && s.mark.tag < |CallsOf(steps)| && Carries(s.packet, CallsOf(steps)[s.mark.tag])
  }

  lemma {:induction false} PublishPlaces(calls: seq<Step>)
    ensures forall i :: 0 <= i < |Publishes(calls)| ==> Publishes(calls)[i] < |calls|
  {
    if calls != [] {
      PublishPlaces(calls[..|calls| - 1]);
    }
  }

  /** One message for each publish among the first calls, numbered by its place, and what it asked for. */
  ghost predicate CalledFor(called: seq<Sent>, calls: seq<Step>) {
    && |called| == |Publishes(calls)|
    && forall i :: 0 <= i < |called| ==>
         var k := Publishes(calls)[i];
         && k < |calls| && called[i].mark == Call(k) && Carries(called[i].packet, calls[k])
  }

  /** The client took the first `nextTag` calls, all of them while it runs. */
  ghost predicate Faithful(n: Net, calls: seq<Step>) {
    && n.client.nextTag <= |calls| && (!n.client.stopped ==> n.client.nextTag == |calls|)
    && CalledFor(n.called, calls[..n.client.nextTag])
  }

  lemma CalledMore(called: seq<Sent>, calls: seq<Step>, call: Step, more: seq<Sent>)
    requires CalledFor(called, calls)
    requires if call.DoPublish?
             then |more| == 1 && more[0].mark == Call(|calls|) && Carries(more[0].packet, call)
             else more == []
    ensures CalledFor(called + more, calls + [call])
  {
    hide Carries;
    var calls' := calls + [call];
    assert calls'[..|calls|] == calls;
    PublishPlaces(calls);
    assert Publishes(calls') == Publishes(calls) + if call.DoPublish? then [|calls|] else [];
  }

  /** What a call of a running client adds to the messages called for. */
  lemma PublishCarries(c: Client, call: Step)
    requires !c.stopped && IsRequest(call)
    ensures var more := PublishCalls(c, call);
      if call.DoPublish? then |more| == 1 && more[0].mark == Call(c.nextTag) && Carries(more[0].packet, call)
      else more == []
  {
    hide TakenId, WithId, Carries, Submitted, NeedsId;
    SubmittedCarries(call, 0);
    SubmittedCarries(call, TakenId(c, Submitted(call).value));
  }

  lemma NoPublishCalls(c: Client, step: Step)
    requires c.stopped || !IsRequest(step)
    ensures PublishCalls(c, step) == []
  {
  }

  lemma LocalFaithful(n: Net, st: P.Strategy, s: Step, calls: seq<Step>)
    requires Faithful(n, calls)
    ensures Faithful(Advance(n, st, Local(s)), calls + if IsRequest(s) then [s] else [])
  {
    hide Apply, PublishCalls, CalledFor, IsRequest;
    var c, calls' := n.client, calls + if IsRequest(s) then [s] else [];
    NumbersCalls(c, st, s);
    Ordering.RunsOn(c, st, s);
    if !c.stopped && IsRequest(s) {
      PublishCarries(c, s);
      assert calls[..c.nextTag] == calls && calls'[..c.nextTag + 1] == calls';
      CalledMore(n.called, calls, s, PublishCalls(c, s));
    } else {
      NoPublishCalls(c, s);
      assert n.called + [] == n.called && calls'[..c.nextTag] == calls[..c.nextTag];
    }
  }

  lemma DeliverFaithful(n: Net, st: P.Strategy, calls: seq<Step>)
    requires Faithful(n, calls)
    ensures Faithful(Advance(n, st, Deliver), calls)
  {
    hide Apply, CalledFor;
    if Delivers(n) {
      NumbersCalls(n.client, st, DoReceive(n.peer.back[0].packet));
      Ordering.RunsOn(n.client, st, DoReceive(n.peer.back[0].packet));
    }
  }

  lemma {:induction false} RunFaithful(st: P.Strategy, steps: seq<NetStep>)
    ensures Faithful(NetAt(st, steps), CallsOf(steps))
    decreases |steps|
  {
    hide Faithful, Advance, IsRequest;
    if steps == [] {
      assert Faithful(START, []) by { NothingCalled(); }
    } else {
      var before, last := steps[..|steps| - 1], steps[|steps| - 1];
      var n, calls := NetAt(st, before), CallsOf(before);
      RunFaithful(st, before);
      match last
      case Local(s) => LocalFaithful(n, st, s, calls);
      case _ =>
        assert CallsOf(steps) == calls;
        QuietFaithful(n, st, last, calls);
    }
  }

  lemma QuietFaithful(n: Net, st: P.Strategy, step: NetStep, calls: seq<Step>)
    requires Faithful(n, calls) && !step.Local?
    ensures Faithful(Advance(n, st, step), calls)
  {
    hide Apply, CalledFor, Serve, MaySend;
    if step.Deliver? {
      DeliverFaithful(n, st, calls);
    }
  }

  lemma NothingCalled()
    ensures Faithful(START, [])
  {
  }

  /** In every run the messages called for are, in order, those of the publishes among the calls the
      client took, which while it runs are all of them: each with the call's flags, topic, payload and
      level. */
  lemma {:induction false} CalledAsAsked(st: P.Strategy, steps: seq<NetStep>)
    ensures var n, calls := NetAt(st, steps), CallsOf(steps);
      && n.client.nextTag <= |calls| && (!n.client.stopped ==> n.client.nextTag == |calls|)
      && CalledFor(n.called, calls[..n.client.nextTag])
      && (forall s :: s in n.called ==> AskedFor(s, steps))
  {
    hide NetAt, CallsOf, Publishes, Carries;
    RunFaithful(st, steps);
    var n, calls := NetAt(st, steps), CallsOf(steps);
    forall s | s in n.called ensures AskedFor(s, steps) {
      var i :| 0 <= i < |n.called| && n.called[i] == s;
      assert calls[..n.client.nextTag][Publishes(calls[..n.client.nextTag])[i]]
             == calls[Publishes(calls[..n.client.nextTag])[i]];
    }
  }
}
