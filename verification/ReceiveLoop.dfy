/** What the receive loop hands over: the packets that decode, in the order of the bytes. */
module ReceiveLoop {
  import opened Bytes
  import opened Codec
  import opened Encoder
  import opened Packets
  import opened RoundTrip

  /** Of packets decoded one after the other, the `i`-th first: those that are handed over and are no
      keepalive answers. */
  function HandedOver(ms: seq<Message>, at: nat -> Moment, i: nat): seq<Message> {
    if ms == [] then []
    else (if at(i).handed && ms[0] != Plain(PingResp) then [ms[0]] else []) + HandedOver(ms[1..], at, i + 1)
  }

  /** The keepalive answers handed over. */
  function PongsIn(ms: seq<Message>, at: nat -> Moment, i: nat): nat {
    if ms == [] then 0
    else (if at(i).handed && ms[0] == Plain(PingResp) then 1 else 0) + PongsIn(ms[1..], at, i + 1)
  }

  /** These are the first packets of an input, and none is taken for another version. */
  predicate Accepted(ms: seq<Message>, version: byte, s: bytes, at: nat -> Moment, i: nat) {
    forall k {:trigger ms[k]} :: 0 <= k < |ms| ==>
      var later := Ahead(k, version, s);
      && later.Some? && Decode(version, later.value).0 == Ok(ms[k])
      && !Foreign(version, ms[k], at(i + k).mark)
  }

  /** What comes after `n` packets ends the loop like this. */
  predicate EndsWith(end: End, n: nat, version: byte, s: bytes, at: nat -> Moment, i: nat) {
    var later := Ahead(n, version, s);
    later.Some?
    && match Decode(version, later.value).0
       case Err(e) => end == Broken(e)
       case Ok(m) => end == VersionMismatch && Foreign(version, m, at(i + n).mark)
  }

  lemma FirstAccepted(ms: seq<Message>, version: byte, s: bytes, at: nat -> Moment, i: nat)
    requires ms != [] && Accepted(ms, version, s, at, i)
    ensures Decode(version, s).0 == Ok(ms[0]) && !Foreign(version, ms[0], at(i).mark)
    ensures Accepted(ms[1..], version, Decode(version, s).1, at, i + 1)
  {
    hide Decode, Foreign;
    var rest := Decode(version, s).1;
    assert Ahead(0, version, s) == Some(s) && Decode(version, s).0 == Ok(ms[0]);
    forall k | 0 <= k < |ms| - 1
      ensures var later := Ahead(k, version, rest);
        && later.Some? && Decode(version, later.value).0 == Ok(ms[1..][k])
        && !Foreign(version, ms[1..][k], at(i + 1 + k).mark)
    {
      assert Ahead(k + 1, version, s) == Ahead(k, version, rest);
      assert ms[1..][k] == ms[k + 1];
    }
  }

  /** On any input: if these packets are accepted and then something ends the loop, it has handed over
      exactly these, in order, but for keepalive answers and those the stop signal came before. */
  lemma {:induction false} HandsOver(version: byte, s: bytes, at: nat -> Moment, i: nat, ms: seq<Message>, end: End)
    requires version == V311 || version == V5
    requires Accepted(ms, version, s, at, i) && EndsWith(end, |ms|, version, s, at, i)
    ensures Receive(version, s, at, i) == Received(HandedOver(ms, at, i), PongsIn(ms, at, i), end)
    decreases |ms|
  {
    hide Decode, Foreign, VersionOf, Accepted;
    var (m, rest) := Decode(version, s);
    if ms == [] {
      assert Ahead(0, version, s) == Some(s);
      if m.Ok? {
        MismatchIff(version, s, at(i).mark);
      }
    } else {
      FirstAccepted(ms, version, s, at, i);
      MismatchIff(version, s, at(i).mark);
      assert Ahead(|ms|, version, s) == Ahead(|ms| - 1, version, rest);
      HandsOver(version, rest, at, i + 1, ms[1..], end);
      assert [] + HandedOver(ms[1..], at, i + 1) == HandedOver(ms[1..], at, i + 1);
    }
  }

  /** And every input is of this kind. */
  lemma {:induction false} EveryInput(version: byte, s: bytes, at: nat -> Moment, i: nat)
    returns (ms: seq<Message>, end: End)
    requires version == V311 || version == V5
    ensures Accepted(ms, version, s, at, i) && EndsWith(end, |ms|, version, s, at, i)
    decreases |s|
  {
    hide Decode, Foreign;
    var (m, rest) := Decode(version, s);
    assert Ahead(0, version, s) == Some(s);
    if m.Err? || Foreign(version, m.value, at(i).mark) {
      ms, end := [], if m.Err? then Broken(m.error) else VersionMismatch;
    } else {
      DecodeConsumes(version, s);
      var more: seq<Message>;
      more, end := EveryInput(version, rest, at, i + 1);
      ms := [m.value] + more;
      forall k | 0 <= k < |ms|
        ensures var later := Ahead(k, version, s);
          && later.Some? && Decode(version, later.value).0 == Ok(ms[k])
          && !Foreign(version, ms[k], at(i + k).mark)
      {
        if k > 0 {
          assert Ahead(k, version, s) == Ahead(k - 1, version, rest);
          assert ms[k] == more[k - 1];
        }
      }
      assert Ahead(|ms|, version, s) == Ahead(|more|, version, rest);
    }
  }

  lemma {:induction false} StreamAhead(ps: seq<Packet>, rest: bytes, k: nat)
    requires k <= |ps| && forall p :: p in ps ==> WellFormed(p)
    ensures Ahead(k, V311, EncodeAll(ps) + rest) == Some(EncodeAll(ps[k..]) + rest)
    ensures k < |ps| ==> Decode(V311, EncodeAll(ps[k..]) + rest).0 == Ok(Plain(ps[k]))
    decreases |ps|
  {
    hide WellFormed, Decode, Encode;
    if ps != [] {
      FirstOfStream(ps, rest);
      if k > 0 {
        StreamAhead(ps[1..], rest, k - 1);
        assert ps[1..][k - 1..] == ps[k..];
      } else {
        assert ps[0..] == ps;
      }
    } else {
      assert ps[0..] == ps;
    }
  }

  lemma FirstOfStream(ps: seq<Packet>, rest: bytes)
    requires ps != [] && forall p :: p in ps ==> WellFormed(p)
    ensures Decode(V311, EncodeAll(ps) + rest) == (Ok(Plain(ps[0])), EncodeAll(ps[1..]) + rest)
  {
    hide WellFormed, Decode, Encode;
    var more := EncodeAll(ps[1..]) + rest;
    PacketRoundTrip(ps[0], more);
    assert EncodeAll(ps) + rest == Encode(ps[0]).value + more;
  }

  /** A stream of packets, then bytes that do not decode, on a V3.1.1 connection while no PINGREQ claims
      another version: the packets are handed over in order, all of them if the stop signal never
      comes first and none is a keepalive answer. */
  lemma {:induction false} StreamHandedOver(ps: seq<Packet>, rest: bytes, at: nat -> Moment)
    requires (forall p :: p in ps ==> WellFormed(p)) && Decode(V311, rest).0.Err?
    requires forall k :: 0 <= k < |ps| && ps[k].PingReq? ==> at(k).mark == 0 || at(k).mark == V311
    ensures Receive(V311, EncodeAll(ps) + rest, at, 0)
            == Received(HandedOver(Messages(ps), at, 0), PongsIn(Messages(ps), at, 0),
                        Broken(Decode(V311, rest).0.error))
    ensures (forall k: nat :: at(k).handed) && PingResp !in ps ==>
              Receive(V311, EncodeAll(ps) + rest, at, 0).packets == Messages(ps)
  {
    hide WellFormed, Decode, EncodeAll, Receive, Ahead;
    var ms, s, end := Messages(ps), EncodeAll(ps) + rest, Broken(Decode(V311, rest).0.error);
    forall k | 0 <= k < |ms|
      ensures var later := Ahead(k, V311, s);
        && later.Some? && Decode(V311, later.value).0 == Ok(ms[k])
        && !Foreign(V311, ms[k], at(0 + k).mark)
    {
      StreamAhead(ps, rest, k);
    }
    StreamAhead(ps, rest, |ps|);
    assert EncodeAll(ps[|ps|..]) + rest == rest by { NothingEncoded(ps[|ps|..]); }
    HandsOver(V311, s, at, 0, ms, end);
    if (forall k: nat :: at(k).handed) && PingResp !in ps {
      AllHanded(ms, at, 0);
    }
  }

  lemma {:induction false} AllHanded(ms: seq<Message>, at: nat -> Moment, i: nat)
    requires (forall k: nat :: at(k).handed) && Plain(PingResp) !in ms
    ensures HandedOver(ms, at, i) == ms
  {
    if ms != [] {
      assert ms[0] in ms;
      AllHanded(ms[1..], at, i + 1);
      assert [ms[0]] + ms[1..] == ms;
    }
  }
}
