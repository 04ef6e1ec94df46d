/** Decoding one packet from a stream, and the receive loop. */
module Codec {
  import opened Bytes
  import opened Decoder
  import opened Packets
  import opened Streams
  import opened V5Decoder
  import VarInt

  /** A decoded packet; pings look the same in both versions. */
  datatype Message = Plain(packet: Packet) | WithProps(packet5: V5Packet)

  /** What a fixed header with a zero or unreadable length stands for. */
  function Bodiless(version: byte, header: byte): (r: Result<Message>)
    ensures r.Ok? ==> r.value.Plain?
  {
    var kind := Shr(header, 4);
    if kind == CTRL_PING_REQ then Ok(Plain(PingReq))
    else if kind == CTRL_PING_RESP then Ok(Plain(PingResp))
    else if kind == CTRL_DIS_CONN && version == V311 then Ok(Plain(Disconnect))
    else Err(DecodeBadPacket)
  }

  function WithBody(version: byte, header: byte, body: bytes): Result<Message>
    requires |body| >= 2
  {
    if version == V311 then
      var p :- ParseV311(header, body);
      Ok(Plain(p))
    else if version == V5 then
      var p :- ParseV5(header, body);
      Ok(WithProps(p))
    else Err(UnsupportedVersion)
  }

  /** One packet off the front of `s`, and what is left to read. */
  function Decode(version: byte, s: bytes): (Result<Message>, bytes) {
    if s == [] then (Err(EOF), [])
    else
      var len := VarInt.RemainLength(s[1..]);
      if len.length == 0 then (Bodiless(version, s[0]), len.rest)
      else if len.length < 2 then (Err(DecodeBadPacket), len.rest)
      else
        var (body, rest) := FillFrom(len.rest, len.length);
        (if body.Ok? then WithBody(version, s[0], body.value) else Err(body.error), rest)
  }

  method DecodeFrom(version: byte, r: Reader) returns (m: Result<Message>)
    requires r.Valid()
    modifies r
    ensures r.Valid() && (m, r.Rest()) == Decode(version, old(r.Rest()))
  {
    hide ParseV311, ParseV5, VarInt.RemainLength, Bodiless;
    var first := r.ReadByte();
    if first.Err? {
      return Err(first.error);
    }
    var header := first.value;
    var bytesToRead, _ := VarInt.GetRemainLength(r);
    if bytesToRead == 0 {
      return Bodiless(version, header);
    } else if bytesToRead < 2 {
      return Err(DecodeBadPacket);
    }
    var body := r.ReadFull(bytesToRead);
    if body.Err? {
      return Err(body.error);
    }
    if version == V311 {
      var p := DecodeV311Packet(header, body.value);
      m := if p.Ok? then Ok(Plain(p.value)) else Err(p.error);
    } else if version == V5 {
      var p := DecodeV5Packet(header, body.value);
      m := if p.Ok? then Ok(WithProps(p.value)) else Err(p.error);
    } else {
      m := Err(UnsupportedVersion);
    }
  }

  /** Bytes of the length field, all of the input if it is cut short. */
  function LengthBytes(s: bytes): nat {
    |s| - |VarInt.RemainLength(s).rest|
  }

  /** Success takes exactly header, length field and body off the input, and at least a byte. */
  lemma {:induction false} DecodeConsumes(version: byte, s: bytes)
    requires Decode(version, s).0.Ok?
    ensures s != []
    ensures var size := 1 + LengthBytes(s[1..]) + VarInt.RemainLength(s[1..]).length;
      size <= |s| && Decode(version, s).1 == s[size..]
  {
    hide WithBody, Bodiless;
    var len := VarInt.RemainLength(s[1..]);
    assert len.rest == s[1..][|s[1..]| - |len.rest|..] == s[|s| - |len.rest|..];
  }

  /** Why a receive loop ended. */
  datatype End = Broken(error: Error) | VersionMismatch

  /** What a receive loop passes on: packets for the session logic, and keepalive answers. */
  datatype Received = Received(packets: seq<Message>, pongs: nat, end: End)

  /** What the `i`-th packet meets: whether it is handed over or the stop signal came first, and the
      version PINGREQ is marked with. There is one PINGREQ object in a process, and whichever
      connection sends it marks it; 0 stands for not sent yet. */
  datatype Moment = Moment(handed: bool, mark: byte)

  /** The version a packet claims, MQTT 3.1.1 unless it is marked otherwise. */
  function VersionOf(m: Message, mark: byte): byte {
    if m.WithProps? then V5
    else if m == Plain(PingReq) && mark != 0 then mark
    else V311
  }

  function Deliver(m: Message, later: Received): Received {
    if m == Plain(PingResp) then later.(pongs := later.pongs + 1)
    else later.(packets := [m] + later.packets)
  }

  /** The loop's result on an input whose first packet is the `i`-th. */
  function Receive(version: byte, s: bytes, at: nat -> Moment, i: nat): Received
    decreases |s|
  {
    var (m, rest) := Decode(version, s);
    if m.Err? then Received([], 0, Broken(m.error))
    else if VersionOf(m.value, at(i).mark) != version then Received([], 0, VersionMismatch)
    else
      DecodeConsumes(version, s);
      var later := Receive(version, rest, at, i + 1);
      if at(i).handed then Deliver(m.value, later) else later
  }

  /** The receive loop, on input that ends: it halts and passes on what `Receive` says. */
  method HandleNetRecv(version: byte, r: Reader, at: nat -> Moment)
    returns (packets: seq<Message>, pongs: nat, end: End)
    requires r.Valid()
    modifies r
    ensures Received(packets, pongs, end) == Receive(version, old(r.Rest()), at, 0)
  {
    hide Decode, VersionOf;
    packets, pongs := [], 0;
    var i := 0;
    ghost var all := r.Rest();
    ghost var later := Receive(version, all, at, 0);
    assert [] + later.packets == later.packets;
    while true
      invariant r.Valid() && later == Receive(version, r.Rest(), at, i)
      invariant Receive(version, all, at, 0) == Received(packets + later.packets, pongs + later.pongs, later.end)
      decreases |r.Rest()|
    {
      ghost var before, s := packets, r.Rest();
      var m := DecodeFrom(version, r);
      if m.Err? {
        assert packets + [] == packets;
        return packets, pongs, Broken(m.error);
      }
      if VersionOf(m.value, at(i).mark) != version {
        assert packets + [] == packets;
        return packets, pongs, VersionMismatch;
      }
      DecodeConsumes(version, s);
      later := Receive(version, r.Rest(), at, i + 1);
      if at(i).handed {
        if m.value == Plain(PingResp) {
          pongs := pongs + 1;
        } else {
          packets := packets + [m.value];
          assert packets + later.packets == before + ([m.value] + later.packets);
        }
      }
      i := i + 1;
    }
  }

  // Which packets are taken for the wrong version.

  /** A PINGRESP on an MQTT 5 connection, or a PINGREQ that another version is known to have sent
      last: 3.1.1 if none has. */
  predicate Foreign(version: byte, m: Message, mark: byte) {
    || (m == Plain(PingResp) && version == V5)
    || (m == Plain(PingReq) && (if mark == 0 then V311 else mark) != version)
  }

  /** Only those are. */
  lemma {:induction false} MismatchIff(version: byte, s: bytes, mark: byte)
    requires (version == V311 || version == V5) && Decode(version, s).0.Ok?
    ensures var m := Decode(version, s).0.value;
      VersionOf(m, mark) != version <==> Foreign(version, m, mark)
  {
    hide VarInt.RemainLength, ParseV311, ParseV5;
  }

  /** What is left of the input after `n` packets, if there are so many. */
  function Ahead(n: nat, version: byte, s: bytes): Option<bytes> {
    if n == 0 then Some(s)
    else
      var (m, rest) := Decode(version, s);
      if m.Err? then None else Ahead(n - 1, version, rest)
  }

  /** After some packets that decode there comes one taken for the wrong version. */
  ghost predicate ForeignComes(version: byte, s: bytes, at: nat -> Moment, i: nat) {
    exists n: nat :: ForeignAt(n, version, s, at, i)
  }

  predicate ForeignAt(n: nat, version: byte, s: bytes, at: nat -> Moment, i: nat) {
    var later := Ahead(n, version, s);
    later.Some? && var m := Decode(version, later.value).0;
    m.Ok? && Foreign(version, m.value, at(i + n).mark)
  }

  /** So the receive loop ends with a version mismatch exactly if such a packet comes before
      anything that does not decode, whatever is handed over. */
  lemma {:induction false} MismatchEnds(version: byte, s: bytes, at: nat -> Moment, i: nat)
    requires version == V311 || version == V5
    ensures Receive(version, s, at, i).end == VersionMismatch <==> ForeignComes(version, s, at, i)
    decreases |s|
  {
    hide Decode, Foreign, VersionOf;
    var (m, rest) := Decode(version, s);
    assert ForeignAt(0, version, s, at, i) <==> m.Ok? && Foreign(version, m.value, at(i).mark);
    if m.Err? {
      NoneAhead(version, s, at, i);
    } else {
      MismatchIff(version, s, at(i).mark);
      if !Foreign(version, m.value, at(i).mark) {
        DecodeConsumes(version, s);
        MismatchEnds(version, rest, at, i + 1);
        ForeignLater(version, s, at, i);
      }
    }
  }

  lemma NoneAhead(version: byte, s: bytes, at: nat -> Moment, i: nat)
    requires Decode(version, s).0.Err?
    ensures !ForeignComes(version, s, at, i)
  {
    hide Decode;
    forall n: nat ensures !ForeignAt(n, version, s, at, i) {
      if n == 0 {
        assert Ahead(n, version, s) == Some(s);
      }
    }
  }

  lemma ForeignLater(version: byte, s: bytes, at: nat -> Moment, i: nat)
    requires Decode(version, s).0.Ok? && !Foreign(version, Decode(version, s).0.value, at(i).mark)
    ensures ForeignComes(version, s, at, i) <==> ForeignComes(version, Decode(version, s).1, at, i + 1)
  {
    hide Decode, Foreign;
    var rest, next := Decode(version, s).1, i + 1;
    if n: nat :| ForeignAt(n, version, s, at, i) {
      assert n > 0 && ForeignAt(n - 1, version, rest, at, next);
    }
    if n: nat :| ForeignAt(n, version, rest, at, next) {
      assert ForeignAt(n + 1, version, s, at, i);
    }
  }

  /** A V3.1.1 connection takes no packet for another version as long as only connections of that
      version send pings. */
  lemma {:induction false} V311NeverMismatches(s: bytes, at: nat -> Moment, i: nat)
    requires forall k: nat :: at(k).mark == 0 || at(k).mark == V311
    ensures Receive(V311, s, at, i).end != VersionMismatch
  {
    hide Decode, Receive;
    MismatchEnds(V311, s, at, i);
    forall n: nat ensures !ForeignAt(n, V311, s, at, i) {
    }
  }

  /** The bytes of a PINGREQ mean one thing before and another after an MQTT 5 connection sent one:
      such a connection stops at them before and hands them on after, one of V3.1.1 the other way
      round. */
  lemma {:induction false} PingReqDepends(at: nat -> Moment)
    requires at(0).handed
    ensures var s := [CTRL_PING_REQ * 16, 0];
      && (at(0).mark == 0 ==> Receive(V5, s, at, 0) == Received([], 0, VersionMismatch))
      && (at(0).mark == V5 ==> Receive(V5, s, at, 0) == Received([Plain(PingReq)], 0, Broken(EOF)))
      && (at(0).mark == 0 ==> Receive(V311, s, at, 0) == Received([Plain(PingReq)], 0, Broken(EOF)))
      && (at(0).mark == V5 ==> Receive(V311, s, at, 0) == Received([], 0, VersionMismatch))
  {
    hide Decode;
    PingReqRead(V5);
    PingReqRead(V311);
  }

  lemma PingReqRead(version: byte)
    ensures Decode(version, [CTRL_PING_REQ * 16, 0]) == (Ok(Plain(PingReq)), [])
    ensures Decode(version, []) == (Err(EOF), [])
  {
    assert [CTRL_PING_REQ * 16, 0][1..] == [0] && [0][1..] == [];
  }
}
