/** The MQTT 5 property section: splitting it into raw values, and reading the values. */
module Properties {
  import opened Bytes
  import opened Decoder
  import opened Streams
  import VarInt

  const PAYLOAD_FORMAT_INDICATOR: byte := 1
  const MESSAGE_EXPIRY_INTERVAL: byte := 2
  const CONTENT_TYPE: byte := 3
  const RESP_TOPIC: byte := 8
  const CORRELATION_DATA: byte := 9
  const SUB_ID: byte := 11
  const SESSION_EXPIRY_INTERVAL: byte := 17
  const ASSIGNED_CLIENT_ID: byte := 18
  const SERVER_KEEPALIVE: byte := 19
  const AUTH_METHOD: byte := 21
  const AUTH_DATA: byte := 22
  const REQ_PROBLEM_INFO: byte := 23
  const WILL_DELAY_INTERVAL: byte := 24
  const REQ_RESP_INFO: byte := 25
  const RESP_INFO: byte := 26
  const SERVER_REF: byte := 28
  const REASON_STRING: byte := 31
  const MAX_RECV: byte := 33
  const MAX_TOPIC_ALIAS: byte := 34
  const TOPIC_ALIAS: byte := 35
  const MAX_QOS: byte := 36
  const RETAIN_AVAIL: byte := 37
  const USER_PROPS: byte := 38
  const MAX_PACKET_SIZE: byte := 39
  const WILDCARD_SUB_AVAIL: byte := 40
  const SUB_ID_AVAIL: byte := 41
  const SHARED_SUB_AVAIL: byte := 42

  /** How the value of a property is laid out. */
  datatype Kind = Fixed(size: nat) | Text | Length | Pair | Unknown

  function KindOf(key: byte): Kind {
    match key
    case 1 => Fixed(1) case 2 => Fixed(4) case 3 => Text
    case 8 => Text case 9 => Text case 11 => Length
    case 17 => Fixed(4) case 18 => Text case 19 => Fixed(2)
    case 21 => Text case 22 => Text case 23 => Fixed(1)
    case 24 => Fixed(4) case 25 => Fixed(1) case 26 => Text
    case 28 => Text case 31 => Text
    case 33 => Fixed(2) case 34 => Fixed(2) case 35 => Fixed(2)
    case 36 => Fixed(1) case 37 => Fixed(1) case 38 => Pair
    case 39 => Fixed(4) case 40 => Fixed(1) case 41 => Fixed(1) case 42 => Fixed(1)
    case _ => Unknown
  }

  /** A property key and its raw value, length prefixes included. */
  datatype Chunk = Chunk(key: byte, data: bytes)

  /** Size of the value after the key `window[0]`; none when slicing goes out of range or the
      key is unknown. `window` runs to the end of the packet body, whose memory a slice of the
      section may reach; `left` is what remains of the section itself. Offsets are `uint16`. */
  function ValueSize(window: bytes, left: nat): (r: Option<nat>)
    requires 0 < left <= |window|
    ensures r.Some? ==> 1 + r.value <= |window|
  {
    match KindOf(window[0])
    case Fixed(size) => if 1 + size <= |window| then Some(size) else None
    case Text => TextSize(window)
    case Length =>
      var size := VarInt.RemainLength(window[1..left]).byteCount;
      if 1 + size <= |window| then Some(size) else None
    case Pair => PairSize(window)
    case Unknown => None
  }

  function TextSize(window: bytes): (r: Option<nat>)
    ensures r.Some? ==> 1 + r.value <= |window|
  {
    if |window| < 3 then None
    else SliceSize(window, ToU16(3 + GetUint16(window[1..3])))
  }

  function PairSize(window: bytes): (r: Option<nat>)
    ensures r.Some? ==> 1 + r.value <= |window|
  {
    if |window| < 3 then None
    else
      var keyEnd := ToU16(2 + GetUint16(window[1..3]));
      var from, to := ToU16(keyEnd + 1), ToU16(keyEnd + 3);
      if from > to || to > |window| then None
      else SliceSize(window, ToU16(ToU16(2 + keyEnd + GetUint16(window[from..to])) + 1))
  }

  /** Length of `window[1:end]`. */
  function SliceSize(window: bytes, end: u16): Option<nat> {
    if 1 <= end <= |window| then Some(end - 1) else None
  }

  /** The chunks of a section of `left` bytes, or nothing when parsing panics or meets an
      unknown key. */
  function Split(window: bytes, left: nat): Option<seq<Chunk>>
    requires left <= |window|
    decreases left
  {
    if left == 0 then Some([])
    else
      var size :- ValueSize(window, left);
      if 1 + size > left then None
      else
        var more :- Split(window[1 + size..], left - 1 - size);
        Some([Chunk(window[0], window[1..1 + size])] + more)
  }

  function ValuesOf(chunks: seq<Chunk>, key: byte): bytes {
    if chunks == [] then []
    else (if chunks[0].key == key then chunks[0].data else []) + ValuesOf(chunks[1..], key)
  }

  function KeysOf(chunks: seq<Chunk>): set<byte> {
    set i | 0 <= i < |chunks| :: chunks[i].key
  }

  /** Each key with the concatenation of its values, in order. */
  function Gather(chunks: seq<Chunk>): map<byte, bytes> {
    map k | k in KeysOf(chunks) :: ValuesOf(chunks, k)
  }

  function Flatten(chunks: seq<Chunk>): bytes {
    if chunks == [] then [] else [chunks[0].key] + chunks[0].data + Flatten(chunks[1..])
  }

  datatype RawProps = RawProps(props: map<byte, bytes>, next: bytes)

  /** The chunks of the property section at the front of `data`, if it is accepted. */
  function Section(data: bytes): Option<seq<Chunk>> {
    var len := VarInt.RemainLength(data);
    if len.length + len.byteCount > |data| then None
    else Split(data[len.byteCount..], len.length)
  }

  function SectionEnd(data: bytes): nat {
    var len := VarInt.RemainLength(data);
    len.length + len.byteCount
  }

  /** Property section and what follows it. */
  function ParseRawProps(data: bytes): Result<RawProps> {
    match Section(data)
    case None => Err(DecodeBadPacket)
    case Some(chunks) => Ok(RawProps(Gather(chunks), data[SectionEnd(data)..]))
  }

  lemma {:induction false} ValuesOfAppend(chunks: seq<Chunk>, c: Chunk, key: byte)
    ensures ValuesOf(chunks + [c], key) == ValuesOf(chunks, key) + if c.key == key then c.data else []
  {
    if chunks == [] {
    } else {
      ValuesOfAppend(chunks[1..], c, key);
      assert (chunks + [c])[1..] == chunks[1..] + [c];
    }
  }

  lemma {:induction false} ValuesOfAbsent(chunks: seq<Chunk>, key: byte)
    requires key !in KeysOf(chunks)
    ensures ValuesOf(chunks, key) == []
  {
    if chunks == [] {
    } else {
      assert chunks[0].key in KeysOf(chunks);
      assert forall i :: 0 <= i < |chunks[1..]| ==> chunks[1..][i] == chunks[i + 1];
      assert KeysOf(chunks[1..]) <= KeysOf(chunks);
      ValuesOfAbsent(chunks[1..], key);
    }
  }

  lemma GatherNothing()
    ensures Gather([]) == map[]
  {
  }

  lemma GatherAppend(chunks: seq<Chunk>, c: Chunk)
    ensures var m := Gather(chunks);
      Gather(chunks + [c]) == m[c.key := (if c.key in m then m[c.key] else []) + c.data]
  {
    var m, all := Gather(chunks), chunks + [c];
    assert all[..|chunks|] == chunks;
    assert KeysOf(all) == KeysOf(chunks) + {c.key} by {
      assert all[|chunks|] == c;
      forall k | k in KeysOf(chunks) ensures k in KeysOf(all) {
        var i :| 0 <= i < |chunks| && chunks[i].key == k;
        assert all[i].key == k;
      }
    }
    forall k | k in KeysOf(all)
      ensures ValuesOf(all, k) == m[c.key := (if c.key in m then m[c.key] else []) + c.data][k]
    {
      ValuesOfAppend(chunks, c, k);
      if k !in KeysOf(chunks) {
        ValuesOfAbsent(chunks, k);
      }
    }
  }

  /** What the loop has to come to, in terms of the length read. */
  lemma Parsed(data: bytes)
    ensures var len := VarInt.RemainLength(data);
      if len.length + len.byteCount > |data| then Section(data) == None && ParseRawProps(data) == Err(DecodeBadPacket)
      else
        && Section(data) == Split(data[len.byteCount..], len.length)
        && ParseRawProps(data)
           == match Section(data)
              case None => Err(DecodeBadPacket)
              case Some(chunks) => Ok(RawProps(Gather(chunks), data[len.length + len.byteCount..]))
  {
    hide Split, Gather, VarInt.RemainLength;
  }

  /** The parsing loop. */
  method GetRawProps(data: bytes) returns (r: Result<RawProps>)
    ensures r == ParseRawProps(data)
  {
    hide ValueSize, Gather, Split, Join, Section, ParseRawProps, VarInt.RemainLength;
    Parsed(data);
    var reader := new Reader(data);
    var propsLen, byteLen := VarInt.GetRemainLength(reader);
    if propsLen + byteLen > |data| {
      return Err(DecodeBadPacket);
    }
    var window := data[byteLen..];
    var next := data[propsLen + byteLen..];
    var props: map<byte, bytes> := map[];
    ghost var done: seq<Chunk> := [];
    var i := 0;
    GatherNothing();
    JoinNothing(Section(data));
    while i < propsLen
      invariant i <= propsLen && propsLen - i <= |window|
      invariant props == Gather(done)
      invariant Section(data) == Join(done, Split(window, propsLen - i))
    {
      var left := propsLen - i;
      var size := ValueSize(window, left);
      SplitStep(done, window, left);
      if size.None? || 1 + size.value > left {
        return Err(DecodeBadPacket);
      }
      var p := window[1..1 + size.value];
      GatherAppend(done, Chunk(window[0], p));
      props := props[window[0] := (if window[0] in props then props[window[0]] else []) + p];
      done := done + [Chunk(window[0], p)];
      window := window[1 + |p|..];
      i := i + 1 + |p|;
    }
    SplitStep(done, window, 0);
    r := Ok(RawProps(props, next));
  }

  ghost function Join(done: seq<Chunk>, more: Option<seq<Chunk>>): Option<seq<Chunk>> {
    match more
    case None => None
    case Some(rest) => Some(done + rest)
  }

  lemma JoinNothing(more: Option<seq<Chunk>>)
    ensures Join([], more) == more
  {
    assert more.Some? ==> [] + more.value == more.value;
  }

  /** One round of the loop: stop, reject, or move one chunk to the finished ones. */
  lemma SplitStep(done: seq<Chunk>, window: bytes, left: nat)
    requires left <= |window|
    ensures Join(done, Split(window, left)) ==
      if left == 0 then Some(done)
      else if ValueSize(window, left).None? || 1 + ValueSize(window, left).value > left then None
      else
        var size := ValueSize(window, left).value;
        Join(done + [Chunk(window[0], window[1..1 + size])], Split(window[1 + size..], left - 1 - size))
  {
    hide ValueSize;
    if left == 0 {
      assert done + [] == done;
    } else if ValueSize(window, left).Some? && 1 + ValueSize(window, left).value <= left {
      var size := ValueSize(window, left).value;
      var c := Chunk(window[0], window[1..1 + size]);
      var more := Split(window[1 + size..], left - 1 - size);
      assert more.Some? ==> done + ([c] + more.value) == done + [c] + more.value;
    }
  }

  // Reading raw values.

  /** A user property. */
  datatype Entry = Entry(key: bytes, value: bytes)

  /** The pairs in a raw value, up to the first field that does not fit; a pair cut after its
      key has an empty value. */
  function PairsOf(data: bytes): seq<Entry>
    decreases |data|
  {
    match GetBinaryData(data)
    case Err(_) => []
    case Ok(key) =>
      match GetBinaryData(key.next)
      case Err(_) => [Entry(key.data, [])]
      case Ok(val) => [Entry(key.data, val.data)] + PairsOf(val.next)
  }

  type UserProps = map<bytes, seq<bytes>>

  function ValuesFor(entries: seq<Entry>, key: bytes): seq<bytes> {
    if entries == [] then []
    else (if entries[0].key == key then [entries[0].value] else []) + ValuesFor(entries[1..], key)
  }

  function EntryKeys(entries: seq<Entry>): set<bytes> {
    set i | 0 <= i < |entries| :: entries[i].key
  }

  /** The multimap a list of pairs makes: per key its values, in order. */
  function Multimap(entries: seq<Entry>): UserProps {
    map k | k in EntryKeys(entries) :: ValuesFor(entries, k)
  }

  lemma {:induction false} ValuesForAppend(entries: seq<Entry>, e: Entry, key: bytes)
    ensures ValuesFor(entries + [e], key) == ValuesFor(entries, key) + if e.key == key then [e.value] else []
  {
    if entries == [] {
    } else {
      ValuesForAppend(entries[1..], e, key);
      assert (entries + [e])[1..] == entries[1..] + [e];
    }
  }

  lemma {:induction false} ValuesForAbsent(entries: seq<Entry>, key: bytes)
    requires key !in EntryKeys(entries)
    ensures ValuesFor(entries, key) == []
  {
    if entries == [] {
    } else {
      assert entries[0].key in EntryKeys(entries);
      assert forall i :: 0 <= i < |entries[1..]| ==> entries[1..][i] == entries[i + 1];
      assert EntryKeys(entries[1..]) <= EntryKeys(entries);
      ValuesForAbsent(entries[1..], key);
    }
  }

  /** Appending to the values of a key, as `UserProps.Add` does. */
  function AddEntry(m: UserProps, e: Entry): UserProps {
    m[e.key := (if e.key in m then m[e.key] else []) + [e.value]]
  }

  lemma {:induction false} MultimapAppend(entries: seq<Entry>, e: Entry)
    ensures var m := Multimap(entries);
      Multimap(entries + [e]) == m[e.key := (if e.key in m then m[e.key] else []) + [e.value]]
  {
    var m, all := Multimap(entries), entries + [e];
    assert EntryKeys(all) == EntryKeys(entries) + {e.key} by {
      assert all[|entries|] == e;
      forall k | k in EntryKeys(entries) ensures k in EntryKeys(all) {
        var i :| 0 <= i < |entries| && entries[i].key == k;
        assert all[i].key == k;
      }
    }
    forall k | k in EntryKeys(all)
      ensures ValuesFor(all, k) == AddEntry(m, e)[k]
    {
      ValuesForAppend(entries, e, k);
      if k !in EntryKeys(entries) {
        ValuesForAbsent(entries, k);
      }
    }
  }

  lemma MultimapNothing()
    ensures Multimap([]) == map[]
  {
  }

  method GetUserProps(data: bytes) returns (props: UserProps)
    ensures props == Multimap(PairsOf(data))
  {
    hide Multimap;
    props := map[];
    MultimapNothing();
    ghost var done: seq<Entry> := [];
    ghost var left := data;
    var strKey := GetBinaryData(data);
    while strKey.Ok?
      invariant strKey == GetBinaryData(left)
      invariant props == Multimap(done)
      invariant PairsOf(data) == done + PairsOf(left)
      decreases |left|
    {
      var val := GetBinaryData(strKey.value.next);
      var e := Entry(strKey.value.data, if val.Ok? then val.value.data else []);
      MultimapAppend(done, e);
      props := AddEntry(props, e);
      ghost var next := if val.Ok? then val.value.next else [];
      assert PairsOf(left) == [e] + PairsOf(next);
      done := done + [e];
      left := next;
      strKey := if val.Ok? then GetBinaryData(val.value.next) else val;
    }
    assert done + PairsOf(left) == done;
  }

  /** A raw value that reads as a row of lengths, each reported with the bytes it takes. */
  predicate Lengths(v: bytes)
    decreases |v|
  {
    v == [] || (var n := VarInt.RemainLength(v).byteCount; 1 <= n <= |v| && Lengths(v[n..]))
  }

  function LengthsIn(v: bytes): seq<nat>
    requires Lengths(v)
    decreases |v|
  {
    if v == [] then [] else [VarInt.RemainLength(v).length] + LengthsIn(v[VarInt.RemainLength(v).byteCount..])
  }

  /** The subscription identifiers of a publish packet; the loop needs its input to be a row
      of lengths, or it may never end. */
  method GetSubIds(v: bytes) returns (ids: seq<nat>)
    requires Lengths(v)
    ensures ids == LengthsIn(v)
  {
    hide VarInt.RemainLength;
    ids := [];
    var i := 0;
    while i < |v|
      invariant i <= |v| && Lengths(v[i..])
      invariant LengthsIn(v) == ids + LengthsIn(v[i..])
      decreases |v| - i
    {
      var reader := new Reader(v[i..]);
      var d, n := VarInt.GetRemainLength(reader);
      assert v[i..][n..] == v[i + n..];
      assert LengthsIn(v[i..]) == [d] + LengthsIn(v[i + n..]);
      ghost var before := ids;
      ids := ids + [d];
      assert before + ([d] + LengthsIn(v[i + n..])) == ids + LengthsIn(v[i + n..]);
      i := i + n;
    }
  }
}
