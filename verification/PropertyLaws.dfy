/** What an accepted MQTT 5 property section guarantees, and what it is accepted for. */
module PropertyLaws {
  import opened Bytes
  import opened Decoder
  import opened Encoder
  import opened Properties
  import VarInt

  // The property table of section 2.2.2.2 of MQTT Version 5.0.

  predicate OneByte(key: byte) {
    key in {1, 23, 25, 36, 37, 40, 41, 42}
  }

  predicate TwoBytes(key: byte) {
    key in {19, 33, 34, 35}
  }

  predicate FourBytes(key: byte) {
    key in {2, 17, 24, 39}
  }

  /** Texts and binary data. */
  predicate Lengthed(key: byte) {
    key in {3, 8, 9, 18, 21, 22, 26, 28, 31}
  }

  /** The parser knows exactly these properties, and lays them out as the table does. */
  lemma {:induction false} KnowsTheTable(key: byte)
    ensures KindOf(key) == Fixed(1) <==> OneByte(key)
    ensures KindOf(key) == Fixed(2) <==> TwoBytes(key)
    ensures KindOf(key) == Fixed(4) <==> FourBytes(key)
    ensures KindOf(key) == Text <==> Lengthed(key)
    ensures KindOf(key) == Length <==> key == 11
    ensures KindOf(key) == Pair <==> key == 38
    ensures KindOf(key).Fixed? ==> KindOf(key).size in {1, 2, 4}
  {
  }

  // Every accepted section is tiled by its chunks.

  /** What a chunk can look like, whether it is followed by other chunks or not. */
  predicate Shaped(c: Chunk, last: bool) {
    if OneByte(c.key) then |c.data| == 1
    else if TwoBytes(c.key) then |c.data| == 2
    else if FourBytes(c.key) then |c.data| == 4
    else if Lengthed(c.key) then if |c.data| < 2 then last else GetUint16(c.data) + 2 == |c.data|
    else if c.key == 11 then if c.data == [] then last else ReadsWhole(c.data)
    else c.key == 38
  }

  /** A length read from `e`, with or without bytes after it, reports all of `e`. */
  predicate ReadsWhole(e: bytes) {
    1 <= |e| <= 5
    && (if |e| == 5 then VarInt.Terminator(e, 4) == 4 else VarInt.Terminator(e, 4) == |e| - 1)
  }

  predicate AllShaped(chunks: seq<Chunk>) {
    forall i :: 0 <= i < |chunks| ==> Shaped(chunks[i], i == |chunks| - 1)
  }

  /** What is left after an odd-sized text is no property, unless the section ends there. */
  lemma TextShaped(window: bytes, left: nat)
    requires 0 < left <= |window| && KindOf(window[0]) == Text
    requires TextSize(window).Some? && 1 + TextSize(window).value <= left
    ensures var size := TextSize(window).value; var p := window[1..1 + size];
      if size < 2 then left == 1 + size || window[1 + size] == 255 else GetUint16(p) + 2 == |p|
  {
    var size := TextSize(window).value;
    var n := GetUint16(window[1..3]);
    assert n == (window[1] as int) * 0x100 + window[2];
    if n >= 65533 {
      assert window[1] == 255 && window[2] >= 253;
    } else {
      assert window[1..1 + size][..2] == window[1..3];
    }
  }

  lemma LengthShaped(window: bytes, left: nat)
    requires 0 < left <= |window|
    requires var size := VarInt.RemainLength(window[1..left]).byteCount; 1 + size <= left
    ensures var size := VarInt.RemainLength(window[1..left]).byteCount; var p := window[1..1 + size];
      if size == 0 then left == 1 || window[1] >= 128 else ReadsWhole(p)
  {
    var s := window[1..left];
    var size := VarInt.RemainLength(s).byteCount;
    var p := window[1..1 + size];
    if size == 0 {
      assert left > 1 ==> window[1] == s[0];
    } else {
      assert p == s[..size];
      VarInt.TerminatorAt(p, 4, VarInt.Terminator(s, 4));
    }
  }

  lemma ChunkShaped(window: bytes, left: nat)
    requires 0 < left <= |window|
    requires ValueSize(window, left).Some? && 1 + ValueSize(window, left).value <= left
    ensures var size := ValueSize(window, left).value;
      Shaped(Chunk(window[0], window[1..1 + size]), left == 1 + size || window[1 + size] >= 128)
  {
    hide KindOf;
    KnowsTheTable(window[0]);
    match KindOf(window[0])
    case Fixed(_) =>
    case Text => TextShaped(window, left);
    case Length => LengthShaped(window, left);
    case Pair =>
  }

  lemma NoPropertyEnds(window: bytes, left: nat)
    requires 0 < left <= |window| && window[0] >= 128
    ensures Split(window, left) == None
  {
    hide KindOf;
    KnowsTheTable(window[0]);
  }

  /** A section goes on with a property, or ends. */
  lemma GoesOn(window: bytes, left: nat)
    requires left <= |window| && Split(window, left).Some?
    ensures left > 0 ==> window[0] < 128
    ensures left == 0 <==> Split(window, left).value == []
  {
    hide ValueSize;
    if left > 0 && window[0] >= 128 {
      NoPropertyEnds(window, left);
    }
  }

  lemma AllShapedFirst(c: Chunk, more: seq<Chunk>)
    requires AllShaped(more) && Shaped(c, more == [])
    ensures AllShaped([c] + more)
  {
    hide Shaped;
    var chunks := [c] + more;
    forall i | 0 <= i < |chunks| ensures Shaped(chunks[i], i == |chunks| - 1) {
      if i > 0 {
        assert chunks[i] == more[i - 1];
      }
    }
  }

  lemma {:induction false} SplitTiles(window: bytes, left: nat)
    requires left <= |window| && Split(window, left).Some?
    ensures var chunks := Split(window, left).value;
      Flatten(chunks) == window[..left] && AllShaped(chunks)
    decreases left
  {
    hide ValueSize, Shaped, AllShaped;
    if left == 0 {
      assert AllShaped([]) by { NothingShaped(); }
    } else {
      var size := ValueSize(window, left).value;
      var after, left' := window[1 + size..], left - 1 - size;
      var c, more := Chunk(window[0], window[1..1 + size]), Split(after, left').value;
      ChunkShaped(window, left);
      SplitTiles(after, left');
      GoesOn(after, left');
      AllShapedFirst(c, more);
      assert ([c] + more)[1..] == more;
      assert window[..left] == [window[0]] + window[1..1 + size] + after[..left'];
    }
  }

  lemma NothingShaped()
    ensures AllShaped([])
  {
  }

  /** Length field, chunks and payload make up the input without gap or overlap. */
  lemma {:induction false} AcceptedSectionTiles(data: bytes)
    requires ParseRawProps(data).Ok?
    ensures var chunks := Section(data).value; var r := ParseRawProps(data).value;
      && AllShaped(chunks)
      && r.props == Gather(chunks)
      && data == data[..VarInt.RemainLength(data).byteCount] + Flatten(chunks) + r.next
  {
    hide Split, Gather, Flatten, Shaped;
    var len := VarInt.RemainLength(data);
    SplitTiles(data[len.byteCount..], len.length);
  }

  // What a list of properties of the standard parses to.

  /** A property as section 2.2.2 of MQTT Version 5.0 defines it. */
  datatype Property =
    | FixedProp(key: byte, data: bytes)
    | TextProp(key: byte, text: bytes)
    | SubIdProp(id: nat)
    | UserProp(name: bytes, value: bytes)

  predicate Standard(p: Property) {
    match p
    case FixedProp(key, data) =>
      (OneByte(key) && |data| == 1) || (TwoBytes(key) && |data| == 2) || (FourBytes(key) && |data| == 4)
    case TextProp(key, text) => Lengthed(key) && |text| <= 65535
    case SubIdProp(id) => id <= VarInt.MAX_MSG_SIZE
    case UserProp(name, value) => |name| <= 65535 && |value| <= 65535
  }

  function RawOf(p: Property): Chunk {
    match p
    case FixedProp(key, data) => Chunk(key, data)
    case TextProp(key, text) => Chunk(key, EncodeBytesWithLen(text))
    case SubIdProp(id) => Chunk(11, VarInt.VarInt(id))
    case UserProp(name, value) => Chunk(38, EncodeBytesWithLen(name) + EncodeBytesWithLen(value))
  }

  function RawOfAll(ps: seq<Property>): seq<Chunk> {
    if ps == [] then [] else [RawOf(ps[0])] + RawOfAll(ps[1..])
  }

  /** The `uint16` offsets hold: texts of at most 65532 bytes, pairs of at most 65530 together. */
  predicate InBounds(p: Property) {
    match p
    case FixedProp(_, _) => true
    case TextProp(_, text) => |text| <= 65532
    case SubIdProp(_) => true
    case UserProp(name, value) => |name| + |value| <= 65530
  }

  /** Length prefix, properties and payload. */
  function SectionOf(ps: seq<Property>, payload: bytes): bytes {
    var body := Flatten(RawOfAll(ps));
    VarInt.VarInt(|body|) + body + payload
  }

  lemma LengthField(data: bytes, rest: bytes)
    requires |data| <= 65535
    ensures var e := EncodeBytesWithLen(data) + rest;
      GetUint16(e) == |data| && e[2..|data| + 2] == data && e[|data| + 2..] == rest
  {
    var e := EncodeBytesWithLen(data) + rest;
    assert e[2..|data| + 2] == data;
  }

  lemma TextAccepted(window: bytes, text: bytes, rest: bytes)
    requires window != [] && window[1..] == EncodeBytesWithLen(text) + rest && |text| <= 65532
    ensures TextSize(window) == Some(|text| + 2)
  {
    LengthField(text, rest);
    assert window[1..3] == window[1..][..2];
  }

  lemma WordAt(s: bytes, i: nat)
    requires i + 2 <= |s|
    ensures GetUint16(s[i..i + 2]) == GetUint16(s[i..])
  {
  }

  lemma PairAccepted(window: bytes, name: bytes, value: bytes, rest: bytes)
    requires window != []
    requires window[1..] == EncodeBytesWithLen(name) + (EncodeBytesWithLen(value) + rest)
    requires |name| + |value| <= 65530
    ensures PairSize(window) == Some(|name| + |value| + 4)
  {
    hide EncodeBytesWithLen, GetUint16;
    TextLength(name);
    TextLength(value);
    LengthField(name, EncodeBytesWithLen(value) + rest);
    LengthField(value, rest);
    WordAt(window, 1);
    var from := |name| + 3;
    assert window[from..] == window[1..][|name| + 2..];
    WordAt(window, from);
  }

  lemma IdAccepted(window: bytes, left: nat, id: nat, rest: bytes)
    requires id <= VarInt.MAX_MSG_SIZE
    requires window != [] && window[1..] == VarInt.VarInt(id) + rest
    requires 1 + |VarInt.VarInt(id)| <= left <= |window|
    ensures VarInt.RemainLength(window[1..left]).byteCount == |VarInt.VarInt(id)|
  {
    var e := VarInt.VarInt(id);
    VarInt.ReadsEncoded(id, window[1..left][|e|..]);
    assert window[1..left] == e + window[1..left][|e|..];
  }

  lemma PropertyAccepted(p: Property, rest: bytes, left: nat)
    requires Standard(p) && InBounds(p)
    requires var c := RawOf(p); 1 + |c.data| <= left <= 1 + |c.data| + |rest|
    ensures var c := RawOf(p);
      ValueSize([c.key] + c.data + rest, left) == Some(|c.data|)
  {
    hide VarInt.RemainLength, TextSize, PairSize, EncodeBytesWithLen, VarInt.VarInt, KindOf;
    var c := RawOf(p);
    var window := [c.key] + c.data + rest;
    assert window[1..] == c.data + rest;
    KnowsTheTable(c.key);
    match p
    case FixedProp(_, _) =>
    case TextProp(_, text) => TextAccepted(window, text, rest); TextLength(text);
    case SubIdProp(id) => IdAccepted(window, left, id, rest);
    case UserProp(name, value) =>
      assert window[1..] == EncodeBytesWithLen(name) + (EncodeBytesWithLen(value) + rest);
      PairAccepted(window, name, value, rest);
      TextLength(name);
      TextLength(value);
  }

  lemma TextLength(data: bytes)
    ensures |EncodeBytesWithLen(data)| == |data| + 2
  {
  }

  lemma SplitFirst(window: bytes, left: nat, c: Chunk, more: seq<Chunk>)
    requires 1 + |c.data| <= left <= |window| && ValueSize(window, left) == Some(|c.data|)
    requires window[0] == c.key && window[1..1 + |c.data|] == c.data
    requires Split(window[1 + |c.data|..], left - 1 - |c.data|) == Some(more)
    ensures Split(window, left) == Some([c] + more)
  {
    hide ValueSize;
  }

  lemma {:induction false} SplitsStandard(ps: seq<Property>, payload: bytes)
    requires forall i :: 0 <= i < |ps| ==> Standard(ps[i]) && InBounds(ps[i])
    ensures var body := Flatten(RawOfAll(ps));
      Split(body + payload, |body|) == Some(RawOfAll(ps))
  {
    hide ValueSize, Standard, InBounds, RawOf;
    var body := Flatten(RawOfAll(ps));
    if ps != [] {
      hide Split;
      var c, rest := RawOf(ps[0]), Flatten(RawOfAll(ps[1..]));
      assert RawOfAll(ps)[0] == c && RawOfAll(ps)[1..] == RawOfAll(ps[1..]);
      assert body == [c.key] + c.data + rest;
      var window := body + payload;
      assert window == [c.key] + c.data + (rest + payload);
      PropertyAccepted(ps[0], rest + payload, |body|);
      SplitsStandard(ps[1..], payload);
      assert window[1 + |c.data|..] == rest + payload;
      assert window[1..1 + |c.data|] == c.data;
      SplitFirst(window, |body|, c, RawOfAll(ps[1..]));
    }
  }

  /** Any list of properties within the bounds parses to its values by key, and to its payload. */
  lemma {:induction false} ParsesStandardProperties(ps: seq<Property>, payload: bytes)
    requires forall i :: 0 <= i < |ps| ==> Standard(ps[i]) && InBounds(ps[i])
    requires |Flatten(RawOfAll(ps))| <= VarInt.MAX_MSG_SIZE
    ensures ParseRawProps(SectionOf(ps, payload)) == Ok(RawProps(Gather(RawOfAll(ps)), payload))
  {
    hide Split, Gather, Standard, InBounds, VarInt.VarInt, VarInt.RemainLength;
    var body, data := Flatten(RawOfAll(ps)), SectionOf(ps, payload);
    assert data == VarInt.VarInt(|body|) + (body + payload);
    VarInt.ReadsEncoded(|body|, body + payload);
    SplitsStandard(ps, payload);
    assert data[|VarInt.VarInt(|body|)|..] == body + payload;
    assert data[SectionEnd(data)..] == payload;
  }

  /** Exactness: one property, whatever follows, comes back if and only if it is in bounds. */
  lemma {:induction false} SinglePropertyExact(p: Property, payload: bytes)
    requires Standard(p)
    ensures ParseRawProps(SectionOf([p], payload)) == Ok(RawProps(map[RawOf(p).key := RawOf(p).data], payload))
            <==> InBounds(p)
  {
    var c := RawOf(p);
    assert RawOfAll([p]) == [c];
    assert Gather([c]) == map[c.key := c.data] by {
      assert [c][0].key in KeysOf([c]);
      assert ValuesOf([c], c.key) == c.data;
    }
    PropertyLength(p);
    if InBounds(p) {
      ParsesStandardProperties([p], payload);
    } else if ParseRawProps(SectionOf([p], payload)) == Ok(RawProps(map[c.key := c.data], payload)) {
      OversizeRejected(p, payload);
    }
  }

  lemma PropertyLength(p: Property)
    requires Standard(p)
    ensures |RawOf(p).data| <= 131074
    ensures |RawOf(p).data| <= 65534 <==> InBounds(p)
  {
    match p
    case FixedProp(_, _) =>
    case TextProp(_, text) => TextLength(text);
    case SubIdProp(id) => VarInt.EncodedLength(id);
    case UserProp(name, value) => TextLength(name); TextLength(value);
  }

  /** No chunk reaches 65535 bytes. */
  lemma {:induction false} ChunksSmall(window: bytes, left: nat)
    requires left <= |window| && Split(window, left).Some?
    ensures forall c :: c in Split(window, left).value ==> |c.data| <= 65534
    decreases left
  {
    if left > 0 {
      SizeSmall(window, left);
      var size := ValueSize(window, left).value;
      hide ValueSize;
      ChunksSmall(window[1 + size..], left - 1 - size);
    }
  }

  lemma SizeSmall(window: bytes, left: nat)
    requires 0 < left <= |window| && ValueSize(window, left).Some?
    ensures ValueSize(window, left).value <= 65534
  {
  }

  lemma {:induction false} GatheredLength(chunks: seq<Chunk>, key: byte)
    ensures |ValuesOf(chunks, key)| + |chunks| <= |Flatten(chunks)|
  {
    if chunks != [] {
      GatheredLength(chunks[1..], key);
    }
  }

  lemma OneChunk(chunks: seq<Chunk>)
    requires |chunks| == 1
    ensures chunks[0] in chunks && chunks[1..] == []
  {
  }

  /** An oversize value would have to be one chunk, for lack of bytes to make up two. */
  lemma OversizeRejected(p: Property, payload: bytes)
    requires Standard(p) && !InBounds(p)
    ensures ParseRawProps(SectionOf([p], payload)) != Ok(RawProps(map[RawOf(p).key := RawOf(p).data], payload))
  {
    hide ValueSize, RawOf, Standard, InBounds, VarInt.VarInt, VarInt.RemainLength;
    var c, data := RawOf(p), SectionOf([p], payload);
    PropertyLength(p);
    assert RawOfAll([p]) == [c];
    var body := Flatten([c]);
    assert [c][1..] == [];
    assert body == [c.key] + c.data + Flatten([c][1..]);
    assert data == VarInt.VarInt(|body|) + (body + payload);
    VarInt.ReadsEncoded(|body|, body + payload);
    var window := data[|VarInt.VarInt(|body|)|..];
    assert window == body + payload;
    if ParseRawProps(data).Ok? {
      var chunks := Section(data).value;
      assert chunks == Split(window, |body|).value;
      SplitTiles(window, |body|);
      ChunksSmall(window, |body|);
      GatheredLength(chunks, c.key);
      assert [c.key] + c.data == Flatten(chunks);
      if c.key in Gather(chunks) {
        assert Gather(chunks)[c.key] == ValuesOf(chunks, c.key);
        if |chunks| == 1 {
          OneChunk(chunks);
        }
      }
    }
  }

  // User properties.

  function EntriesOf(ps: seq<Property>): seq<Entry> {
    if ps == [] then []
    else (if ps[0].UserProp? then [Entry(ps[0].name, ps[0].value)] else []) + EntriesOf(ps[1..])
  }

  function WireOf(entries: seq<Entry>): bytes {
    if entries == [] then []
    else EncodeBytesWithLen(entries[0].key) + EncodeBytesWithLen(entries[0].value) + WireOf(entries[1..])
  }

  lemma FieldBack(data: bytes, rest: bytes)
    requires |data| <= 65535
    ensures GetBinaryData(EncodeBytesWithLen(data) + rest) == Ok(Field(data, rest))
  {
    LengthField(data, rest);
  }

  /** Pairs written one after the other are read back in order. */
  lemma {:induction false} PairsBack(entries: seq<Entry>)
    requires forall e :: e in entries ==> |e.key| <= 65535 && |e.value| <= 65535
    ensures PairsOf(WireOf(entries)) == entries
  {
    hide EncodeBytesWithLen, GetBinaryData;
    if entries == [] {
      NoFieldInNothing();
    } else {
      var e, rest := entries[0], WireOf(entries[1..]);
      assert WireOf(entries) == EncodeBytesWithLen(e.key) + (EncodeBytesWithLen(e.value) + rest);
      FieldBack(e.key, EncodeBytesWithLen(e.value) + rest);
      FieldBack(e.value, rest);
      PairsBack(entries[1..]);
    }
  }

  /** A pair cut short after its key has an empty value. */
  lemma {:induction false} CutPairRead(key: bytes, tail: bytes)
    requires |key| <= 65535 && GetBinaryData(tail).Err?
    ensures PairsOf(EncodeBytesWithLen(key) + tail) == [Entry(key, [])]
  {
    hide EncodeBytesWithLen, GetBinaryData;
    FieldBack(key, tail);
  }

  lemma NoFieldInNothing()
    ensures GetBinaryData([]).Err?
  {
  }

  lemma OtherKey(p: Property)
    requires Standard(p) && !p.UserProp?
    ensures RawOf(p).key != USER_PROPS
  {
  }

  lemma {:induction false} UserValues(ps: seq<Property>)
    requires forall i :: 0 <= i < |ps| ==> Standard(ps[i])
    ensures ValuesOf(RawOfAll(ps), USER_PROPS) == WireOf(EntriesOf(ps))
  {
    hide Standard, EncodeBytesWithLen, VarInt.VarInt;
    if ps != [] {
      UserValues(ps[1..]);
      assert RawOfAll(ps)[1..] == RawOfAll(ps[1..]);
      if ps[0].UserProp? {
        var e := Entry(ps[0].name, ps[0].value);
        assert EntriesOf(ps) == [e] + EntriesOf(ps[1..]);
        assert EntriesOf(ps)[1..] == EntriesOf(ps[1..]);
        assert WireOf(EntriesOf(ps))
               == EncodeBytesWithLen(e.key) + EncodeBytesWithLen(e.value) + WireOf(EntriesOf(ps[1..]));
      } else {
        OtherKey(ps[0]);
        assert EntriesOf(ps) == EntriesOf(ps[1..]);
      }
    }
  }

  lemma {:induction false} EntriesSmall(ps: seq<Property>)
    requires forall i :: 0 <= i < |ps| ==> Standard(ps[i])
    ensures forall e :: e in EntriesOf(ps) ==> |e.key| <= 65535 && |e.value| <= 65535
  {
    if ps != [] {
      EntriesSmall(ps[1..]);
    }
  }

  /** The user properties of a list, wherever they stand in it, come back as its multimap. */
  lemma {:induction false} UserPropertiesBack(ps: seq<Property>, payload: bytes)
    requires forall i :: 0 <= i < |ps| ==> Standard(ps[i]) && InBounds(ps[i])
    requires |Flatten(RawOfAll(ps))| <= VarInt.MAX_MSG_SIZE
    ensures var r := ParseRawProps(SectionOf(ps, payload));
      && r.Ok?
      && (USER_PROPS in r.value.props ==>
            Multimap(PairsOf(r.value.props[USER_PROPS])) == Multimap(EntriesOf(ps)))
      && (USER_PROPS !in r.value.props ==> EntriesOf(ps) == [])
  {
    hide Standard, InBounds, SectionOf, ParseRawProps, Multimap, Flatten;
    ParsesStandardProperties(ps, payload);
    UserValues(ps);
    EntriesSmall(ps);
    PairsBack(EntriesOf(ps));
    if USER_PROPS !in KeysOf(RawOfAll(ps)) {
      ValuesOfAbsent(RawOfAll(ps), USER_PROPS);
      EmptyWire(EntriesOf(ps));
    }
  }

  lemma EmptyWire(entries: seq<Entry>)
    requires WireOf(entries) == []
    ensures entries == []
  {
  }

  // Subscription identifiers.

  /** The values of the non-empty identifier chunks. */
  function IdChunks(chunks: seq<Chunk>): seq<nat> {
    if chunks == [] then []
    else (if chunks[0].key == SUB_ID && chunks[0].data != [] then [VarInt.RemainLength(chunks[0].data).length] else [])
         + IdChunks(chunks[1..])
  }

  lemma WholeLength(e: bytes, rest: bytes)
    requires ReadsWhole(e)
    ensures VarInt.RemainLength(e + rest).byteCount == |e|
    ensures VarInt.RemainLength(e + rest).length == VarInt.RemainLength(e).length
  {
    VarInt.TerminatorAt(e + rest, 4, VarInt.Terminator(e, 4));
    if |e| == 5 {
      assert (e + rest)[..4] == e[..4];
    } else {
      assert (e + rest)[..|e|] == e[..|e|];
    }
  }

  lemma {:induction false} IdLoop(chunks: seq<Chunk>)
    requires AllShaped(chunks)
    ensures var v := ValuesOf(chunks, SUB_ID);
      Lengths(v) && LengthsIn(v) == IdChunks(chunks)
  {
    if chunks != [] {
      var c, rest := chunks[0], ValuesOf(chunks[1..], SUB_ID);
      assert AllShaped(chunks[1..]) by {
        forall i | 0 <= i < |chunks[1..]| ensures Shaped(chunks[1..][i], i == |chunks[1..]| - 1) {
          assert chunks[1..][i] == chunks[i + 1];
        }
      }
      IdLoop(chunks[1..]);
      if c.key == SUB_ID && c.data != [] {
        WholeLength(c.data, rest);
        assert ValuesOf(chunks, SUB_ID) == c.data + rest;
        assert (c.data + rest)[|c.data|..] == rest;
      } else {
        assert ValuesOf(chunks, SUB_ID) == rest;
      }
    }
  }

  /** Whatever section was accepted, the identifier loop ends, with one id a non-empty chunk. */
  lemma {:induction false} SubIdsOfAccepted(data: bytes)
    requires ParseRawProps(data).Ok? && SUB_ID in ParseRawProps(data).value.props
    ensures var v := ParseRawProps(data).value.props[SUB_ID];
      Lengths(v) && LengthsIn(v) == IdChunks(Section(data).value)
  {
    AcceptedSectionTiles(data);
    IdLoop(Section(data).value);
  }

  /** On a value that no section delivers, the loop would stand still. */
  lemma {:induction false} IdLoopNeedsTiling()
    ensures !Lengths([128]) && VarInt.RemainLength([128]) == VarInt.LenRead(0, 0, [])
  {
    VarInt.TerminatorAt([128], 4, 1);
  }
}
