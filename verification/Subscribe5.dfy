/** The MQTT 5 subscribe packet, the one packet whose properties are written as they are read. */
module Subscribe5 {
  import opened Bytes
  import opened Codec
  import opened Decoder
  import opened Encoder
  import opened Packets
  import opened Properties
  import opened PropertyLaws
  import opened Streams
  import opened V5Decoder
  import RoundTrip
  import VarInt

  datatype SubscribeProps = SubscribeProps(subId: int, userProps: UserProps)

  /** An order in which a map's keys are visited. */
  ghost predicate Visits(order: seq<bytes>, u: UserProps) {
    && (forall i :: 0 <= i < |order| ==> order[i] in u)
    && (forall k :: k in u ==> k in order)
    && (forall i, j :: 0 <= i < j < |order| ==> order[i] != order[j])
  }

  /** The pairs of a multimap, its keys visited in the given order. */
  function Listing(u: UserProps, order: seq<bytes>): seq<Entry>
    requires forall i :: 0 <= i < |order| ==> order[i] in u
  {
    if order == [] then []
    else PairsFor(order[0], u[order[0]]) + Listing(u, order[1..])
  }

  function PairsFor(key: bytes, values: seq<bytes>): seq<Entry> {
    if values == [] then [] else [Entry(key, values[0])] + PairsFor(key, values[1..])
  }

  function PropsBytes(subId: int, userProps: UserProps, order: seq<bytes>): bytes
    requires forall i :: 0 <= i < |order| ==> order[i] in userProps
  {
    (if subId != 0 then [SUB_ID] + (if VarInt.Encode(subId).Ok? then VarInt.Encode(subId).value else []) else [])
    + (if userProps != map[] then [USER_PROPS] + WireOf(Listing(userProps, order)) else [])
  }

  function SubscribeBody(id: u16, props: bytes, topics: seq<Topic>): bytes {
    PutUint16(id) + VarInt.VarInt(|props|) + props + SubscribePayload(topics)
  }

  lemma WireOfFirst(e: Entry, more: seq<Entry>)
    ensures WireOf([e] + more) == EncodeBytesWithLen(e.key) + EncodeBytesWithLen(e.value) + WireOf(more)
  {
    assert ([e] + more)[1..] == more;
  }

  lemma WireOfOne(e: Entry)
    ensures WireOf([e]) == EncodeBytesWithLen(e.key) + EncodeBytesWithLen(e.value)
  {
    hide EncodeBytesWithLen;
    assert [e][1..] == [];
  }

  lemma {:induction false} WireOfConcat(a: seq<Entry>, b: seq<Entry>)
    ensures WireOf(a + b) == WireOf(a) + WireOf(b)
  {
    hide EncodeBytesWithLen, WireOf;
    if a == [] {
      assert a + b == b;
      WireOfNothing();
    } else {
      WireOfConcat(a[1..], b);
      WireOfFirst(a[0], a[1..]);
      WireOfFirst(a[0], a[1..] + b);
      assert [a[0]] + a[1..] == a;
      assert [a[0]] + (a[1..] + b) == a + b;
    }
  }

  lemma WireOfNothing()
    ensures WireOf([]) == []
  {
  }

  /** Appends the pairs of one key. */
  method EncodeValues(k: bytes, v: seq<bytes>, start: bytes) returns (result: bytes)
    ensures result == start + WireOf(PairsFor(k, v))
  {
    hide EncodeBytesWithLen, WireOf;
    result := start;
    for j := 0 to |v|
      invariant result + WireOf(PairsFor(k, v[j..])) == start + WireOf(PairsFor(k, v))
    {
      ghost var before := result;
      result := result + EncodeBytesWithLen(k);
      result := result + EncodeBytesWithLen(v[j]);
      assert v[j..][1..] == v[j + 1..];
      WireOfFirst(Entry(k, v[j]), PairsFor(k, v[j + 1..]));
      assert before + WireOf(PairsFor(k, v[j..])) == result + WireOf(PairsFor(k, v[j + 1..]));
    }
    WireOfNothing();
  }

  /** Appends the pairs of all keys, in the order the map is visited. */
  method EncodeUserProps(u: UserProps, order: seq<bytes>, start: bytes) returns (result: bytes)
    requires Visits(order, u)
    ensures result == start + WireOf(Listing(u, order))
  {
    hide WireOf;
    result := start;
    for i := 0 to |order|
      invariant result + WireOf(Listing(u, order[i..])) == start + WireOf(Listing(u, order))
    {
      ghost var before := result;
      result := EncodeValues(order[i], u[order[i]], result);
      assert order[i..][1..] == order[i + 1..];
      WireOfConcat(PairsFor(order[i], u[order[i]]), Listing(u, order[i + 1..]));
      assert before + WireOf(Listing(u, order[i..])) == result + WireOf(Listing(u, order[i + 1..]));
    }
    WireOfNothing();
  }

  method SubscribePropsBytes(props: SubscribeProps, order: seq<bytes>) returns (result: bytes)
    requires Visits(order, props.userProps)
    ensures result == PropsBytes(props.subId, props.userProps, order)
  {
    hide WireOf, Listing, VarInt.VarInt;
    result := [];
    if props.subId != 0 {
      var subIdBytes := VarInt.VarIntBytes(props.subId);
      result := result + [SUB_ID];
      result := result + (if subIdBytes.Ok? then subIdBytes.value else []);
    }
    if |props.userProps| != 0 {
      result := result + [USER_PROPS];
      result := EncodeUserProps(props.userProps, order, result);
    }
  }

  /** Writes the packet; the first byte stays behind when it is too large. */
  method WriteSubscribe5(id: u16, props: SubscribeProps, order: seq<bytes>, topics: seq<Topic>, w: Writer)
    returns (err: Option<Error>)
    requires Visits(order, props.userProps)
    modifies w
    ensures var p := PropsBytes(props.subId, props.userProps, order);
      if |p| > VarInt.MAX_MSG_SIZE then err == Some(EncodeLargePacket) && w.out == old(w.out)
      else match VarInt.Encode(|SubscribeBody(id, p, topics)|)
        case Ok(len) => err == None && w.out == old(w.out) + ([0x82] + len + SubscribeBody(id, p, topics))
        case Err(e) => err == Some(e) && w.out == old(w.out) + [0x82]
  {
    var propsBytes := SubscribePropsBytes(props, order);
    var payload := SubscribePayloadBytes(topics);
    var propsLengthBytes := VarInt.VarIntBytes(|propsBytes|);
    if propsLengthBytes.Err? {
      return Some(propsLengthBytes.error);
    }
    err := WriteBase(w, 0x82, PutUint16(id) + propsLengthBytes.value + propsBytes, payload);
  }

  // The round trip.

  ghost predicate Encodable(subId: int, userProps: UserProps, order: seq<bytes>) {
    && 0 <= subId <= VarInt.MAX_MSG_SIZE
    && Visits(order, userProps)
    && (forall k, v :: k in userProps && v in userProps[k] ==> |k| + |v| <= 65530)
  }

  /** Every key has a value, as in a multimap built by adding pairs. */
  predicate Valued(u: UserProps) {
    forall k :: k in u ==> u[k] != []
  }

  /** Without the keys that have none. */
  function WithValues(u: UserProps): (r: UserProps)
    ensures r == u <==> Valued(u)
  {
    var r := map k | k in u && u[k] != [] :: u[k];
    assert forall k :: k in u && u[k] == [] ==> k !in r;
    r
  }

  /** What decoding should set. */
  function PropsRead(subId: nat, userProps: UserProps): Props {
    (if subId != 0 then map[SUB_ID := Number(subId)] else map[])
    + (if userProps != map[] then map[USER_PROPS := Users(userProps)] else map[])
  }

  function IdPart(subId: nat): seq<Property> {
    if subId != 0 then [SubIdProp(subId)] else []
  }

  function UserPart(entries: seq<Entry>): seq<Property> {
    if entries != [] then [UserProp(entries[0].key, entries[0].value)] else []
  }

  /** Whatever order the keys are visited in, the pairs make up the multimap again, but for keys
      without a value. */
  lemma {:induction false} ListingMakesMap(u: UserProps, order: seq<bytes>)
    requires Visits(order, u)
    ensures Multimap(Listing(u, order)) == WithValues(u)
  {
    hide Listing, ValuesFor, EntryKeys, Valued;
    var entries := Listing(u, order);
    forall k: bytes
      ensures ValuesFor(entries, k) == if k in u then u[k] else []
      ensures k in EntryKeys(entries) <==> ValuesFor(entries, k) != []
    {
      ListingValues(u, order, k);
      KeyHasValue(entries, k);
    }
  }

  lemma {:induction false} KeyHasValue(entries: seq<Entry>, k: bytes)
    ensures k in EntryKeys(entries) <==> ValuesFor(entries, k) != []
  {
    if k !in EntryKeys(entries) {
      ValuesForAbsent(entries, k);
    } else {
      var i :| 0 <= i < |entries| && entries[i].key == k;
      if i > 0 {
        assert entries[1..][i - 1].key == k;
        KeyHasValue(entries[1..], k);
      }
    }
  }

  lemma {:induction false} ListingValues(u: UserProps, order: seq<bytes>, k: bytes)
    requires forall i :: 0 <= i < |order| ==> order[i] in u
    requires forall i, j :: 0 <= i < j < |order| ==> order[i] != order[j]
    ensures ValuesFor(Listing(u, order), k) == if k in order then u[k] else []
  {
    if order != [] {
      ListingValues(u, order[1..], k);
      ValuesForConcat(PairsFor(order[0], u[order[0]]), Listing(u, order[1..]), k);
      ValuesForPairs(order[0], u[order[0]], k);
      assert k in order <==> k == order[0] || k in order[1..];
      assert k == order[0] ==> k !in order[1..];
    }
  }

  lemma {:induction false} ValuesForConcat(a: seq<Entry>, b: seq<Entry>, k: bytes)
    ensures ValuesFor(a + b, k) == ValuesFor(a, k) + ValuesFor(b, k)
  {
    if a == [] {
      assert a + b == b;
    } else {
      ValuesForConcat(a[1..], b, k);
      assert (a + b)[0] == a[0] && (a + b)[1..] == a[1..] + b;
      var first := if a[0].key == k then [a[0].value] else [];
      assert first + (ValuesFor(a[1..], k) + ValuesFor(b, k)) == first + ValuesFor(a[1..], k) + ValuesFor(b, k);
    }
  }

  lemma {:induction false} ValuesForPairs(key: bytes, values: seq<bytes>, k: bytes)
    ensures ValuesFor(PairsFor(key, values), k) == if k == key then values else []
  {
    if values != [] {
      ValuesForPairs(key, values[1..], k);
      assert PairsFor(key, values)[1..] == PairsFor(key, values[1..]);
      assert [values[0]] + values[1..] == values;
    }
  }

  lemma {:induction false} ListingKeys(u: UserProps, order: seq<bytes>)
    requires forall i :: 0 <= i < |order| ==> order[i] in u
    ensures forall e :: e in Listing(u, order) ==> e.key in u && e.value in u[e.key]
  {
    if order != [] {
      ListingKeys(u, order[1..]);
      PairsForKeys(order[0], u[order[0]]);
    }
  }

  lemma {:induction false} PairsForKeys(key: bytes, values: seq<bytes>)
    ensures forall e :: e in PairsFor(key, values) ==> e.key == key && e.value in values
  {
    if values != [] {
      PairsForKeys(key, values[1..]);
    }
  }

  lemma {:induction false} ListingBounds(subId: int, u: UserProps, order: seq<bytes>)
    requires Encodable(subId, u, order)
    ensures forall e :: e in Listing(u, order) ==> |e.key| + |e.value| <= 65530
    ensures Listing(u, order) != [] ==> u != map[]
  {
    ListingKeys(u, order);
    if Listing(u, order) != [] {
      assert Listing(u, order)[0].key in u;
    }
  }

  /** A key byte is written for one pair, and none where there is nothing to write. */
  ghost predicate SinglePair(u: UserProps, order: seq<bytes>)
    requires Visits(order, u)
  {
    |Listing(u, order)| == 1 || u == map[]
  }

  /** Then what is written is the wire form of a list of properties. */
  lemma PropsAreProperties(subId: int, u: UserProps, order: seq<bytes>)
    requires Encodable(subId, u, order) && SinglePair(u, order)
    ensures var ps := IdPart(subId) + UserPart(Listing(u, order));
      && PropsBytes(subId, u, order) == Flatten(RawOfAll(ps))
      && forall i :: 0 <= i < |ps| ==> Standard(ps[i]) && InBounds(ps[i])
  {
    hide EncodeBytesWithLen, VarInt.VarInt, Listing, Flatten, RawOfAll, WireOf, RawOf, KindOf, PropsBytes, Encodable;
    EncodableGives(subId, u, order);
    ListingBounds(subId, u, order);
    NoKeysNoPairs(u, order);
    PropsWritten(subId, u, order);
  }

  lemma NoKeysNoPairs(u: UserProps, order: seq<bytes>)
    requires Visits(order, u)
    ensures u == map[] ==> Listing(u, order) == []
  {
    assert order != [] ==> order[0] in u;
  }

  lemma PropsWritten(subId: int, u: UserProps, order: seq<bytes>)
    requires Visits(order, u) && 0 <= subId <= VarInt.MAX_MSG_SIZE && |Listing(u, order)| <= 1
    requires Listing(u, order) == [] <==> u == map[]
    ensures PropsBytes(subId, u, order) == Flatten(RawOfAll(IdPart(subId) + UserPart(Listing(u, order))))
  {
    hide EncodeBytesWithLen, VarInt.VarInt, Listing, Flatten, RawOfAll, WireOf, RawOf, KindOf, UserPart, IdPart;
    var entries := Listing(u, order);
    RawOfAllConcat(IdPart(subId), UserPart(entries));
    FlattenConcat(RawOfAll(IdPart(subId)), RawOfAll(UserPart(entries)));
    IdWritten(subId);
    UserWritten(entries);
  }

  lemma IdWritten(subId: nat)
    requires subId <= VarInt.MAX_MSG_SIZE
    ensures Flatten(RawOfAll(IdPart(subId))) == if subId != 0 then [SUB_ID] + VarInt.VarInt(subId) else []
  {
    hide VarInt.VarInt;
    if subId != 0 {
      RawOfOne(SubIdProp(subId));
      FlattenOne(RawOf(SubIdProp(subId)));
    }
  }

  lemma UserWritten(entries: seq<Entry>)
    requires |entries| <= 1
    ensures Flatten(RawOfAll(UserPart(entries))) == if entries != [] then [USER_PROPS] + WireOf(entries) else []
  {
    hide EncodeBytesWithLen, Flatten, RawOfAll, WireOf;
    if entries != [] {
      var p := UserProp(entries[0].key, entries[0].value);
      RawOfOne(p);
      FlattenOne(RawOf(p));
      assert entries == [entries[0]];
      WireOfOne(entries[0]);
    } else {
      assert RawOfAll([]) == [] && Flatten([]) == [] by { NothingWritten(); }
    }
  }

  lemma NothingWritten()
    ensures RawOfAll([]) == [] && Flatten([]) == []
  {
  }

  lemma RawOfOne(p: Property)
    ensures RawOfAll([p]) == [RawOf(p)]
  {
    assert [p][1..] == [];
  }

  lemma FlattenOne(c: Chunk)
    ensures Flatten([c]) == [c.key] + c.data
  {
    assert [c][1..] == [];
  }

  lemma {:induction false} RawOfAllConcat(a: seq<Property>, b: seq<Property>)
    ensures RawOfAll(a + b) == RawOfAll(a) + RawOfAll(b)
  {
    hide RawOf;
    if a == [] {
      assert a + b == b;
    } else {
      RawOfAllConcat(a[1..], b);
      assert (a + b)[0] == a[0] && (a + b)[1..] == a[1..] + b;
      var first := [RawOf(a[0])];
      assert first + (RawOfAll(a[1..]) + RawOfAll(b)) == first + RawOfAll(a[1..]) + RawOfAll(b);
    }
  }

  lemma Nested(a: bytes, b: bytes, c: bytes)
    ensures a + b + c == a + (b + c)
  {
  }

  lemma {:induction false} FlattenConcat(a: seq<Chunk>, b: seq<Chunk>)
    ensures Flatten(a + b) == Flatten(a) + Flatten(b)
  {
    if a == [] {
      assert a + b == b;
    } else {
      FlattenConcat(a[1..], b);
      assert (a + b)[0] == a[0] && (a + b)[1..] == a[1..] + b;
      Nested([a[0].key] + a[0].data, Flatten(a[1..]), Flatten(b));
    }
  }

  lemma PropsBack(subId: int, u: UserProps, order: seq<bytes>)
    requires Encodable(subId, u, order) && |Listing(u, order)| <= 1
    ensures var raw := Gather(RawOfAll(IdPart(subId) + UserPart(Listing(u, order))));
      Readable(raw) && SetProps(raw, SUBSCRIBE_PROPS, false) == PropsRead(subId, WithValues(u))
  {
    hide Listing, KindOf, ReadValue, ReadableValue, VarInt.VarInt, EncodeBytesWithLen, Gather, RawOfAll, WireOf,
      Multimap, Encodable, WithValues;
    EncodableGives(subId, u, order);
    var entries := Listing(u, order);
    ListingBounds(subId, u, order);
    ListingMakesMap(u, order);
    GatherParts(subId, entries);
    if subId != 0 {
      SubIdValue(subId);
    }
    if entries != [] {
      assert entries == [entries[0]];
      assert entries[0] in entries;
      UserValue(entries[0]);
      FirstKey(entries);
    } else {
      MultimapNothing();
    }
  }

  lemma FirstKey(entries: seq<Entry>)
    requires entries != []
    ensures Multimap(entries) != map[]
  {
    assert entries[0].key in Multimap(entries);
  }

  lemma EncodableGives(subId: int, u: UserProps, order: seq<bytes>)
    requires Encodable(subId, u, order)
    ensures 0 <= subId <= VarInt.MAX_MSG_SIZE && Visits(order, u)
  {
  }

  lemma GatherFresh(chunks: seq<Chunk>, c: Chunk)
    requires c.key !in Gather(chunks)
    ensures Gather(chunks + [c]) == Gather(chunks)[c.key := c.data]
  {
    hide Gather;
    GatherAppend(chunks, c);
    assert [] + c.data == c.data;
  }

  lemma GatherParts(subId: nat, entries: seq<Entry>)
    requires |entries| <= 1
    ensures Gather(RawOfAll(IdPart(subId) + UserPart(entries)))
            == (if subId != 0 then map[SUB_ID := VarInt.VarInt(subId)] else map[])
               + (if entries != [] then map[USER_PROPS := WireOf(entries)] else map[])
  {
    hide EncodeBytesWithLen, VarInt.VarInt, Gather, RawOfAll, WireOf;
    RawOfAllConcat(IdPart(subId), UserPart(entries));
    NothingWritten();
    GatherNothing();
    var id, user: seq<Chunk> := [], [];
    if subId != 0 {
      RawOfOne(SubIdProp(subId));
      id := [RawOf(SubIdProp(subId))];
      GatherFresh([], id[0]);
      assert [] + id == id;
    }
    if entries != [] {
      var p := UserProp(entries[0].key, entries[0].value);
      RawOfOne(p);
      user := [RawOf(p)];
      assert entries == [entries[0]] + [];
      WireOfFirst(entries[0], []);
      assert WireOf([]) == [] by { WireOfNothing(); }
      assert user[0].data == WireOf(entries);
      GatherFresh(id, user[0]);
    } else {
      assert id + user == id;
    }
  }

  lemma SubIdValue(subId: nat)
    requires subId <= VarInt.MAX_MSG_SIZE
    ensures var v := VarInt.VarInt(subId);
      ReadableValue(SUB_ID, v) && ReadValue(SUB_ID, v, false) == Some(Number(subId))
  {
    var v := VarInt.VarInt(subId);
    VarInt.ReadsEncoded(subId, []);
    assert v + [] == v;
  }

  lemma UserValue(e: Entry)
    requires |e.key| <= 65535 && |e.value| <= 65535
    ensures ReadableValue(USER_PROPS, WireOf([e]))
    ensures ReadValue(USER_PROPS, WireOf([e]), false) == Some(Users(Multimap([e])))
  {
    hide WireOf, Multimap, PairsOf;
    PairsBack([e]);
  }

  function Wire5(id: u16, props: bytes, topics: seq<Topic>): bytes {
    var body := SubscribeBody(id, props, topics);
    [0x82] + VarInt.VarInt(|body|) + body
  }

  /** A body that fits is cut out of the stream and parsed as a subscribe packet. */
  lemma DecodesBody(id: u16, props: bytes, topics: seq<Topic>, rest: bytes)
    requires |SubscribeBody(id, props, topics)| <= VarInt.MAX_MSG_SIZE
    ensures |SubscribeBody(id, props, topics)| >= 2
    ensures Decode(V5, Wire5(id, props, topics) + rest)
            == (match ParseSubscribe5(SubscribeBody(id, props, topics))
                case Ok(p) => Ok(WithProps(p))
                case Err(e) => Err(e), rest)
  {
    hide VarInt.VarInt, VarInt.RemainLength, ParseSubscribe5, SubscribePayload;
    var body := SubscribeBody(id, props, topics);
    var s := Wire5(id, props, topics) + rest;
    assert s[1..] == VarInt.VarInt(|body|) + (body + rest);
    VarInt.ReadsEncoded(|body|, body + rest);
    assert (body + rest)[..|body|] == body;
    assert (body + rest)[|body|..] == rest;
    ShrIsDiv(0x82, 4);
  }

  /** The property section of a packet that fits is parsed, and the topics behind it come back. */
  lemma DecodesSection(id: u16, props: bytes, topics: seq<Topic>, rest: bytes)
    requires forall t :: t in topics ==> RoundTrip.Short(t.name)
    requires |SubscribeBody(id, props, topics)| <= VarInt.MAX_MSG_SIZE
    ensures Decode(V5, Wire5(id, props, topics) + rest)
            == (match ParseProps(VarInt.VarInt(|props|) + (props + SubscribePayload(topics)))
                case Ok(r) =>
                  Ok(WithProps(V5Packet(Subscribe(id, topics), 0, SetProps(r.props, SUBSCRIBE_PROPS, false))))
                case Err(e) => Err(e), rest)
  {
    hide VarInt.VarInt, SubscribePayload, Decode, Wire5, ParseProps, ParseTopics, SetProps;
    var payload := SubscribePayload(topics);
    var data := VarInt.VarInt(|props|) + (props + payload);
    DecodesBody(id, props, topics, rest);
    assert SubscribeBody(id, props, topics) == PutUint16(id) + data;
    GetPutUint16(id, data);
    SectionParses(props, payload);
    RoundTrip.TopicsBack(topics);
  }

  lemma SectionParses(props: bytes, payload: bytes)
    requires |props| <= VarInt.MAX_MSG_SIZE
    ensures ParseProps(VarInt.VarInt(|props|) + (props + payload))
            == match Split(props + payload, |props|)
               case Some(chunks) => Ok(RawProps(Gather(chunks), payload))
               case None => Err(DecodeBadPacket)
  {
    hide VarInt.VarInt, VarInt.RemainLength, Split, Gather;
    var data := VarInt.VarInt(|props|) + (props + payload);
    VarInt.ReadsEncoded(|props|, props + payload);
    assert data[|VarInt.VarInt(|props|)|..] == props + payload;
    assert data[SectionEnd(data)..] == payload;
  }

  /** Any identifier, one user pair or none, any topics: decoding gives back what was written, but
      for keys without a value. */
  lemma {:induction false} SubscribeRoundTrip(id: u16, subId: int, u: UserProps, order: seq<bytes>,
                                              topics: seq<Topic>, rest: bytes)
    requires Encodable(subId, u, order) && SinglePair(u, order)
    requires forall t :: t in topics ==> RoundTrip.Short(t.name)
    requires |SubscribeBody(id, PropsBytes(subId, u, order), topics)| <= VarInt.MAX_MSG_SIZE
    ensures Decode(V5, Wire5(id, PropsBytes(subId, u, order), topics) + rest)
            == (Ok(WithProps(V5Packet(Subscribe(id, topics), 0, PropsRead(subId, WithValues(u))))), rest)
  {
    hide VarInt.VarInt, PropsBytes, SubscribePayload, Decode, Wire5, RawOfAll, Gather, SetProps, ParseProps,
      Standard, InBounds, Listing, Flatten, IdPart, UserPart, WithValues, PropsRead;
    var props, payload := PropsBytes(subId, u, order), SubscribePayload(topics);
    var ps := IdPart(subId) + UserPart(Listing(u, order));
    DecodesSection(id, props, topics, rest);
    SectionParses(props, payload);
    PropsAreProperties(subId, u, order);
    SplitsStandard(ps, payload);
    NoKeysNoPairs(u, order);
    PropsBack(subId, u, order);
  }

  // Several pairs share one key byte, so the second one is taken for a property of its own.

  /** A property within the bounds is split off whatever follows. */
  lemma SplitPeels(p: Property, rest: bytes, left: nat)
    requires Standard(p) && InBounds(p)
    requires var n := 1 + |RawOf(p).data|; n <= left <= n + |rest|
    ensures Split([RawOf(p).key] + RawOf(p).data + rest, left)
            == match Split(rest, left - 1 - |RawOf(p).data|)
               case Some(more) => Some([RawOf(p)] + more)
               case None => None
  {
    hide ValueSize, Standard, InBounds, RawOf;
    var c := RawOf(p);
    var window := [c.key] + c.data + rest;
    PropertyAccepted(p, rest, left);
    assert window[1 + |c.data|..] == rest;
    assert window[1..1 + |c.data|] == c.data;
  }

  lemma SecondPairRejected(e: Entry, later: bytes, left: nat)
    requires |e.key| < 256 && 0 < left <= |WireOf([e]) + later|
    ensures Split(WireOf([e]) + later, left) == None
  {
    WireOfFirst(e, []);
    assert (WireOf([e]) + later)[0] == 0;
  }

  lemma PairsRejected(entries: seq<Entry>, payload: bytes)
    requires |entries| >= 2 && |entries[1].key| < 256
    requires |entries[0].key| + |entries[0].value| <= 65530
    ensures Split([USER_PROPS] + WireOf(entries) + payload, 1 + |WireOf(entries)|) == None
  {
    hide EncodeBytesWithLen, Split, WireOf, RawOf, KindOf;
    var first, second := entries[0], entries[1];
    var pair := UserProp(first.key, first.value);
    PairWire(first);
    PairWire(second);
    assert entries == [first] + ([second] + entries[2..]);
    WireOfConcat([first], [second] + entries[2..]);
    WireOfConcat([second], entries[2..]);
    var tail := WireOf(entries[2..]) + payload;
    var window, left := [USER_PROPS] + WireOf(entries) + payload, 1 + |WireOf(entries)|;
    SecondPairRejected(second, tail, left - 1 - |RawOf(pair).data|);
    assert window == [RawOf(pair).key] + RawOf(pair).data + (WireOf([second]) + tail);
    SplitPeels(pair, WireOf([second]) + tail, left);
  }

  lemma SeveralPairsSplit(subId: int, u: UserProps, order: seq<bytes>, payload: bytes)
    requires Encodable(subId, u, order) && |Listing(u, order)| >= 2
    requires forall k :: k in u ==> |k| < 256
    ensures var props := PropsBytes(subId, u, order); Split(props + payload, |props|) == None
  {
    hide VarInt.VarInt, EncodeBytesWithLen, Split, Listing, WireOf, RawOf, KindOf, Encodable;
    EncodableGives(subId, u, order);
    var entries, props := Listing(u, order), PropsBytes(subId, u, order);
    ListingBounds(subId, u, order);
    assert entries[0] in entries && entries[1] in entries;
    ListingKeys(u, order);
    PairsRejected(entries, payload);
    var pairs := [USER_PROPS] + WireOf(entries);
    if subId != 0 {
      var c := IdRaw(subId);
      assert props + payload == [c.key] + c.data + (pairs + payload);
      SplitPeels(SubIdProp(subId), pairs + payload, |props|);
    } else {
      assert props == pairs;
    }
  }

  /** A key byte without a pair takes its lengths from the payload. It is accepted if the offset
      computed from them comes round to where it started. */
  predicate LoneKeyAccepted(payload: bytes) {
    PairSize([USER_PROPS] + payload) == Some(0)
  }

  lemma LoneKeySplit(subId: int, u: UserProps, order: seq<bytes>, payload: bytes)
    requires Encodable(subId, u, order) && Listing(u, order) == [] && u != map[]
    ensures var props := PropsBytes(subId, u, order);
      Split(props + payload, |props|).Some? <==> LoneKeyAccepted(payload)
  {
    hide VarInt.VarInt, Split, Listing, WireOf, RawOf, PairSize, LoneKeyAccepted;
    EncodableGives(subId, u, order);
    WireOfNothing();
    var props := PropsBytes(subId, u, order);
    LoneKeyFirst(payload);
    if subId != 0 {
      var c := IdRaw(subId);
      assert props + payload == [c.key] + c.data + ([USER_PROPS] + payload);
      SplitPeels(SubIdProp(subId), [USER_PROPS] + payload, |props|);
    } else {
      assert props == [USER_PROPS];
    }
  }

  lemma LoneKeyFirst(payload: bytes)
    ensures Split([USER_PROPS] + payload, 1).Some? <==> LoneKeyAccepted(payload)
  {
    hide PairSize;
  }

  lemma PairWire(e: Entry)
    ensures var c := RawOf(UserProp(e.key, e.value));
      c.key == USER_PROPS && c.data == WireOf([e]) && WireOf([e]) != []
  {
    WireOfFirst(e, []);
  }

  function IdRaw(subId: nat): (c: Chunk)
    ensures c == RawOf(SubIdProp(subId)) && c.key == SUB_ID && c.data == VarInt.VarInt(subId)
  {
    Chunk(SUB_ID, VarInt.VarInt(subId))
  }

  /** For keys below 256 bytes, what was written is rejected if and only if there are several pairs,
      the second of which starts with a zero byte, which is no property key, or keys but no pair. */
  lemma {:induction false} SubscribeRejectedIff(id: u16, subId: int, u: UserProps, order: seq<bytes>,
                                                topics: seq<Topic>, rest: bytes)
    requires Encodable(subId, u, order) && forall k :: k in u ==> |k| < 256
    requires forall t :: t in topics ==> RoundTrip.Short(t.name)
    requires |SubscribeBody(id, PropsBytes(subId, u, order), topics)| <= VarInt.MAX_MSG_SIZE
    ensures Decode(V5, Wire5(id, PropsBytes(subId, u, order), topics) + rest).0.Err?
            <==> |Listing(u, order)| > 1
                 || (Listing(u, order) == [] && u != map[] && !LoneKeyAccepted(SubscribePayload(topics)))
  {
    hide VarInt.VarInt, PropsBytes, SubscribePayload, Decode, Wire5, ParseProps, Listing, Encodable, Split,
      LoneKeyAccepted;
    EncodableGives(subId, u, order);
    var props, payload := PropsBytes(subId, u, order), SubscribePayload(topics);
    DecodesSection(id, props, topics, rest);
    SectionParses(props, payload);
    if |Listing(u, order)| > 1 {
      SeveralPairsSplit(subId, u, order, payload);
    } else if Listing(u, order) == [] && u != map[] {
      LoneKeySplit(subId, u, order, payload);
    } else {
      PropsAreProperties(subId, u, order);
      SplitsStandard(IdPart(subId) + UserPart(Listing(u, order)), payload);
    }
  }
}
