/** A V5 subscribe packet with several user properties never decodes to itself: the byte that starts
    the second pair is taken for a property key, and what is read back has lost it. */
module SubscribePairs {
  import opened Bytes
  import opened Codec
  import opened Decoder
  import opened Encoder
  import opened Packets
  import opened Properties
  import opened PropertyLaws
  import opened Subscribe5
  import opened V5Decoder
  import RoundTrip
  import VarInt

  /** The sum of the bytes, which reading fields and pairs can only lower. */
  function Sum(b: bytes): nat {
    if b == [] then 0 else b[0] + Sum(b[1..])
  }

  lemma {:induction false} SumConcat(a: bytes, b: bytes)
    ensures Sum(a + b) == Sum(a) + Sum(b)
  {
    if a == [] {
      assert a + b == b;
    } else {
      SumConcat(a[1..], b);
      assert (a + b)[1..] == a[1..] + b;
    }
  }

  /** A field read is made of the bytes it was read from. */
  lemma FieldWhole(data: bytes)
    requires GetBinaryData(data).Ok?
    ensures var f := GetBinaryData(data).value; EncodeBytesWithLen(f.data) + f.next == data
  {
    var f := GetBinaryData(data).value;
    var n := GetUint16(data);
    assert PutUint16(n) == data[..2] by { ByteWord(data); }
    assert data == data[..2] + data[2..2 + n] + data[2 + n..];
  }

  lemma ByteWord(data: bytes)
    requires |data| >= 2
    ensures PutUint16(GetUint16(data)) == data[..2]
  {
  }

  lemma {:induction false} PairsSum(data: bytes)
    ensures Sum(WireOf(PairsOf(data))) <= Sum(data)
    decreases |data|
  {
    hide EncodeBytesWithLen, GetBinaryData, WireOf;
    var key := GetBinaryData(data);
    if key.Err? {
      assert WireOf([]) == [] by { WireOfNothing(); }
    } else {
      FieldWhole(data);
      SumConcat(EncodeBytesWithLen(key.value.data), key.value.next);
      var val := GetBinaryData(key.value.next);
      if val.Err? {
        CutPairSum(key.value.data);
      } else {
        FieldWhole(key.value.next);
        SumConcat(EncodeBytesWithLen(val.value.data), val.value.next);
        PairsSum(val.value.next);
        var e := Entry(key.value.data, val.value.data);
        FirstSum(e, PairsOf(val.value.next));
      }
    }
  }

  lemma FirstSum(e: Entry, more: seq<Entry>)
    ensures Sum(WireOf([e] + more))
            == Sum(EncodeBytesWithLen(e.key)) + Sum(EncodeBytesWithLen(e.value)) + Sum(WireOf(more))
  {
    hide EncodeBytesWithLen, WireOf, Sum;
    var k, v := EncodeBytesWithLen(e.key), EncodeBytesWithLen(e.value);
    WireOfFirst(e, more);
    SumConcat(k + v, WireOf(more));
    SumConcat(k, v);
  }

  /** A pair cut after its key adds nothing for its value. */
  lemma CutPairSum(key: bytes)
    ensures Sum(WireOf([Entry(key, [])])) == Sum(EncodeBytesWithLen(key))
  {
    hide EncodeBytesWithLen, WireOf;
    var e := Entry(key, []);
    FirstSum(e, []);
    assert [e] + [] == [e];
    assert WireOf([]) == [] by { WireOfNothing(); }
    assert Sum(EncodeBytesWithLen([])) == 0 by { EmptyFieldSum(); }
  }

  lemma EmptyFieldSum()
    ensures Sum(EncodeBytesWithLen([])) == 0
  {
    assert EncodeBytesWithLen([]) == [0, 0];
    assert [0, 0][1..] == [0] && [0][1..] == [];
  }

  /** Gathering the values of a key loses at least the keys. */
  lemma {:induction false} ValuesSum(chunks: seq<Chunk>, key: byte)
    requires forall c :: c in chunks ==> c.key > 0
    ensures Sum(ValuesOf(chunks, key)) + |chunks| <= Sum(Flatten(chunks))
  {
    if chunks != [] {
      var c, rest := chunks[0], chunks[1..];
      assert c in chunks && forall d :: d in rest ==> d in chunks;
      ValuesSum(rest, key);
      SumConcat(if c.key == key then c.data else [], ValuesOf(rest, key));
      SumConcat([c.key] + c.data, Flatten(rest));
      SumConcat([c.key], c.data);
      assert [c.key][1..] == [];
    }
  }

  lemma ShapedKeys(chunks: seq<Chunk>)
    requires AllShaped(chunks)
    ensures forall c :: c in chunks ==> c.key > 0
  {
    forall c | c in chunks ensures c.key > 0 {
      var i :| 0 <= i < |chunks| && chunks[i] == c;
      assert Shaped(chunks[i], i == |chunks| - 1);
    }
  }

  // Pairs with the same values by key have the same sum.

  lemma MultimapsSame(a: seq<Entry>, b: seq<Entry>)
    requires Multimap(a) == Multimap(b)
    ensures forall k: bytes :: ValuesFor(a, k) == ValuesFor(b, k)
  {
    forall k: bytes ensures ValuesFor(a, k) == ValuesFor(b, k) {
      if k in Multimap(a) {
        assert Multimap(a)[k] == Multimap(b)[k];
      } else {
        assert k !in Multimap(b);
        ValuesForAbsent(a, k);
        ValuesForAbsent(b, k);
      }
    }
  }

  lemma ValuesForFirst(e: Entry, more: seq<Entry>, key: bytes)
    ensures ValuesFor([e] + more, key) == (if e.key == key then [e.value] else []) + ValuesFor(more, key)
  {
    assert ([e] + more)[1..] == more;
  }

  /** The first entry of a key holds the first of its values. */
  lemma {:induction false} FirstOfKey(b: seq<Entry>, key: bytes) returns (i: nat)
    requires ValuesFor(b, key) != []
    ensures i < |b| && b[i] == Entry(key, ValuesFor(b, key)[0])
    ensures forall k: bytes :: ValuesFor(b[..i] + b[i + 1..], k)
                               == if k == key then ValuesFor(b, k)[1..] else ValuesFor(b, k)
  {
    var e, more := b[0], b[1..];
    assert b == [e] + more;
    hide ValuesFor;
    ValuesForFirst(e, more, key);
    if e.key == key {
      i := 0;
      FirstRemoved(e, more);
    } else {
      assert [] + ValuesFor(more, key) == ValuesFor(more, key);
      var j := FirstOfKey(more, key);
      i := j + 1;
      var rest := more[..j] + more[j + 1..];
      RestShifts(e, more, j);
      LaterRemoved(e, more, rest, key);
    }
  }

  lemma RestShifts(e: Entry, more: seq<Entry>, j: nat)
    requires j < |more|
    ensures ([e] + more)[j + 1] == more[j]
    ensures ([e] + more)[..j + 1] + ([e] + more)[j + 2..] == [e] + (more[..j] + more[j + 1..])
  {
  }

  lemma FirstRemoved(e: Entry, more: seq<Entry>)
    ensures var b := [e] + more;
      forall k: bytes :: ValuesFor(b[..0] + b[1..], k) == if k == e.key then ValuesFor(b, k)[1..] else ValuesFor(b, k)
  {
    hide ValuesFor;
    var b := [e] + more;
    assert b[..0] + b[1..] == more;
    ValuesForFirst(e, more, e.key);
    forall k: bytes ensures ValuesFor(more, k) == if k == e.key then ValuesFor(b, k)[1..] else ValuesFor(b, k) {
      ValuesForFirst(e, more, k);
    }
  }

  lemma LaterRemoved(e: Entry, more: seq<Entry>, rest: seq<Entry>, key: bytes)
    requires e.key != key && ValuesFor(more, key) != []
    requires forall k: bytes :: ValuesFor(rest, k) == if k == key then ValuesFor(more, k)[1..] else ValuesFor(more, k)
    ensures ValuesFor([e] + more, key) == ValuesFor(more, key)
    ensures forall k: bytes :: ValuesFor([e] + rest, k)
                               == if k == key then ValuesFor([e] + more, k)[1..] else ValuesFor([e] + more, k)
  {
    hide ValuesFor;
    ValuesForFirst(e, more, key);
    forall k: bytes
      ensures ValuesFor([e] + rest, k) == if k == key then ValuesFor([e] + more, k)[1..] else ValuesFor([e] + more, k)
    {
      ValuesForFirst(e, rest, k);
      ValuesForFirst(e, more, k);
    }
  }

  lemma {:induction false} RemovedSum(b: seq<Entry>, i: nat)
    requires i < |b|
    ensures Sum(WireOf(b)) == Sum(WireOf([b[i]])) + Sum(WireOf(b[..i] + b[i + 1..]))
  {
    hide WireOf, Sum;
    assert b == b[..i] + ([b[i]] + b[i + 1..]);
    WireOfConcat(b[..i], [b[i]] + b[i + 1..]);
    WireOfConcat([b[i]], b[i + 1..]);
    WireOfConcat(b[..i], b[i + 1..]);
    SumConcat(WireOf(b[..i]), WireOf([b[i]] + b[i + 1..]));
    SumConcat(WireOf([b[i]]), WireOf(b[i + 1..]));
    SumConcat(WireOf(b[..i]), WireOf(b[i + 1..]));
  }

  lemma {:induction false} SameValuesSum(a: seq<Entry>, b: seq<Entry>)
    requires forall k: bytes :: ValuesFor(a, k) == ValuesFor(b, k)
    ensures Sum(WireOf(a)) == Sum(WireOf(b))
    decreases |a|
  {
    hide WireOf, Sum;
    if a == [] {
      assert b != [] ==> ValuesFor(a, b[0].key) == ValuesFor(b, b[0].key);
    } else {
      var e := a[0];
      assert ValuesFor(a, e.key) == ValuesFor(b, e.key);
      var i := FirstOfKey(b, e.key);
      var rest := b[..i] + b[i + 1..];
      forall k: bytes ensures ValuesFor(a[1..], k) == ValuesFor(rest, k) {
        assert ValuesFor(a, k) == ValuesFor(b, k);
      }
      SameValuesSum(a[1..], rest);
      RemovedSum(b, i);
      RemovedSum(a, 0);
      assert a[..0] + a[1..] == a[1..];
    }
  }

  // What becomes of several pairs.

  /** The pairs read from a section that was written with several pairs sum up to less. */
  lemma PairsLose(entries: seq<Entry>, payload: bytes)
    requires |entries| >= 2 && |entries[0].key| + |entries[0].value| <= 65530
    requires Split([USER_PROPS] + WireOf(entries) + payload, 1 + |WireOf(entries)|).Some?
    ensures var chunks := Split([USER_PROPS] + WireOf(entries) + payload, 1 + |WireOf(entries)|).value;
      Sum(ValuesOf(chunks, USER_PROPS)) < Sum(WireOf(entries))
  {
    hide EncodeBytesWithLen, Split, WireOf, RawOf, KindOf, Sum, Shaped, Flatten;
    var first, others := entries[0], entries[1..];
    var pair := UserProp(first.key, first.value);
    var c := RawOf(pair);
    PairWire(first);
    assert entries == [first] + others;
    WireOfConcat([first], others);
    var window, left := [USER_PROPS] + WireOf(entries) + payload, 1 + |WireOf(entries)|;
    var rest := WireOf(others) + payload;
    assert window == [c.key] + c.data + rest;
    SplitPeels(pair, rest, left);
    var more := Split(rest, |WireOf(others)|).value;
    SplitTiles(rest, |WireOf(others)|);
    assert rest[..|WireOf(others)|] == WireOf(others);
    ShapedKeys(more);
    ValuesSum(more, USER_PROPS);
    assert more != [] by { OthersWritten(others, more); }
    assert ([c] + more)[1..] == more;
    assert ValuesOf([c] + more, USER_PROPS) == WireOf([first]) + ValuesOf(more, USER_PROPS);
    SumConcat(WireOf([first]), ValuesOf(more, USER_PROPS));
    SumConcat(WireOf([first]), WireOf(others));
  }

  lemma OthersWritten(others: seq<Entry>, more: seq<Chunk>)
    requires others != [] && Flatten(more) == WireOf(others)
    ensures more != []
  {
    WireOfFirst(others[0], others[1..]);
    assert others == [others[0]] + others[1..];
  }

  /** The raw user properties of an accepted section that was written with several pairs. */
  lemma SectionLoses(subId: int, u: UserProps, order: seq<bytes>, payload: bytes)
    requires Encodable(subId, u, order) && |Listing(u, order)| >= 2
    requires var props := PropsBytes(subId, u, order); Split(props + payload, |props|).Some?
    ensures var props := PropsBytes(subId, u, order);
      Sum(ValuesOf(Split(props + payload, |props|).value, USER_PROPS)) < Sum(WireOf(Listing(u, order)))
  {
    hide VarInt.VarInt, EncodeBytesWithLen, Split, Listing, WireOf, RawOf, KindOf, Sum, Encodable;
    EncodableGives(subId, u, order);
    var entries, props := Listing(u, order), PropsBytes(subId, u, order);
    ListingBounds(subId, u, order);
    assert entries[0] in entries;
    var pairs := [USER_PROPS] + WireOf(entries);
    if subId != 0 {
      var c := IdRaw(subId);
      assert props + payload == [c.key] + c.data + (pairs + payload);
      SplitPeels(SubIdProp(subId), pairs + payload, |props|);
      var more := Split(pairs + payload, |pairs|).value;
      assert ([c] + more)[1..] == more;
      assert ValuesOf([c] + more, USER_PROPS) == [] + ValuesOf(more, USER_PROPS) == ValuesOf(more, USER_PROPS);
    } else {
      assert props == pairs;
    }
    PairsLose(entries, payload);
  }

  /** So the user properties read are never those that were written. */
  lemma SeveralPairsDiffer(subId: int, u: UserProps, order: seq<bytes>, payload: bytes)
    requires Encodable(subId, u, order) && Valued(u) && |Listing(u, order)| >= 2
    requires var props := PropsBytes(subId, u, order);
      Split(props + payload, |props|).Some? && Readable(Gather(Split(props + payload, |props|).value))
    ensures var props := PropsBytes(subId, u, order);
      SetProps(Gather(Split(props + payload, |props|).value), SUBSCRIBE_PROPS, false) != PropsRead(subId, u)
  {
    hide Split, Listing, PropsBytes, WireOf, PairsOf, Multimap, Sum, Gather, Encodable, ValuesOf, Readable, SetProps;
    EncodableGives(subId, u, order);
    var props := PropsBytes(subId, u, order);
    SectionLoses(subId, u, order, payload);
    ListingBounds(subId, u, order);
    ReadsDiffer(Split(props + payload, |props|).value, u, order, subId);
  }

  lemma ReadsDiffer(chunks: seq<Chunk>, u: UserProps, order: seq<bytes>, subId: nat)
    requires Visits(order, u) && Valued(u) && u != map[] && Readable(Gather(chunks))
    requires Sum(ValuesOf(chunks, USER_PROPS)) < Sum(WireOf(Listing(u, order)))
    ensures SetProps(Gather(chunks), SUBSCRIBE_PROPS, false) != PropsRead(subId, u)
  {
    hide Listing, WireOf, PairsOf, Multimap, Sum, ValuesOf, Readable;
    var raw := Gather(chunks);
    if SetProps(raw, SUBSCRIBE_PROPS, false) == PropsRead(subId, u) {
      UsersRead(raw, u, subId);
      var v := raw[USER_PROPS];
      assert v == ValuesOf(chunks, USER_PROPS);
      ListingMakesMap(u, order);
      MultimapsSame(PairsOf(v), Listing(u, order));
      SameValuesSum(PairsOf(v), Listing(u, order));
      PairsSum(v);
    }
  }

  /** User properties that come back are those of the raw value. */
  lemma UsersRead(raw: map<byte, bytes>, u: UserProps, subId: nat)
    requires Readable(raw) && u != map[]
    requires SetProps(raw, SUBSCRIBE_PROPS, false) == PropsRead(subId, u)
    ensures USER_PROPS in raw && Multimap(PairsOf(raw[USER_PROPS])) == u
  {
    hide PairsOf, Multimap, Readable;
    assert USER_PROPS in PropsRead(subId, u);
    assert USER_PROPS in SetProps(raw, SUBSCRIBE_PROPS, false);
    assert SetProps(raw, SUBSCRIBE_PROPS, false)[USER_PROPS] == PropsRead(subId, u)[USER_PROPS];
  }

  /** Every key that is read has a value. */
  lemma KeysReadHaveValues(raw: map<byte, bytes>, u: UserProps, subId: nat)
    requires Readable(raw) && !Valued(u)
    ensures SetProps(raw, SUBSCRIBE_PROPS, false) != PropsRead(subId, u)
  {
    hide PairsOf, Readable, SetProps, PropsRead;
    if SetProps(raw, SUBSCRIBE_PROPS, false) == PropsRead(subId, u) {
      var k :| k in u && u[k] == [];
      UsersRead(raw, u, subId);
      KeyHasValue(PairsOf(raw[USER_PROPS]), k);
    }
  }

  /** Exactness: what was written comes back if and only if there is at most one pair and every key
      has a value. */
  lemma {:induction false} SubscribeExact(id: u16, subId: int, u: UserProps, order: seq<bytes>,
                                          topics: seq<Topic>, rest: bytes)
    requires Encodable(subId, u, order)
    requires forall t :: t in topics ==> RoundTrip.Short(t.name)
    requires |SubscribeBody(id, PropsBytes(subId, u, order), topics)| <= VarInt.MAX_MSG_SIZE
    ensures var m := Decode(V5, Wire5(id, PropsBytes(subId, u, order), topics) + rest).0;
      m == Ok(WithProps(V5Packet(Subscribe(id, topics), 0, PropsRead(subId, u))))
      <==> |Listing(u, order)| <= 1 && Valued(u)
  {
    hide VarInt.VarInt, PropsBytes, SubscribePayload, Decode, Wire5, ParseProps, Listing, Encodable, SetProps,
      Split, Gather, PropsRead, Valued, Readable;
    EncodableGives(subId, u, order);
    var props, payload := PropsBytes(subId, u, order), SubscribePayload(topics);
    DecodesSection(id, props, topics, rest);
    SectionParses(props, payload);
    if !Valued(u) {
      if Split(props + payload, |props|).Some? {
        KeysReadHaveValues(Gather(Split(props + payload, |props|).value), u, subId);
      }
    } else if |Listing(u, order)| <= 1 {
      ValuedPairs(u, order);
      SubscribeRoundTrip(id, subId, u, order, topics, rest);
    } else if Split(props + payload, |props|).Some? {
      SeveralPairsDiffer(subId, u, order, payload);
    }
  }

  lemma ValuedPairs(u: UserProps, order: seq<bytes>)
    requires Visits(order, u) && Valued(u)
    ensures WithValues(u) == u && (Listing(u, order) == [] ==> u == map[])
  {
    hide Listing;
    ListingMakesMap(u, order);
    MultimapNothing();
  }
}
