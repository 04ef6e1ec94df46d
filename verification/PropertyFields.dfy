/** What a list of properties of the standard comes to as the fields of a packet. */
module PropertyFields {
  import opened Bytes
  import opened Decoder
  import opened Encoder
  import opened Properties
  import opened PropertyLaws
  import opened V5Decoder
  import VarInt

  // The fields, read off the list itself.

  function KeyOf(p: Property): byte {
    match p
    case FixedProp(key, _) => key
    case TextProp(key, _) => key
    case SubIdProp(_) => 11
    case UserProp(_, _) => 38
  }

  /** The properties with a key, in order. */
  function Under(ps: seq<Property>, key: byte): seq<Property> {
    if ps == [] then []
    else (if KeyOf(ps[0]) == key then [ps[0]] else []) + Under(ps[1..], key)
  }

  function BigEndian(data: bytes): nat {
    if data == [] then 0 else 256 * BigEndian(data[..|data| - 1]) + data[|data| - 1]
  }

  function Numbers(ps: seq<Property>): seq<nat> {
    if ps == [] then []
    else (if ps[0].SubIdProp? then [ps[0].id] else []) + Numbers(ps[1..])
  }

  /** What the properties with one key leave in a packet. Of numbers and texts the first counts; a byte
      counts only if there is no other. Identifiers are all kept, or only the first. */
  function FieldOf(same: seq<Property>, allIds: bool): Option<PropValue>
    requires same != []
  {
    match same[0]
    case FixedProp(key, data) =>
      if |data| != 1 then Some(Number(BigEndian(data)))
      else if |same| != 1 then None
      else if key == 1 || key == 36 then Some(Number(data[0]))
      else Some(Flag(data[0] == 1))
    case TextProp(_, text) => Some(Data(text))
    case SubIdProp(id) => Some(if allIds then Ids(Numbers(same)) else Number(id))
    case UserProp(_, _) => Some(Users(Multimap(EntriesOf(same))))
  }

  /** The fields of a packet that knows some of the keys. */
  function Kept(ps: seq<Property>, keys: set<byte>, allIds: bool): Props {
    map k | k in keys && Under(ps, k) != [] && FieldOf(Under(ps, k), allIds).Some?
      :: FieldOf(Under(ps, k), allIds).value
  }

  predicate AllStandard(ps: seq<Property>) {
    forall i :: 0 <= i < |ps| ==> Standard(ps[i])
  }

  // They are the fields that reading the section sets.

  lemma {:induction false} UnderHas(ps: seq<Property>, key: byte)
    requires AllStandard(ps)
    ensures AllStandard(Under(ps, key)) && forall p :: p in Under(ps, key) ==> KeyOf(p) == key
  {
    hide Standard;
    if ps != [] {
      assert AllStandard(ps[1..]);
      UnderHas(ps[1..], key);
    }
  }

  function DataOf(ps: seq<Property>): bytes {
    if ps == [] then [] else RawOf(ps[0]).data + DataOf(ps[1..])
  }

  lemma {:induction false} ValuesUnder(ps: seq<Property>, key: byte)
    ensures ValuesOf(RawOfAll(ps), key) == DataOf(Under(ps, key))
    ensures key in KeysOf(RawOfAll(ps)) <==> Under(ps, key) != []
  {
    hide RawOf;
    if ps != [] {
      var c, more := RawOf(ps[0]), RawOfAll(ps[1..]);
      ValuesUnder(ps[1..], key);
      RawKey(ps[0]);
      assert RawOfAll(ps)[0] == c && RawOfAll(ps)[1..] == more;
      FirstKeys(c, more, key);
      assert RawOfAll(ps) == [c] + more;
      if KeyOf(ps[0]) == key {
        assert Under(ps, key)[0] == ps[0] && Under(ps, key)[1..] == Under(ps[1..], key);
      } else {
        assert Under(ps, key) == Under(ps[1..], key);
      }
    }
  }

  lemma RawKey(p: Property)
    ensures RawOf(p).key == KeyOf(p)
  {
  }

  lemma FirstKeys(c: Chunk, more: seq<Chunk>, key: byte)
    ensures key in KeysOf([c] + more) <==> c.key == key || key in KeysOf(more)
  {
    var all := [c] + more;
    if key in KeysOf(more) {
      var i :| 0 <= i < |more| && more[i].key == key;
      assert all[i + 1].key == key;
    }
    if key in KeysOf(all) {
      var i :| 0 <= i < |all| && all[i].key == key;
      assert i > 0 ==> more[i - 1].key == key;
    }
    assert all[0] == c;
  }

  lemma KindUnder(p: Property)
    requires Standard(p)
    ensures match p
      case FixedProp(key, data) => KindOf(key) == Fixed(|data|) && |data| in {1, 2, 4}
      case TextProp(key, _) => KindOf(key) == Text
      case SubIdProp(_) => KindOf(11) == Length
      case UserProp(_, _) => KindOf(38) == Pair
  {
    hide KindOf;
    KnowsTheTable(KeyOf(p));
  }

  /** Properties with one key are all of one form. */
  lemma SameForm(p: Property, q: Property)
    requires Standard(p) && Standard(q) && KeyOf(p) == KeyOf(q)
    ensures match p
      case FixedProp(_, data) => q.FixedProp? && |q.data| == |data|
      case TextProp(_, _) => q.TextProp?
      case SubIdProp(_) => q.SubIdProp?
      case UserProp(_, _) => q.UserProp?
  {
    hide KindOf;
    KindUnder(p);
    KindUnder(q);
  }

  lemma {:induction false} FixedData(same: seq<Property>, size: nat)
    requires forall p :: p in same ==> p.FixedProp? && |p.data| == size
    ensures size == 1 ==> |DataOf(same)| == |same|
    ensures same != [] ==> |DataOf(same)| >= size
  {
    hide RawOf;
    if same != [] {
      assert RawOf(same[0]).data == same[0].data by { FixedRaw(same[0]); }
      assert same[0] in same;
      FixedData(same[1..], size);
    }
  }

  lemma FixedRaw(p: Property)
    requires p.FixedProp?
    ensures RawOf(p).data == p.data
  {
  }

  lemma {:induction false} IdsData(same: seq<Property>)
    requires forall p :: p in same ==> p.SubIdProp? && p.id <= VarInt.MAX_MSG_SIZE
    ensures Lengths(DataOf(same)) && LengthsIn(DataOf(same)) == Numbers(same)
  {
    hide VarInt.VarInt, VarInt.RemainLength;
    if same != [] {
      assert same[0] in same;
      var e, rest := VarInt.VarInt(same[0].id), DataOf(same[1..]);
      IdsData(same[1..]);
      VarInt.ReadsEncoded(same[0].id, rest);
      assert DataOf(same) == e + rest && (e + rest)[|e|..] == rest;
    }
  }

  lemma {:induction false} PairsData(same: seq<Property>)
    requires forall p :: p in same ==> p.UserProp? && Standard(p)
    ensures DataOf(same) == WireOf(EntriesOf(same))
    ensures forall e :: e in EntriesOf(same) ==> |e.key| <= 65535 && |e.value| <= 65535
  {
    hide EncodeBytesWithLen;
    if same != [] {
      assert same[0] in same;
      PairsData(same[1..]);
      assert EntriesOf(same)[1..] == EntriesOf(same[1..]);
    }
  }

  lemma BigEndianRead(data: bytes, rest: bytes)
    ensures |data| == 2 ==> GetUint16(data + rest) == BigEndian(data)
    ensures |data| == 4 ==> GetUint32(data + rest) == BigEndian(data)
  {
    if |data| == 2 {
      TwoDigits(data);
    }
    if |data| == 4 {
      TwoDigits(data[..2]);
      MoreDigits(data[..2], data[2]);
      MoreDigits(data[..3], data[3]);
      assert data[..2] + [data[2]] == data[..3] && data[..3] + [data[3]] == data;
    }
  }

  lemma MoreDigits(data: bytes, b: byte)
    ensures BigEndian(data + [b]) == 256 * BigEndian(data) + b
  {
    assert (data + [b])[..|data|] == data;
  }

  lemma TwoDigits(data: bytes)
    requires |data| == 2
    ensures BigEndian(data) == (data[0] as int) * 256 + data[1]
  {
    MoreDigits([], data[0]);
    MoreDigits([data[0]], data[1]);
    assert [] + [data[0]] == [data[0]] && [data[0]] + [data[1]] == data;
  }

  lemma FixedField(same: seq<Property>, allIds: bool)
    requires same != [] && AllStandard(same) && same[0].FixedProp?
    requires forall p :: p in same ==> KeyOf(p) == same[0].key
    ensures var key, v := same[0].key, DataOf(same);
      ReadableValue(key, v) && ReadValue(key, v, allIds) == FieldOf(same, allIds)
  {
    hide KindOf, Standard;
    var key, data := same[0].key, same[0].data;
    forall p | p in same ensures p.FixedProp? && |p.data| == |data| {
      SameForm(same[0], p);
    }
    KindUnder(same[0]);
    FixedData(same, |data|);
    var rest := DataOf(same[1..]);
    BigEndianRead(data, rest);
    assert DataOf(same) == data + rest;
    if |data| == 1 && |same| == 1 {
      assert DataOf(same)[0] == data[0];
    }
  }

  lemma VariableField(same: seq<Property>, allIds: bool)
    requires same != [] && AllStandard(same) && !same[0].FixedProp?
    requires forall p :: p in same ==> KeyOf(p) == KeyOf(same[0])
    ensures var key, v := KeyOf(same[0]), DataOf(same);
      ReadableValue(key, v) && ReadValue(key, v, allIds) == FieldOf(same, allIds)
  {
    hide KindOf, EncodeBytesWithLen, GetBinaryData, VarInt.VarInt, VarInt.RemainLength, PairsOf, Multimap, Standard;
    var first, rest := same[0], DataOf(same[1..]);
    KindUnder(first);
    forall p | p in same ensures (first.SubIdProp? ==> p.SubIdProp?) && (first.UserProp? ==> p.UserProp?) {
      SameForm(first, p);
    }
    match first
    case TextProp(_, text) =>
      TextSmall(first);
      FieldBack(text, rest);
    case SubIdProp(id) =>
      forall p | p in same ensures p.id <= VarInt.MAX_MSG_SIZE { IdSmall(p); }
      IdsData(same);
      VarInt.ReadsEncoded(id, rest);
    case UserProp(_, _) =>
      PairsData(same);
      PairsBack(EntriesOf(same));
  }

  lemma TextSmall(p: Property)
    requires Standard(p) && p.TextProp?
    ensures |p.text| <= 65535
  {
  }

  lemma IdSmall(p: Property)
    requires Standard(p) && p.SubIdProp?
    ensures p.id <= VarInt.MAX_MSG_SIZE
  {
  }

  /** Reading one key's value gives the field its properties stand for. */
  lemma ReadsField(ps: seq<Property>, key: byte, allIds: bool)
    requires AllStandard(ps) && Under(ps, key) != []
    ensures var v := ValuesOf(RawOfAll(ps), key);
      ReadableValue(key, v) && ReadValue(key, v, allIds) == FieldOf(Under(ps, key), allIds)
  {
    hide KindOf, ReadValue, ReadableValue, FieldOf, AllStandard, RawOf;
    var same := Under(ps, key);
    UnderHas(ps, key);
    ValuesUnder(ps, key);
    assert same[0] in same;
    if same[0].FixedProp? {
      FixedField(same, allIds);
    } else {
      VariableField(same, allIds);
    }
  }

  /** The fields set from a list of properties, for any packet: numbers big-endian, texts, flags,
      identifiers and user properties. */
  lemma {:induction false} SetsTheFields(ps: seq<Property>, keys: set<byte>, allIds: bool)
    requires AllStandard(ps)
    ensures var raw := Gather(RawOfAll(ps));
      Readable(raw) && SetProps(raw, keys, allIds) == Kept(ps, keys, allIds)
  {
    hide KindOf, ReadValue, ReadableValue, FieldOf, AllStandard, RawOfAll, ValuesOf, KeysOf, Under;
    var raw := Gather(RawOfAll(ps));
    forall k: byte
      ensures k in raw <==> Under(ps, k) != []
      ensures k in raw ==>
                ReadableValue(k, raw[k]) && ReadValue(k, raw[k], allIds) == FieldOf(Under(ps, k), allIds)
    {
      ValuesUnder(ps, k);
      if k in raw {
        ReadsField(ps, k, allIds);
      }
    }
  }
}
