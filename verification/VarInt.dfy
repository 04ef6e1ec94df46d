/** The variable-length integer: its two encoders and its reader. */
module VarInt {
  import opened Bytes
  import opened Streams

  const MAX_MSG_SIZE := 268435455

  /** Seven bits a byte, lowest group first, the top bit telling that more follow. */
  function VarInt(n: nat): (r: bytes)
    ensures r != []
  {
    if n < 128 then [n] else [n % 128 + 128] + VarInt(n / 128)
  }

  /** What both encoders return. */
  function Encode(n: int): Result<bytes> {
    if n < 0 || n > MAX_MSG_SIZE then Err(EncodeLargePacket) else Ok(VarInt(n))
  }

  /** `x | 0x80`, for the bytes the encoders apply it to. */
  function WithTopBit(x: byte): (r: byte)
    requires x < 128
    ensures r == x + 128
  {
    OrTopBit(x);
    Or(x, 128)
  }

  method VarIntBytes(n: int) returns (r: Result<bytes>)
    ensures r == Encode(n)
  {
    if n < 0 || n > MAX_MSG_SIZE {
      return Err(EncodeLargePacket);
    }
    if n == 0 {
      return Ok([0]);
    }
    hide WithTopBit;
    var ret: bytes := [];
    var k := n;
    while k > 0
      invariant k >= 0
      invariant VarInt(n) == if k == 0 then ret else ret + VarInt(k)
    {
      var encodedByte: byte := k % 128;
      ghost var before := ret;
      k := k / 128;
      if k > 0 {
        encodedByte := WithTopBit(encodedByte);
      }
      ret := ret + [encodedByte];
      assert k > 0 ==> ret + VarInt(k) == before + ([encodedByte] + VarInt(k));
    }
    return Ok(ret);
  }

  method WriteVarInt(n: int, w: Writer) returns (err: Option<Error>)
    modifies w
    ensures match Encode(n)
      case Ok(b) => err == None && w.out == old(w.out) + b
      case Err(e) => err == Some(e) && w.out == old(w.out)
  {
    if n < 0 || n > MAX_MSG_SIZE {
      return Some(EncodeLargePacket);
    }
    if n == 0 {
      w.Write([0]);
      return None;
    }
    hide WithTopBit;
    var k := n;
    while k > 0
      invariant k >= 0
      invariant old(w.out) + VarInt(n) == if k == 0 then w.out else w.out + VarInt(k)
    {
      var encodedByte: byte := k % 128;
      ghost var before := w.out;
      k := k / 128;
      if k > 0 {
        encodedByte := WithTopBit(encodedByte);
      }
      w.Write([encodedByte]);
      assert k > 0 ==> w.out + VarInt(k) == before + ([encodedByte] + VarInt(k));
    }
    return None;
  }

  // The standard's reading of the bytes, independent of the encoders.

  /** A complete encoding: every byte but the last one announces another. */
  ghost predicate WellFormed(e: bytes) {
    e != [] && e[|e| - 1] < 128 && forall i :: 0 <= i < |e| - 1 ==> e[i] >= 128
  }

  /** The base-128 sum of the low seven bits. */
  function Value(e: bytes): nat {
    if e == [] then 0 else e[0] % 128 + 128 * Value(e[1..])
  }

  lemma {:induction false} EncodesValue(n: nat)
    ensures WellFormed(VarInt(n)) && Value(VarInt(n)) == n
  {
    if n >= 128 {
      EncodesValue(n / 128);
      assert VarInt(n)[1..] == VarInt(n / 128);
    }
  }

  /** No complete encoding of the same value is shorter. */
  lemma {:induction false} EncodesShortest(n: nat, e: bytes)
    requires WellFormed(e) && Value(e) == n
    ensures |VarInt(n)| <= |e|
    decreases |e|
  {
    if |e| == 1 {
      assert e[1..] == [];
    } else if n >= 128 {
      EncodesShortest(n / 128, e[1..]);
    }
  }

  /** One to four bytes up to the largest message, with the standard's thresholds. */
  lemma {:induction false} EncodedLength(n: nat)
    requires n <= MAX_MSG_SIZE
    ensures |VarInt(n)| == if n < 128 then 1 else if n < 16384 then 2 else if n < 2097152 then 3 else 4
  {
    if n >= 128 {
      assert |VarInt(n)| == 1 + |VarInt(n / 128)|;
      if n >= 16384 {
        assert |VarInt(n / 128)| == 1 + |VarInt(n / 128 / 128)|;
        if n >= 2097152 {
          assert |VarInt(n / 128 / 128)| == 1 + |VarInt(n / 128 / 128 / 128)|;
        }
      }
    }
  }

  // Reading.

  /** Outcome of reading a length: the value, the byte count reported, the bytes left. */
  datatype LenRead = LenRead(length: nat, byteCount: nat, rest: bytes)

  /** What reading a length from `s` yields, in terms of the first byte that ends it. */
  function RemainLength(s: bytes): (r: LenRead)
    ensures |r.rest| <= |s| && r.rest == s[|s| - |r.rest|..]
  {
    var k := Terminator(s, 4);
    if k < 4 && k < |s| then LenRead(Value(s[..k + 1]), k + 1, s[k + 1..])
    else if k == 4 then LenRead(Value(s[..4]), 5, s[4..])
    else LenRead(0, 0, [])
  }

  /** Number of leading bytes with the top bit set, counted up to `limit`. */
  function Terminator(s: bytes, limit: nat): (k: nat)
    ensures k <= |s| && k <= limit
    ensures forall i :: 0 <= i < k ==> s[i] >= 128
    ensures k < |s| && k < limit ==> s[k] < 128
  {
    if limit == 0 || s == [] || s[0] < 128 then 0 else 1 + Terminator(s[1..], limit - 1)
  }

  lemma {:induction false} TerminatorAt(s: bytes, limit: nat, k: nat)
    requires k <= |s| && k <= limit
    requires forall i :: 0 <= i < k ==> s[i] >= 128
    requires k < |s| && k < limit ==> s[k] < 128
    ensures Terminator(s, limit) == k
  {
    if k > 0 {
      TerminatorAt(s[1..], limit - 1, k - 1);
    }
  }

  lemma {:induction false} ValueAppend(e: bytes, b: byte)
    ensures Value(e + [b]) == Value(e) + Shl(b % 128, 7 * |e|)
    ensures Value(e) < Shl(1, 7 * |e|)
  {
    if e != [] {
      ValueAppend(e[1..], b);
      assert (e + [b])[1..] == e[1..] + [b];
      ShlSeven(b % 128, 7 * |e| - 7);
      ShlSeven(1, 7 * |e| - 7);
    }
  }

  lemma ShlSeven(a: nat, k: nat)
    ensures Shl(a, k + 7) == 128 * Shl(a, k)
  {
    ShlMore(a, k, 7);
  }

  lemma {:induction false} ShlMore(a: nat, k: nat, j: nat)
    ensures Shl(a, k + j) == Shl(Shl(a, k), j)
  {
    if j > 0 {
      ShlMore(a, k, j - 1);
    }
  }

  lemma LengthBound(s: bytes)
    ensures RemainLength(s).length <= MAX_MSG_SIZE
  {
    var k := Terminator(s, 4);
    if k < 4 && k < |s| {
      ValueBound(s[..k + 1]);
    } else if k == 4 {
      ValueBound(s[..4]);
    }
  }

  lemma {:induction false} ValueBound(e: bytes)
    requires |e| <= 4
    ensures Value(e) < [1, 128, 16384, 2097152, 268435456][|e|]
  {
    if e != [] {
      ValueBound(e[1..]);
    }
  }

  method GetRemainLength(r: Reader) returns (length: nat, byteCount: nat)
    requires r.Valid()
    modifies r
    ensures r.Valid()
    ensures LenRead(length, byteCount, r.Rest()) == RemainLength(old(r.Rest()))
  {
    hide And, Or;
    ghost var s := r.Rest();
    ghost var k := 0;
    var m := 0;
    length := 0;
    while m < 27
      invariant m == 7 * k && k <= 4 && k <= |s|
      invariant r.Valid() && r.Rest() == s[k..]
      invariant length == Value(s[..k]) && length < Shl(1, m)
      invariant forall i :: 0 <= i < k ==> s[i] >= 128
    {
      var read := r.ReadByte();
      if read.Err? {
        TerminatorAt(s, 4, k);
        return 0, 0;
      }
      var b := read.value;
      ReadStep(s, k, b);
      length := Or(length, Shl(And(b, 127), m));
      if And(b, 128) == 0 {
        TerminatorAt(s, 4, k);
        return length, m / 7 + 1;
      }
      m := m + 7;
      k := k + 1;
    }
    TerminatorAt(s, 4, 4);
    byteCount := m / 7 + 1;
  }

  /** One round of the reading loop extends the base-128 sum by one byte. */
  lemma {:induction false} ReadStep(s: bytes, k: nat, b: byte)
    requires k < |s| && s[k] == b
    ensures Or(Value(s[..k]), Shl(And(b, 127), 7 * k)) == Value(s[..k + 1]) < Shl(1, 7 * (k + 1))
    ensures And(b, 128) == 0 <==> b < 128
  {
    hide And, Or, Shl, Value;
    assert s[..k + 1] == s[..k] + [b];
    ValueAppend(s[..k], b);
    ValueAppend(s[..k + 1], b);
    ByteSplit(b);
    OrShifted(Value(s[..k]), And(b, 127), 7 * k);
  }

  /** Reading an encoded length back gives the value, its exact size and the rest. */
  lemma {:induction false} ReadsEncoded(n: nat, rest: bytes)
    requires n <= MAX_MSG_SIZE
    ensures RemainLength(VarInt(n) + rest) == LenRead(n, |VarInt(n)|, rest)
  {
    hide VarInt, Value, Terminator;
    var e := VarInt(n);
    EncodesValue(n);
    EncodedLength(n);
    TerminatorAt(e + rest, 4, |e| - 1);
    assert (e + rest)[..|e|] == e;
    assert (e + rest)[|e|..] == rest;
  }

  /** A length field cut short is not read. */
  lemma {:induction false} CutShort(n: nat, k: nat)
    requires n <= MAX_MSG_SIZE && k < |VarInt(n)|
    ensures RemainLength(VarInt(n)[..k]) == LenRead(0, 0, [])
  {
    EncodesValue(n);
    EncodedLength(n);
    TerminatorAt(VarInt(n)[..k], 4, k);
  }
}
