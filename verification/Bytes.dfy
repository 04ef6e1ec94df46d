/** Bytes, machine words and bit operations, as the codec uses them.

    A Go `[]byte` or `string` is a `seq<byte>`; integers are unbounded, so every
    truncation to a machine width is written out. */
module Bytes {

  type byte = b: int | 0 <= b < 0x100
  type u16 = n: int | 0 <= n < 0x1_0000
  type u32 = n: int | 0 <= n < 0x1_0000_0000
  type bytes = seq<byte>

  datatype Option<+T> = None | Some(value: T) {
    predicate IsFailure() { None? }

    function PropagateFailure<U>(): Option<U>
      requires None?
    {
      None
    }

    function Extract(): T
      requires Some?
    {
      value
    }
  }

  /** The errors that encoding and decoding return. */
  datatype Error =
    | EOF
    | UnexpectedEOF
    | DecodeBadPacket
    | DecodeNoneV311Packet
    | DecodeNoneV5Packet
    | UnsupportedVersion
    | EncodeLargePacket

  datatype Result<+T> = Ok(value: T) | Err(error: Error) {
    predicate IsFailure() { Err? }

    function PropagateFailure<U>(): Result<U>
      requires Err?
    {
      Err(error)
    }

    function Extract(): T
      requires Ok?
    {
      value
    }
  }

  /** Conversion to `byte`, which keeps the low eight bits. */
  function ToByte(n: nat): byte {
    n % 0x100
  }

  /** Conversion to `uint16`, which keeps the low sixteen bits. */
  function ToU16(n: nat): u16 {
    n % 0x1_0000
  }

  function BoolToByte(flag: bool): byte {
    if flag then 1 else 0
  }

  // Big-endian words.

  function PutUint16(v: u16): bytes {
    [v / 0x100, v % 0x100]
  }

  function GetUint16(d: bytes): u16
    requires |d| >= 2
  {
    (d[0] as int) * 0x100 + d[1]
  }

  function GetUint32(d: bytes): u32
    requires |d| >= 4
  {
    (d[0] as int) * 0x100_0000 + (d[1] as int) * 0x1_0000 + (d[2] as int) * 0x100 + d[3]
  }

  lemma GetPutUint16(v: u16, rest: bytes)
    ensures GetUint16(PutUint16(v) + rest) == v
    ensures (PutUint16(v) + rest)[2..] == rest
  {
    assert (PutUint16(v) + rest)[2..] == rest;
  }

  // Bit operations on natural numbers, bit by bit.

  function Shl(a: nat, k: nat): (r: nat)
    ensures r == 0 <==> a == 0
    decreases k
  {
    if k == 0 then a else 2 * Shl(a, k - 1)
  }

  function Shr(a: nat, k: nat): nat
    decreases k
  {
    if k == 0 then a else Shr(a / 2, k - 1)
  }

  function And(a: nat, b: nat): nat
    decreases b
  {
    if a == 0 || b == 0 then 0
    else (if a % 2 == 1 && b % 2 == 1 then 1 else 0) + 2 * And(a / 2, b / 2)
  }

  function Or(a: nat, b: nat): nat
    decreases a + b
  {
    if a == 0 then b
    else if b == 0 then a
    else (if a % 2 == 1 || b % 2 == 1 then 1 else 0) + 2 * Or(a / 2, b / 2)
  }

  /** Numbers without a common bit are joined by addition. */
  lemma {:induction false} OrDisjoint(a: nat, b: nat)
    requires And(a, b) == 0
    ensures Or(a, b) == a + b
    decreases a + b
  {
    if a == 0 || b == 0 {
    } else {
      OrDisjoint(a / 2, b / 2);
    }
  }

  lemma {:induction false} AndLowHigh(a: nat, x: nat, k: nat)
    requires a < Shl(1, k)
    ensures And(a, Shl(x, k)) == 0
    decreases k
  {
    if a == 0 || Shl(x, k) == 0 || k == 0 {
    } else {
      AndLowHigh(a / 2, x, k - 1);
    }
  }

  /** Accumulating `x << k` onto a number below `1 << k` by `|` adds it. */
  lemma OrShifted(a: nat, x: nat, k: nat)
    requires a < Shl(1, k)
    ensures Or(a, Shl(x, k)) == a + Shl(x, k)
  {
    AndLowHigh(a, x, k);
    OrDisjoint(a, Shl(x, k));
  }

  /** Masking with `m << k` reads the field that starts at bit `k`. */
  lemma {:induction false} AndShifted(b: nat, m: nat, k: nat)
    ensures And(b, Shl(m, k)) == Shl(And(Shr(b, k), m), k)
    decreases k
  {
    hide And;
    if k > 0 {
      AndShifted(b / 2, m, k - 1);
      AndDoubled(b, Shl(m, k - 1));
    }
  }

  lemma {:induction false} AndDoubled(b: nat, c: nat)
    ensures And(b, 2 * c) == 2 * And(b / 2, c)
  {
  }

  lemma ShlBits(k: nat)
    requires k < 8
    ensures Shl(1, k) == [1, 2, 4, 8, 16, 32, 64, 128][k]
  {
    assert Shl(1, 0) == 1 && Shl(1, 1) == 2 && Shl(1, 2) == 4 && Shl(1, 3) == 8;
    assert Shl(1, 4) == 16 && Shl(1, 5) == 32 && Shl(1, 6) == 64 && Shl(1, 7) == 128;
  }

  lemma DivModUnique(n: int, d: int, q: int, r: int)
    requires d > 0 && n == q * d + r && 0 <= r < d
    ensures n / d == q && n % d == r
  {
    var e := n / d - q;
    assert e * d == r - n % d;
    if e > 0 {
      MulAtLeast(e - 1, d);
    } else if e < 0 {
      MulAtLeast(-e - 1, d);
    }
  }

  lemma MulAtLeast(k: nat, d: nat)
    ensures (k + 1) * d >= d
  {
  }

  lemma HalfDivMod(b: nat, p: nat)
    requires p >= 1
    ensures b / (2 * p) == b / 2 / p
    ensures b % (2 * p) == b % 2 + 2 * (b / 2 % p)
  {
    var q, r := b / 2 / p, b / 2 % p;
    assert b / 2 == q * p + r;
    assert q * (2 * p) == 2 * (q * p);
    DivModUnique(b, 2 * p, q, b % 2 + 2 * r);
  }

  lemma {:induction false} ShrIsDiv(b: nat, k: nat)
    ensures Shr(b, k) == b / Shl(1, k)
    decreases k
  {
    if k > 0 {
      ShrIsDiv(b / 2, k - 1);
      HalfDivMod(b, Shl(1, k - 1));
    }
  }

  lemma {:induction false} AndLowBits(b: nat, k: nat)
    ensures And(b, Shl(1, k) - 1) == b % Shl(1, k)
    decreases k
  {
    if k > 0 {
      AndLowBits(b / 2, k - 1);
      HalfDivMod(b, Shl(1, k - 1));
    }
  }

  /** `x & 0x7f` and `x & 0x80` split a byte into its low seven bits and its top bit. */
  lemma ByteSplit(x: byte)
    ensures And(x, 127) == x % 128
    ensures And(x, 128) == x / 128 * 128
  {
    AndLowBits(x, 7);
    AndShifted(x, 1, 7);
    AndLowBits(Shr(x, 7), 1);
    ShrIsDiv(x, 7);
  }

  /** `x | 0x80` sets the top bit of a byte below 128. */
  lemma OrTopBit(x: byte)
    requires x < 128
    ensures Or(x, 128) == x + 128
  {
    OrShifted(x, 1, 7);
  }
}
