/** The keys packets are stored under: a direction and the packet id in decimal. */
module Keys {
  import opened Bytes

  const DIGITS := "0123456789"

  function Decimal(n: nat): (s: string)
    ensures s != []
  {
    if n < 10 then [DIGITS[n]] else Decimal(n / 10) + [DIGITS[n % 10]]
  }

  function SendKey(id: u16): string {
    "S" + Decimal(id)
  }

  function RecvKey(id: u16): string {
    "R" + Decimal(id)
  }

  /** The number a row of decimal digits stands for. */
  function ReadDecimal(s: string): int {
    if s == "" then 0
    else 10 * ReadDecimal(s[..|s| - 1]) + (s[|s| - 1] as int) - ('0' as int)
  }

  lemma {:induction false} DecimalReads(n: nat)
    ensures ReadDecimal(Decimal(n)) == n && (n > 0 ==> Decimal(n)[0] != '0')
    ensures forall i :: 0 <= i < |Decimal(n)| ==> '0' <= Decimal(n)[i] <= '9'
  {
    var s := Decimal(n);
    DigitAt(n % 10);
    if n < 10 {
      assert s[..0] == "";
    } else {
      DecimalReads(n / 10);
      assert s[..|s| - 1] == Decimal(n / 10);
    }
  }

  lemma DigitAt(d: nat)
    requires d < 10
    ensures (DIGITS[d] as int) - ('0' as int) == d
  {
  }

  /** A key is a letter, 'S' for packets sent and 'R' for packets received, and the identifier in decimal. */
  lemma {:induction false} KeyText(id: u16)
    ensures SendKey(id)[0] == 'S' && RecvKey(id)[0] == 'R' && SendKey(id)[1..] == RecvKey(id)[1..]
    ensures ReadDecimal(SendKey(id)[1..]) == id && (id > 0 ==> SendKey(id)[1] != '0')
  {
    DecimalReads(id);
    assert SendKey(id)[1..] == Decimal(id) && RecvKey(id)[1..] == Decimal(id);
  }

  lemma {:induction false} DecimalInjective(m: nat, n: nat)
    requires Decimal(m) == Decimal(n)
    ensures m == n
  {
    var s, t := Decimal(m), Decimal(n);
    assert s[|s| - 1] == DIGITS[m % 10] && t[|t| - 1] == DIGITS[n % 10];
    if m >= 10 && n >= 10 {
      assert s[..|s| - 1] == Decimal(m / 10) && t[..|t| - 1] == Decimal(n / 10);
      DecimalInjective(m / 10, n / 10);
    }
  }

  /** Different packets never share a key. */
  lemma {:induction false} KeysDistinct(i: u16, j: u16)
    ensures SendKey(i) == SendKey(j) <==> i == j
    ensures RecvKey(i) == RecvKey(j) <==> i == j
    ensures SendKey(i) != RecvKey(j)
  {
    assert SendKey(i)[1..] == Decimal(i) && SendKey(j)[1..] == Decimal(j);
    assert RecvKey(i)[1..] == Decimal(i) && RecvKey(j)[1..] == Decimal(j);
    assert SendKey(i)[0] == 'S' && RecvKey(j)[0] == 'R';
    if Decimal(i) == Decimal(j) {
      DecimalInjective(i, j);
    }
  }
}
