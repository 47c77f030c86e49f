/** The names of a server's connections, which are the keys of its table: the id in decimal, in a buffer of 64. */
module ConnectionNames {
  const BUFFER_SIZE: nat := 64

  const DIGITS := "0123456789"

  function Decimal(n: nat): string {
    if n < 10 then [DIGITS[n]] else Decimal(n / 10) + [DIGITS[n % 10]]
  }

  function Written(ipPort: string, id: nat): string {
    "-" + ipPort + "#" + Decimal(id)
  }

  // snprintf keeps what fits before the terminating zero.
  function ConnName(name: string, ipPort: string, id: nat): string {
    var text := Written(ipPort, id);
    name + if |text| < BUFFER_SIZE then text else text[..BUFFER_SIZE - 1]
  }

  predicate Fits(ipPort: string, id: nat) {
    |ipPort| + 2 + |Decimal(id)| < BUFFER_SIZE
  }

  lemma {:induction false} DecimalIsInjective(i: nat, j: nat)
    requires Decimal(i) == Decimal(j)
    ensures i == j
  {
    var s, t := Decimal(i), Decimal(j);
    DigitsDiffer(i % 10, j % 10);
    if i >= 10 && j >= 10 {
      assert s[..|s| - 1] == Decimal(i / 10) && t[..|t| - 1] == Decimal(j / 10);
      assert s[|s| - 1] == t[|t| - 1];
      DecimalIsInjective(i / 10, j / 10);
    } else {
      DecimalLength(i);
      DecimalLength(j);
      assert s[0] == t[0];
    }
  }

  lemma DigitsDiffer(a: nat, b: nat)
    requires a < 10 && b < 10
    ensures DIGITS[a] == DIGITS[b] ==> a == b
  {
  }

  lemma DecimalLength(n: nat)
    ensures |Decimal(n)| >= 1 && (n >= 10 ==> |Decimal(n)| == |Decimal(n / 10)| + 1 >= 2)
  {
  }

  lemma {:induction false} LongerIsLarger(i: nat, j: nat)
    requires i <= j
    ensures |Decimal(i)| <= |Decimal(j)|
  {
    DecimalLength(i);
    DecimalLength(j);
    if i >= 10 { LongerIsLarger(i / 10, j / 10); }
  }

  lemma NamesDistinct(name: string, ipPort: string, i: nat, j: nat)
    requires Fits(ipPort, i) && Fits(ipPort, j) && ConnName(name, ipPort, i) == ConnName(name, ipPort, j)
    ensures i == j
  {
    var s, t := ConnName(name, ipPort, i), ConnName(name, ipPort, j);
    var k := |name| + |ipPort| + 2;
    assert s == (name + "-" + ipPort + "#") + Decimal(i) && t == (name + "-" + ipPort + "#") + Decimal(j);
    assert s[k..] == Decimal(i) && t[k..] == Decimal(j);
    DecimalIsInjective(i, j);
  }

  // The leading part of an id that has one digit too many.
  lemma {:induction false} OneTooMany(ipPort: string, top: nat) returns (j: nat)
    requires !Fits(ipPort, top) && |ipPort| + 3 < BUFFER_SIZE
    ensures 10 <= j <= top && |ipPort| + 2 + |Decimal(j)| == BUFFER_SIZE
  {
    DecimalLength(top);
    if |ipPort| + 2 + |Decimal(top)| == BUFFER_SIZE {
      j := top;
    } else {
      j := OneTooMany(ipPort, top / 10);
    }
  }

  lemma CutShort(name: string, ipPort: string, j: nat)
    requires j >= 10 && |ipPort| + 2 + |Decimal(j)| == BUFFER_SIZE
    ensures ConnName(name, ipPort, j) == ConnName(name, ipPort, j / 10)
  {
    assert Written(ipPort, j)[..BUFFER_SIZE - 1] == Written(ipPort, j / 10);
  }

  // Not one digit fits.
  lemma NoRoom(name: string, ipPort: string)
    requires |ipPort| + 3 >= BUFFER_SIZE
    ensures ConnName(name, ipPort, 1) == ConnName(name, ipPort, 2)
  {
    assert Written(ipPort, 1)[..BUFFER_SIZE - 1] == ("-" + ipPort + "#")[..BUFFER_SIZE - 1];
    assert Written(ipPort, 2)[..BUFFER_SIZE - 1] == ("-" + ipPort + "#")[..BUFFER_SIZE - 1];
  }

  function Power10(k: nat): nat {
    if k == 0 then 1 else 10 * Power10(k - 1)
  }

  lemma {:induction false} DigitsOf(n: nat, k: nat)
    requires k >= 1
    ensures |Decimal(n)| <= k <==> n < Power10(k)
    decreases k
  {
    DecimalLength(n);
    var low := Power10(k - 1);
    assert n / 10 < low <==> n < 10 * low;
    if k == 1 {
      assert low == 1;
    } else {
      assert low == 10 * Power10(k - 2);
      if n >= 10 { DigitsOf(n / 10, k - 1); } else { PowerIsPositive(k - 2); }
    }
  }

  lemma PowerIsPositive(k: nat)
    ensures Power10(k) >= 1
  {
  }

  /** In figures: no 31-bit id is cut exactly if the address has at most 51 characters. */
  lemma IdsFitIff(ipPort: string)
    ensures (forall id: nat | id <= 0x7FFF_FFFF :: Fits(ipPort, id)) <==> |ipPort| <= 51
  {
    TenDigits(0x7FFF_FFFF);
    assert Fits(ipPort, 0x7FFF_FFFF) <==> |ipPort| <= 51;
    forall id: nat | id <= 0x7FFF_FFFF ensures |Decimal(id)| <= |Decimal(0x7FFF_FFFF)| {
      LongerIsLarger(id, 0x7FFF_FFFF);
    }
    hide Decimal;
  }

  lemma TenDigits(n: nat)
    requires 1_000_000_000 <= n < 10_000_000_000
    ensures |Decimal(n)| == 10
  {
    assert Power10(8) == 100_000_000;
    DigitsOf(n, 9);
    DigitsOf(n, 10);
    hide Decimal;
  }

  /** All ids up to `top` have different names exactly when the name of the last one fits in the buffer. */
  lemma NamesDistinctIff(name: string, ipPort: string, top: nat)
    requires top >= 2
    ensures (forall i: nat, j: nat | 1 <= i < j <= top :: ConnName(name, ipPort, i) != ConnName(name, ipPort, j))
            <==> Fits(ipPort, top)
  {
    if Fits(ipPort, top) {
      forall i: nat, j: nat | 1 <= i < j <= top ensures ConnName(name, ipPort, i) != ConnName(name, ipPort, j) {
        LongerIsLarger(i, top);
        LongerIsLarger(j, top);
        if ConnName(name, ipPort, i) == ConnName(name, ipPort, j) { NamesDistinct(name, ipPort, i, j); }
      }
    } else if |ipPort| + 3 < BUFFER_SIZE {
      var j := OneTooMany(ipPort, top);
      CutShort(name, ipPort, j);
    } else {
      NoRoom(name, ipPort);
    }
  }
}
