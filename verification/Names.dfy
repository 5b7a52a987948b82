/** The connection names of TcpServer::newConnection: name_ + "-" + ipPort + "#" + nextConnId_. */
module Names {
  const DIGITS: string := "0123456789"

  function Decimal(n: nat): (d: string)
    ensures |d| > 0 && forall i :: 0 <= i < |d| ==> d[i] in DIGITS
  {
    if n < 10 then [DIGITS[n]] else Decimal(n / 10) + [DIGITS[n % 10]]
  }

  lemma {:induction false} DecimalInjective(m: nat, n: nat)
    requires Decimal(m) == Decimal(n)
    ensures m == n
  {
    var x, y := Decimal(m), Decimal(n);
    LastDigit(m);
    LastDigit(n);
    if m >= 10 && n >= 10 {
      assert x[..|x| - 1] == Decimal(m / 10) && y[..|y| - 1] == Decimal(n / 10);
      DecimalInjective(m / 10, n / 10);
    }
  }

  lemma LastDigit(n: nat)
    ensures var d := Decimal(n); d[|d| - 1] == DIGITS[n % 10] && (|d| == 1 <==> n < 10)
  {
  }

  /** The full name; `prefix` is everything before the '#'. */
  function ConnName(prefix: string, id: nat): string { prefix + "#" + Decimal(id) }

  /** Names are pairwise distinct. */
  lemma ConnNameInjective(prefix: string, m: nat, n: nat)
    requires ConnName(prefix, m) == ConnName(prefix, n)
    ensures m == n
  {
    var x, y := ConnName(prefix, m), ConnName(prefix, n);
    assert x[|prefix| + 1..] == Decimal(m) && y[|prefix| + 1..] == Decimal(n);
    DecimalInjective(m, n);
  }

  function PowerOfTen(k: nat): nat { if k == 0 then 1 else 10 * PowerOfTen(k - 1) }

  lemma {:induction false} DecimalLength(n: nat, k: nat)
    requires 0 < k && n < PowerOfTen(k)
    ensures |Decimal(n)| <= k
  {
    if n >= 10 {
      DecimalLength(n / 10, k - 1);
    }
  }

  /** snprintf into buf[64] keeps the whole suffix "-ip:port#id" for every positive int id: an
      IPv4 address and port take at most 21 characters. */
  lemma SuffixNotTruncated(ipPort: string, id: nat)
    requires |ipPort| <= 21 && id < 0x8000_0000
    ensures |"-" + ipPort + "#" + Decimal(id)| < 64
  {
    assert PowerOfTen(5) == 100_000;
    assert PowerOfTen(10) == 10_000_000_000;
    DecimalLength(id, 10);
  }
}
