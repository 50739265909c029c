/** Numerals: printing and reading numbers in base 10 and 16. */
module Numerals {
  import opened Basics

  const DIGITS: string := "0123456789abcdef"

  function DigitValue(c: char): Option<int> {
    if '0' <= c <= '9' then Some(c as int - '0' as int)
    else if 'a' <= c <= 'f' then Some(c as int - 'a' as int + 10)
    else if 'A' <= c <= 'F' then Some(c as int - 'A' as int + 10)
    else None
  }

  predicate IsDigit(c: char, base: int) {
    DigitValue(c).Some? && DigitValue(c).value < base
  }

  predicate AllDigits(s: string, base: int) {
    forall i | 0 <= i < |s| :: IsDigit(s[i], base)
  }

  lemma DivMod(n: nat, base: int)
    requires base >= 2
    ensures n == (n / base) * base + n % base && 0 <= n % base < base
    ensures 0 <= n / base && (n >= base ==> n / base < n)
  {
    var q := n / base;
    assert n == q * base + n % base;
    assert q >= 0 ==> q * base >= q * 2;
  }

  /** The shortest numeral of a number. */
  function Numeral(n: nat, base: int): (s: string)
    requires 2 <= base <= 16
    ensures |s| >= 1
  {
    DivMod(n, base);
    if n < base then [DIGITS[n]] else Numeral(n / base, base) + [DIGITS[n % base]]
  }

  /** The number a numeral stands for. */
  function ValueOf(s: string, base: int): int
    requires AllDigits(s, base)
  {
    if s == "" then 0
    else
      assert IsDigit(s[|s| - 1], base);
      ValueOf(s[..|s| - 1], base) * base + DigitValue(s[|s| - 1]).value
  }

  lemma DigitOfIndex(i: int, base: int)
    requires 0 <= i < base <= 16
    ensures DigitValue(DIGITS[i]) == Some(i) && IsDigit(DIGITS[i], base)
    ensures DIGITS[i] != '.'
  {
  }

  lemma {:induction false} NumeralReads(n: nat, base: int)
    requires 2 <= base <= 16
    ensures AllDigits(Numeral(n, base), base)
    ensures ValueOf(Numeral(n, base), base) == n
  {
    DivMod(n, base);
    if n >= base {
      NumeralReads(n / base, base);
      DigitAppended(Numeral(n / base, base), n % base, base);
    } else {
      assert Numeral(n, base) == "" + [DIGITS[n]];
      DigitAppended("", n, base);
    }
  }

  lemma DigitAppended(s: string, d: int, base: int)
    requires 0 <= d < base <= 16 && AllDigits(s, base)
    ensures AllDigits(s + [DIGITS[d]], base)
    ensures ValueOf(s + [DIGITS[d]], base) == ValueOf(s, base) * base + d
  {
    DigitOfIndex(d, base);
    assert (s + [DIGITS[d]])[..|s|] == s;
  }

  /** Different numbers have different numerals. */
  lemma NumeralInjective(m: nat, n: nat, base: int)
    requires 2 <= base <= 16 && Numeral(m, base) == Numeral(n, base)
    ensures m == n
  {
    NumeralReads(m, base);
    NumeralReads(n, base);
  }

  lemma {:induction false} NumeralHasNoDot(n: nat, base: int)
    requires 2 <= base <= 16
    ensures '.' !in Numeral(n, base)
  {
    DivMod(n, base);
    DigitOfIndex(n % base, base);
    if n >= base {
      NumeralHasNoDot(n / base, base);
    } else {
      DigitOfIndex(n, base);
    }
  }

  function Power(base: int, n: nat): int {
    if n == 0 then 1 else base * Power(base, n - 1)
  }

  lemma {:induction false} NumeralLength(n: nat, k: nat)
    requires k >= 1 && n < Power(16, k)
    ensures |Numeral(n, 16)| <= k
  {
    if n >= 16 {
      assert k > 1 by {
        assert Power(16, 1) == 16 * Power(16, 0);
      }
      assert n / 16 < Power(16, k - 1);
      NumeralLength(n / 16, k - 1);
    }
  }

  /** A number as exactly `k` hex digits. */
  function FixedHex(n: nat, k: nat): (s: string)
    ensures |s| == k
  {
    if k == 0 then "" else FixedHex(n / 16, k - 1) + [DIGITS[n % 16]]
  }

  lemma {:induction false} FixedHexInjective(m: nat, n: nat, k: nat)
    requires m < Power(16, k) && n < Power(16, k)
    requires FixedHex(m, k) == FixedHex(n, k)
    ensures m == n
  {
    if k > 0 {
      var s, t := FixedHex(m, k), FixedHex(n, k);
      assert s[..k - 1] == FixedHex(m / 16, k - 1) && t[..k - 1] == FixedHex(n / 16, k - 1);
      assert s[k - 1] == DIGITS[m % 16] && t[k - 1] == DIGITS[n % 16];
      DigitOfIndex(m % 16, 16);
      DigitOfIndex(n % 16, 16);
      FixedHexInjective(m / 16, n / 16, k - 1);
    }
  }

  lemma {:induction false} FixedHexHasNoDot(n: nat, k: nat)
    ensures '.' !in FixedHex(n, k)
  {
    if k > 0 {
      DigitOfIndex(n % 16, 16);
      FixedHexHasNoDot(n / 16, k - 1);
    }
  }

  /** A hex quantity: 0x and the shortest numeral. */
  function Quantity(n: nat): string {
    "0x" + Numeral(n, 16)
  }
}
