/** SingleFlight: the key under which concurrent queries share one call. */
module FlightKeys {
  import opened Basics
  import opened Types
  import opened Numerals

  function TypeNumber(typ: EntryType): (n: nat)
    ensures n < 3
  {
    match typ
    case BlockHeader => 0
    case Logs => 1
    case Receipts => 2
  }

  /** Numbers are unsigned 64-bit and hashes have 256 bits. */
  predicate Representable(q: Query) {
    match q
    case QueryRange(start, end) => start < TWO_64 && end < TWO_64
    case QueryHash(hash) => 0 <= hash < Power(16, 64)
  }

  function Front(chain: ChainName, typ: EntryType): string {
    chain + "." + Numeral(TypeNumber(typ), 10)
  }

  function Key(chain: ChainName, typ: EntryType, q: Query): string
    requires Representable(q)
  {
    match q
    case QueryRange(start, end) => Front(chain, typ) + "." + Quantity(start) + "." + Quantity(end)
    case QueryHash(hash) => Front(chain, typ) + "." + ("0x" + FixedHex(hash, 64))
  }

  function LastDot(s: string): int {
    if s == "" then -1 else if s[|s| - 1] == '.' then |s| - 1 else LastDot(s[..|s| - 1])
  }

  lemma {:induction false} LastDotOf(a: string, b: string)
    requires '.' !in b
    ensures LastDot(a + "." + b) == |a|
  {
    var s := a + "." + b;
    if b == "" {
      assert s[|s| - 1] == '.';
    } else {
      assert s[|s| - 1] == b[|b| - 1];
      assert s[..|s| - 1] == a + "." + b[..|b| - 1];
      LastDotOf(a, b[..|b| - 1]);
    }
  }

  /** A string is cut in one way only at its last dot. */
  lemma CutOnce(a: string, b: string, c: string, d: string)
    requires a + "." + b == c + "." + d && '.' !in b && '.' !in d
    ensures a == c && b == d
  {
    LastDotOf(a, b);
    LastDotOf(c, d);
    var s := a + "." + b;
    assert a == s[..|a|] && c == s[..|c|] && b == s[|a| + 1..] && d == s[|c| + 1..];
  }

  lemma SixteenDigits(n: nat)
    requires n < TWO_64
    ensures |Quantity(n)| <= 18 && '.' !in Quantity(n)
  {
    assert Power(16, 4) == 65536;
    assert Power(16, 8) == 65536 * 65536;
    assert Power(16, 16) == TWO_64;
    NumeralLength(n, 16);
    NumeralHasNoDot(n, 16);
  }

  lemma FrontInjective(chain1: ChainName, typ1: EntryType, chain2: ChainName, typ2: EntryType)
    requires Front(chain1, typ1) == Front(chain2, typ2)
    ensures chain1 == chain2 && typ1 == typ2
  {
    NumeralHasNoDot(TypeNumber(typ1), 10);
    NumeralHasNoDot(TypeNumber(typ2), 10);
    CutOnce(chain1, Numeral(TypeNumber(typ1), 10), chain2, Numeral(TypeNumber(typ2), 10));
    NumeralInjective(TypeNumber(typ1), TypeNumber(typ2), 10);
  }

  lemma QuantityInjective(m: nat, n: nat)
    requires Quantity(m) == Quantity(n)
    ensures m == n
  {
    assert Numeral(m, 16) == Quantity(m)[2..] && Numeral(n, 16) == Quantity(n)[2..];
    NumeralInjective(m, n, 16);
  }

  lemma RangeKeys(front1: string, start1: nat, end1: nat, front2: string, start2: nat, end2: nat)
    requires start1 < TWO_64 && end1 < TWO_64 && start2 < TWO_64 && end2 < TWO_64
    requires front1 + "." + Quantity(start1) + "." + Quantity(end1)
      == front2 + "." + Quantity(start2) + "." + Quantity(end2)
    ensures front1 == front2 && start1 == start2 && end1 == end2
  {
    SixteenDigits(start1);
    SixteenDigits(start2);
    SixteenDigits(end1);
    SixteenDigits(end2);
    hide Quantity;
    CutOnce(front1 + "." + Quantity(start1), Quantity(end1), front2 + "." + Quantity(start2), Quantity(end2));
    CutOnce(front1, Quantity(start1), front2, Quantity(start2));
    QuantityInjective(start1, start2);
    QuantityInjective(end1, end2);
  }

  lemma HashKeys(front1: string, hash1: nat, front2: string, hash2: nat)
    requires hash1 < Power(16, 64) && hash2 < Power(16, 64)
    requires front1 + "." + ("0x" + FixedHex(hash1, 64)) == front2 + "." + ("0x" + FixedHex(hash2, 64))
    ensures front1 == front2 && hash1 == hash2
  {
    FixedHexHasNoDot(hash1, 64);
    FixedHexHasNoDot(hash2, 64);
    var s1, s2 := FixedHex(hash1, 64), FixedHex(hash2, 64);
    hide FixedHex, Power;
    CutOnce(front1, "0x" + s1, front2, "0x" + s2);
    assert s1 == ("0x" + s1)[2..] && s2 == ("0x" + s2)[2..];
    FixedHexInjective(hash1, hash2, 64);
  }

  /** The last part tells the two kinds of query apart by its length. */
  lemma MixedKeys(front1: string, start: nat, end: nat, front2: string, hash: nat)
    requires start < TWO_64 && end < TWO_64
    ensures front1 + "." + Quantity(start) + "." + Quantity(end) != front2 + "." + ("0x" + FixedHex(hash, 64))
  {
    SixteenDigits(end);
    FixedHexHasNoDot(hash, 64);
    var s := FixedHex(hash, 64);
    assert |"0x" + s| == 66;
    hide FixedHex, Quantity;
    if front1 + "." + Quantity(start) + "." + Quantity(end) == front2 + "." + ("0x" + s) {
      CutOnce(front1 + "." + Quantity(start), Quantity(end), front2, "0x" + s);
      assert false;
    }
  }

  /** Two queries get the same key only if chain, type and query are the same, whatever the chains
      are called. */
  lemma KeyInjective(chain1: ChainName, typ1: EntryType, q1: Query, chain2: ChainName, typ2: EntryType, q2: Query)
    requires Representable(q1) && Representable(q2)
    requires Key(chain1, typ1, q1) == Key(chain2, typ2, q2)
    ensures chain1 == chain2 && typ1 == typ2 && q1 == q2
  {
    var front1, front2 := Front(chain1, typ1), Front(chain2, typ2);
    if q1.QueryRange? && q2.QueryRange? {
      RangeKeys(front1, q1.start, q1.end, front2, q2.start, q2.end);
    } else if q1.QueryHash? && q2.QueryHash? {
      HashKeys(front1, q1.hash, front2, q2.hash);
    } else if q1.QueryRange? {
      MixedKeys(front1, q1.start, q1.end, front2, q2.hash);
    } else {
      MixedKeys(front2, q2.start, q2.end, front1, q1.hash);
    }
    FrontInjective(chain1, typ1, chain2, typ2);
    hide Front, Quantity, FixedHex, Power;
  }
}
