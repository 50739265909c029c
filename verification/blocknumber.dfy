/** BlockNumber: printing and reading of block numbers and tags. */
module BlockNumbers {
  import opened Basics
  import opened Types
  import opened Numerals

  const LATEST_EXECUTED: int := -5
  const FINALIZED: int := -4
  const SAFE: int := -3
  const PENDING: int := -2
  const LATEST: int := -1
  const EARLIEST: int := 0

  predicate Int64(n: int) {
    -(TWO_63 as int) <= n < TWO_63
  }

  function AsUint64(n: int): nat
    requires Int64(n)
  {
    if n < 0 then n + TWO_64 else n
  }

  /** What is printed between the quotes. */
  function Printed(bn: int): string
    requires Int64(bn)
  {
    if bn == EARLIEST then "earliest"
    else if bn == LATEST then "latest"
    else if bn == PENDING then "pending"
    else if bn == SAFE then "safe"
    else if bn == FINALIZED then "finalized"
    else if bn == LATEST_EXECUTED then "latestExecuted"
    else Quantity(AsUint64(bn))
  }

  function Marshal(bn: int): string
    requires Int64(bn)
  {
    "\"" + Printed(bn) + "\""
  }

  predicate IsSpace(c: char) {
    c == ' ' || c == '\t' || c == '\n' || c == '\r' || c == 11 as char || c == 12 as char
  }

  function TrimSpace(s: string): string {
    if s == "" then s
    else if IsSpace(s[0]) then TrimSpace(s[1..])
    else if IsSpace(s[|s| - 1]) then TrimSpace(s[..|s| - 1])
    else s
  }

  /** Strips the first of the characters that both begins and ends the data. */
  function TrimChar(s: string, chars: string): string {
    if chars == "" then s
    else if |s| >= 2 && s[0] == chars[0] && s[|s| - 1] == chars[0] then s[1..|s| - 1]
    else TrimChar(s, chars[1..])
  }

  function ParseUint(s: string): Option<int> {
    if s != "" && AllDigits(s, 10) && 0 <= ValueOf(s, 10) < TWO_64 then Some(ValueOf(s, 10)) else None
  }

  predicate IsHex(s: string) {
    |s| > 2 && s[0] == '0' && (s[1] == 'x' || s[1] == 'X') && AllDigits(s[2..], 16)
  }

  /** The lowest 64 bits of what the big-number reader makes of the input; anything it reads other than
      plain decimal and hex numerals, and whatever it leaves behind when it fails, is `junk`. */
  function BigUint64(s: string, junk: int): int {
    if IsHex(s) then ValueOf(s[2..], 16) % TWO_64
    else if s != "" && s[0] != '0' && AllDigits(s, 10) then ValueOf(s, 10) % TWO_64
    else junk
  }

  function ReadNumber(s: string, junk: int): Result<int> {
    var n := if ParseUint(s).Some? then ParseUint(s).value else BigUint64(s, junk);
    if n > TWO_63 - 1 then Err else Ok(n)
  }

  /** What a trimmed input stands for. */
  function ReadInput(input: string, junk: int): Result<int> {
    if input == "earliest" then Ok(EARLIEST)
    else if input == "latest" then Ok(LATEST)
    else if input == "pending" then Ok(PENDING)
    else if input == "safe" then Ok(SAFE)
    else if input == "finalized" then Ok(FINALIZED)
    else if input == "latestExecuted" then Ok(LATEST_EXECUTED)
    else if input == "null" then Ok(LATEST)
    else ReadNumber(input, junk)
  }

  function Unmarshal(data: string, junk: int): Result<int> {
    ReadInput(TrimChar(TrimSpace(data), ['"', '\'']), junk)
  }

  predicate IsTag(s: string) {
    s == "earliest" || s == "latest" || s == "pending" || s == "safe" || s == "finalized"
    || s == "latestExecuted" || s == "null"
  }

  /** A numeral is no tag: it begins with a digit. */
  lemma DigitIsNoTag(s: string)
    requires s != "" && IsDigit(s[0], 10)
    ensures !IsTag(s)
  {
  }

  lemma UnmarshalNumber(data: string, s: string, junk: int)
    requires TrimChar(TrimSpace(data), ['"', '\'']) == s && s != "" && IsDigit(s[0], 10)
    ensures Unmarshal(data, junk) == ReadNumber(s, junk)
  {
    DigitIsNoTag(s);
    hide ReadNumber, TrimChar, TrimSpace;
  }

  lemma QuantityShape(n: nat)
    ensures IsHex(Quantity(n)) && ValueOf(Quantity(n)[2..], 16) == n
    ensures Quantity(n) != "" && !AllDigits(Quantity(n), 10) && IsDigit(Quantity(n)[0], 10)
  {
    var s := Quantity(n);
    NumeralReads(n, 16);
    assert s[2..] == Numeral(n, 16);
    assert !IsDigit(s[1], 10);
    hide ValueOf, Numeral;
  }

  /** Hex is read by the big-number reader, because the decimal attempt refuses it. */
  lemma ReadsQuantity(n: nat, junk: int)
    requires n < TWO_64
    ensures ReadNumber(Quantity(n), junk) == if n < TWO_63 then Ok(n) else Err
    ensures Quantity(n) != "" && IsDigit(Quantity(n)[0], 10)
  {
    QuantityShape(n);
    hide ValueOf, Numeral, Quantity, AllDigits, IsHex, IsDigit;
  }

  lemma ReadsDecimal(n: nat, junk: int)
    requires n < TWO_63
    ensures ReadNumber(Numeral(n, 10), junk) == Ok(n)
    ensures Numeral(n, 10) != "" && IsDigit(Numeral(n, 10)[0], 10)
  {
    NumeralReads(n, 10);
    assert IsDigit(Numeral(n, 10)[0], 10);
  }

  predicate Spaces(s: string) {
    forall i | 0 <= i < |s| :: IsSpace(s[i])
  }

  lemma {:induction false} TrimmedRight(core: string, right: string)
    requires core != "" && !IsSpace(core[0]) && !IsSpace(core[|core| - 1]) && Spaces(right)
    ensures TrimSpace(core + right) == core
  {
    var s := core + right;
    assert s[0] == core[0];
    if right == "" {
      assert s == core;
    } else {
      assert s[|s| - 1] == right[|right| - 1];
      assert s[..|s| - 1] == core + right[..|right| - 1];
      TrimmedRight(core, right[..|right| - 1]);
    }
  }

  lemma {:induction false} Trimmed(left: string, core: string, right: string)
    requires core != "" && !IsSpace(core[0]) && !IsSpace(core[|core| - 1]) && Spaces(left) && Spaces(right)
    ensures TrimSpace(left + core + right) == core
  {
    var s := left + core + right;
    if left == "" {
      assert s == core + right;
      TrimmedRight(core, right);
    } else {
      assert s[0] == left[0] && s[1..] == left[1..] + core + right;
      Trimmed(left[1..], core, right);
    }
  }

  lemma Unquoted(quote: char, s: string)
    requires quote == '"' || quote == '\''
    ensures TrimChar([quote] + s + [quote], ['"', '\'']) == s
  {
    var t, chars := [quote] + s + [quote], ['"', '\''];
    assert t[1..|t| - 1] == s;
    assert chars[1..][0] == '\'';
    assert quote == '\'' ==> TrimChar(t, chars) == TrimChar(t, chars[1..]);
  }

  /** What is read from a quoted text, with any white space around the quotes. */
  lemma UnmarshalQuoted(left: string, quote: char, s: string, right: string)
    requires (quote == '"' || quote == '\'') && Spaces(left) && Spaces(right)
    ensures TrimChar(TrimSpace(left + ([quote] + s + [quote]) + right), ['"', '\'']) == s
  {
    var core := [quote] + s + [quote];
    assert core[|core| - 1] == quote && core[0] == quote;
    Trimmed(left, core, right);
    Unquoted(quote, s);
  }

  /** Printing then reading is the identity exactly from "latestExecuted" upwards; below it the
      printed two's complement is refused. */
  lemma RoundTripIff(bn: int, junk: int)
    requires Int64(bn)
    ensures Unmarshal(Marshal(bn), junk) == Ok(bn) <==> bn >= LATEST_EXECUTED
    ensures bn < LATEST_EXECUTED ==> Unmarshal(Marshal(bn), junk) == Err
  {
    var s := Printed(bn);
    UnmarshalQuoted("", '"', s, "");
    assert "" + (['"'] + s + ['"']) + "" == Marshal(bn);
    if bn > 0 || bn < LATEST_EXECUTED {
      ReadsQuantity(AsUint64(bn), junk);
      UnmarshalNumber(Marshal(bn), s, junk);
    }
    hide ReadNumber, Quantity, TrimSpace, TrimChar;
  }

  /** The first number below the tags: it is printed as an unsigned word, which is refused. */
  lemma BelowTheTags(junk: int)
    ensures AsUint64(-6) == 0xffff_ffff_ffff_fffa
    ensures Unmarshal(Marshal(-6), junk) == Err
  {
    RoundTripIff(-6, junk);
    hide Unmarshal, Marshal;
  }

  /** Which number each word stands for. */
  lemma WordsRead(junk: int)
    ensures ReadInput("earliest", junk) == Ok(0)
    ensures ReadInput("latest", junk) == Ok(-1)
    ensures ReadInput("pending", junk) == Ok(-2)
    ensures ReadInput("safe", junk) == Ok(-3)
    ensures ReadInput("finalized", junk) == Ok(-4)
    ensures ReadInput("latestExecuted", junk) == Ok(-5)
    ensures ReadInput("null", junk) == Ok(-1)
  {
    assert |"earliest"| == 8 && |"latest"| == 6 && |"pending"| == 7 && |"safe"| == 4;
    assert |"finalized"| == 9 && |"latestExecuted"| == 14 && |"null"| == 4;
    assert "null"[0] == 'n' && "safe"[0] == 's';
    hide ReadNumber;
  }

  /** Which word is printed for each of these numbers. */
  lemma WordsPrinted()
    ensures Marshal(0) == "\"earliest\"" && Marshal(-1) == "\"latest\"" && Marshal(-2) == "\"pending\""
    ensures Marshal(-3) == "\"safe\"" && Marshal(-4) == "\"finalized\"" && Marshal(-5) == "\"latestExecuted\""
  {
  }

  /** What is read is what stands between the quotes, whatever white space is around them. */
  lemma ReadsBetweenQuotes(left: string, quote: char, word: string, right: string, junk: int)
    requires (quote == '"' || quote == '\'') && Spaces(left) && Spaces(right)
    ensures Unmarshal(left + ([quote] + word + [quote]) + right, junk) == ReadInput(word, junk)
  {
    UnmarshalQuoted(left, quote, word, right);
    hide TrimSpace, TrimChar, ReadInput;
  }

  /** How numbers look: the shortest lower-case hex numeral, after 0x. */
  lemma HexLooks()
    ensures Marshal(1) == "\"0x1\"" && Marshal(255) == "\"0xff\"" && Marshal(4096) == "\"0x1000\""
  {
    assert Numeral(255, 16) == "ff";
    assert Numeral(4096, 16) == "1000" by {
      assert Numeral(16, 16) == "10" && Numeral(256, 16) == "100";
    }
  }

  /** A number is read from its decimal or hex numeral, in either kind of quotes, with white space around. */
  lemma ReadsEitherNumeral(n: nat, left: string, quote: char, right: string, junk: int)
    requires n < TWO_63 && (quote == '"' || quote == '\'') && Spaces(left) && Spaces(right)
    ensures Unmarshal(left + ([quote] + Numeral(n, 10) + [quote]) + right, junk) == Ok(n)
    ensures Unmarshal(left + ([quote] + Quantity(n) + [quote]) + right, junk) == Ok(n)
  {
    ReadsDecimal(n, junk);
    ReadsQuantity(n, junk);
    UnmarshalQuoted(left, quote, Numeral(n, 10), right);
    UnmarshalQuoted(left, quote, Quantity(n), right);
    UnmarshalNumber(left + ([quote] + Numeral(n, 10) + [quote]) + right, Numeral(n, 10), junk);
    UnmarshalNumber(left + ([quote] + Quantity(n) + [quote]) + right, Quantity(n), junk);
    hide Unmarshal, ReadNumber, Quantity, Numeral, TrimSpace, TrimChar;
  }

  /** An input without quotes or white space at its ends is read as it is. */
  lemma ReadsBare(word: string, junk: int)
    requires word != "" && !IsSpace(word[0]) && !IsSpace(word[|word| - 1])
    requires word[0] != '"' && word[0] != '\''
    ensures Unmarshal(word, junk) == ReadInput(word, junk)
  {
    var chars := ['"', '\''];
    assert TrimSpace(word) == word;
    assert chars[1..] == ['\''] && chars[1..][1..] == "";
    assert TrimChar(word, chars) == TrimChar(word, chars[1..]);
    assert TrimChar(word, chars[1..]) == TrimChar(word, "");
    hide ReadInput;
  }

  /** What a number of more than 64 bits is taken for: its lowest 64 bits, refused from 2^63 on. */
  function Wrapped(n: nat): Result<int> {
    if n % 0x1_0000_0000_0000_0000 < 0x8000_0000_0000_0000 then Ok(n % 0x1_0000_0000_0000_0000) else Err
  }

  lemma {:induction false} FirstDigit(n: nat, base: int)
    requires 2 <= base <= 16 && n > 0
    ensures Numeral(n, base)[0] != '0'
  {
    DivMod(n, base);
    if n >= base {
      assert n / base > 0;
      FirstDigit(n / base, base);
    } else {
      DigitOfIndex(n, base);
      DigitOfIndex(0, base);
    }
  }

  lemma DecimalShape(n: nat)
    ensures var s := Numeral(n, 10);
      && s != "" && IsDigit(s[0], 10) && AllDigits(s, 10) && ValueOf(s, 10) == n
      && (n > 0 ==> s[0] != '0') && !IsHex(s)
  {
    NumeralReads(n, 10);
    var s := Numeral(n, 10);
    assert IsDigit(s[0], 10);
    assert |s| > 1 ==> IsDigit(s[1], 10);
    if n > 0 {
      FirstDigit(n, 10);
    }
    hide Numeral, ValueOf;
  }

  lemma NoTagReads(s: string, junk: int)
    requires s != "" && IsDigit(s[0], 10)
    ensures ReadInput(s, junk) == ReadNumber(s, junk)
  {
    DigitIsNoTag(s);
    hide ReadNumber;
  }

  lemma DigitsWrap(s: string, n: nat, junk: int)
    requires s != "" && AllDigits(s, 10) && ValueOf(s, 10) == n && (n > 0 ==> s[0] != '0') && !IsHex(s)
    ensures ReadNumber(s, junk) == Wrapped(n)
  {
    hide ValueOf, AllDigits, IsHex;
  }

  lemma HexWraps(s: string, n: nat, junk: int)
    requires IsHex(s) && ValueOf(s[2..], 16) == n && !AllDigits(s, 10)
    ensures ReadNumber(s, junk) == Wrapped(n)
  {
    hide ValueOf, AllDigits;
  }

  /** Decimal numerals of any size are read modulo 2^64. */
  lemma ReadsAnyDecimal(n: nat, junk: int)
    ensures ReadInput(Numeral(n, 10), junk) == Wrapped(n)
  {
    DecimalShape(n);
    NoTagReads(Numeral(n, 10), junk);
    DigitsWrap(Numeral(n, 10), n, junk);
    hide *;
  }

  /** So are hex quantities. */
  lemma ReadsAnyHex(n: nat, junk: int)
    ensures ReadInput(Quantity(n), junk) == Wrapped(n)
  {
    QuantityShape(n);
    NoTagReads(Quantity(n), junk);
    HexWraps(Quantity(n), n, junk);
    hide *;
  }
}
