/** The parts of Go's `strings` and `strconv` packages the provider relies on. */
module GoStrings {

  /** Number of occurrences of `c` in `s`. */
  function Count(s: string, c: char): nat {
    if |s| == 0 then 0 else (if s[0] == c then 1 else 0) + Count(s[1..], c)
  }

  /** Position of the first `c` in `s`. */
  function IndexOf(s: string, c: char): (i: nat)
    requires c in s
    ensures i < |s| && s[i] == c
    ensures c !in s[..i]
  {
    if s[0] == c then 0 else
      assert c in s[1..] by { var k :| 0 <= k < |s| && s[k] == c; assert s[1..][k - 1] == c; }
      var j := IndexOf(s[1..], c);
      assert s[..j + 1] == [s[0]] + s[1..][..j];
      j + 1
  }

  /** `strings.Split(s, string(sep))`: at least one part, none holding `sep`. */
  function Split(s: string, sep: char): (parts: seq<string>)
    ensures |parts| >= 1
    decreases |s|
  {
    if sep !in s then [s]
    else
      var i := IndexOf(s, sep);
      [s[..i]] + Split(s[i + 1..], sep)
  }

  /** `strings.Join(parts, string(sep))`. */
  function Join(parts: seq<string>, sep: char): string {
    if |parts| == 0 then ""
    else if |parts| == 1 then parts[0]
    else parts[0] + [sep] + Join(parts[1..], sep)
  }

  /** No part holds the separator, so joining loses no boundary. */
  predicate SepFree(parts: seq<string>, sep: char) {
    forall i :: 0 <= i < |parts| ==> sep !in parts[i]
  }

  lemma {:induction false} SplitSepFree(s: string, sep: char)
    ensures SepFree(Split(s, sep), sep)
    decreases |s|
  {
    if sep in s {
      var i := IndexOf(s, sep);
      SplitSepFree(s[i + 1..], sep);
    }
  }

  lemma {:induction false} CountAppend(a: string, b: string, c: char)
    ensures Count(a + b, c) == Count(a, c) + Count(b, c)
  {
    if |a| > 0 {
      assert (a + b)[1..] == a[1..] + b;
      CountAppend(a[1..], b, c);
    } else {
      assert a + b == b;
    }
  }

  lemma {:induction false} CountAbsent(s: string, c: char)
    requires c !in s
    ensures Count(s, c) == 0
  {
    if |s| > 0 {
      assert c !in s[1..] by { forall k | 0 <= k < |s| - 1 ensures s[1..][k] != c { assert s[1..][k] == s[k + 1]; } }
      CountAbsent(s[1..], c);
    }
  }

  /** Split yields one more part than there are separators. */
  lemma {:induction false} SplitLength(s: string, sep: char)
    ensures |Split(s, sep)| == Count(s, sep) + 1
    decreases |s|
  {
    if sep !in s {
      CountAbsent(s, sep);
    } else {
      var i := IndexOf(s, sep);
      assert s == s[..i] + ([sep] + s[i + 1..]);
      CountAppend(s[..i], [sep] + s[i + 1..], sep);
      CountAbsent(s[..i], sep);
      assert ([sep] + s[i + 1..])[1..] == s[i + 1..];
      SplitLength(s[i + 1..], sep);
    }
  }

  /** Joining the parts of a split restores the string. */
  lemma {:induction false} JoinSplit(s: string, sep: char)
    ensures Join(Split(s, sep), sep) == s
    decreases |s|
  {
    if sep in s {
      var i := IndexOf(s, sep);
      var rest := Split(s[i + 1..], sep);
      JoinSplit(s[i + 1..], sep);
      assert Split(s, sep) == [s[..i]] + rest;
      assert (Split(s, sep))[1..] == rest;
      assert s == s[..i] + [sep] + s[i + 1..];
    }
  }

  /** A separator right after a separator-free prefix ends the first part. */
  lemma SplitAt(p0: string, t: string, sep: char)
    requires sep !in p0
    ensures Split(p0 + [sep] + t, sep) == [p0] + Split(t, sep)
  {
    var s := p0 + [sep] + t;
    assert s[|p0|] == sep;
    var i := IndexOf(s, sep);
    assert s[..|p0|] == p0;
    assert i == |p0|;
    assert s[i + 1..] == t;
  }

  /** Splitting a join of separator-free parts gives the parts back. */
  lemma {:induction false} SplitJoin(parts: seq<string>, sep: char)
    requires |parts| >= 1
    requires SepFree(parts, sep)
    ensures Split(Join(parts, sep), sep) == parts
    decreases |parts|
  {
    if |parts| == 1 {
      assert sep !in parts[0];
    } else {
      var rest := parts[1..];
      assert SepFree(rest, sep) by {
        forall i | 0 <= i < |rest| ensures sep !in rest[i] { assert rest[i] == parts[i + 1]; }
      }
      SplitJoin(rest, sep);
      assert sep !in parts[0];
      SplitAt(parts[0], Join(rest, sep), sep);
      assert [parts[0]] + rest == parts;
    }
  }

  // ---------------------------------------------------------------- case folding

  /** `unicode.ToLower` restricted to ASCII letters. */
  function LowerChar(c: char): char {
    if 'A' <= c <= 'Z' then (c as int + 32) as char else c
  }

  /** `strings.ToLower` on ASCII text. */
  function ToLower(s: string): (r: string)
    ensures |r| == |s|
    ensures forall i :: 0 <= i < |s| ==> r[i] == LowerChar(s[i])
  {
    if |s| == 0 then "" else [LowerChar(s[0])] + ToLower(s[1..])
  }

  lemma ToLowerIdempotent(s: string)
    ensures ToLower(ToLower(s)) == ToLower(s)
  {
  }

  /** `strings.EqualFold` on ASCII text: equal after lowering both sides. */
  predicate EqualFold(a: string, b: string) {
    ToLower(a) == ToLower(b)
  }

  // ---------------------------------------------------------------- suffixes

  predicate HasSuffix(s: string, suffix: string) {
    |suffix| <= |s| && s[|s| - |suffix|..] == suffix
  }

  /** `strings.TrimSuffix`: drops one copy of `suffix` when `s` ends with it. */
  function TrimSuffix(s: string, suffix: string): (r: string)
    ensures HasSuffix(s, suffix) ==> r + suffix == s
    ensures !HasSuffix(s, suffix) ==> r == s
  {
    if HasSuffix(s, suffix) then s[..|s| - |suffix|] else s
  }

  // ---------------------------------------------------------------- ordering

  /** Go's `<` on strings: lexicographic by character code, a proper prefix first. */
  predicate LexLess(a: string, b: string)
    decreases |a|
  {
    if |a| == 0 then |b| > 0
    else if |b| == 0 then false
    else a[0] < b[0] || (a[0] == b[0] && LexLess(a[1..], b[1..]))
  }

  // ---------------------------------------------------------------- decimal integers

  const MinInt64: int := -0x8000_0000_0000_0000
  const MaxInt64: int := 0x7FFF_FFFF_FFFF_FFFF

  predicate IsDigit(c: char) {
    '0' <= c <= '9'
  }

  function DigitChar(d: nat): char
    requires d < 10
  {
    ('0' as int + d) as char
  }

  /** Decimal digits of `n` with no leading zeros. */
  function Digits(n: nat): (s: string)
    ensures |s| >= 1
    ensures forall i :: 0 <= i < |s| ==> IsDigit(s[i])
  {
    if n < 10 then [DigitChar(n)] else Digits(n / 10) + [DigitChar(n % 10)]
  }

  /** Value of a digit string, most significant digit first. */
  function DigitsValue(s: string): nat
    requires forall i :: 0 <= i < |s| ==> IsDigit(s[i])
  {
    if |s| == 0 then 0
    else
      assert IsDigit(s[|s| - 1]);
      DigitsValue(s[..|s| - 1]) * 10 + (s[|s| - 1] as int - '0' as int) as nat
  }

  lemma {:induction false} DigitsRoundTrip(n: nat)
    ensures DigitsValue(Digits(n)) == n
  {
    if n >= 10 {
      var s := Digits(n);
      assert s[..|s| - 1] == Digits(n / 10);
      DigitsRoundTrip(n / 10);
    }
  }

  /** `strconv.Itoa`. */
  function Itoa(i: int): string {
    if i < 0 then "-" + Digits(-i) else Digits(i)
  }

  /** The outcome of `strconv.Atoi`: the value it returns and whether `err` was nil. */
  datatype Parsed = Parsed(value: int, ok: bool)

  const MaxUint64: int := 0xFFFF_FFFF_FFFF_FFFF

  function Clamp64(v: int): int {
    if v < MinInt64 then MinInt64 else if v > MaxInt64 then MaxInt64 else v
  }

  function DigitValue(c: char): nat
    requires IsDigit(c)
  {
    (c as int - '0' as int) as nat
  }

  /** How the digit loop of `strconv.ParseUint` ends. */
  datatype Scan = ScanOk(n: nat) | ScanSyntax | ScanRange

  /**
   * The digit loop of `strconv.ParseUint` in base 10 from position `i` with
   * `n` accumulated: a non-digit is a syntax error, and a digit that takes
   * the value past 64 unsigned bits is a range error, each ending the loop
   * at once.
   */
  function ScanFrom(s: string, i: nat, n: nat): Scan
    requires i <= |s|
    decreases |s| - i
  {
    if i == |s| then ScanOk(n)
    else if !IsDigit(s[i]) then ScanSyntax
    else
      var m := n * 10 + DigitValue(s[i]);
      if m > MaxUint64 then ScanRange else ScanFrom(s, i + 1, m)
  }

  /**
   * `strconv.Atoi`: an optional sign, then the digit loop of `ParseUint`. A
   * syntax error yields 0; a range error of the loop yields the bound of the
   * sign; a value that fits 64 unsigned bits but not the signed range yields
   * the nearest bound. Every error is reported through `ok`.
   */
  function Atoi(s: string): (p: Parsed)
    ensures !p.ok ==> p.value == 0 || p.value == MinInt64 || p.value == MaxInt64
    ensures MinInt64 <= p.value <= MaxInt64
  {
    if |s| == 0 then Parsed(0, false)
    else
      var neg := s[0] == '-';
      var body := if s[0] == '-' || s[0] == '+' then s[1..] else s;
      if |body| == 0 then Parsed(0, false)
      else match ScanFrom(body, 0, 0)
        case ScanSyntax => Parsed(0, false)
        case ScanRange => Parsed(if neg then MinInt64 else MaxInt64, false)
        case ScanOk(u) =>
          var v: int := if neg then 0 - u else u;
          Parsed(Clamp64(v), MinInt64 <= v <= MaxInt64)
  }

  predicate AllDigits(s: string) {
    forall i :: 0 <= i < |s| ==> IsDigit(s[i])
  }

  lemma DigitsValueStep(s: string, i: nat)
    requires i < |s| && AllDigits(s[..i + 1])
    ensures AllDigits(s[..i]) && IsDigit(s[i])
    ensures DigitsValue(s[..i + 1]) == DigitsValue(s[..i]) * 10 + DigitValue(s[i])
  {
    assert s[..i + 1][..i] == s[..i];
    assert s[..i + 1][i] == s[i];
  }

  /** A digit string is worth at least each of its prefixes. */
  lemma {:induction false} DigitsValuePrefix(s: string, j: nat)
    requires j <= |s| && AllDigits(s)
    ensures AllDigits(s[..j]) && DigitsValue(s[..j]) <= DigitsValue(s)
    decreases |s| - j
  {
    if j < |s| {
      assert s[..|s| - 1][..j] == s[..j];
      DigitsValuePrefix(s[..|s| - 1], j);
    } else {
      assert s[..j] == s;
    }
  }

  /** While the digits of `s[i..j]` keep the value within 64 bits, the loop walks over them. */
  lemma {:induction false} ScanUpTo(s: string, i: nat, j: nat)
    requires i <= j <= |s| && AllDigits(s[..j]) && DigitsValue(s[..j]) <= MaxUint64
    ensures AllDigits(s[..i]) && ScanFrom(s, i, DigitsValue(s[..i])) == ScanFrom(s, j, DigitsValue(s[..j]))
    decreases j - i
  {
    assert s[..j][..i] == s[..i];
    DigitsValuePrefix(s[..j], i);
    if i < j {
      assert s[..j][..i + 1] == s[..i + 1];
      DigitsValuePrefix(s[..j], i + 1);
      DigitsValueStep(s, i);
      ScanUpTo(s, i + 1, j);
    }
  }

  /** A digit prefix `d` worth more than 64 unsigned bits ends the loop in a range error, whatever follows. */
  lemma {:induction false} ScanOverflows(s: string, d: string, i: nat)
    requires d <= s && AllDigits(d) && DigitsValue(d) > MaxUint64
    requires i < |d| && DigitsValue(d[..i]) <= MaxUint64
    ensures AllDigits(s[..i]) && ScanFrom(s, i, DigitsValue(s[..i])) == ScanRange
    decreases |d| - i
  {
    assert d[..i] == s[..i] && d[..i + 1] == s[..i + 1];
    DigitsValuePrefix(d, i);
    DigitsValuePrefix(d, i + 1);
    DigitsValueStep(s, i);
    if DigitsValue(d[..i + 1]) <= MaxUint64 {
      assert i + 1 < |d| by { assert d[..|d|] == d; }
      ScanOverflows(s, d, i + 1);
    }
  }

  /** A run of digits worth more than 64 unsigned bits gives the bound of its sign, whatever follows it. */
  lemma AtoiOverflowingPrefix(d: string, rest: string)
    requires AllDigits(d) && DigitsValue(d) > MaxUint64
    ensures Atoi(d + rest) == Parsed(MaxInt64, false)
    ensures Atoi("-" + d + rest) == Parsed(MinInt64, false)
  {
    assert |d| > 0;
    assert d[..0] == "";
    var s := d + rest;
    assert d <= s;
    ScanOverflows(s, d, 0);
    assert s[..0] == "";
    assert s[0] != '-' && s[0] != '+' by { assert IsDigit(d[0]); }
    var t := "-" + d + rest;
    assert t[0] == '-' && t[1..] == s;
  }

  /** A non-digit met before the value leaves 64 unsigned bits gives 0 with an error, whatever follows it. */
  lemma AtoiSyntax(d: string, c: char, rest: string)
    requires |d| > 0 && AllDigits(d) && DigitsValue(d) <= MaxUint64 && !IsDigit(c)
    ensures Atoi(d + [c] + rest) == Parsed(0, false)
  {
    var s := d + [c] + rest;
    assert s[..|d|] == d && s[|d|] == c;
    ScanUpTo(s, 0, |d|);
    assert s[..0] == "";
    assert s[0] != '-' && s[0] != '+' by { assert IsDigit(d[0]); }
  }

  /** Twenty nines followed by a letter: the loop stops at the overflowing digit, before the letter. */
  lemma AtoiOverflowBeforeLetter()
    ensures Atoi(Digits(99999999999999999999) + "x") == Parsed(MaxInt64, false)
  {
    DigitsRoundTrip(99999999999999999999);
    AtoiOverflowingPrefix(Digits(99999999999999999999), "x");
  }

  /** Atoi inverts Itoa on every 64-bit integer. */
  lemma AtoiItoa(i: int)
    requires MinInt64 <= i <= MaxInt64
    ensures Atoi(Itoa(i)) == Parsed(i, true)
  {
    if i < 0 {
      AtoiNegative(-i);
    } else {
      AtoiDigits(i);
    }
  }

  /** The loop reads the decimal text of a 64-bit magnitude back as that magnitude. */
  lemma ScanDigits(n: nat)
    requires n <= MaxUint64
    ensures ScanFrom(Digits(n), 0, 0) == ScanOk(n)
  {
    var d := Digits(n);
    DigitsRoundTrip(n);
    assert d[..|d|] == d && d[..0] == "";
    ScanUpTo(d, 0, |d|);
  }

  lemma AtoiDigits(n: nat)
    requires n <= MaxInt64
    ensures Atoi(Digits(n)) == Parsed(n, true)
  {
    var d := Digits(n);
    assert !IsDigit('-') && !IsDigit('+');
    assert d[0] != '-' && d[0] != '+';
    ScanDigits(n);
  }

  lemma AtoiNegative(n: nat)
    requires 0 < n <= -MinInt64
    ensures Atoi("-" + Digits(n)) == Parsed(0 - n, true)
  {
    var d := Digits(n);
    var s := "-" + d;
    assert s[0] == '-' && s[1..] == d;
    ScanDigits(n);
  }

  /** One character as `strconv.Quote` writes it inside the quotation marks. */
  function QuoteChar(c: char): (r: string)
    ensures |r| >= 1
  {
    if c == '"' then "\\\"" else if c == '\\' then "\\\\"
    else if c == '\n' then "\\n" else if c == '\r' then "\\r" else if c == '\t' then "\\t"
    else [c]
  }

  function QuoteBody(s: string): (r: string)
    ensures |r| >= |s|
  {
    if |s| == 0 then "" else QuoteChar(s[0]) + QuoteBody(s[1..])
  }

  /** `strconv.Quote`: the text between quotation marks, with quotes, backslashes and line breaks escaped. */
  function Quote(s: string): (r: string)
    ensures |r| >= |s| + 2 && r[0] == '"' && r[|r| - 1] == '"'
  {
    "\"" + QuoteBody(s) + "\""
  }

  /** Text with nothing to escape is quoted by wrapping it in quotation marks. */
  lemma {:induction false} QuotePlain(s: string)
    requires forall i :: 0 <= i < |s| ==> s[i] !in "\"\\\n\r\t"
    ensures Quote(s) == "\"" + s + "\""
  {
    QuoteBodyPlain(s);
  }

  lemma {:induction false} QuoteBodyPlain(s: string)
    requires forall i :: 0 <= i < |s| ==> s[i] !in "\"\\\n\r\t"
    ensures QuoteBody(s) == s
  {
    if |s| > 0 {
      assert QuoteChar(s[0]) == [s[0]];
      QuoteBodyPlain(s[1..]);
      assert s == [s[0]] + s[1..];
    }
  }

  /** A quoted text is never the text itself. */
  lemma QuoteDiffers(s: string)
    ensures Quote(s) != s
  {
  }

  lemma ItoaNoChar(i: int, c: char)
    requires !IsDigit(c) && c != '-'
    ensures c !in Itoa(i)
  {
  }
}
