/**
 * The string and integer helpers the core leans on: decimal printing as
 * fmt's %v does it, strconv.Atoi with its error discarded, int64
 * wrap-around, Go's truncating integer division and float-to-int conversion,
 * strings.TrimSpace, and the first field of strings.Split.
 */
module Text {

  const INT64_MIN: int := -0x8000_0000_0000_0000
  const INT64_MAX: int := 0x7FFF_FFFF_FFFF_FFFF

  /** The values of Go's int64 (and of int on the 64-bit platforms the bar runs on). */
  type int64 = x: int | INT64_MIN <= x <= INT64_MAX

  /**
   * Go's conversion to int64, and so the result of int64 arithmetic that
   * overflows: the value modulo 2^64, read as a signed number.
   */
  function ToInt64(x: int): (r: int64)
    ensures INT64_MIN <= x <= INT64_MAX ==> r == x
    ensures (r - x) % 0x1_0000_0000_0000_0000 == 0
  {
    (x - INT64_MIN) % 0x1_0000_0000_0000_0000 + INT64_MIN
  }

  predicate IsDigit(c: char) {
    '0' <= c <= '9'
  }

  predicate IsNumeral(s: string) {
    |s| > 0 && forall i :: 0 <= i < |s| ==> IsDigit(s[i])
  }

  function DigitChar(d: nat): (c: char)
    requires d < 10
    ensures IsDigit(c)
  {
    ('0' as int + d) as char
  }

  function DigitValue(c: char): (d: nat)
    requires IsDigit(c)
    ensures d < 10
  {
    c as int - '0' as int
  }

  /** The decimal digits of n, most significant first, without leading zeros. */
  function Digits(n: nat): (s: string)
    ensures IsNumeral(s)
    ensures n > 0 ==> s[0] != '0'
    decreases n
  {
    if n < 10 then [DigitChar(n)] else Digits(n / 10) + [DigitChar(n % 10)]
  }

  /** The number a numeral denotes. */
  function NumeralValue(s: string): nat
    requires forall i :: 0 <= i < |s| ==> IsDigit(s[i])
  {
    if |s| == 0 then 0 else NumeralValue(s[..|s| - 1]) * 10 + DigitValue(s[|s| - 1])
  }

  lemma {:induction false} DigitsRoundTrip(n: nat)
    ensures NumeralValue(Digits(n)) == n
    decreases n
  {
    if n >= 10 {
      DigitsRoundTrip(n / 10);
      var s := Digits(n);
      assert s[..|s| - 1] == Digits(n / 10);
    }
  }

  /** fmt's %v of a Go integer: an optional minus sign and the decimal digits. */
  function IntText(i: int): (s: string)
    ensures |s| > 0
    ensures forall k :: 0 <= k < |s| ==> IsDigit(s[k]) || (k == 0 && s[k] == '-')
  {
    if i < 0 then "-" + Digits(-i) else Digits(i)
  }

  function Clamp64(x: int): (r: int)
    ensures INT64_MIN <= r <= INT64_MAX
    ensures INT64_MIN <= x <= INT64_MAX ==> r == x
  {
    if x < INT64_MIN then INT64_MIN else if x > INT64_MAX then INT64_MAX else x
  }

  /**
   * strconv.Atoi on a 64-bit platform with its error ignored: an optional
   * sign followed by at least one decimal digit gives the value (the nearest
   * int64 bound when it does not fit); any other text gives 0.
   */
  function Atoi(s: string): (r: int)
    ensures INT64_MIN <= r <= INT64_MAX
    ensures !(IsNumeral(s) || (|s| > 0 && (s[0] == '-' || s[0] == '+') && IsNumeral(s[1..]))) ==> r == 0
    ensures IsNumeral(s) ==> r == Clamp64(NumeralValue(s))
    ensures |s| > 0 && s[0] == '-' && IsNumeral(s[1..]) ==> r == Clamp64(-(NumeralValue(s[1..]) as int))
    ensures |s| > 0 && s[0] == '+' && IsNumeral(s[1..]) ==> r == Clamp64(NumeralValue(s[1..]))
  {
    if |s| > 0 && (s[0] == '-' || s[0] == '+') then
      if IsNumeral(s[1..]) then
        var v: int := NumeralValue(s[1..]);
        Clamp64(if s[0] == '-' then -v else v)
      else
        0
    else if IsNumeral(s) then
      Clamp64(NumeralValue(s))
    else
      0
  }

  /** Printing an int64 and reading it back with Atoi gives the same number. */
  lemma AtoiIntText(i: int)
    requires INT64_MIN <= i <= INT64_MAX
    ensures Atoi(IntText(i)) == i
  {
    if i < 0 {
      var s := IntText(i);
      assert s[1..] == Digits(-i);
      DigitsRoundTrip(-i);
    } else {
      DigitsRoundTrip(i);
    }
  }

  /** Go's `/` on integers: the quotient truncated toward zero. */
  function TruncDiv(a: int, b: int): (q: int)
    requires b > 0
    ensures a >= 0 ==> 0 <= a - q * b < b
    ensures a < 0 ==> -b < a - q * b <= 0
  {
    if a >= 0 then a / b else -((-a) / b)
  }

  /** Go's int(x) on a float64 in range: the value truncated toward zero. */
  function TruncReal(x: real): (r: int)
    ensures x >= 0.0 ==> r as real <= x < r as real + 1.0
    ensures x < 0.0 ==> r as real - 1.0 < x <= r as real
  {
    if x >= 0.0 then x.Floor else -((-x).Floor)
  }

  /** unicode.IsSpace: the characters with Unicode's White_Space property. */
  predicate IsSpace(c: char) {
    || c == '\t' || c == '\n' || c == '\U{000B}' || c == '\U{000C}' || c == '\r' || c == ' '
    || c == '\U{0085}' || c == '\U{00A0}' || c == '\U{1680}'
    || ('\U{2000}' <= c <= '\U{200A}')
    || c == '\U{2028}' || c == '\U{2029}' || c == '\U{202F}' || c == '\U{205F}' || c == '\U{3000}'
  }

  predicate AllSpace(s: string) {
    forall i :: 0 <= i < |s| ==> IsSpace(s[i])
  }

  /** s without its leading white space. */
  function TrimLeft(s: string): (r: string)
    ensures |r| <= |s| && r == s[|s| - |r|..]
    ensures AllSpace(s[..|s| - |r|])
    ensures r == [] || !IsSpace(r[0])
  {
    if |s| > 0 && IsSpace(s[0]) then
      var r := TrimLeft(s[1..]);
      assert s[..|s| - |r|] == [s[0]] + s[1..][..|s| - 1 - |r|];
      r
    else
      s
  }

  /** s without its trailing white space. */
  function TrimRight(s: string): (r: string)
    ensures |r| <= |s| && r == s[..|r|]
    ensures AllSpace(s[|r|..])
    ensures r == [] || !IsSpace(r[|r| - 1])
  {
    if |s| > 0 && IsSpace(s[|s| - 1]) then
      var r := TrimRight(s[..|s| - 1]);
      assert s[|r|..] == s[..|s| - 1][|r|..] + [s[|s| - 1]];
      r
    else
      s
  }

  /** strings.TrimSpace. */
  function TrimSpace(s: string): string {
    TrimRight(TrimLeft(s))
  }

  /** Where TrimSpace cuts s: the text between i and j, with white space only before i and after j. */
  lemma TrimSpaceCuts(s: string) returns (i: nat, j: nat)
    ensures i <= j <= |s| && TrimSpace(s) == s[i..j]
    ensures AllSpace(s[..i]) && AllSpace(s[j..])
  {
    var l := TrimLeft(s);
    var r := TrimRight(l);
    i := |s| - |l|;
    j := i + |r|;
    assert r == s[i..j];
    assert s[j..] == l[|r|..];
  }

  /**
   * TrimSpace keeps a contiguous middle part of s, drops only white space
   * around it, and leaves no white space at either end.
   */
  lemma TrimSpaceSpec(s: string)
    ensures var r := TrimSpace(s);
      exists i, j {:trigger s[i..j]} :: 0 <= i <= j <= |s| && r == s[i..j] && AllSpace(s[..i]) && AllSpace(s[j..])
    ensures var r := TrimSpace(s); r == [] || (!IsSpace(r[0]) && !IsSpace(r[|r| - 1]))
  {
    var i, j := TrimSpaceCuts(s);
    var l := TrimLeft(s);
    var r := TrimRight(l);
    if r != [] {
      assert r[0] == l[0];
    }
  }

  /** Trimming twice is trimming once. */
  lemma TrimSpaceIdempotent(s: string)
    ensures TrimSpace(TrimSpace(s)) == TrimSpace(s)
  {
    var r := TrimSpace(s);
    TrimSpaceSpec(s);
    assert TrimLeft(r) == r;
    assert TrimRight(r) == r;
  }

  /** strings.Split(s, [sep])[0]: the text before the first sep, or all of s. */
  function FirstField(s: string, sep: char): (r: string)
    ensures |r| <= |s| && r == s[..|r|]
    ensures sep !in r
    ensures |r| < |s| ==> s[|r|] == sep
  {
    if |s| == 0 || s[0] == sep then "" else [s[0]] + FirstField(s[1..], sep)
  }

  /** The first field of a text that has a separator after a separator-free prefix is that prefix. */
  lemma FirstFieldOf(a: string, sep: char, b: string)
    requires sep !in a
    ensures FirstField(a + [sep] + b, sep) == a
  {
    var s := a + [sep] + b;
    var r := FirstField(s, sep);
    assert s[|a|] == sep;
  }

  /** A text that starts with a separator-free prefix and then the separator has that prefix as its first field. */
  lemma FirstFieldPrefix(s: string, sep: char, prefix: string)
    requires sep !in prefix && |s| > |prefix| && s[..|prefix|] == prefix && s[|prefix|] == sep
    ensures FirstField(s, sep) == prefix
  {
    FirstFieldOf(prefix, sep, s[|prefix| + 1..]);
    assert s == prefix + [sep] + s[|prefix| + 1..];
  }
}
