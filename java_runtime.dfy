/**
 * The parts of the Java runtime that the exporter and the trace filter lean on, written out
 * because Dafny's integers are unbounded and its strings have no library: 64-bit `long`
 * arithmetic, TimeUnit.NANOSECONDS.toMillis, the decimal rendering of numbers, string
 * concatenation with a null operand, String.trim and String.toUpperCase.
 */
module JavaRuntime {
  import opened Wrappers

  /** A Java `long`. */
  type Int64 = x: int | -0x8000_0000_0000_0000 <= x < 0x8000_0000_0000_0000

  /** Two's-complement wrap-around of a mathematical integer into a `long`. */
  function WrapLong(x: int): (r: Int64)
    ensures (x - r) % 0x1_0000_0000_0000_0000 == 0
    ensures -0x8000_0000_0000_0000 <= x < 0x8000_0000_0000_0000 ==> r == x
  {
    (x + 0x8000_0000_0000_0000) % 0x1_0000_0000_0000_0000 - 0x8000_0000_0000_0000
  }

  /** Java's `a - b` on two longs, which wraps around on overflow. */
  function SubtractLong(a: Int64, b: Int64): (r: Int64)
    ensures -0x8000_0000_0000_0000 <= a - b < 0x8000_0000_0000_0000 ==> r == a - b
    ensures a - b >= 0x8000_0000_0000_0000 ==> r == a - b - 0x1_0000_0000_0000_0000
    ensures a - b < -0x8000_0000_0000_0000 ==> r == a - b + 0x1_0000_0000_0000_0000
  {
    WrapLong(a - b)
  }

  function Abs(x: int): nat { if x < 0 then -x else x }

  /**
   * TimeUnit.NANOSECONDS.toMillis: Java's integer division by 1,000,000, which truncates
   * toward zero (Dafny's `/` would round a negative duration down instead).
   */
  function NanosToMillis(nanos: int): (millis: int)
    ensures nanos >= 0 ==> millis >= 0
    ensures nanos <= 0 ==> millis <= 0
    ensures Abs(millis) * 1_000_000 <= Abs(nanos) < Abs(millis) * 1_000_000 + 1_000_000
  {
    if nanos >= 0 then nanos / 1_000_000 else -((-nanos) / 1_000_000)
  }

  predicate IsDigit(c: char) { '0' <= c <= '9' }

  predicate AllDigits(s: string) { forall i :: 0 <= i < |s| ==> IsDigit(s[i]) }

  function DigitChar(d: nat): (c: char)
    requires d < 10
    ensures IsDigit(c)
  {
    ('0' as int + d) as char
  }

  function DigitValue(c: char): int { c as int - '0' as int }

  /** The shortest decimal digits of a natural number. */
  function NatToDecimal(n: nat): (s: string)
    ensures |s| > 0
    decreases n
  {
    if n < 10 then [DigitChar(n)] else NatToDecimal(n / 10) + [DigitChar(n % 10)]
  }

  /** Long.toString, and the rendering of an int or a long in string concatenation. */
  function Decimal(n: int): string {
    if n < 0 then "-" + NatToDecimal(-n) else NatToDecimal(n)
  }

  /** The number a string of decimal digits denotes. */
  function DecimalValue(s: string): int {
    if s == [] then 0 else DecimalValue(s[..|s| - 1]) * 10 + DigitValue(s[|s| - 1])
  }

  /** Reads back what Decimal writes: an optional minus sign followed by digits. */
  function ParseDecimal(s: string): Option<int> {
    if |s| > 1 && s[0] == '-' && AllDigits(s[1..]) then Some(-DecimalValue(s[1..]))
    else if |s| > 0 && AllDigits(s) then Some(DecimalValue(s))
    else None
  }

  lemma {:induction false} NatToDecimalDigits(n: nat)
    ensures AllDigits(NatToDecimal(n))
    ensures DecimalValue(NatToDecimal(n)) == n
    decreases n
  {
    var s := NatToDecimal(n);
    if n >= 10 {
      NatToDecimalDigits(n / 10);
      assert s[..|s| - 1] == NatToDecimal(n / 10);
    }
  }

  /** Decimal is a faithful rendering: parsing it gives the number back. */
  lemma DecimalRoundTrip(n: int)
    ensures ParseDecimal(Decimal(n)) == Some(n)
  {
    if n < 0 {
      NatToDecimalDigits(-n);
      assert Decimal(n)[1..] == NatToDecimal(-n);
    } else {
      NatToDecimalDigits(n);
    }
  }

  /** Decimal digits with no superfluous leading zero. */
  predicate Shortest(d: string) {
    |d| > 0 && AllDigits(d) && (d[0] == '0' ==> |d| == 1)
  }

  /**
   * The form Long.toString writes: the shortest digits, preceded by a minus sign for a
   * negative value and never as "-0".
   */
  predicate CanonicalDecimal(s: string) {
    Shortest(s) || (|s| > 1 && s[0] == '-' && s[1] != '0' && Shortest(s[1..]))
  }

  lemma {:induction false} NatToDecimalShortest(n: nat)
    ensures Shortest(NatToDecimal(n))
    ensures NatToDecimal(n)[0] == '0' ==> n == 0
    decreases n
  {
    NatToDecimalDigits(n);
    if n >= 10 {
      NatToDecimalShortest(n / 10);
      var s := NatToDecimal(n);
      assert s[0] == NatToDecimal(n / 10)[0];
    }
  }

  /** Decimal writes the canonical form. */
  lemma DecimalCanonical(n: int)
    ensures CanonicalDecimal(Decimal(n))
  {
    if n < 0 {
      NatToDecimalShortest(-n);
      assert Decimal(n)[1..] == NatToDecimal(-n);
    } else {
      NatToDecimalShortest(n);
    }
  }

  /** Digits that do not start with '0' denote a positive number. */
  lemma {:induction false} LeadingDigitPositive(d: string)
    requires |d| > 0 && AllDigits(d) && d[0] != '0'
    ensures DecimalValue(d) >= 1
    decreases |d|
  {
    var init := d[..|d| - 1];
    if |init| > 0 {
      assert init[0] == d[0];
      assert AllDigits(init) by {
        forall i | 0 <= i < |init| ensures IsDigit(init[i]) {
          assert init[i] == d[i];
        }
      }
      LeadingDigitPositive(init);
    }
  }

  /** The shortest digits of a number are NatToDecimal's digits of it. */
  lemma {:induction false} ShortestIsNatToDecimal(d: string)
    requires Shortest(d)
    ensures DecimalValue(d) >= 0 && NatToDecimal(DecimalValue(d)) == d
    decreases |d|
  {
    var init := d[..|d| - 1];
    var last := d[|d| - 1];
    assert IsDigit(last);
    if |init| == 0 {
      assert DecimalValue(init) == 0;
      assert d == [last];
    } else {
      assert init[0] == d[0];
      assert AllDigits(init) by {
        forall i | 0 <= i < |init| ensures IsDigit(init[i]) {
          assert init[i] == d[i];
        }
      }
      LeadingDigitPositive(init);
      ShortestIsNatToDecimal(init);
      var v := DecimalValue(d);
      assert v == DecimalValue(init) * 10 + DigitValue(last);
      assert v / 10 == DecimalValue(init) && v % 10 == DigitValue(last);
      assert d == init + [last];
    }
  }

  /**
   * The canonical form of a number is unique: any canonical text is what Decimal writes for
   * the number it reads back as.
   */
  lemma CanonicalIsDecimal(s: string)
    requires CanonicalDecimal(s)
    ensures ParseDecimal(s).Some? && s == Decimal(ParseDecimal(s).value)
  {
    if Shortest(s) {
      ShortestIsNatToDecimal(s);
    } else {
      var d := s[1..];
      LeadingDigitPositive(d);
      ShortestIsNatToDecimal(d);
      assert s == "-" + d;
    }
  }

  /** String concatenation renders a null operand as "null". */
  function ConcatForm(s: Option<string>): string {
    match s
    case Some(v) => v
    case None => "null"
  }

  /** Guava's Strings.isNullOrEmpty and StringUtils.isNullOrEmpty. */
  predicate IsNullOrEmpty(s: Option<string>) {
    s.None? || s.value == ""
  }

  /** The characters String.trim removes: everything at or below U+0020. */
  predicate IsTrimmable(c: char) { c <= ' ' }

  predicate AllTrimmable(s: string) { forall i :: 0 <= i < |s| ==> IsTrimmable(s[i]) }

  function TrimLeading(s: string): (r: string)
    ensures |r| <= |s| && r == s[|s| - |r|..]
    ensures AllTrimmable(s[..|s| - |r|])
    ensures r == [] || !IsTrimmable(r[0])
  {
    if s != [] && IsTrimmable(s[0]) then TrimLeading(s[1..]) else s
  }

  function TrimTrailing(s: string): (r: string)
    ensures |r| <= |s| && r == s[..|r|]
    ensures AllTrimmable(s[|r|..])
    ensures r == [] || !IsTrimmable(r[|r| - 1])
  {
    if s != [] && IsTrimmable(s[|s| - 1]) then TrimTrailing(s[..|s| - 1]) else s
  }

  /** String.trim. */
  function Trim(s: string): string {
    TrimTrailing(TrimLeading(s))
  }

  lemma {:induction false} TrimLeadingSkips(pre: string, s: string)
    requires AllTrimmable(pre)
    requires s != [] && !IsTrimmable(s[0])
    ensures TrimLeading(pre + s) == s
    decreases |pre|
  {
    if pre != [] {
      var whole := pre + s;
      assert whole[0] == pre[0] && IsTrimmable(whole[0]);
      assert whole[1..] == pre[1..] + s;
      assert TrimLeading(whole) == TrimLeading(whole[1..]);
      assert AllTrimmable(pre[1..]) by {
        forall i | 0 <= i < |pre[1..]| ensures IsTrimmable(pre[1..][i]) { assert pre[1..][i] == pre[i + 1]; }
      }
      TrimLeadingSkips(pre[1..], s);
    } else {
      assert pre + s == s;
    }
  }

  lemma {:induction false} TrimTrailingSkips(s: string, post: string)
    requires AllTrimmable(post)
    requires s != [] && !IsTrimmable(s[|s| - 1])
    ensures TrimTrailing(s + post) == s
    decreases |post|
  {
    if post != [] {
      assert (s + post)[..|s + post| - 1] == s + post[..|post| - 1];
      TrimTrailingSkips(s, post[..|post| - 1]);
    } else {
      assert s + post == s;
    }
  }

  /** Trim removes exactly the surrounding blanks of a word that starts and ends with a non-blank. */
  lemma TrimSurrounded(pre: string, s: string, post: string)
    requires AllTrimmable(pre) && AllTrimmable(post)
    requires s != [] && !IsTrimmable(s[0]) && !IsTrimmable(s[|s| - 1])
    ensures Trim(pre + s + post) == s
  {
    assert pre + s + post == pre + (s + post);
    TrimLeadingSkips(pre, s + post);
    TrimTrailingSkips(s, post);
  }

  /** Character.toUpperCase on the ASCII range; every other character is left alone. */
  function UpperChar(c: char): char {
    if 'a' <= c <= 'z' then (c as int - 32) as char else c
  }

  /**
   * String.toUpperCase, restricted to ASCII letters: each a-z becomes its capital, 32 code
   * points lower, every other character is kept, and no lower-case letter is left.
   */
  function ToUpperCase(s: string): (r: string)
    ensures |r| == |s|
    ensures forall i :: 0 <= i < |s| ==> r[i] == UpperChar(s[i])
    ensures forall i :: 0 <= i < |s| && 'a' <= s[i] <= 'z' ==> 'A' <= r[i] <= 'Z' && r[i] as int == s[i] as int - 32
    ensures forall i :: 0 <= i < |s| && !('a' <= s[i] <= 'z') ==> r[i] == s[i]
    ensures forall i :: 0 <= i < |r| ==> !('a' <= r[i] <= 'z')
  {
    seq(|s|, i requires 0 <= i < |s| => UpperChar(s[i]))
  }

  /** Upper-casing twice is upper-casing once. */
  lemma UpperCaseIdempotent(s: string)
    ensures ToUpperCase(ToUpperCase(s)) == ToUpperCase(s)
  {
  }
}
