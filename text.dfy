/** Strings as the bot formats them: decimal numerals, `sep.join(parts)` and ASCII lower-casing. */
module Text {

  predicate IsDigit(c: char) {
    '0' <= c <= '9'
  }

  predicate IsDigits(s: string) {
    forall i | 0 <= i < |s| :: IsDigit(s[i])
  }

  function DigitChar(d: nat): (c: char)
    requires d < 10
    ensures IsDigit(c)
  {
    (('0' as int) + d) as char
  }

  function DigitValue(c: char): (d: nat)
    requires IsDigit(c)
    ensures d < 10
  {
    (c as int) - ('0' as int)
  }

  /** The numeral Python's `str(n)` writes for a natural number: most significant digit first. */
  function NatToDecimal(n: nat): (s: string)
    ensures |s| >= 1 && IsDigits(s)
    ensures s[0] == '0' ==> n == 0
    decreases n
  {
    if n < 10 then [DigitChar(n)] else NatToDecimal(n / 10) + [DigitChar(n % 10)]
  }

  /** Python's `str(i)` for any integer: a minus sign before the numeral of a negative number. */
  function IntToDecimal(i: int): (s: string)
    ensures |s| >= 1
    ensures i >= 0 <==> IsDigits(s)
  {
    if i < 0 then
      var s := "-" + NatToDecimal(-i);
      assert !IsDigit(s[0]);
      s
    else NatToDecimal(i)
  }

  /** The value of a numeral: the inverse of NatToDecimal. */
  function DecimalValue(s: string): nat
    requires IsDigits(s)
    decreases |s|
  {
    if s == [] then 0 else DecimalValue(s[..|s| - 1]) * 10 + DigitValue(s[|s| - 1])
  }

  lemma {:induction false} DecimalRoundTrip(n: nat)
    ensures DecimalValue(NatToDecimal(n)) == n
    decreases n
  {
    if n >= 10 {
      DecimalRoundTrip(n / 10);
      var s := NatToDecimal(n);
      assert s[..|s| - 1] == NatToDecimal(n / 10);
    }
  }

  /** Distinct numbers are written as distinct numerals. */
  lemma IntToDecimalInjective(a: int, b: int)
    ensures IntToDecimal(a) == IntToDecimal(b) ==> a == b
  {
    if IntToDecimal(a) == IntToDecimal(b) {
      if a < 0 && b < 0 {
        assert NatToDecimal(-a) == IntToDecimal(a)[1..];
        assert NatToDecimal(-b) == IntToDecimal(b)[1..];
        DecimalRoundTrip(-a);
        DecimalRoundTrip(-b);
      } else if a >= 0 && b >= 0 {
        DecimalRoundTrip(a);
        DecimalRoundTrip(b);
      } else {
        assert IntToDecimal(a)[0] == IntToDecimal(b)[0];
      }
    }
  }

  /** Python's `sep.join(parts)`. */
  function Join(parts: seq<string>, sep: string): string
    decreases |parts|
  {
    if |parts| == 0 then ""
    else if |parts| == 1 then parts[0]
    else parts[0] + sep + Join(parts[1..], sep)
  }

  function TotalLength(parts: seq<string>): nat
    decreases |parts|
  {
    if parts == [] then 0 else |parts[0]| + TotalLength(parts[1..])
  }

  /** A join holds the parts and one separator between each two neighbours, and nothing else. */
  lemma {:induction false} JoinLength(parts: seq<string>, sep: string)
    requires |parts| >= 1
    ensures |Join(parts, sep)| == TotalLength(parts) + (|parts| - 1) * |sep|
    decreases |parts|
  {
    if |parts| > 1 {
      JoinLength(parts[1..], sep);
    }
  }

  /** Joining a list with one more part adds exactly one separator and that part at the end. */
  lemma {:induction false} JoinSnoc(parts: seq<string>, x: string, sep: string)
    requires |parts| >= 1
    ensures Join(parts + [x], sep) == Join(parts, sep) + sep + x
    decreases |parts|
  {
    if |parts| > 1 {
      assert (parts + [x])[1..] == parts[1..] + [x];
      JoinSnoc(parts[1..], x, sep);
    }
  }

  function LowerChar(c: char): char {
    if 'A' <= c <= 'Z' then ((c as int) + 32) as char else c
  }

  predicate IsUpper(c: char) {
    'A' <= c <= 'Z'
  }

  /** Python's `str.lower()`, restricted to the ASCII letters. */
  function ToLower(s: string): (r: string)
    ensures |r| == |s|
    ensures forall i | 0 <= i < |s| :: !IsUpper(r[i])
    ensures forall i | 0 <= i < |s| :: !IsUpper(s[i]) ==> r[i] == s[i]
  {
    seq(|s|, i requires 0 <= i < |s| => LowerChar(s[i]))
  }

  /** Lower-casing twice is lower-casing once. */
  lemma ToLowerIdempotent(s: string)
    ensures ToLower(ToLower(s)) == ToLower(s)
  {
  }
}
