/** The text JavaScript's `String(n)` gives for an integral number in the safe
    range: an optional minus sign followed by decimal digits without leading
    zeros. The error normalisation of the result kit uses it for the message
    of a thrown number. */
module NumberText {

  /** `Number.MAX_SAFE_INTEGER`, 2^53 - 1. */
  const MaxSafeInteger: int := 9007199254740991

  /** Integral JavaScript numbers that are represented exactly. */
  type SafeInteger = n: int | -MaxSafeInteger <= n <= MaxSafeInteger

  predicate IsDigit(c: char) {
    '0' <= c <= '9'
  }

  predicate AllDigits(s: string) {
    forall i :: 0 <= i < |s| ==> IsDigit(s[i])
  }

  function DigitChar(d: nat): (c: char)
    requires d < 10
    ensures IsDigit(c) && DigitValue(c) == d
  {
    ('0' as int + d) as char
  }

  function DigitValue(c: char): nat
    requires IsDigit(c)
  {
    c as int - '0' as int
  }

  /** The number a string of decimal digits denotes, read most significant first. */
  function DecimalValue(s: string): nat
    requires AllDigits(s)
  {
    if s == [] then 0 else 10 * DecimalValue(s[..|s| - 1]) + DigitValue(s[|s| - 1])
  }

  /** The canonical decimal digits of a natural number. */
  function Decimal(n: nat): (s: string)
    ensures 1 <= |s| && AllDigits(s)
    ensures |s| > 1 ==> s[0] != '0'
    ensures DecimalValue(s) == n
  {
    if n < 10 then [DigitChar(n)]
    else
      var prefix := Decimal(n / 10);
      var s := prefix + [DigitChar(n % 10)];
      assert s[..|s| - 1] == prefix;
      s
  }

  /** Text of an optional minus sign followed by canonical decimal digits. */
  predicate IsIntegerText(s: string) {
    if 0 < |s| && s[0] == '-' then 1 < |s| && AllDigits(s[1..])
    else 0 < |s| && AllDigits(s)
  }

  /** The integer that integer text denotes. */
  function IntegerValue(s: string): int
    requires IsIntegerText(s)
  {
    if s[0] == '-' then -(DecimalValue(s[1..]) as int) else DecimalValue(s)
  }

  /** `String(n)` for a safe integer `n`; reading the text back gives `n`,
      so distinct numbers always get distinct text. */
  function NumberToString(n: SafeInteger): (s: string)
    ensures IsIntegerText(s)
    ensures s[0] == '-' <==> n < 0
    ensures IntegerValue(s) == n
  {
    if n < 0 then
      var digits := Decimal(-n);
      assert ("-" + digits)[1..] == digits;
      "-" + digits
    else Decimal(n)
  }
}
