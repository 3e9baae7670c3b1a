/** The decimal text form in which permission bitfields travel inside a
    backup: `bigint.toString()` on capture and `BigInt(text)` on restore. */
module Decimal {
  import opened Wrappers

  predicate IsDigit(c: char) {
    '0' <= c <= '9'
  }

  predicate AllDigits(s: string) {
    forall i :: 0 <= i < |s| ==> IsDigit(s[i])
  }

  function DigitChar(d: nat): (c: char)
    requires d < 10
    ensures IsDigit(c)
  {
    ('0' as int + d) as char
  }

  function DigitValue(c: char): (d: nat)
    requires IsDigit(c)
    ensures d < 10
  {
    c as int - '0' as int
  }

  /** `n.toString()` for a non-negative BigInt: base ten, no sign, no leading zero. */
  function ToDecimal(n: nat): (s: string)
    ensures |s| >= 1 && AllDigits(s)
    ensures |s| > 1 ==> s[0] != '0'
    ensures n < 10 <==> |s| == 1
  {
    if n < 10 then [DigitChar(n)] else ToDecimal(n / 10) + [DigitChar(n % 10)]
  }

  /** The number a string of decimal digits spells; the empty string spells 0. */
  function Value(s: string): nat
    requires AllDigits(s)
  {
    if s == [] then 0 else Value(s[..|s| - 1]) * 10 + DigitValue(s[|s| - 1])
  }

  /** `BigInt(s)` on the texts a backup holds: a string of decimal digits reads as
      its value (the empty string as 0); any other text makes `BigInt` throw. */
  function ParseBigInt(s: string): (r: Option<nat>)
    ensures r.Some? <==> AllDigits(s)
  {
    if AllDigits(s) then Some(Value(s)) else None
  }

  /** Reading back what `toString()` wrote gives the same number. */
  lemma {:induction false} ValueOfDecimal(n: nat)
    ensures Value(ToDecimal(n)) == n
  {
    var s := ToDecimal(n);
    if n >= 10 {
      ValueOfDecimal(n / 10);
      assert s[..|s| - 1] == ToDecimal(n / 10);
    }
  }

  lemma ParseOfDecimal(n: nat)
    ensures ParseBigInt(ToDecimal(n)) == Some(n)
  {
    ValueOfDecimal(n);
  }

  /** Different numbers get different spellings, so the text form loses nothing. */
  lemma DecimalInjective(m: nat, n: nat)
    requires ToDecimal(m) == ToDecimal(n)
    ensures m == n
  {
    ValueOfDecimal(m);
    ValueOfDecimal(n);
  }

  /** A decimal spelling never contains a non-digit character. */
  lemma DecimalIsNotWord(n: nat, w: string)
    requires |w| > 0 && !IsDigit(w[0])
    ensures ToDecimal(n) != w
  {
  }
}
