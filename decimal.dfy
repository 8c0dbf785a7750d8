/**
 * Decimal text of a non-negative integer as a JavaScript template literal
 * `${n}` writes it for integers below 10^21, which covers every port
 * (index.js:18, index.js:42), and the reader that recovers the integer from
 * that text.
 */
module Decimal {

  import opened Wrappers

  predicate IsDigit(c: char)
  {
    '0' <= c <= '9'
  }

  function DigitChar(d: nat): (c: char)
    requires d < 10
    ensures IsDigit(c)
  {
    "0123456789"[d]
  }

  function DigitValue(c: char): (d: nat)
    requires IsDigit(c)
    ensures d < 10
  {
    (c as int) - ('0' as int)
  }

  /** The shortest decimal text of `n`: digits only, no leading zero. */
  function DecimalText(n: nat): (s: string)
    ensures |s| >= 1
    ensures forall i :: 0 <= i < |s| ==> IsDigit(s[i])
    ensures s[0] == '0' ==> n == 0
  {
    if n < 10 then [DigitChar(n)] else DecimalText(n / 10) + [DigitChar(n % 10)]
  }

  /** The value of a string of digits, most significant digit first. */
  function DigitsValue(s: string): (v: nat)
    requires forall i :: 0 <= i < |s| ==> IsDigit(s[i])
  {
    if s == [] then 0 else 10 * DigitsValue(s[..|s| - 1]) + DigitValue(s[|s| - 1])
  }

  /** Reads a non-empty string of digits; anything else is refused. */
  function ParseDecimal(s: string): (r: Option<nat>)
    ensures r.Some? <==> s != [] && forall i :: 0 <= i < |s| ==> IsDigit(s[i])
  {
    if s != [] && forall i :: 0 <= i < |s| ==> IsDigit(s[i]) then Some(DigitsValue(s)) else None
  }

  lemma {:induction false} ParseDecimalText(n: nat)
    ensures ParseDecimal(DecimalText(n)) == Some(n)
  {
    var s := DecimalText(n);
    if n < 10 {
      assert s[..0] == [];
    } else {
      ParseDecimalText(n / 10);
      var prefix := DecimalText(n / 10);
      assert s[..|s| - 1] == prefix;
      assert DigitsValue(s) == 10 * DigitsValue(prefix) + n % 10;
    }
  }

  /** Different numbers never share a decimal text. */
  lemma DecimalTextInjective(m: nat, n: nat)
    ensures DecimalText(m) == DecimalText(n) <==> m == n
  {
    ParseDecimalText(m);
    ParseDecimalText(n);
  }
}
