/** JavaScript's conversion of an integer to its decimal text, as performed by
    `number + string` when the mining preimage is built. */
module Decimal {

  /** The character of a decimal digit. */
  function DigitChar(d: nat): (c: char)
    requires d < 10
    ensures '0' <= c <= '9'
  {
    ('0' as int + d) as char
  }

  /** The value of a decimal digit character. */
  function DigitValue(c: char): nat
  {
    if '0' <= c <= '9' then c as int - '0' as int else 0
  }

  /** Decimal text of a non-negative integer, most significant digit first. */
  function NatToDecimal(n: nat): (s: string)
    ensures |s| >= 1
    ensures forall i :: 0 <= i < |s| ==> '0' <= s[i] <= '9'
    decreases n
  {
    if n < 10 then [DigitChar(n)] else NatToDecimal(n / 10) + [DigitChar(n % 10)]
  }

  /** `String(n)` for an integer n. */
  function IntToString(n: int): string
  {
    if n < 0 then "-" + NatToDecimal(-n) else NatToDecimal(n)
  }

  /** Reads a string of decimal digits back as a number. */
  function ParseDecimal(s: string): nat
  {
    if s == [] then 0 else ParseDecimal(s[..|s| - 1]) * 10 + DigitValue(s[|s| - 1])
  }

  /** The decimal text of n reads back as n. */
  lemma {:induction false} ParseNatToDecimal(n: nat)
    ensures ParseDecimal(NatToDecimal(n)) == n
    decreases n
  {
    if n >= 10 {
      var prefix := NatToDecimal(n / 10);
      var s := prefix + [DigitChar(n % 10)];
      assert s[..|s| - 1] == prefix;
      ParseNatToDecimal(n / 10);
    }
  }

  /** Distinct numbers have distinct decimal texts. */
  lemma NatToDecimalInjective(m: nat, n: nat)
    requires m != n
    ensures NatToDecimal(m) != NatToDecimal(n)
  {
    ParseNatToDecimal(m);
    ParseNatToDecimal(n);
  }

  /** Distinct integers have distinct texts: a negative one starts with '-',
      a non-negative one with a digit. */
  lemma IntToStringInjective(m: int, n: int)
    requires m != n
    ensures IntToString(m) != IntToString(n)
  {
    if m < 0 && n < 0 {
      NatToDecimalInjective(-m, -n);
      assert IntToString(m)[1..] == NatToDecimal(-m);
      assert IntToString(n)[1..] == NatToDecimal(-n);
    } else if m >= 0 && n >= 0 {
      NatToDecimalInjective(m, n);
    } else {
      assert IntToString(m)[0] != IntToString(n)[0];
    }
  }
}
