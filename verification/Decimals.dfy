/** Decimal digit strings and the numbers they denote. */
module Decimals {

  predicate IsDigit(c: char) {
    '0' <= c <= '9'
  }

  predicate AllDigits(s: string) {
    forall i :: 0 <= i < |s| ==> IsDigit(s[i])
  }

  predicate NoDigits(s: string) {
    forall i :: 0 <= i < |s| ==> !IsDigit(s[i])
  }

  function NatOf(s: string): nat
    requires AllDigits(s)
  {
    if s == [] then 0
    else 10 * NatOf(s[..|s| - 1]) + (s[|s| - 1] as int - '0' as int)
  }

  function DigitOf(d: nat): char
    requires d < 10
  {
    (d + '0' as int) as char
  }

  /** `String(n)` for a non-negative integer. */
  function DigitsOf(n: nat): string {
    if n < 10 then [DigitOf(n)] else DigitsOf(n / 10) + [DigitOf(n % 10)]
  }

  /** `s.padStart(width, "0")`: never shortens. */
  function PadStart(s: string, width: nat): string
    decreases width - |s|
  {
    if |s| < width then PadStart(['0'] + s, width) else s
  }

  lemma {:induction false} NatOfDigitsOf(n: nat)
    ensures AllDigits(DigitsOf(n)) && |DigitsOf(n)| >= 1
    ensures NatOf(DigitsOf(n)) == n
  {
    if n >= 10 {
      NatOfDigitsOf(n / 10);
      assert DigitsOf(n)[..|DigitsOf(n)| - 1] == DigitsOf(n / 10);
    } else {
      assert NatOf([]) == 0;
      assert DigitsOf(n)[..0] == [];
    }
  }

  lemma {:induction false} NatOfLeadingZero(s: string)
    requires AllDigits(s)
    ensures AllDigits(['0'] + s) && NatOf(['0'] + s) == NatOf(s)
  {
    var z := ['0'] + s;
    if s == [] {
      assert z[..0] == [];
      assert NatOf([]) == 0;
    } else {
      NatOfLeadingZero(s[..|s| - 1]);
      assert z[..|z| - 1] == ['0'] + s[..|s| - 1];
    }
  }

  lemma {:induction false} NatOfPadStart(s: string, width: nat)
    requires AllDigits(s)
    ensures AllDigits(PadStart(s, width)) && NatOf(PadStart(s, width)) == NatOf(s)
    ensures |PadStart(s, width)| == if |s| < width then width else |s|
    decreases width - |s|
  {
    if |s| < width {
      NatOfLeadingZero(s);
      NatOfPadStart(['0'] + s, width);
    }
  }
}
