/**
 * Amounts as the wire carries them (decimal text) and as the ledger counts them (whole cents).
 * Balances are always written by `toFixed(2)`, so a balance is a number of cents; FloatMoney
 * shows that the source's arithmetic on doubles gives exactly these cents.
 */
module Money {
  import opened Decimals

  /** What `parseAmount` makes of an amount: a number of cents, or the reason it throws. */
  datatype Amount = Cents(n: nat) | Negative | Invalid

  function IndexOf(s: string, c: char): (i: nat)
    ensures i <= |s| && c !in s[..i] && (i < |s| ==> s[i] == c)
  {
    if s == [] || s[0] == c then 0
    else
      var j := IndexOf(s[1..], c);
      assert s[..j + 1] == [s[0]] + s[1..][..j];
      1 + j
  }

  /** Digits, then optionally a point and at most two more digits. */
  predicate IsPlainDecimal(s: string) {
    var dot := IndexOf(s, '.');
    && dot > 0
    && AllDigits(s[..dot])
    && (dot < |s| ==> |s| - dot - 1 <= 2 && AllDigits(s[dot + 1..]))
  }

  function PlainCents(s: string): nat
    requires IsPlainDecimal(s)
  {
    var dot := IndexOf(s, '.');
    var fraction := if dot < |s| then s[dot + 1..] else [];
    100 * NatOf(s[..dot]) + (if |fraction| == 1 then 10 * NatOf(fraction) else NatOf(fraction))
  }

  function ParseAmount(text: string): Amount {
    if IsPlainDecimal(text) then Cents(PlainCents(text))
    else if text != [] && text[0] == '-' && IsPlainDecimal(text[1..]) then
      if PlainCents(text[1..]) == 0 then Cents(0) else Negative
    else Invalid
  }

  /** `(cents / 100).toFixed(2)`. */
  function Render(cents: nat): string {
    DigitsOf(cents / 100) + ['.', DigitOf(cents % 100 / 10), DigitOf(cents % 10)]
  }

  lemma IndexOfFirst(s: string, c: char, i: nat)
    requires i < |s| && s[i] == c && c !in s[..i]
    ensures IndexOf(s, c) == i
  {
    assert IndexOf(s, c) == i;
  }

  /** A balance written out and parsed back is the same number of cents. */
  lemma RenderThenParse(cents: nat)
    ensures ParseAmount(Render(cents)) == Cents(cents)
  {
    var whole := DigitsOf(cents / 100);
    var text := Render(cents);
    NatOfDigitsOf(cents / 100);
    assert text[..|whole|] == whole;
    assert '.' !in whole;
    IndexOfFirst(text, '.', |whole|);
    var fraction := text[|whole| + 1..];
    assert fraction == [DigitOf(cents % 100 / 10), DigitOf(cents % 10)];
    assert fraction[..1][..0] == [] && fraction[..1] == [fraction[0]];
    assert NatOf([]) == 0;
    assert NatOf(fraction[..1]) == cents % 100 / 10;
    assert NatOf(fraction) == 10 * (cents % 100 / 10) + cents % 10;
  }

  // ----- the value of every text -----

  function DigitValue(c: char): nat
    requires IsDigit(c)
  {
    c as int - '0' as int
  }

  function Pow10(n: nat): nat {
    if n == 0 then 1 else 10 * Pow10(n - 1)
  }

  /** The number a digit text denotes: each digit times the power of ten of its place. */
  function Positional(s: string): nat
    requires AllDigits(s)
  {
    if s == [] then 0 else DigitValue(s[0]) * Pow10(|s| - 1) + Positional(s[1..])
  }

  /** Tenths and hundredths, a missing digit counting as none. */
  function Hundredths(fraction: string): nat
    requires AllDigits(fraction) && |fraction| <= 2
  {
    (if |fraction| >= 1 then 10 * DigitValue(fraction[0]) else 0)
    + (if |fraction| == 2 then DigitValue(fraction[1]) else 0)
  }

  /** The text is written as these digits before and after the point, with a sign or without. */
  predicate Written(text: string, minus: bool, whole: string, fraction: string) {
    && AllDigits(whole) && whole != [] && AllDigits(fraction) && |fraction| <= 2
    && (|| text == (if minus then "-" else "") + whole + "." + fraction
        || (fraction == [] && text == (if minus then "-" else "") + whole))
  }

  function ValueOf(whole: string, fraction: string): nat
    requires AllDigits(whole) && AllDigits(fraction) && |fraction| <= 2
  {
    100 * Positional(whole) + Hundredths(fraction)
  }

  lemma {:induction false} NatOfFirst(c: char, s: string)
    requires IsDigit(c) && AllDigits(s)
    ensures AllDigits([c] + s) && NatOf([c] + s) == DigitValue(c) * Pow10(|s|) + NatOf(s)
  {
    var t := [c] + s;
    if s == [] {
      assert t[..0] == [];
      assert NatOf([]) == 0;
    } else {
      NatOfFirst(c, s[..|s| - 1]);
      assert t[..|t| - 1] == [c] + s[..|s| - 1];
      var x, y := DigitValue(c), Pow10(|s| - 1);
      assert x * (10 * y) == 10 * (x * y);
    }
  }

  lemma {:induction false} NatOfIsPositional(s: string)
    requires AllDigits(s)
    ensures NatOf(s) == Positional(s)
  {
    if s == [] {
    } else {
      NatOfIsPositional(s[1..]);
      NatOfFirst(s[0], s[1..]);
      assert s == [s[0]] + s[1..];
    }
  }

  lemma FractionValue(fraction: string)
    requires AllDigits(fraction) && |fraction| <= 2
    ensures (if |fraction| == 1 then 10 * NatOf(fraction) else NatOf(fraction)) == Hundredths(fraction)
  {
    NatOfIsPositional(fraction);
    assert Pow10(0) == 1 && Pow10(1) == 10;
    if |fraction| == 2 { assert fraction[1..][1..] == []; }
  }

  /** An unsigned amount has the value of its digits. */
  lemma PlainValue(text: string, whole: string, fraction: string)
    requires Written(text, false, whole, fraction)
    ensures IsPlainDecimal(text) && PlainCents(text) == ValueOf(whole, fraction)
  {
    hide NatOf, Positional, Hundredths;
    NatOfIsPositional(whole);
    FractionValue(fraction);
    assert text[..|whole|] == whole;
    assert '.' !in whole;
    if text == whole + "." + fraction {
      IndexOfFirst(text, '.', |whole|);
      assert text[|whole| + 1..] == fraction;
    } else {
      assert text == whole;
      assert '.' !in text;
      assert IndexOf(text, '.') == |text|;
    }
  }

  lemma PlainIsWritten(text: string) returns (whole: string, fraction: string)
    requires IsPlainDecimal(text)
    ensures Written(text, false, whole, fraction)
  {
    var dot := IndexOf(text, '.');
    whole, fraction := text[..dot], if dot < |text| then text[dot + 1..] else [];
    if dot < |text| {
      assert text == whole + "." + fraction;
    } else {
      assert text == whole;
    }
  }

  /** A text has the value of its digits; a negative one is refused unless that is nothing. */
  lemma ParsesByPosition(text: string, minus: bool, whole: string, fraction: string)
    requires Written(text, minus, whole, fraction)
    ensures ParseAmount(text) ==
      if minus && ValueOf(whole, fraction) > 0 then Negative else Cents(ValueOf(whole, fraction))
  {
    hide PlainCents, ValueOf;
    if minus {
      var rest := text[1..];
      assert Written(rest, false, whole, fraction) by {
        assert fraction == [] && text == "-" + whole ==> rest == whole;
        assert text == "-" + whole + "." + fraction ==> rest == whole + "." + fraction;
      }
      PlainValue(rest, whole, fraction);
      assert text[0] == '-';
      SignIsNoDigit(text);
    } else {
      PlainValue(text, whole, fraction);
    }
  }

  lemma SignIsNoDigit(text: string)
    requires text != [] && text[0] == '-'
    ensures !IsPlainDecimal(text)
  {
    var dot := IndexOf(text, '.');
    if dot > 0 { assert text[..dot][0] == '-'; }
  }

  /** Exactly the texts that are not so written are invalid. */
  lemma InvalidExactly(text: string)
    ensures ParseAmount(text) == Invalid <==> forall minus, whole, fraction :: !Written(text, minus, whole, fraction)
  {
    hide PlainCents, ValueOf, IsPlainDecimal;
    forall minus, whole, fraction | Written(text, minus, whole, fraction) ensures ParseAmount(text) != Invalid {
      ParsesByPosition(text, minus, whole, fraction);
    }
    if ParseAmount(text) != Invalid {
      if IsPlainDecimal(text) {
        var whole, fraction := PlainIsWritten(text);
      } else {
        var whole, fraction := PlainIsWritten(text[1..]);
        assert text == "-" + text[1..];
        assert "-" + (whole + "." + fraction) == "-" + whole + "." + fraction;
        assert Written(text, true, whole, fraction);
      }
    }
  }

  /** Zeros that a reader would not miss change nothing: after the point, or before everything else. */
  lemma ZerosAddNothing(w: string, d: char)
    requires AllDigits(w) && w != [] && IsDigit(d)
    ensures ParseAmount(w + "." + [d]) == ParseAmount(w + "." + [d, '0'])
    ensures ParseAmount(w) == ParseAmount(w + ".") == ParseAmount(w + ".00")
    ensures ParseAmount("0" + w) == ParseAmount(w)
  {
    hide ParseAmount;
    ParsesByPosition(w + "." + [d], false, w, [d]);
    ParsesByPosition(w + "." + [d, '0'], false, w, [d, '0']);
    ParsesByPosition(w, false, w, []);
    ParsesByPosition(w + ".", false, w, []);
    ParsesByPosition(w + ".00", false, w, "00");
    ParsesByPosition("0" + w, false, "0" + w, []);
    assert ("0" + w)[1..] == w;
  }

  /** Two texts can name the same amount, which is why comparing amounts as text is stricter. */
  lemma DistinctTextsOneAmount()
    ensures "1.0" != "1.00" && ParseAmount("1.0") == ParseAmount("1.00") == Cents(100)
  {
    hide ParseAmount;
    ParsesByPosition("1.0", false, "1", "0");
    ParsesByPosition("1.00", false, "1", "00");
    assert Pow10(0) == 1;
  }
}
