/** Stored amounts. The data model types an amount as a number, but the
    transaction form registers its number field without `valueAsNumber`,
    so every amount the application itself stores is text; a number
    appears only in data written some other way. This module gives both
    shapes and the decimal reading that `parseFloat` performs on text. */
module Amounts {
  import opened Common
  import opened Dates

  datatype Amount = Num(value: real) | Text(text: string)

  /** Index of the first '.' in `s`, or `|s|` when there is none. */
  function DotIndex(s: string): (i: nat)
    ensures i <= |s|
    ensures i < |s| ==> s[i] == '.'
    ensures forall j :: 0 <= j < i ==> s[j] != '.'
  {
    if s == [] then 0 else if s[0] == '.' then 0 else 1 + DotIndex(s[1..])
  }

  /** The number that digits `whole`, a point and digits `frac` spell: the
      whole part plus `frac` tenths, hundredths, and so on. */
  function NumeralValue(whole: string, frac: string): real
    requires AllDigits(whole) && AllDigits(frac)
  {
    DigitsValue(whole) as real + DigitsValue(frac) as real / Pow10(|frac|) as real
  }

  /** An unsigned decimal numeral: digits, optionally a '.', optionally more
      digits, with at least one digit on either side of the point. */
  function ParseUnsigned(s: string): Option<real> {
    var i := DotIndex(s);
    var whole := s[..i];
    var frac := if i == |s| then "" else s[i + 1..];
    if !AllDigits(whole) || !AllDigits(frac) || |whole| + |frac| == 0 then None
    else Some(NumeralValue(whole, frac))
  }

  /** `parseFloat` on a decimal numeral with an optional leading minus;
      `None` stands for NaN. */
  function ParseFloat(s: string): (r: Option<real>)
    ensures |s| > 0 && s[0] == '-' && ParseUnsigned(s[1..]).Some? ==> r == Some(-ParseUnsigned(s[1..]).value)
    ensures |s| > 0 && s[0] == '-' && ParseUnsigned(s[1..]).None? ==> r.None?
    ensures s == [] ==> r.None?
  {
    if |s| > 0 && s[0] == '-' then
      match ParseUnsigned(s[1..])
      case Some(x) => Some(-x)
      case None => None
    else ParseUnsigned(s)
  }

  /** The first '.' of `whole + "." + frac`, when `whole` is all digits, is
      the one after `whole`; `whole` alone has none. */
  lemma DotAfterDigits(whole: string, frac: string)
    requires AllDigits(whole)
    ensures DotIndex(whole + "." + frac) == |whole|
    ensures DotIndex(whole) == |whole|
  {
    var s := whole + "." + frac;
    assert forall j :: 0 <= j < |whole| ==> s[j] == whole[j] && whole[j] != '.';
    assert s[|whole|] == '.';
  }

  lemma ParseUnsignedWhole(whole: string)
    requires AllDigits(whole) && |whole| > 0
    ensures ParseUnsigned(whole) == Some(DigitsValue(whole) as real)
  {
    DotAfterDigits(whole, "");
    assert whole[..|whole|] == whole;
    assert DigitsValue("") == 0 && Pow10(0) == 1;
    assert NumeralValue(whole, "") == DigitsValue(whole) as real;
  }

  lemma ParseUnsignedPoint(whole: string, frac: string)
    requires AllDigits(whole) && AllDigits(frac) && |whole| + |frac| > 0
    ensures ParseUnsigned(whole + "." + frac) == Some(NumeralValue(whole, frac))
  {
    DotAfterDigits(whole, frac);
    var s := whole + "." + frac;
    assert s[..|whole|] == whole;
    assert s[|whole| + 1..] == frac;
  }

  lemma ParseFloatUnsigned(s: string)
    requires |s| > 0 && s[0] != '-'
    ensures ParseFloat(s) == ParseUnsigned(s)
  {
  }

  /** A minus sign before a numeral negates its reading. */
  lemma ParseFloatMinus(x: string)
    ensures ParseUnsigned(x).Some? ==> ParseFloat("-" + x) == Some(-ParseUnsigned(x).value)
  {
    assert ("-" + x)[1..] == x;
  }

  /** Digits without a point read as their value, leading zeros and all. */
  lemma ParseFloatDigits(whole: string)
    requires AllDigits(whole) && |whole| > 0
    ensures ParseFloat(whole) == Some(DigitsValue(whole) as real)
  {
    ParseUnsignedWhole(whole);
    assert IsDigit(whole[0]);
    ParseFloatUnsigned(whole);
  }

  /** Digits, a point and digits read as `NumeralValue`, with either side
      of the point allowed to be empty ("5." is 5, ".5" is 0.5). */
  lemma ParseFloatPoint(whole: string, frac: string)
    requires AllDigits(whole) && AllDigits(frac) && |whole| + |frac| > 0
    ensures ParseFloat(whole + "." + frac) == Some(NumeralValue(whole, frac))
  {
    var s := whole + "." + frac;
    ParseUnsignedPoint(whole, frac);
    if |whole| > 0 {
      assert s[0] == whole[0] && IsDigit(whole[0]);
    } else {
      assert s[0] == '.';
    }
    ParseFloatUnsigned(s);
  }

  /** A number field's usual text for cents: "12.50" is 12.5. */
  lemma ParseFloatCents()
    ensures ParseFloat("12.50") == Some(12.5)
  {
    var twelve, fifty := "12", "50";
    assert DigitsValue(twelve) == 12 && DigitsValue(fifty) == 50 && Pow10(|fifty|) == 100;
    ParseFloatPoint(twelve, fifty);
    assert twelve + "." + fifty == "12.50";
  }

  /** A numeral may start at the point: ".5" is 0.5. */
  lemma ParseFloatLeadingPoint()
    ensures ParseFloat(".5") == Some(0.5)
  {
    var five := "5";
    assert DigitsValue(five) == 5 && Pow10(|five|) == 10;
    ParseFloatPoint("", five);
    assert "" + "." + five == ".5";
  }

  /** ".001" is 0.001, below the smallest amount the form accepts. */
  lemma ParseFloatThousandth()
    ensures ParseFloat(".001") == Some(0.001)
  {
    var one := "001";
    assert DigitsValue(one) == 1 && Pow10(|one|) == 1000;
    ParseFloatPoint("", one);
    assert "" + "." + one == ".001";
  }

  /** A third fraction digit is read too: "12.555" is 12.555. */
  lemma ParseFloatThreeDigits()
    ensures ParseFloat("12.555") == Some(12.555)
  {
    var twelve, frac := "12", "555";
    assert frac[..2] == "55" && "55"[..1] == "5";
    assert DigitsValue("55") == 55;
    assert DigitsValue(frac) == 555;
    assert Pow10(|frac|) == 1000;
    assert DigitsValue(twelve) == 12;
    ParseFloatPoint(twelve, frac);
    assert twelve + "." + frac == "12.555";
  }

  /** A whole number's decimal text reads back as that number. */
  lemma ParseFloatDecimal(n: nat)
    ensures ParseFloat(DecimalString(n)) == Some(n as real)
  {
    var s := DecimalString(n);
    assert s[0] != '-';
    assert forall j :: 0 <= j < |s| ==> s[j] != '.' by {
      assert AllDigits(s);
    }
    assert DotIndex(s) == |s|;
    assert s[..|s|] == s;
    DecimalValue(n);
  }

  /** A negative whole number written with a minus sign reads back negated. */
  lemma ParseFloatNegative(n: nat)
    ensures ParseFloat("-" + DecimalString(n)) == Some(-(n as real))
  {
    ParseFloatDecimal(n);
    assert ("-" + DecimalString(n))[1..] == DecimalString(n);
  }
}
