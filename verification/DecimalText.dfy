/**
  Amounts as text: fixed-scale formatting (Decimal.toFixed), the trailing-zero trimming of the accept
  use case, and the reading of decimal notation.
*/
module DecimalText {
  import opened Common
  import opened Decimals

  /** `coefficient` / 10^`places`; a large exponent makes `places` negative. */
  datatype Decimal = Decimal(coefficient: nat, places: int)

  predicate IsDigit(c: char) {
    '0' <= c <= '9'
  }

  predicate AllDigits(s: string) {
    forall i :: 0 <= i < |s| ==> IsDigit(s[i])
  }

  function DigitChar(d: nat): (c: char)
    requires d < 10
    ensures IsDigit(c) && DigitValue(c) == d && (c == '0' <==> d == 0)
  {
    ('0' as int + d) as char
  }

  function DigitValue(c: char): (d: nat)
    requires IsDigit(c)
    ensures d < 10
  {
    c as int - '0' as int
  }

  function ParseNat(s: string): nat
    requires AllDigits(s)
  {
    if s == [] then 0 else 10 * ParseNat(s[..|s| - 1]) + DigitValue(s[|s| - 1])
  }

  /** Decimal digits without leading zeros. */
  function Digits(n: nat): (s: string)
    ensures |s| >= 1 && AllDigits(s)
  {
    if n < 10 then [DigitChar(n)] else Digits(n / 10) + [DigitChar(n % 10)]
  }

  /** The low `k` digits, with leading zeros. */
  function Padded(n: nat, k: nat): (s: string)
    ensures |s| == k && AllDigits(s)
  {
    if k == 0 then [] else Padded(n / 10, k - 1) + [DigitChar(n % 10)]
  }

  /** What is left of `n` after removing its low `k` digits. */
  function DropDigits(n: nat, k: nat): nat {
    if k == 0 then n else DropDigits(n / 10, k - 1)
  }

  /** `units` minor units of an asset with `scale` decimal places, as toFixed(scale) prints them. */
  function ToFixed(units: nat, scale: nat): string {
    if scale == 0 then Digits(units)
    else Digits(DropDigits(units, scale)) + "." + Padded(units, scale)
  }

  function StripZeros(s: string): (t: string)
    ensures |t| <= |s| && t == s[..|t|]
  {
    if s != [] && s[|s| - 1] == '0' then StripZeros(s[..|s| - 1]) else s
  }

  /** Without a dot the text is kept; otherwise the trailing zeros go, and the dot if it is then last. */
  function TrimTrailingZeros(s: string): string {
    var t := StripZeros(s);
    if '.' !in s || t == s then s
    else if t != [] && t[|t| - 1] == '.' then t[..|t| - 1]
    else t
  }

  function FirstDot(s: string): (i: nat)
    ensures i <= |s|
    ensures i < |s| ==> s[i] == '.'
    ensures forall k :: 0 <= k < i ==> s[k] != '.'
  {
    if s == [] || s[0] == '.' then 0 else 1 + FirstDot(s[1..])
  }

  /** Digits with at most one dot and at least one digit: 12, 12.5, 12., .5 */
  function ParsePlain(s: string): Option<Decimal> {
    var dot := FirstDot(s);
    var whole, fraction := s[..dot], if dot < |s| then s[dot + 1..] else [];
    if AllDigits(whole) && AllDigits(fraction) && |whole| + |fraction| > 0
    then Some(Decimal(ParseNat(whole + fraction), |fraction|))
    else None
  }

  predicate IsExponentMark(c: char) {
    c == 'e' || c == 'E'
  }

  function FirstMark(s: string): (i: nat)
    ensures i <= |s|
    ensures i < |s| ==> IsExponentMark(s[i])
    ensures forall k :: 0 <= k < i ==> !IsExponentMark(s[k])
  {
    if s == [] || IsExponentMark(s[0]) then 0 else 1 + FirstMark(s[1..])
  }

  /** Digits with an optional sign. */
  function ParseExponent(s: string): Option<int> {
    var digits := if s != [] && s[0] in {'-', '+'} then s[1..] else s;
    if digits == [] || !AllDigits(digits) then None
    else Some(if s[0] == '-' then -(ParseNat(digits) as int) else ParseNat(digits))
  }

  /** Plain notation, or plain notation with a decimal exponent: 1.25e-3 */
  function ParseDecimal(s: string): Option<Decimal> {
    var mark := FirstMark(s);
    match ParsePlain(s[..mark])
    case None => None
    case Some(d) =>
      if mark == |s| then Some(d)
      else match ParseExponent(s[mark + 1..])
           case None => None
           case Some(e) => Some(Decimal(d.coefficient, d.places - e))
  }

  /** The value in minor units of a `scale`, if it needs no more than `scale` decimal places. */
  function Units(d: Decimal, scale: nat): Option<nat> {
    if d.places <= scale then Some(d.coefficient * Pow10(scale - d.places))
    else if d.coefficient % Pow10(d.places - scale) == 0
    then Some(d.coefficient / Pow10(d.places - scale))
    else None
  }

  function ReadUnits(s: string, scale: nat): Option<nat> {
    match ParseDecimal(s)
    case None => None
    case Some(d) => Units(d, scale)
  }

  // ----- the round trip

  lemma {:induction false} ParseDigits(n: nat)
    ensures ParseNat(Digits(n)) == n
  {
    if n < 10 {
      assert ParseNat([DigitChar(n)]) == 10 * ParseNat([]) + n;
    } else {
      ParseDigits(n / 10);
      assert Digits(n)[..|Digits(n)| - 1] == Digits(n / 10);
    }
  }

  lemma {:induction false} SplitDigits(n: nat, k: nat)
    ensures n == DropDigits(n, k) * Pow10(k) + ParseNat(Padded(n, k))
  {
    if k == 0 {
    } else {
      SplitDigits(n / 10, k - 1);
      assert Padded(n, k)[..k - 1] == Padded(n / 10, k - 1);
      TimesTen(DropDigits(n, k), Pow10(k - 1));
    }
  }

  lemma {:induction false} ParseConcat(a: string, b: string)
    requires AllDigits(a) && AllDigits(b)
    ensures AllDigits(a + b)
    ensures ParseNat(a + b) == ParseNat(a) * Pow10(|b|) + ParseNat(b)
  {
    if b == [] {
      assert a + b == a;
    } else {
      var b' := b[..|b| - 1];
      ParseConcat(a, b');
      assert (a + b)[..|a + b| - 1] == a + b';
      assert ParseNat(a) * Pow10(|b|) == 10 * (ParseNat(a) * Pow10(|b'|));
    }
  }

  lemma {:induction false} ParseBound(s: string)
    requires AllDigits(s)
    ensures ParseNat(s) < Pow10(|s|)
  {
    if s == [] {
    } else {
      ParseBound(s[..|s| - 1]);
    }
  }

  lemma {:induction false} ParseZeros(s: string)
    requires forall i :: 0 <= i < |s| ==> s[i] == '0'
    ensures AllDigits(s) && ParseNat(s) == 0
  {
    if s == [] {
    } else {
      ParseZeros(s[..|s| - 1]);
    }
  }

  lemma {:induction false} StripAfterDot(whole: string, fraction: string)
    requires AllDigits(fraction)
    ensures StripZeros(whole + "." + fraction) == whole + "." + StripZeros(fraction)
  {
    var s := whole + "." + fraction;
    if fraction != [] && fraction[|fraction| - 1] == '0' {
      StripAfterDot(whole, fraction[..|fraction| - 1]);
      assert s[..|s| - 1] == whole + "." + fraction[..|fraction| - 1];
    } else {
      assert s[|s| - 1] != '0';
    }
  }

  /** Stripping zeros from the end divides by a power of ten. */
  lemma {:induction false} StripDivides(whole: string, fraction: string)
    requires AllDigits(whole) && AllDigits(fraction)
    ensures AllDigits(StripZeros(fraction)) && AllDigits(whole + StripZeros(fraction))
    ensures AllDigits(whole + fraction)
    ensures ParseNat(whole + fraction)
         == ParseNat(whole + StripZeros(fraction)) * Pow10(|fraction| - |StripZeros(fraction)|)
  {
    if fraction == [] || fraction[|fraction| - 1] != '0' {
    } else {
      var f := fraction[..|fraction| - 1];
      StripDivides(whole, f);
      assert (whole + fraction)[..|whole + fraction| - 1] == whole + f;
      var k := |f| - |StripZeros(f)|;
      assert Pow10(k + 1) == 10 * Pow10(k);
      TimesTen(ParseNat(whole + StripZeros(f)), Pow10(k));
    }
  }

  lemma TimesTen(a: nat, b: nat)
    ensures a * (10 * b) == 10 * (a * b)
  {
  }

  lemma DotAfterDigits(whole: string, rest: string)
    requires AllDigits(whole)
    ensures FirstDot(whole + "." + rest) == |whole|
    ensures FirstDot(whole) == |whole|
  {
    var s := whole + "." + rest;
    assert s[|whole|] == '.' && forall i :: 0 <= i < |whole| ==> IsDigit(s[i]);
  }

  lemma NoMark(s: string)
    requires forall i :: 0 <= i < |s| ==> IsDigit(s[i]) || s[i] == '.'
    ensures ParseDecimal(s) == ParsePlain(s)
  {
    assert FirstMark(s) == |s| && s[..|s|] == s;
  }

  lemma ReadSplit(whole: string, fraction: string)
    requires AllDigits(whole) && AllDigits(fraction) && |whole| >= 1
    ensures AllDigits(whole + fraction)
    ensures ParseDecimal(whole + "." + fraction) == Some(Decimal(ParseNat(whole + fraction), |fraction|))
    ensures ParseDecimal(whole) == Some(Decimal(ParseNat(whole), 0))
  {
    hide ParseDecimal, IsDigit, ParseNat;
    DotAfterDigits(whole, fraction);
    var s := whole + "." + fraction;
    NoMark(s);
    NoMark(whole);
    assert s[..|whole|] == whole && s[|whole| + 1..] == fraction;
    assert whole[..|whole|] == whole && whole + [] == whole;
  }

  /** Decimal notation in full: digits around at most one dot, of which there must be some, and then perhaps an
      exponent, which moves the point. */
  lemma NotationIsRead(whole: string, fraction: string, exponent: string)
    requires AllDigits(whole) && AllDigits(fraction) && |whole| + |fraction| > 0
    requires AllDigits(exponent) && exponent != []
    ensures AllDigits(whole + fraction)
    ensures var n, plain := ParseNat(whole + fraction), whole + "." + fraction;
            && ParseDecimal(plain) == Some(Decimal(n, |fraction|))
            && ParseDecimal(plain + "e" + exponent) == Some(Decimal(n, |fraction| - ParseNat(exponent)))
            && ParseDecimal(plain + "E+" + exponent) == Some(Decimal(n, |fraction| - ParseNat(exponent)))
            && ParseDecimal(plain + "e-" + exponent) == Some(Decimal(n, |fraction| + ParseNat(exponent)))
  {
    hide ParseDecimal, ParseNat, ParseExponent, ParsePlain, IsDigit;
    var plain := whole + "." + fraction;
    PlainIsRead(whole, fraction);
    OnlyDigitsAndDots(whole, fraction);
    NoMark(plain);
    SignsAreRead(exponent);
    MarkIsRead(plain, "e", exponent);
    assert "E" + "+" == "E+" && "e" + "-" == "e-";
    MarkIsRead(plain, "E", "+" + exponent);
    Regrouped(plain, "E", "+", exponent);
    MarkIsRead(plain, "e", "-" + exponent);
    Regrouped(plain, "e", "-", exponent);
  }

  lemma OnlyDigitsAndDots(whole: string, fraction: string)
    requires AllDigits(whole) && AllDigits(fraction)
    ensures var s := whole + "." + fraction;
            forall i :: 0 <= i < |s| ==> IsDigit(s[i]) || s[i] == '.'
  {
  }

  lemma Regrouped(a: string, b: string, c: string, d: string)
    ensures a + (b + c) + d == a + b + (c + d)
  {
  }

  lemma PlainIsRead(whole: string, fraction: string)
    requires AllDigits(whole) && AllDigits(fraction) && |whole| + |fraction| > 0
    ensures AllDigits(whole + fraction)
    ensures ParsePlain(whole + "." + fraction) == Some(Decimal(ParseNat(whole + fraction), |fraction|))
  {
    hide ParseNat;
    DotAfterDigits(whole, fraction);
    var s := whole + "." + fraction;
    assert s[..|whole|] == whole && s[|whole| + 1..] == fraction;
  }

  lemma SignsAreRead(exponent: string)
    requires AllDigits(exponent) && exponent != []
    ensures ParseExponent(exponent) == Some(ParseNat(exponent))
    ensures ParseExponent("+" + exponent) == Some(ParseNat(exponent))
    ensures ParseExponent("-" + exponent) == Some(-(ParseNat(exponent) as int))
  {
    hide ParseNat;
    assert IsDigit(exponent[0]);
    assert ("+" + exponent)[1..] == exponent && ("-" + exponent)[1..] == exponent;
  }

  lemma MarkIsRead(plain: string, mark: string, exponent: string)
    requires (forall i :: 0 <= i < |plain| ==> IsDigit(plain[i]) || plain[i] == '.') && mark in {"e", "E"}
    requires ParsePlain(plain).Some? && ParseExponent(exponent).Some?
    ensures var d := ParsePlain(plain).value;
            ParseDecimal(plain + mark + exponent)
            == Some(Decimal(d.coefficient, d.places - ParseExponent(exponent).value))
  {
    hide ParsePlain, ParseExponent;
    var s := plain + mark + exponent;
    assert s[|plain|] == mark[0] && forall i :: 0 <= i < |plain| ==> s[i] == plain[i];
    assert FirstMark(s) == |plain|;
    assert s[..|plain|] == plain && s[|plain| + 1..] == exponent;
  }

  /** No digits at all, a second dot, and an exponent mark without digits behind it are not decimal. */
  lemma BrokenNotationIsRefused(whole: string, fraction: string, rest: string)
    requires AllDigits(whole) && AllDigits(fraction)
    ensures ParseDecimal("").None? && ParseDecimal(".").None?
    ensures ParseDecimal(whole + "." + fraction + "." + rest).None?
    ensures ParseDecimal(whole + "e").None? && ParseDecimal(whole + "e+").None? && ParseDecimal(whole + "e-").None?
  {
    hide ParseNat;
    assert FirstMark("") == 0 && FirstMark(".") == 1 && FirstDot(".") == 0;
    SecondDot(whole, fraction, rest);
    NoExponent(whole, "e", "");
    NoExponent(whole, "e+", "+");
    NoExponent(whole, "e-", "-");
  }

  lemma SecondDot(whole: string, fraction: string, rest: string)
    requires AllDigits(whole) && AllDigits(fraction)
    ensures ParseDecimal(whole + "." + fraction + "." + rest).None?
  {
    hide ParseNat;
    var s := whole + "." + fraction + "." + rest;
    var dot := |whole| + 1 + |fraction|;
    assert s[|whole|] == '.' && s[dot] == '.';
    assert forall i :: 0 <= i < dot ==> IsDigit(s[i]) || s[i] == '.' by {
      assert forall i :: 0 <= i < |whole| ==> s[i] == whole[i];
      assert forall i :: 0 <= i < |fraction| ==> s[|whole| + 1 + i] == fraction[i];
    }
    var plain := s[..FirstMark(s)];
    assert plain[|whole|] == '.' && plain[dot] == '.';
    assert forall i :: 0 <= i < |whole| ==> IsDigit(plain[i]);
    assert FirstDot(plain) == |whole|;
    assert plain[|whole| + 1..][dot - |whole| - 1] == '.';
  }

  lemma NoExponent(whole: string, mark: string, sign: string)
    requires AllDigits(whole) && mark == "e" + sign && sign in {"", "+", "-"}
    ensures ParseDecimal(whole + mark).None?
  {
    hide ParseNat;
    var s := whole + mark;
    assert s[|whole|] == 'e' && forall i :: 0 <= i < |whole| ==> s[i] == whole[i];
    assert FirstMark(s) == |whole|;
    assert s[|whole| + 1..] == sign;
  }

  lemma FixedParts(units: nat, scale: nat)
    ensures var whole, fraction := Digits(DropDigits(units, scale)), Padded(units, scale);
            AllDigits(whole + fraction) && ParseNat(whole + fraction) == units
  {
    ParseConcat(Digits(DropDigits(units, scale)), Padded(units, scale));
    ParseDigits(DropDigits(units, scale));
    SplitDigits(units, scale);
  }

  lemma TrimmedForm(whole: string, fraction: string)
    requires AllDigits(whole) && AllDigits(fraction) && |whole| >= 1
    ensures var short := StripZeros(fraction);
            TrimTrailingZeros(whole + "." + fraction) ==
            if short == [] && fraction != [] then whole else whole + "." + short
  {
    hide StripZeros, AllDigits;
    StripAfterDot(whole, fraction);
    LastOf(whole, StripZeros(fraction));
    LastOf(whole, fraction);
    StrippedDigits(fraction);
  }

  /** Where the dot is, and what the text ends in. */
  lemma LastOf(whole: string, fraction: string)
    ensures var s := whole + "." + fraction;
            && '.' in s && |s| == |whole| + 1 + |fraction| && s[..|whole|] == whole
            && s[|s| - 1] == (if fraction == [] then '.' else fraction[|fraction| - 1])
  {
    assert (whole + "." + fraction)[|whole|] == '.';
  }

  lemma StrippedDigits(fraction: string)
    requires AllDigits(fraction)
    ensures var short := StripZeros(fraction);
            && (short != [] ==> short[|short| - 1] != '.')
            && |short| <= |fraction| && (|short| == |fraction| ==> short == fraction)
  {
    hide StripZeros;
    var short := StripZeros(fraction);
    assert short == fraction[..|short|];
    if short != [] {
      assert IsDigit(fraction[|short| - 1]);
    }
  }

  /** Reading the trimmed fixed-scale text of an amount gives the amount back. */
  lemma TextRoundTrip(units: nat, scale: nat)
    ensures ReadUnits(TrimTrailingZeros(ToFixed(units, scale)), scale) == Some(units)
  {
    hide ParseDecimal, StripZeros, ParseNat, Pow10, TrimTrailingZeros, Digits, Padded, DropDigits, Units;
    if scale == 0 {
      WholeRoundTrip(units);
    } else {
      var whole, fraction := Digits(DropDigits(units, scale)), Padded(units, scale);
      var short := StripZeros(fraction);
      FixedParts(units, scale);
      StripDivides(whole, fraction);
      TrimmedForm(whole, fraction);
      ReadSplit(whole, short);
      UnitsOf(ParseNat(whole + short), |short|, scale);
      if short == [] {
        assert whole + short == whole;
      }
    }
  }

  lemma UnitsOf(coefficient: nat, places: nat, scale: nat)
    requires places <= scale
    ensures Units(Decimal(coefficient, places), scale) == Some(coefficient * Pow10(scale - places))
  {
  }

  lemma WholeRoundTrip(units: nat)
    ensures TrimTrailingZeros(Digits(units)) == Digits(units)
    ensures ReadUnits(Digits(units), 0) == Some(units)
  {
    hide ParseDecimal, StripZeros, ParseNat, Digits;
    ParseDigits(units);
    ReadSplit(Digits(units), "");
    NoDot(Digits(units));
    assert Pow10(0) == 1;
  }

  lemma NoDot(s: string)
    requires AllDigits(s)
    ensures '.' !in s
  {
  }

  /** The untrimmed text, as stored in NUMERIC columns, reads back too. */
  lemma FixedRoundTrip(units: nat, scale: nat)
    ensures ReadUnits(ToFixed(units, scale), scale) == Some(units)
  {
    if scale == 0 {
      WholeRoundTrip(units);
    } else {
      FixedParts(units, scale);
      ReadSplit(Digits(DropDigits(units, scale)), Padded(units, scale));
    }
  }

  // ----- the shape of the texts

  lemma {:induction false} LeadingDigit(n: nat)
    ensures Digits(n)[0] == '0' <==> n == 0
    ensures n == 0 ==> |Digits(n)| == 1
  {
    if n < 10 {
    } else {
      LeadingDigit(n / 10);
    }
  }

  /** A fixed-scale text has exactly `scale` digits after its dot and no leading zero but a single one. */
  lemma FixedForm(units: nat, scale: nat)
    requires scale > 0
    ensures var s := ToFixed(units, scale);
            var dot := |s| - scale - 1;
            && dot >= 1 && s[dot] == '.' && (forall i :: 0 <= i < |s| && i != dot ==> IsDigit(s[i]))
            && (s[0] == '0' ==> dot == 1)
  {
    LeadingDigit(DropDigits(units, scale));
    var whole, fraction := Digits(DropDigits(units, scale)), Padded(units, scale);
    assert ToFixed(units, scale) == whole + "." + fraction;
  }

  /** The trimmed text is that text cut short: whole digits alone, or ending in a non-zero decimal. */
  lemma TrimmedIsShort(units: nat, scale: nat)
    requires scale > 0
    ensures var s := ToFixed(units, scale);
            var t := TrimTrailingZeros(s);
            && t <= s && |t| >= |s| - scale - 1
            && (|t| == |s| - scale - 1 || (|t| > |s| - scale && t[|t| - 1] != '0'))
  {
    FixedForm(units, scale);
    var whole, fraction := Digits(DropDigits(units, scale)), Padded(units, scale);
    TrimmedForm(whole, fraction);
    StripDivides(whole, fraction);
    StrippedEnd(fraction);
  }

  lemma {:induction false} StrippedEnd(s: string)
    ensures StripZeros(s) != [] ==> StripZeros(s)[|StripZeros(s)| - 1] != '0'
  {
    if s == [] || s[|s| - 1] != '0' {
    } else {
      StrippedEnd(s[..|s| - 1]);
    }
  }
}
