/**
  Money and exchange rates (src/modules/shared/domain/money.ts and
  src/modules/pricing/infrastructure/fake-pricing.provider.ts).

  An amount of an asset is a number of minor units: decimal.js value = units / 10^scale. Money.of
  admits no finer value, so nothing is lost; every arithmetic result is rounded to 40 significant
  digits exactly where the source's operation does.
*/
module Moneys {
  import opened Common
  import opened Decimals
  import opened DecimalText

  datatype Asset = USDT | BTC {
    function Scale(): nat {
      match this
      case USDT => 6
      case BTC => 8
    }

    function Code(): string {
      match this
      case USDT => "USDT"
      case BTC => "BTC"
    }
  }

  datatype Money = Money(units: nat, asset: Asset)

  datatype MoneyError = NotDecimal | Negative | ExceedsScale | AssetMismatch | WouldBeNegative

  /** A positive rate: target units per source unit, as coefficient / 10^places. */
  datatype Rate = Rate(coefficient: nat, places: nat)

  /** Decimal text with an optional sign, as a number of minor units of a scale. */
  function ParseUnits(text: string, scale: nat): Result<nat, MoneyError> {
    var digits := if text != [] && text[0] in {'-', '+'} then text[1..] else text;
    match ParseDecimal(digits)
    case None => Err(NotDecimal)
    case Some(d) =>
      if digits != text && text[0] == '-' then Err(Negative)
      else match Units(d, scale)
           case None => Err(ExceedsScale)
           case Some(units) => Ok(units)
  }

  /** Money.of on text. */
  function Of(text: string, asset: Asset): Result<Money, MoneyError> {
    match ParseUnits(text, asset.Scale())
    case Err(e) => Err(e)
    case Ok(units) => Ok(Money(units, asset))
  }

  /** The value of a text in a NUMERIC(38,18) column. */
  function Numeric(text: string): Result<nat, MoneyError> {
    ParseUnits(text, 18)
  }

  /** Money.toString: always the full scale of the asset. */
  function Text(m: Money): string {
    ToFixed(m.units, m.asset.Scale())
  }

  /** The text the accept use case writes into payloads and bodies. */
  function ShortText(m: Money): string {
    TrimTrailingZeros(Text(m))
  }

  /** The arithmetic of decimal.js on two amounts. */
  function Plus(a: Money, b: Money): Money {
    Money(RoundSig(a.units + b.units, PRECISION), a.asset)
  }

  function Minus(a: Money, b: Money): Money
    requires a.units >= b.units
  {
    Money(RoundSig(a.units - b.units, PRECISION), a.asset)
  }

  function Add(a: Money, b: Money): Result<Money, MoneyError> {
    if a.asset != b.asset then Err(AssetMismatch) else Ok(Plus(a, b))
  }

  function Subtract(a: Money, b: Money): Result<Money, MoneyError> {
    if a.asset != b.asset then Err(AssetMismatch)
    else if a.units < b.units then Err(WouldBeNegative)
    else Ok(Minus(a, b))
  }

  /** Decimal places of amount * rate beyond the target scale; negative when there are too few. */
  function Shift(from: Asset, rate: Rate, to: Asset): int {
    from.Scale() + rate.places - to.Scale()
  }

  function Rescale(n: nat, shift: int): nat {
    if shift >= 0 then ScaleDown(n, shift) else ScaleUp(n, -shift)
  }

  /** Money.convert: a 40-digit half-even product, then ROUND_DOWN to the target scale. */
  function Convert(m: Money, rate: Rate, to: Asset): Money {
    Money(Rescale(RoundSig(m.units * rate.coefficient, PRECISION), Shift(m.asset, rate, to)), to)
  }

  /** What the documentation of convert promises: the exact product, rounded down. */
  function ExactFloor(m: Money, rate: Rate, to: Asset): nat {
    Rescale(m.units * rate.coefficient, Shift(m.asset, rate, to))
  }

  /** A NUMERIC(38,18) column holds at most 20 integer digits. */
  predicate FitsColumn(units: int, asset: Asset) {
    units < Pow10(20 + asset.Scale())
  }

  predicate Fits(m: Money) {
    FitsColumn(m.units, m.asset)
  }

  function RateFor(from: Asset, to: Asset): Option<Rate> {
    match (from, to)
    case (USDT, BTC) => Some(Rate(161, 7))
    case (BTC, USDT) => Some(Rate(62111801242236, 9))
    case _ => None
  }

  /** The amounts a quote request may carry: at most 20 integer digits without a leading zero and at most 18
      decimals, not zero. */
  predicate InRequestGrammar(text: string) {
    var dot := FirstDot(text);
    var whole, fraction := text[..dot], if dot < |text| then text[dot + 1..] else [];
    && |text| <= 39 && AllDigits(whole) && AllDigits(fraction)
    && (dot < |text| ==> 1 <= |fraction| <= 18)
    && ((whole == "0" && NotAllZero(fraction)) || (1 <= |whole| <= 20 && whole[0] != '0'))
  }

  predicate NotAllZero(digits: string) {
    exists i :: 0 <= i < |digits| && digits[i] != '0'
  }

  // ----- text

  /** Both texts the application writes read back to the same money, so two amounts of one asset
      with equal texts are equal. */
  lemma TextIsFaithful(m: Money)
    ensures Of(ShortText(m), m.asset) == Ok(m)
    ensures Of(Text(m), m.asset) == Ok(m)
  {
    hide ParseDecimal, Units, TrimTrailingZeros, ToFixed;
    TextRoundTrip(m.units, m.asset.Scale());
    FixedRoundTrip(m.units, m.asset.Scale());
    FirstIsDigit(m);
  }

  /** The shape of both texts: six decimals for USDT and eight for BTC; and the short one is that text cut short,
      to its whole digits or so that it ends in a non-zero decimal. */
  lemma TextForms(m: Money)
    ensures var t, scale := Text(m), if m.asset == USDT then 6 else 8;
            var dot := |t| - scale - 1;
            var short := ShortText(m);
            && dot >= 1 && t[dot] == '.' && (forall i :: 0 <= i < |t| && i != dot ==> '0' <= t[i] <= '9')
            && (t[0] == '0' ==> dot == 1)
            && short <= t && (|short| == dot || (|short| > dot + 1 && short[|short| - 1] != '0'))
  {
    hide ToFixed, TrimTrailingZeros;
    FixedForm(m.units, m.asset.Scale());
    TrimmedIsShort(m.units, m.asset.Scale());
  }

  lemma FirstIsDigit(m: Money)
    ensures Text(m) != [] && IsDigit(Text(m)[0])
    ensures ShortText(m) != [] && IsDigit(ShortText(m)[0])
  {
    var scale := m.asset.Scale();
    var whole, fraction := Digits(DropDigits(m.units, scale)), Padded(m.units, scale);
    TrimmedForm(whole, fraction);
  }

  /** A text that reads as an amount of an asset has that amount's value in a NUMERIC column, however
      it is written. */
  lemma NumericOfMoney(text: string, m: Money)
    requires Of(text, m.asset) == Ok(m)
    ensures Numeric(text) == Ok(m.units * Pow10(18 - m.asset.Scale()))
  {
    hide ParseDecimal, Units, Pow10;
    var digits := if text != [] && text[0] in {'-', '+'} then text[1..] else text;
    FinerScale(ParseDecimal(digits).value, m.asset.Scale(), 18);
  }

  lemma FinerScale(d: Decimal, coarse: nat, fine: nat)
    requires coarse <= fine && Units(d, coarse).Some?
    ensures Units(d, fine) == Some(Units(d, coarse).value * Pow10(fine - coarse))
  {
    var u := Units(d, coarse).value;
    if d.places <= coarse {
      PowSum(coarse - d.places, fine - coarse);
      MulAssociates(d.coefficient, Pow10(coarse - d.places), Pow10(fine - coarse));
    } else {
      ExactQuotient(d.coefficient, Pow10(d.places - coarse));
      if d.places <= fine {
        PowSum(d.places - coarse, fine - d.places);
        MulAssociates(u, Pow10(d.places - coarse), Pow10(fine - d.places));
      } else {
        PowSum(fine - coarse, d.places - fine);
        MulAssociates(u, Pow10(fine - coarse), Pow10(d.places - fine));
        DivideUnique(d.coefficient, Pow10(d.places - fine), u * Pow10(fine - coarse), 0);
      }
    }
  }

  lemma ExactQuotient(n: nat, unit: nat)
    requires unit > 0 && n % unit == 0
    ensures n == n / unit * unit
  {
  }

  /** A value that needs no more decimals than the scale is kept as it is, and no other is let through. */
  lemma UnitsAreExact(d: Decimal, scale: nat, units: nat)
    ensures Units(d, scale) == Some(units)
       <==> if d.places >= 0 then units * Pow10(d.places) == d.coefficient * Pow10(scale)
            else units == d.coefficient * Pow10(scale - d.places)
  {
    hide Pow10;
    if 0 <= d.places <= scale {
      PowSum(scale - d.places, d.places);
      MulAssociates(d.coefficient, Pow10(scale - d.places), Pow10(d.places));
      Cancel(units, d.coefficient * Pow10(scale - d.places), Pow10(d.places));
    } else if d.places > scale {
      var unit := Pow10(d.places - scale);
      PowSum(d.places - scale, scale);
      MulAssociates(units, unit, Pow10(scale));
      Cancel(units * unit, d.coefficient, Pow10(scale));
      DividesIff(d.coefficient, unit, units);
    }
  }

  lemma DividesIff(n: nat, unit: nat, units: nat)
    requires unit > 0
    ensures n % unit == 0 && n / unit == units <==> units * unit == n
  {
    if units * unit == n {
      DivideUnique(n, unit, units, 0);
    } else if n % unit == 0 {
      ExactQuotient(n, unit);
    }
  }

  /** Every amount in decimal notation: it reads as just the number of minor units it writes, or exceeds the scale;
      a plus sign changes nothing, and with a minus sign it is negative, even if it is zero. */
  lemma AmountsAreRead(whole: string, fraction: string, exponent: string, asset: Asset, units: nat)
    requires AllDigits(whole) && AllDigits(fraction) && |whole| + |fraction| > 0
    requires AllDigits(exponent) && exponent != []
    ensures AllDigits(whole + fraction)
    ensures var n, scale := ParseNat(whole + fraction), if asset == USDT then 6 else 8;
            var plain, fine := whole + "." + fraction, whole + "." + fraction + "e-" + exponent;
            && (Of(plain, asset) == Ok(Money(units, asset)) <==> units * Pow10(|fraction|) == n * Pow10(scale))
            && (Of(fine, asset) == Ok(Money(units, asset))
                <==> units * Pow10(|fraction| + ParseNat(exponent)) == n * Pow10(scale))
            && (Of(plain, asset).Err? ==> Of(plain, asset) == Err(ExceedsScale))
            && (Of(fine, asset).Err? ==> Of(fine, asset) == Err(ExceedsScale))
            && Of("+" + plain, asset) == Of(plain, asset) && Of("-" + plain, asset) == Err(Negative)
  {
    hide ParseDecimal, Units, ParseNat, Pow10;
    NotationIsRead(whole, fraction, exponent);
    var n, plain := ParseNat(whole + fraction), whole + "." + fraction;
    UnitsAreExact(Decimal(n, |fraction|), asset.Scale(), units);
    UnitsAreExact(Decimal(n, |fraction| + ParseNat(exponent)), asset.Scale(), units);
    assert plain[0] == (if whole == [] then '.' else whole[0]);
    assert (plain + "e-" + exponent)[0] == plain[0];
    assert ("+" + plain)[1..] == plain && ("-" + plain)[1..] == plain;
  }

  /** Nothing but digits, a dot, an exponent mark and signs is decimal. */
  lemma OtherTextsAreRefused(text: string, asset: Asset, i: nat)
    requires i < |text| && !IsDigit(text[i]) && text[i] !in {'.', 'e', 'E', '+', '-'}
    ensures Of(text, asset) == Err(NotDecimal) && Of([], asset) == Err(NotDecimal)
  {
    hide ParseNat;
    var digits := if text[0] in {'-', '+'} then text[1..] else text;
    var j: nat := if text[0] in {'-', '+'} then i - 1 else i;
    assert digits[j] == text[i];
    OddTextIsNotDecimal(digits, j);
  }

  lemma OddTextIsNotDecimal(s: string, j: nat)
    requires j < |s| && !IsDigit(s[j]) && s[j] !in {'.', 'e', 'E', '+', '-'}
    ensures ParseDecimal(s).None?
  {
    hide ParseNat;
    var mark := FirstMark(s);
    if j < mark {
      var plain := s[..mark];
      var dot := FirstDot(plain);
      assert plain[j] == s[j];
      if j < dot {
        assert plain[..dot][j] == s[j];
      } else {
        assert plain[dot + 1..][j - dot - 1] == s[j];
      }
    } else {
      var exponent := s[mark + 1..];
      assert exponent[j - mark - 1] == s[j];
      if exponent[0] in {'-', '+'} {
        assert exponent[1..][j - mark - 2] == s[j];
      }
    }
  }

  lemma EqualTextsEqualAmounts(a: Money, b: Money)
    requires a.asset == b.asset
    ensures ShortText(a) == ShortText(b) <==> a == b
  {
    TextIsFaithful(a);
    TextIsFaithful(b);
  }

  /** The request grammar: whole digits without a leading zero and at most 20 of them, or just "0" before decimals
      that are not all zero; and with a dot, between one and 18 decimals. */
  lemma GrammarIs(whole: string, fraction: string)
    requires AllDigits(whole) && AllDigits(fraction)
    ensures InRequestGrammar(whole) <==> 1 <= |whole| <= 20 && whole[0] != '0'
    ensures InRequestGrammar(whole + "." + fraction)
       <==> (&& 1 <= |fraction| <= 18
             && ((1 <= |whole| <= 20 && whole[0] != '0')
                 || (whole == "0" && exists i :: 0 <= i < |fraction| && fraction[i] != '0')))
  {
    hide FirstDot;
    DotAfterDigits(whole, fraction);
    var text := whole + "." + fraction;
    assert text[..|whole|] == whole && text[|whole| + 1..] == fraction && whole[..|whole|] == whole;
    var dot := FirstDot(text);
    var decimals := if dot < |text| then text[dot + 1..] else [];
    assert decimals == fraction && |text| == |whole| + 1 + |fraction|;
    assert NotAllZero(decimals) == NotAllZero(fraction);
  }

  /** Every requested amount fits its column, so only a target can be too large to be saved. */
  lemma RequestsFit(text: string, m: Money)
    requires InRequestGrammar(text) && Of(text, m.asset) == Ok(m)
    ensures Fits(m)
  {
    hide ParseNat, Pow10, ParseDecimal;
    var dot := FirstDot(text);
    var whole, fraction := text[..dot], if dot < |text| then text[dot + 1..] else [];
    var d := Decimal(ParseNat(whole + fraction), |fraction|);
    PlainRequest(text);
    ParseBound(whole + fraction);
    UnitsBound(d, |whole|, m.asset.Scale());
    PowMonotone(|whole| + m.asset.Scale(), 20 + m.asset.Scale());
  }

  lemma PlainRequest(text: string)
    requires InRequestGrammar(text)
    ensures var dot := FirstDot(text);
            var whole, fraction := text[..dot], if dot < |text| then text[dot + 1..] else [];
            AllDigits(whole + fraction)
            && ParseDecimal(text) == Some(Decimal(ParseNat(whole + fraction), |fraction|))
            && text != [] && IsDigit(text[0])
  {
    hide ParseNat, ParseDecimal;
    var dot := FirstDot(text);
    var whole, fraction := text[..dot], if dot < |text| then text[dot + 1..] else [];
    assert IsDigit(whole[0]) && text[0] == whole[0];
    forall i | 0 <= i < |text| ensures IsDigit(text[i]) || text[i] == '.' {
      assert i < dot ==> text[i] == whole[i];
      assert i > dot ==> text[i] == fraction[i - dot - 1];
    }
    NoMark(text);
  }

  lemma UnitsBound(d: Decimal, whole: nat, scale: nat)
    requires 0 <= d.places && d.coefficient < Pow10(whole + d.places) && Units(d, scale).Some?
    ensures Units(d, scale).value < Pow10(whole + scale)
  {
    hide Pow10;
    if d.places <= scale {
      PowSum(whole + d.places, scale - d.places);
      MulStep(d.coefficient, Pow10(whole + d.places), Pow10(scale - d.places));
    } else {
      var unit, u := Pow10(d.places - scale), Units(d, scale).value;
      PowSum(whole + scale, d.places - scale);
      ExactQuotient(d.coefficient, unit);
      if u >= Pow10(whole + scale) {
        MulMonotone(Pow10(whole + scale), u, unit);
        assert false;
      }
    }
  }

  // ----- addition

  /** Adding is refused across assets, rounds the sum to 40 digits otherwise, and so is exact for everything a
      NUMERIC(38,18) column can hold, and beyond that exactly when the digits past the fortieth are zero. */
  lemma AddIsExact(a: Money, b: Money)
    ensures a.asset != b.asset ==> Add(a, b) == Err(AssetMismatch)
    ensures var sum := a.units + b.units;
            a.asset == b.asset ==>
              && Add(a, b) == Ok(Money(RoundSig(sum, 40), a.asset))
              && (Add(a, b) == Ok(Money(sum, a.asset)) <==> sum % Pow10(Dropped(sum, PRECISION)) == 0)
              && (Fits(a) && Fits(b) ==> Add(a, b) == Ok(Money(sum, a.asset)))
  {
    hide RoundSig;
    var sum := a.units + b.units;
    RoundSigExact(sum, PRECISION);
    if a.asset == b.asset && Fits(a) && Fits(b) {
      assert Pow10(21 + a.asset.Scale()) == 10 * Pow10(20 + a.asset.Scale());
      PowMonotone(21 + a.asset.Scale(), PRECISION);
      RoundSigFits(sum, PRECISION);
    }
  }

  /** Subtracting is refused across assets and below zero, rounds like a sum, and so is exact for everything that
      can be stored. */
  lemma SubtractIsExact(a: Money, b: Money)
    ensures a.asset != b.asset ==> Subtract(a, b) == Err(AssetMismatch)
    ensures a.asset == b.asset && a.units < b.units ==> Subtract(a, b) == Err(WouldBeNegative)
    ensures a.asset == b.asset && a.units >= b.units ==>
              && Subtract(a, b) == Ok(Money(RoundSig(a.units - b.units, 40), a.asset))
              && (Fits(a) ==> Subtract(a, b) == Ok(Money(a.units - b.units, a.asset)))
  {
    hide RoundSig;
    if a.asset == b.asset && a.units >= b.units && Fits(a) {
      PowMonotone(20 + a.asset.Scale(), PRECISION);
      RoundSigFits(a.units - b.units, PRECISION);
    }
  }

  // ----- conversion

  /** A larger amount never converts to less, with no bound on the amounts. */
  lemma ConvertMonotone(a: Money, b: Money, rate: Rate, to: Asset)
    requires a.asset == b.asset && a.units <= b.units
    ensures Convert(a, rate, to).units <= Convert(b, rate, to).units
  {
    MulMonotone(a.units, b.units, rate.coefficient);
    RoundSigMonotone(a.units * rate.coefficient, b.units * rate.coefficient, PRECISION);
    RescaleMonotone(RoundSig(a.units * rate.coefficient, PRECISION),
                    RoundSig(b.units * rate.coefficient, PRECISION), Shift(a.asset, rate, to));
  }

  lemma RescaleMonotone(a: nat, b: nat, shift: int)
    requires a <= b
    ensures Rescale(a, shift) <= Rescale(b, shift)
  {
    if shift >= 0 {
      DivideMonotone(a, b, Pow10(shift));
    } else {
      MulMonotone(a, b, Pow10(-shift));
    }
  }

  /** For every amount and rate: convert is the promised floor exactly when the 40-digit rounding
      does not carry into the digits that are kept. */
  lemma ConvertIsFloorIff(m: Money, rate: Rate, to: Asset)
    ensures Convert(m, rate, to).units == ExactFloor(m, rate, to)
       <==> var shift := Shift(m.asset, rate, to);
            NoCarry(m.units * rate.coefficient, PRECISION, if shift >= 0 then shift else 0)
  {
    var product, shift := m.units * rate.coefficient, Shift(m.asset, rate, to);
    if shift >= 0 {
      DoubleRounding(product, PRECISION, shift);
    } else {
      DoubleRounding(product, PRECISION, 0);
      assert Pow10(0) == 1;
      Cancel(RoundSig(product, PRECISION), product, Pow10(-shift));
    }
  }

  lemma Cancel(a: nat, b: nat, c: nat)
    requires c > 0
    ensures a * c == b * c <==> a == b
  {
    if a < b {
      MulStep(a, b, c);
    } else if b < a {
      MulStep(b, a, c);
    }
  }

  /** The floor promise fails in memory for a request of 20 integer digits, which the request grammar
      admits: 20000000000000000000.00000161 BTC yields one minor unit of USDT too much. */
  lemma ConvertCanFabricate()
    ensures var m, rate := Money(2000000000000000000000000161, BTC), Rate(62111801242236, 9);
            var text := "20000000000000000000.00000161";
            && InRequestGrammar(text) && Of(text, BTC) == Ok(m) && RateFor(BTC, USDT) == Some(rate) && Fits(m)
            && Convert(m, rate, USDT).units == ExactFloor(m, rate, USDT) + 1
  {
    hide Of, InRequestGrammar;
    RequestedAmount();
    var product := 2000000000000000000000000161 * 62111801242236;
    assert product == 124223602484472000000000009999999999999996;
    HasFortyTwoDigits(product);
    RoundsToHundreds(product);
    PowerTable();
  }

  /** Two, twenty-four zeros and 161, with the dot after twenty digits. */
  lemma RequestedAmount()
    ensures InRequestGrammar("20000000000000000000.00000161")
    ensures Of("20000000000000000000.00000161", BTC) == Ok(Money(2000000000000000000000000161, BTC))
  {
    hide InRequestGrammar, ParseDecimal, ParseNat, Units;
    var whole, fraction := "20000000000000000000", "00000161";
    assert "20000000000000000000.00000161" == whole + "." + fraction;
    GrammarIs(whole, fraction);
    ReadSplit(whole, fraction);
    RequestedDigits();
    assert whole + fraction == "2" + "000000000000000000000000" + "161";
    UnitsOf(2000000000000000000000000161, 8, 8);
    assert Pow10(0) == 1;
  }

  lemma RequestedDigits()
    ensures ParseNat("2" + "000000000000000000000000" + "161") == 2000000000000000000000000161
  {
    var zeros := "000000000000000000000000";
    ParseZeros(zeros);
    ParseConcat("2", zeros);
    ParseConcat("2" + zeros, "161");
    LastDigits();
    PowSum(12, 12);
    assert Pow10(12) == 1000000000000;
  }

  lemma LastDigits()
    ensures ParseNat("2") == 2 && ParseNat("161") == 161 && Pow10(3) == 1000
  {
    assert "2"[..0] == [] && "161"[..2] == "16" && "16"[..1] == "1" && "1"[..0] == [];
  }

  lemma PowerTable()
    ensures Pow10(1) == 10 && Pow10(5) == 100000 && Pow10(11) == 100000000000
    ensures Pow10(28) == 10000000000000000000000000000
    ensures Pow10(41) == 10000000000000 * Pow10(28)
    ensures Pow10(42) == 10 * Pow10(41)
  {
    assert Pow10(13) == 10000000000000;
    PowSum(13, 28);
    PowSum(1, 41);
  }

  lemma HasFortyTwoDigits(n: nat)
    requires n == 124223602484472000000000009999999999999996
    ensures NumDigits(n) == 42
  {
    PowerTable();
    DigitsUnique(n, 42);
  }

  lemma RoundsToHundreds(n: nat)
    requires n == 124223602484472000000000009999999999999996 && NumDigits(n) == 42
    ensures RoundSig(n, PRECISION) == 124223602484472000000000010000000000000000
  {
    assert Dropped(n, PRECISION) == 2 && Pow10(2) == 100;
    HalfEvenOf(n, 100, 1242236024844720000000000099999999999999, 96);
  }

  /** When the target fits its column, no digit was rounded and convert is the floor of the exact
      product: at most the product, and less than one minor unit below it. */
  lemma FittingTargetIsFloor(m: Money, rate: Rate, to: Asset)
    requires 0 <= Shift(m.asset, rate, to) && 20 + to.Scale() + Shift(m.asset, rate, to) <= PRECISION
    requires Fits(Convert(m, rate, to))
    ensures var target, unit := Convert(m, rate, to).units, Pow10(Shift(m.asset, rate, to));
            target * unit <= m.units * rate.coefficient < (target + 1) * unit
  {
    hide RoundSig;
    FloorIsExact(m, rate, to);
    QuotientBounds(m.units * rate.coefficient, Pow10(Shift(m.asset, rate, to)));
  }

  lemma FloorIsExact(m: Money, rate: Rate, to: Asset)
    requires 0 <= Shift(m.asset, rate, to) && 20 + to.Scale() + Shift(m.asset, rate, to) <= PRECISION
    requires Fits(Convert(m, rate, to))
    ensures Convert(m, rate, to).units == ExactFloor(m, rate, to)
  {
    hide RoundSig;
    var product, shift := m.units * rate.coefficient, Shift(m.asset, rate, to);
    SmallQuotientSmallProduct(product, 20 + to.Scale(), shift);
    PowMonotone(20 + to.Scale() + shift, PRECISION);
    RoundSigFits(product, PRECISION);
  }

  lemma SmallQuotientSmallProduct(n: nat, e: nat, shift: nat)
    requires e + shift <= PRECISION
    requires ScaleDown(RoundSig(n, PRECISION), shift) < Pow10(e)
    ensures n < Pow10(e + shift)
  {
    if n >= Pow10(e + shift) {
      BoundSurvivesRounding(n, e + shift);
      DivideMonotone(Pow10(e + shift), RoundSig(n, PRECISION), Pow10(shift));
      PowSum(e, shift);
      DivideUnique(Pow10(e + shift), Pow10(shift), Pow10(e), 0);
      assert false;
    }
  }

  lemma QuotientBounds(n: nat, unit: nat)
    requires unit > 0
    ensures n / unit * unit <= n < (n / unit + 1) * unit
  {
  }

  lemma BoundSurvivesRounding(n: nat, e: nat)
    requires n >= Pow10(e) && e <= PRECISION
    ensures RoundSig(n, PRECISION) >= Pow10(e)
  {
    RoundSigMonotone(Pow10(e), n, PRECISION);
    DigitsUnique(Pow10(e), e + 1);
    RoundSigBracket(Pow10(e), PRECISION, e);
  }

  /** Both configured pairs: a storable target is the exact floor, with a gap under one minor unit. */
  lemma QuotedTargetIsFloor(m: Money, to: Asset)
    requires RateFor(m.asset, to).Some?
    requires Fits(Convert(m, RateFor(m.asset, to).value, to))
    ensures var rate := RateFor(m.asset, to).value;
            var target, unit := Convert(m, rate, to).units, Pow10(Shift(m.asset, rate, to));
            target * unit <= m.units * rate.coefficient < (target + 1) * unit
  {
    FittingTargetIsFloor(m, RateFor(m.asset, to).value, to);
  }

  // ----- value

  /** Value in units of 10^-17 USDT, one BTC counting as 62111.801242236 USDT. */
  function Worth(m: Money): nat {
    match m.asset
    case USDT => m.units * 100000000000
    case BTC => m.units * 62111801242236
  }

  /** Rounding to 40 digits adds at most one part in 10^39. */
  lemma RoundingAddsLittle(n: nat)
    ensures RoundSig(n, PRECISION) * Pow10(39) <= n * Pow10(39) + n
  {
    hide HalfEven, Pow10, RoundSig;
    var unit := Pow10(Dropped(n, PRECISION));
    RoundSigIsNearest(n, PRECISION, n / unit);
    QuotientBounds(n, unit);
    if unit == 1 {
      RoundSigExact(n, PRECISION);
    } else {
      ScaledBound(RoundSig(n, PRECISION), n, unit, Pow10(39));
    }
  }

  lemma ScaledBound(rounded: nat, n: nat, unit: nat, fine: nat)
    requires rounded <= n + unit && fine * unit <= n
    ensures rounded * fine <= n * fine + n
  {
    MulMonotone(rounded, n + unit, fine);
  }

  /** Buying BTC never gains, with no bound on the amount. */
  lemma BuyingGainsNothing(m: Money)
    requires m.asset == USDT
    ensures Worth(Convert(m, Rate(161, 7), BTC)) <= Worth(m)
  {
    hide RoundSig, Pow10;
    var n := m.units * 161;
    var rounded := RoundSig(n, PRECISION);
    var target := Convert(m, Rate(161, 7), BTC).units;
    FifthPower();
    QuotientBounds(rounded, 100000);
    assert target * 100000 <= rounded;
    RoundingAddsLittle(n);
    FineEnough();
    WorthOfBuying(m.units, rounded, target, Pow10(39));
  }

  lemma FifthPower()
    ensures Pow10(5) == 100000
  {
  }

  lemma FineEnough()
    ensures Pow10(39) >= 9999999999999996
  {
    PowMonotone(16, 39);
    PowSum(13, 3);
    assert Pow10(13) == 10000000000000 && Pow10(3) == 1000;
  }

  lemma WorthOfBuying(units: nat, rounded: nat, target: nat, fine: nat)
    requires target * 100000 <= rounded && rounded * fine <= units * 161 * fine + units * 161
    requires fine >= 9999999999999996
    ensures target * 62111801242236 <= units * 100000000000
  {
    if target * 62111801242236 > units * 100000000000 {
      assert rounded * 62111801242236 > units * 10000000000000000;
      MulMonotone(units * 10000000000000000 + 1, rounded * 62111801242236, fine);
      assert rounded * 62111801242236 * fine <= (units * 161 * fine + units * 161) * 62111801242236 by {
        MulMonotone(rounded * fine, units * 161 * fine + units * 161, 62111801242236);
      }
      MulMonotone(9999999999999996, fine, units);
      assert false;
    }
  }

  /** Selling BTC gains nothing exactly when the target is not above the exact floor. */
  lemma SellingGainsNothingIff(m: Money)
    requires m.asset == BTC
    ensures Worth(Convert(m, Rate(62111801242236, 9), USDT)) <= Worth(m)
       <==> Convert(m, Rate(62111801242236, 9), USDT).units <= ExactFloor(m, Rate(62111801242236, 9), USDT)
  {
    hide RoundSig, Pow10;
    PowerTable();
    QuotientBounds(m.units * 62111801242236, 100000000000);
  }

  /** For every amount: the rate table turns it into something worth more if and only if BTC is sold and the
      40-digit rounding of the product carries it above its truncation by eleven digits. */
  lemma GainsIff(m: Money, to: Asset)
    requires RateFor(m.asset, to).Some?
    ensures Worth(Convert(m, RateFor(m.asset, to).value, to)) > Worth(m)
       <==> m.asset == BTC && RoundedAbove(m.units * 62111801242236, PRECISION, 11)
  {
    hide Worth, RoundedAbove, RoundSig, Pow10;
    if m.asset == USDT {
      BuyingGainsNothing(m);
    } else {
      SellingGainsNothingIff(m);
      RoundedAboveIff(m.units * 62111801242236, PRECISION, 11);
    }
  }

  /** For every amount that a request can carry: selling it gains if and only if the last eleven digits of the
      product, of which at most two are rounded, are too large to stay below a carry. */
  lemma RequestGainsIff(text: string, m: Money)
    requires InRequestGrammar(text) && Of(text, BTC) == Ok(m)
    ensures Dropped(m.units * 62111801242236, PRECISION) <= 2
    ensures Worth(Convert(m, Rate(62111801242236, 9), USDT)) > Worth(m)
       <==> !NoCarry(m.units * 62111801242236, PRECISION, 11)
  {
    hide Worth, Convert, NoCarry, InRequestGrammar, Pow10;
    GainsIff(m, USDT);
    RequestsFit(text, m);
    ProductDigits(m.units);
  }

  lemma ProductDigits(units: nat)
    requires units < Pow10(28)
    ensures NumDigits(units * 62111801242236) <= 42
  {
    hide Pow10, NumDigits;
    MulMonotone(units, Pow10(28), 62111801242236);
    PowSum(28, 14);
    PowSum(13, 1);
    assert Pow10(13) == 10000000000000 && Pow10(1) == 10 by { PowerTable(); ThirteenthPower(); }
    if units == 0 {
      DigitsAtMost(0, 42);
    } else {
      MulStep(62111801242236, 100000000000000, Pow10(28));
      DigitsAtMost(units * 62111801242236, 42);
    }
  }

  lemma ThirteenthPower()
    ensures Pow10(13) == 10000000000000
  {
  }

  /** Neither direction does so with a target that can be stored. */
  lemma QuoteGainsNothing(m: Money, to: Asset)
    requires RateFor(m.asset, to).Some?
    requires Fits(Convert(m, RateFor(m.asset, to).value, to))
    ensures Worth(Convert(m, RateFor(m.asset, to).value, to)) <= Worth(m)
  {
    hide Worth, Convert, FitsColumn;
    if m.asset == USDT {
      BuyingGainsNothing(m);
    } else {
      SellingGainsNothingIff(m);
      FloorIsExact(m, RateFor(m.asset, to).value, to);
    }
  }
}
