/**
  Decimal arithmetic as decimal.js performs it under src/modules/shared/domain/decimal-config.ts:
  a result keeps 40 significant digits, and the dropped part is rounded half to even.
  A decimal is an integer coefficient; its exponent is tracked by the caller, because rounding to
  significant digits does not depend on it (lemma RoundSigScales).
*/
module Decimals {

  const PRECISION: nat := 40

  function Pow10(n: nat): (r: nat)
    ensures r >= 1
  {
    if n == 0 then 1 else 10 * Pow10(n - 1)
  }

  function NumDigits(n: nat): (d: nat)
    ensures d >= 1
  {
    if n < 10 then 1 else 1 + NumDigits(n / 10)
  }

  /** Moving the decimal point, dropping what falls off. */
  function ScaleDown(n: nat, k: nat): nat {
    QuotientNonNegative(n, Pow10(k));
    n / Pow10(k)
  }

  lemma QuotientNonNegative(n: nat, unit: nat)
    requires unit > 0
    ensures n / unit >= 0
  {
  }

  function ScaleUp(n: nat, k: nat): nat {
    n * Pow10(k)
  }

  /** Whether `q` and a remainder `r` of `unit` round up to `q + 1`: ties go to the even one. */
  predicate RoundsUp(q: nat, r: nat, unit: nat) {
    2 * r > unit || (2 * r == unit && q % 2 == 1)
  }

  predicate TakenUp(n: nat, unit: nat)
    requires unit > 0
  {
    RoundsUp(n / unit, n % unit, unit)
  }

  /** Division by `unit`, rounded to the nearest integer, ties to the even one. */
  function HalfEven(n: nat, unit: nat): nat
    requires unit > 0
  {
    if TakenUp(n, unit) then n / unit + 1 else n / unit
  }

  /** How many low digits do not fit in `p` significant digits. */
  function Dropped(n: nat, p: nat): nat {
    if NumDigits(n) <= p then 0 else NumDigits(n) - p
  }

  /** `n` rounded half-even to `p` significant digits, written as an integer again. */
  function RoundSig(n: nat, p: nat): nat {
    var unit := Pow10(Dropped(n, p));
    HalfEven(n, unit) * unit
  }

  // ----- powers of ten and digit counts

  lemma {:induction false} PowSum(a: nat, b: nat)
    ensures Pow10(a + b) == Pow10(a) * Pow10(b)
  {
    if a == 0 {
    } else {
      PowSum(a - 1, b);
    }
  }

  lemma {:induction false} PowMonotone(a: nat, b: nat)
    requires a <= b
    ensures Pow10(a) <= Pow10(b)
  {
    if a == b {
    } else {
      PowMonotone(a, b - 1);
    }
  }

  lemma {:induction false} DigitsBound(n: nat)
    ensures n < Pow10(NumDigits(n))
    ensures n > 0 ==> Pow10(NumDigits(n) - 1) <= n
  {
    if n < 10 {
    } else {
      DigitsBound(n / 10);
    }
  }

  /** A number has `d` digits exactly when it lies between the two powers of ten. */
  lemma DigitsUnique(n: nat, d: nat)
    requires d >= 1
    requires n < Pow10(d)
    requires Pow10(d - 1) <= n
    ensures NumDigits(n) == d
  {
    DigitsBound(n);
    if NumDigits(n) < d {
      PowMonotone(NumDigits(n), d - 1);
    } else if NumDigits(n) > d {
      PowMonotone(d, NumDigits(n) - 1);
    }
  }

  lemma DigitsAtMost(n: nat, d: nat)
    requires d >= 1
    ensures NumDigits(n) <= d <==> n < Pow10(d)
  {
    DigitsBound(n);
    if NumDigits(n) <= d {
      PowMonotone(NumDigits(n), d);
    } else {
      PowMonotone(d, NumDigits(n) - 1);
    }
  }

  lemma DigitsMonotone(a: nat, b: nat)
    requires a <= b
    ensures NumDigits(a) <= NumDigits(b)
  {
    DigitsBound(b);
    DigitsAtMost(a, NumDigits(b));
  }

  // ----- half-even division

  /** One more factor adds at least one more `c`. */
  lemma MulStep(a: nat, b: nat, c: nat)
    requires a < b
    ensures a * c + c <= b * c
  {
    MulMonotone(a + 1, b, c);
  }

  lemma MulMonotone(a: nat, b: nat, c: nat)
    requires a <= b
    ensures a * c <= b * c
  {
    assert b * c == a * c + (b - a) * c;
  }

  lemma DivideUnique(n: nat, unit: nat, q: nat, r: nat)
    requires unit > 0
    requires n == q * unit + r && r < unit
    ensures n / unit == q && n % unit == r
  {
    var q': nat, r': nat := n / unit, n % unit;
    if q' < q {
      MulStep(q', q, unit);
    } else if q < q' {
      MulStep(q, q', unit);
    }
  }

  lemma DivideMonotone(a: nat, b: nat, unit: nat)
    requires unit > 0 && a <= b
    ensures a / unit <= b / unit
  {
    var qa: nat, qb: nat := a / unit, b / unit;
    if qa > qb {
      MulStep(qb, qa, unit);
    }
  }

  lemma HalfEvenMonotone(a: nat, b: nat, unit: nat)
    requires unit > 0 && a <= b
    ensures HalfEven(a, unit) <= HalfEven(b, unit)
  {
    DivideMonotone(a, b, unit);
    assert a == a / unit * unit + a % unit && b == b / unit * unit + b % unit;
  }

  lemma HalfEvenOf(n: nat, unit: nat, q: nat, r: nat)
    requires unit > 0
    requires n == q * unit + r && r < unit
    ensures HalfEven(n, unit) == if RoundsUp(q, r, unit) then q + 1 else q
  {
    DivideUnique(n, unit, q, r);
  }

  lemma HalfEvenMultiple(k: nat, unit: nat)
    requires unit > 0
    ensures HalfEven(k * unit, unit) == k
  {
    DivideUnique(k * unit, unit, k, 0);
  }

  // ----- rounding to significant digits

  function Distance(a: int, b: int): nat {
    if a <= b then b - a else a - b
  }

  /** The rounding of `n` is a multiple of its unit and no other multiple is nearer; one that is just as far
      has an odd coefficient. The unit is the one that leaves `p` digits, or 1 if `n` has no more. */
  lemma RoundSigIsNearest(n: nat, p: nat, other: nat)
    requires p >= 1
    ensures var unit := Pow10(Dropped(n, p));
            var kept := HalfEven(n, unit);
            && RoundSig(n, p) == kept * unit
            && Distance(n, kept * unit) <= Distance(n, other * unit)
            && (other != kept && Distance(n, kept * unit) == Distance(n, other * unit) ==> other % 2 == 1)
            && n < Pow10(p) * unit && (unit > 1 ==> Pow10(p - 1) * unit <= n)
  {
    var unit := Pow10(Dropped(n, p));
    UnitLeavesDigits(n, p);
    NearestMultiple(n, unit, n / unit, n % unit, other);
  }

  lemma UnitLeavesDigits(n: nat, p: nat)
    requires p >= 1
    ensures var unit := Pow10(Dropped(n, p));
            n < Pow10(p) * unit && (unit > 1 ==> Pow10(p - 1) * unit <= n)
  {
    DigitsBound(n);
    if NumDigits(n) <= p {
      PowMonotone(NumDigits(n), p);
      assert Pow10(0) == 1;
    } else {
      PowSum(p, NumDigits(n) - p);
      PowSum(p - 1, NumDigits(n) - p);
    }
  }

  lemma NearestMultiple(n: nat, unit: nat, q: nat, r: nat, other: nat)
    requires unit > 0 && n == q * unit + r && r < unit
    ensures var kept := HalfEven(n, unit);
            && Distance(n, kept * unit) <= Distance(n, other * unit)
            && (other != kept && Distance(n, kept * unit) == Distance(n, other * unit) ==> other % 2 == 1)
  {
    hide HalfEven;
    HalfEvenOf(n, unit, q, r);
    assert (q + 1) * unit == q * unit + unit;
    if other < q {
      MulStep(other, q, unit);
    } else if other > q + 1 {
      MulStep(q + 1, other, unit);
    }
  }

  /** A number that fits in `p` digits is kept as it is; any other one is kept exactly when its
      dropped digits are all zero. */
  lemma RoundSigExact(n: nat, p: nat)
    ensures RoundSig(n, p) == n <==> n % Pow10(Dropped(n, p)) == 0
  {
    var unit := Pow10(Dropped(n, p));
    var q, r := n / unit, n % unit;
    assert n == q * unit + r;
    if r == 0 {
      HalfEvenMultiple(q, unit);
    } else if RoundSig(n, p) == n {
      DivideUnique(n, unit, HalfEven(n, unit), 0);
    }
  }

  lemma RoundSigFits(n: nat, p: nat)
    requires p >= 1 && n < Pow10(p)
    ensures RoundSig(n, p) == n
  {
    DigitsAtMost(n, p);
    RoundSigExact(n, p);
  }

  /** Appending a zero to the coefficient (and lowering the exponent) changes nothing, so the
      choice of coefficient for a decimal is immaterial. */
  lemma RoundSigScales(n: nat, p: nat)
    requires p >= 1 && n > 0
    ensures RoundSig(10 * n, p) == 10 * RoundSig(n, p)
  {
    assert NumDigits(10 * n) == 1 + NumDigits(n);
    var unit := Pow10(Dropped(n, p));
    if NumDigits(n) < p {
      DigitsAtMost(n, p);
      DigitsAtMost(10 * n, p);
      RoundSigFits(n, p);
      RoundSigFits(10 * n, p);
    } else {
      assert Pow10(Dropped(10 * n, p)) == 10 * unit;
      HalfEvenScales(n, unit);
      MulAssociates(10, HalfEven(n, unit), unit);
    }
  }

  lemma HalfEvenScales(n: nat, unit: nat)
    requires unit > 0
    ensures HalfEven(10 * n, 10 * unit) == HalfEven(n, unit)
  {
    var q: nat, r: nat := n / unit, n % unit;
    MulAssociates(10, q, unit);
    HalfEvenOf(10 * n, 10 * unit, q, 10 * r);
  }

  lemma MulAssociates(a: nat, b: nat, c: nat)
    ensures a * (b * c) == a * b * c == b * (a * c)
  {
  }

  /** A power of ten that is at most (at least) `n` stays at most (at least) its rounding. */
  lemma RoundSigBracket(n: nat, p: nat, e: nat)
    requires p >= 1 && e >= Dropped(n, p)
    ensures n <= Pow10(e) ==> RoundSig(n, p) <= Pow10(e)
    ensures n >= Pow10(e) ==> RoundSig(n, p) >= Pow10(e)
  {
    var k := Dropped(n, p);
    var unit := Pow10(k);
    PowSum(e - k, k);
    HalfEvenMultiple(Pow10(e - k), unit);
    if n <= Pow10(e) {
      HalfEvenMonotone(n, Pow10(e), unit);
      MulMonotone(HalfEven(n, unit), Pow10(e - k), unit);
    }
    if n >= Pow10(e) {
      HalfEvenMonotone(Pow10(e), n, unit);
      MulMonotone(Pow10(e - k), HalfEven(n, unit), unit);
    }
  }

  /** Rounding to significant digits never swaps two numbers, whatever their sizes. */
  lemma RoundSigMonotone(a: nat, b: nat, p: nat)
    requires p >= 1 && a <= b
    ensures RoundSig(a, p) <= RoundSig(b, p)
  {
    DigitsMonotone(a, b);
    if NumDigits(a) == NumDigits(b) {
      var unit := Pow10(Dropped(a, p));
      HalfEvenMonotone(a, b, unit);
      MulMonotone(HalfEven(a, unit), HalfEven(b, unit), unit);
    } else {
      var da, db := NumDigits(a), NumDigits(b);
      DigitsBound(a);
      DigitsBound(b);
      PowMonotone(da, db - 1);
      RoundSigBracket(a, p, da);
      RoundSigBracket(b, p, db - 1);
    }
  }

  // ----- rounding to significant digits, then truncating

  /** When 40-digit rounding followed by dropping `m` digits agrees with dropping them directly:
      nothing was rounded; or the rounding position lies inside the dropped part and that part is
      too small to carry; or it lies above it and the digits in between were zero already. */
  predicate NoCarry(n: nat, p: nat, m: nat) {
    var j := Dropped(n, p);
    var rest := n % Pow10(m);
    if j == 0 then true
    else if j <= m then
      2 * rest + Pow10(j) < 2 * Pow10(m)
      || (j == m && 2 * rest == Pow10(m) && n / Pow10(m) % 2 == 0)
    else n / Pow10(m) % Pow10(j - m) == 0
  }

  /** The exact condition under which the double rounding is a plain floor, for every coefficient. */
  lemma DoubleRounding(n: nat, p: nat, m: nat)
    requires p >= 1
    ensures RoundSig(n, p) / Pow10(m) == n / Pow10(m) <==> NoCarry(n, p, m)
  {
    var j := Dropped(n, p);
    if j == 0 {
      RoundSigExact(n, p);
    } else if j <= m {
      RoundingInsideDropped(n, j, m);
    } else {
      RoundingAboveDropped(n, j, m);
    }
  }

  /** When the 40-digit rounding carries a number above its truncation: read off its digits. */
  predicate RoundedAbove(n: nat, p: nat, m: nat) {
    var j := Dropped(n, p);
    if j <= m then !NoCarry(n, p, m) else TakenUp(n, Pow10(j))
  }

  /** For every coefficient: rounding and then truncating gives more than truncating at once exactly then. */
  lemma RoundedAboveIff(n: nat, p: nat, m: nat)
    requires p >= 1
    ensures ScaleDown(RoundSig(n, p), m) > ScaleDown(n, m) <==> RoundedAbove(n, p, m)
  {
    hide RoundSig, NoCarry, TakenUp;
    var j := Dropped(n, p);
    if j <= m {
      DoubleRounding(n, p, m);
      InsideNeverBelow(n, p, m);
    } else {
      AboveIffRoundsUp(n, p, m);
    }
  }

  /** A rounding position inside the dropped part never takes the kept part down. */
  lemma InsideNeverBelow(n: nat, p: nat, m: nat)
    requires Dropped(n, p) <= m
    ensures ScaleDown(n, m) <= ScaleDown(RoundSig(n, p), m)
  {
    hide HalfEven, Pow10, Dropped;
    var j := Dropped(n, p);
    PowSum(m - j, j);
    FloorKept(n, Pow10(j), Pow10(m - j), Pow10(m));
  }

  lemma FloorKept(n: nat, unit: nat, ratio: nat, block: nat)
    requires unit > 0 && block > 0 && block == ratio * unit
    ensures n / block <= HalfEven(n, unit) * unit / block
  {
    hide HalfEven;
    var q: nat := n / block;
    QuotientBelow(n, block);
    MulAssociates(q, ratio, unit);
    HalfEvenMultiple(q * ratio, unit);
    HalfEvenMonotone(q * block, n, unit);
    MulMonotone(q * ratio, HalfEven(n, unit), unit);
    DivideMonotone(q * block, HalfEven(n, unit) * unit, block);
    DivideUnique(q * block, block, q, 0);
  }

  lemma QuotientBelow(n: nat, unit: nat)
    requires unit > 0
    ensures n / unit * unit <= n < n / unit * unit + unit
  {
  }

  /** One above the dropped part does so exactly when it rounds up. */
  lemma AboveIffRoundsUp(n: nat, p: nat, m: nat)
    requires Dropped(n, p) > m
    ensures ScaleDown(RoundSig(n, p), m) > ScaleDown(n, m) <==> TakenUp(n, Pow10(Dropped(n, p)))
  {
    hide TakenUp, Pow10, HalfEven, Dropped;
    var j := Dropped(n, p);
    PowSum(j - m, m);
    MultipleAboveIff(n, HalfEven(n, Pow10(j)), Pow10(j), Pow10(j - m), Pow10(m));
    HalfEvenAboveIff(n, Pow10(j));
  }

  lemma HalfEvenAboveIff(n: nat, unit: nat)
    requires unit > 0
    ensures HalfEven(n, unit) * unit > n <==> TakenUp(n, unit)
  {
    QuotientBelow(n, unit);
    assert (n / unit + 1) * unit == n / unit * unit + unit;
  }

  /** A multiple of a larger unit is above the truncation exactly when it is above the number. */
  lemma MultipleAboveIff(n: nat, k: nat, block: nat, ratio: nat, unit: nat)
    requires unit > 0 && block == ratio * unit
    ensures k * block / unit > n / unit <==> k * block > n
  {
    MulAssociates(k, ratio, unit);
    DivideUnique(k * block, unit, k * ratio, 0);
    QuotientBelow(n, unit);
    if k * ratio > n / unit {
      MulMonotone(n / unit + 1, k * ratio, unit);
      assert (n / unit + 1) * unit == n / unit * unit + unit;
    } else {
      MulMonotone(k * ratio, n / unit, unit);
    }
  }

  lemma RoundingInsideDropped(n: nat, j: nat, m: nat)
    requires 1 <= j <= m
    ensures HalfEven(n, Pow10(j)) * Pow10(j) / Pow10(m) == n / Pow10(m)
       <==> (2 * (n % Pow10(m)) + Pow10(j) < 2 * Pow10(m)
             || (j == m && 2 * (n % Pow10(m)) == Pow10(m) && n / Pow10(m) % 2 == 0))
  {
    PowSum(m - j, j);
    RoundingInBlock(n, Pow10(j), Pow10(m - j), Pow10(m), m - j);
  }

  lemma RoundingInBlock(n: nat, unit: nat, ratio: nat, block: nat, k: nat)
    requires unit > 0 && ratio == Pow10(k) && block == ratio * unit
    ensures block > 0
    ensures HalfEven(n, unit) * unit / block == n / block
       <==> (2 * (n % block) + unit < 2 * block
             || (k == 0 && 2 * (n % block) == block && n / block % 2 == 0))
  {
    MulStep(0, ratio, unit);
    var h, q, a, b := RoundedParts(n, unit, ratio, block);
    SurvivesRounding(h, q, a, b, unit, ratio, k);
  }

  lemma RoundedParts(n: nat, unit: nat, ratio: nat, block: nat) returns (h: nat, q: nat, a: nat, b: nat)
    requires unit > 0 && block == ratio * unit && block > 0
    ensures h == HalfEven(n, unit) && q == n / block
    ensures n % block == a * unit + b && a < ratio && b < unit
    ensures h == q * ratio + (if RoundsUp(q * ratio + a, b, unit) then a + 1 else a)
  {
    h, q := HalfEven(n, unit), n / block;
    a, b := SplitRest(n % block, unit, ratio);
    Distribute(q, ratio, a, unit);
    HalfEvenOf(n, unit, q * ratio + a, b);
  }

  lemma SurvivesRounding(h: nat, q: nat, a: nat, b: nat, unit: nat, ratio: nat, k: nat)
    requires unit > 0 && ratio == Pow10(k) && a < ratio && b < unit
    requires h == q * ratio + (if RoundsUp(q * ratio + a, b, unit) then a + 1 else a)
    ensures ratio * unit > 0
    ensures h * unit / (ratio * unit) == q
       <==> (2 * (a * unit + b) + unit < 2 * (ratio * unit)
             || (k == 0 && 2 * (a * unit + b) == ratio * unit && q % 2 == 0))
  {
    QuotientAfterRounding(q, if RoundsUp(q * ratio + a, b, unit) then a + 1 else a, unit, ratio);
    CarryHappens(q, a, b, unit, ratio, k);
  }

  lemma SplitRest(r: nat, unit: nat, ratio: nat) returns (a: nat, b: nat)
    requires unit > 0 && r < ratio * unit
    ensures r == a * unit + b && a < ratio && b < unit
  {
    a, b := r / unit, r % unit;
    if a >= ratio {
      MulMonotone(ratio, a, unit);
    }
  }

  lemma Distribute(q: nat, ratio: nat, a: nat, unit: nat)
    ensures (q * ratio + a) * unit == q * (ratio * unit) + a * unit
  {
    MulAssociates(q, ratio, unit);
  }

  /** With the kept quotient `q` and the dropped digits `a` above the rounding position: the
      quotient survives unless the rounding carries out of `a`. */
  lemma QuotientAfterRounding(q: nat, a: nat, unit: nat, ratio: nat)
    requires unit > 0 && 0 < ratio && a <= ratio
    ensures ratio * unit > 0
    ensures (q * ratio + a) * unit / (ratio * unit) == q <==> a < ratio
  {
    MulStep(0, ratio, unit);
    Distribute(q, ratio, a, unit);
    if a < ratio {
      MulStep(a, ratio, unit);
      DivideUnique((q * ratio + a) * unit, ratio * unit, q, a * unit);
    } else {
      DivideUnique((q * ratio + a) * unit, ratio * unit, q + 1, 0);
    }
  }

  lemma CarryHappens(q: nat, a: nat, b: nat, unit: nat, ratio: nat, k: nat)
    requires unit > 0 && a < ratio && b < unit && ratio == Pow10(k)
    ensures (a + 1 < ratio || !RoundsUp(q * ratio + a, b, unit))
       <==> (2 * (a * unit + b) + unit < 2 * (ratio * unit)
             || (k == 0 && 2 * (a * unit + b) == ratio * unit && q % 2 == 0))
  {
    MulStep(a, ratio, unit);
    if a + 1 < ratio {
      MulStep(a + 1, ratio, unit);
    } else {
      LastQuotientCarries(q, a, b, unit, ratio, k);
    }
  }

  lemma LastQuotientCarries(q: nat, a: nat, b: nat, unit: nat, ratio: nat, k: nat)
    requires unit > 0 && a + 1 == ratio && b < unit && ratio == Pow10(k)
    ensures !RoundsUp(q * ratio + a, b, unit)
       <==> (2 * (a * unit + b) + unit < 2 * (ratio * unit)
             || (k == 0 && 2 * (a * unit + b) == ratio * unit && q % 2 == 0))
  {
    LastQuotientParity(q, a, ratio, k);
    OneMoreUnit(a, ratio, unit);
    HalfOfUnit(q * ratio + a, a * unit, b, unit, ratio * unit);
    if k == 0 {
      assert a * unit == 0;
    }
  }

  lemma OneMoreUnit(a: nat, ratio: nat, unit: nat)
    requires a + 1 == ratio
    ensures ratio * unit == a * unit + unit
  {
  }

  lemma HalfOfUnit(quotient: nat, below: nat, b: nat, unit: nat, block: nat)
    requires block == below + unit
    ensures 2 * (below + b) + unit < 2 * block <==> 2 * b < unit
    ensures below == 0 ==> (2 * (below + b) == block <==> 2 * b == unit)
    ensures !RoundsUp(quotient, b, unit) <==> 2 * b < unit || (2 * b == unit && quotient % 2 == 0)
  {
  }

  lemma LastQuotientParity(q: nat, a: nat, ratio: nat, k: nat)
    requires ratio == Pow10(k) && a + 1 == ratio
    ensures k == 0 ==> q * ratio + a == q
    ensures k > 0 ==> (q * ratio + a) % 2 == 1
  {
    if k > 0 {
      OddAfterEven(q, 5 * Pow10(k - 1), a);
    }
  }

  lemma OddAfterEven(q: nat, half: nat, a: nat)
    requires a + 1 == 2 * half
    ensures (q * (2 * half) + a) % 2 == 1
  {
    var even := q * half;
    assert q * (2 * half) == 2 * even;
  }

  lemma RoundingAboveDropped(n: nat, j: nat, m: nat)
    requires j > m
    ensures HalfEven(n, Pow10(j)) * Pow10(j) / Pow10(m) == n / Pow10(m)
       <==> n / Pow10(m) % Pow10(j - m) == 0
  {
    PowSum(j - m, m);
    RoundingAboveBlock(n, Pow10(m), Pow10(j - m), Pow10(j));
  }

  lemma RoundingAboveBlock(n: nat, block: nat, ratio: nat, unit: nat)
    requires block > 0 && ratio >= 10 && unit == ratio * block
    ensures unit > 0
    ensures HalfEven(n, unit) * unit / block == n / block <==> n / block % ratio == 0
  {
    MulMonotone(10, ratio, block);
    var q: nat, r: nat := n / block, n % block;
    var h := HalfEven(n, unit);
    MulAssociates(h, ratio, block);
    DivideUnique(h * unit, block, h * ratio, 0);
    MultipleOrNot(q, ratio, h);
    if q % ratio == 0 {
      ZeroGapRoundsDown(n, q / ratio, r, block, ratio);
    }
  }

  lemma MultipleOrNot(q: nat, ratio: nat, h: nat)
    requires ratio > 0
    ensures h * ratio == q ==> q % ratio == 0
    ensures q % ratio == 0 ==> q / ratio * ratio == q
  {
    if h * ratio == q {
      DivideUnique(q, ratio, h, 0);
    }
  }

  lemma ZeroGapRoundsDown(n: nat, a: nat, r: nat, block: nat, ratio: nat)
    requires r < block && ratio >= 10
    requires n == a * ratio * block + r
    ensures ratio * block > 0 && HalfEven(n, ratio * block) == a
  {
    MulMonotone(10, ratio, block);
    MulAssociates(a, ratio, block);
    HalfEvenOf(n, ratio * block, a, r);
  }
}
