/**
 * Exact decimal amounts as the cost pipeline handles them: a billing amount text is read
 * with Python's `Decimal(str)` and kept only when it is not exactly zero; a kept amount is
 * quantized to 0.01 with ROUND_HALF_UP, after which every amount is a whole number of cents.
 */
module Money {
  import opened Common
  import opened Strings

  /** A finite Python Decimal: its value is coefficient / 10^scale. */
  datatype Decimal = Decimal(coefficient: int, scale: nat)

  /** 10^28: a coefficient must stay below it in Python's default 28-digit decimal context. */
  const CoefficientLimit: nat := 10_000_000_000_000_000_000_000_000_000

  function Abs(x: int): nat
  {
    if x < 0 then -x else x
  }

  /** `Decimal(s) == 0` */
  predicate IsZero(d: Decimal)
  {
    d.coefficient == 0
  }

  // ---------------------------------------------------------------- Decimal(str)

  /**
   * `Decimal(s)` for plain decimal text: an optional sign, then digits with at most one '.',
   * at least one digit in all. Any other text is decimal.InvalidOperation.
   */
  function ParseAmount(s: string): (r: Result<Decimal>)
    ensures r.Failure? ==> r.error == MalformedAmount(s)
  {
    var signed := |s| > 0 && (s[0] == '-' || s[0] == '+');
    match ParseMagnitude(if signed then s[1..] else s)
    case None => Failure(MalformedAmount(s))
    case Some(m) => Success(if signed && s[0] == '-' then Decimal(-m.coefficient, m.scale) else m)
  }

  /** The unsigned part: digits around at most one '.'; the scale is the number of fraction digits. */
  function ParseMagnitude(body: string): (r: Option<Decimal>)
    ensures r.Some? ==> r.value.coefficient >= 0
  {
    var dot := IndexOf(body, '.');
    var whole := body[..dot];
    var fraction := if dot < |body| then body[dot + 1..] else [];
    if AllDigits(whole) && AllDigits(fraction) && |whole| + |fraction| > 0 then
      DigitsValueAppend(whole, fraction);
      Some(Decimal(DigitsValue(whole + fraction), |fraction|))
    else
      None
  }

  /** Plain text for a Decimal, as `str(Decimal)` prints one with a small exponent. */
  function FormatAmount(d: Decimal): (s: string)
    ensures |s| > 0
  {
    (if d.coefficient < 0 then "-" else "") + UnsignedText(Abs(d.coefficient), d.scale)
  }

  /** `a / 10^scale` written out with exactly `scale` decimals. */
  function UnsignedText(a: nat, scale: nat): (s: string)
    ensures |s| > 0 && IsDigit(s[0])
  {
    var unit := Pow10(scale);
    DivMod(a, unit);
    NatToString(a / unit) + (if scale == 0 then "" else "." + PadDigits(a % unit, scale))
  }

  /** Digits alone read as a whole number. */
  lemma MagnitudeOfWhole(whole: string)
    requires AllDigits(whole) && whole != []
    ensures ParseMagnitude(whole) == Some(Decimal(DigitsValue(whole), 0))
  {
    NoIndexInDigits(whole, '.');
    assert whole[..|whole|] == whole;
    assert whole + [] == whole;
  }

  /** Digits, a point and digits read as all the digits, scaled by the ones after the point. */
  lemma MagnitudeOfFraction(whole: string, fraction: string)
    requires AllDigits(whole) && AllDigits(fraction) && whole != []
    ensures ParseMagnitude(whole + "." + fraction) == Some(Decimal(DigitsValue(whole + fraction), |fraction|))
  {
    var body := whole + "." + fraction;
    assert body == whole + ("." + fraction);
    IndexAfterDigits(whole, "." + fraction);
    assert body[..|whole|] == whole;
    assert body[|whole| + 1..] == fraction;
  }

  /** The unsigned part of FormatAmount reads back as the magnitude and the scale. */
  lemma ParseUnsignedText(a: nat, scale: nat)
    ensures ParseMagnitude(UnsignedText(a, scale)) == Some(Decimal(a, scale))
  {
    var unit := Pow10(scale);
    DivMod(a, unit);
    var whole := NatToString(a / unit);
    NatToStringRoundTrip(a / unit);
    if scale == 0 {
      assert unit == 1 && a / unit == a;
      assert UnsignedText(a, scale) == whole;
      MagnitudeOfWhole(whole);
      assert DigitsValue(whole) == a;
    } else {
      var fraction := PadDigits(a % unit, scale);
      assert UnsignedText(a, scale) == whole + "." + fraction;
      PadDigitsRoundTrip(a % unit, scale);
      MagnitudeOfFraction(whole, fraction);
      DigitsValueAppend(whole, fraction);
      var q, r := a / unit, a % unit;
      assert DigitsValue(whole + fraction) == q * unit + r;
      assert DigitsValue(whole + fraction) == a && |fraction| == scale;
    }
  }

  /** Text that starts with a digit carries no sign: it reads as its magnitude. */
  lemma ParseUnsignedBody(body: string, m: Decimal)
    requires |body| > 0 && IsDigit(body[0]) && ParseMagnitude(body) == Some(m)
    ensures ParseAmount(body) == Success(m)
  {
  }

  /** Text with a leading '-' reads as its magnitude negated. */
  lemma ParseNegativeBody(body: string, m: Decimal)
    requires ParseMagnitude(body) == Some(m)
    ensures ParseAmount("-" + body) == Success(Decimal(-m.coefficient, m.scale))
  {
    assert ("-" + body)[1..] == body;
  }

  lemma ParseUnsigned(a: nat, scale: nat)
    ensures ParseAmount(UnsignedText(a, scale)) == Success(Decimal(a, scale))
  {
    ParseUnsignedText(a, scale);
    ParseUnsignedBody(UnsignedText(a, scale), Decimal(a, scale));
  }

  lemma ParseNegative(a: nat, scale: nat)
    ensures ParseAmount("-" + UnsignedText(a, scale)) == Success(Decimal(-(a as int), scale))
  {
    var body, m := UnsignedText(a, scale), Decimal(a, scale);
    ParseUnsignedText(a, scale);
    ParseNegativeBody(body, m);
    assert Decimal(-m.coefficient, m.scale) == Decimal(-(a as int), scale);
  }

  /** Reading back the text of a Decimal gives the same coefficient and scale. */
  lemma ParseFormatRoundTrip(d: Decimal)
    ensures ParseAmount(FormatAmount(d)) == Success(d)
  {
    var a := Abs(d.coefficient);
    if d.coefficient < 0 {
      ParseNegative(a, d.scale);
    } else {
      assert FormatAmount(d) == UnsignedText(a, d.scale);
      ParseUnsigned(a, d.scale);
    }
  }

  // ---------------------------------------------------------------- quantize(Decimal(".01"), ROUND_HALF_UP)

  /**
   * `q` cents is `d` rounded half-up to two places: it is the whole number of cents nearest to
   * `d`, and on an exact tie the one farther from zero. With n = 100 * d.coefficient and
   * p = 10^d.scale, 100 * d is n / p, so |100 * d - q| is |n - q * p| / p.
   */
  predicate IsHalfUpCents(d: Decimal, q: int)
  {
    var n := d.coefficient * 100;
    var p := Pow10(d.scale);
    2 * Abs(n - q * p) < p || (2 * Abs(n - q * p) == p && Abs(q * p) > Abs(n))
  }

  /** ROUND_HALF_UP of a magnitude to a multiple of `unit`, counted in units. */
  function RoundMagnitude(a: nat, unit: nat): (q: nat)
    requires unit >= 1
  {
    a / unit + (if 2 * (a % unit) >= unit then 1 else 0)
  }

  function RoundToCents(d: Decimal): int
  {
    if d.scale <= 2 then d.coefficient * Pow10(2 - d.scale)
    else
      var q: int := RoundMagnitude(Abs(d.coefficient), Pow10(d.scale - 2));
      if d.coefficient < 0 then -q else q
  }

  /**
   * `Decimal.quantize(Decimal(".01"), rounding=ROUND_HALF_UP)`, in cents. It signals
   * InvalidOperation when the rounded coefficient needs more digits than the context holds.
   */
  function Quantize(d: Decimal): (r: Result<int>)
    ensures r.Success? ==> IsHalfUpCents(d, r.value) && Abs(r.value) < CoefficientLimit
    ensures r.Failure? ==> r.error == AmountTooLarge
    ensures r.Failure? ==> forall q :: IsHalfUpCents(d, q) ==> Abs(q) >= CoefficientLimit
  {
    var q := RoundToCents(d);
    RoundToCentsIsHalfUp(d);
    if Abs(q) < CoefficientLimit then Success(q)
    else
      assert forall q' :: IsHalfUpCents(d, q') ==> q' == q by {
        forall q' | IsHalfUpCents(d, q') ensures q' == q {
          HalfUpCentsUnique(d, q, q');
        }
      }
      Failure(AmountTooLarge)
  }

  lemma RoundMagnitudeIsHalfUp(a: nat, unit: nat)
    requires unit >= 1
    ensures var q := RoundMagnitude(a, unit);
      2 * Abs(a - q * unit) < unit || (2 * Abs(a - q * unit) == unit && q * unit > a)
  {
    var q0, rest := a / unit, a % unit;
    assert a == q0 * unit + rest;
    if 2 * rest >= unit {
      assert (q0 + 1) * unit == q0 * unit + unit;
      assert a - (q0 + 1) * unit == rest - unit;
    }
  }

  lemma ScaleError(c: int, q: int, unit: nat)
    ensures Abs(c * 100 - q * (100 * unit)) == 100 * Abs(c - q * unit)
    ensures Abs(q * (100 * unit)) == 100 * Abs(q * unit)
  {
    assert c * 100 - q * (100 * unit) == 100 * (c - q * unit);
    assert q * (100 * unit) == 100 * (q * unit);
  }

  lemma ExactCents(d: Decimal)
    requires d.scale <= 2
    ensures RoundToCents(d) * Pow10(d.scale) == d.coefficient * 100
  {
    var k := Pow10(2 - d.scale);
    Pow10Add(2 - d.scale, d.scale);
    assert Pow10(2 - d.scale + d.scale) == 100;
    assert (d.coefficient * k) * Pow10(d.scale) == d.coefficient * (k * Pow10(d.scale));
  }

  lemma RoundedCentsIsHalfUp(d: Decimal)
    requires d.scale > 2
    ensures IsHalfUpCents(d, RoundToCents(d))
  {
    var c, s := d.coefficient, d.scale;
    var q := RoundToCents(d);
    var unit := Pow10(s - 2);
    Pow10Add(2, s - 2);
    assert Pow10(s) == 100 * unit;
    var m := RoundMagnitude(Abs(c), unit);
    RoundMagnitudeIsHalfUp(Abs(c), unit);
    if c < 0 {
      assert q == -m;
      assert q * unit == -(m * unit);
      assert c - q * unit == -(Abs(c) - m * unit);
    } else {
      assert q == m;
    }
    ScaleError(c, q, unit);
  }

  lemma RoundToCentsIsHalfUp(d: Decimal)
    ensures IsHalfUpCents(d, RoundToCents(d))
  {
    if d.scale <= 2 {
      ExactCents(d);
    } else {
      RoundedCentsIsHalfUp(d);
    }
  }

  lemma MultipleAtLeast(k: int, p: nat)
    requires k != 0
    ensures Abs(k * p) >= p
  {
    if k > 0 {
      assert k * p == p + (k - 1) * p;
    } else {
      assert -(k * p) == p + (-k - 1) * p;
    }
  }

  /** At most one number of cents is the half-up rounding of a Decimal. */
  lemma HalfUpCentsUnique(d: Decimal, q1: int, q2: int)
    requires IsHalfUpCents(d, q1) && IsHalfUpCents(d, q2)
    ensures q1 == q2
  {
    if q1 != q2 {
      var n, p := d.coefficient * 100, Pow10(d.scale);
      var x1, x2 := q1 * p, q2 * p;
      assert x2 - x1 == (q2 - q1) * p;
      MultipleAtLeast(q2 - q1, p);
      // two errors of at most p / 2 each, p apart, are two exact ties on either side of n ...
      assert 2 * n == x1 + x2;
      // ... and a tie counts only away from zero, which leaves |n| < p / 4
      assert 4 * Abs(n) < p;
      assert x1 + x2 == (q1 + q2) * p;
      if q1 + q2 == 0 {
        MultipleAtLeast(q1, p);
      } else {
        MultipleAtLeast(q1 + q2, p);
      }
      assert false;
    }
  }

  /** An amount that already has at most two decimals is stored unchanged. */
  lemma QuantizeExactWithinTwoPlaces(d: Decimal)
    requires d.scale <= 2
    ensures IsHalfUpCents(d, d.coefficient * Pow10(2 - d.scale))
    ensures d.coefficient * Pow10(2 - d.scale) * Pow10(d.scale) == 100 * d.coefficient
  {
    RoundToCentsIsHalfUp(d);
    ExactCents(d);
  }

  /** Rounding a whole number of cents again is a no-op: quantize is idempotent. */
  lemma QuantizeIdempotent(cents: int)
    requires Abs(cents) < CoefficientLimit
    ensures Quantize(Decimal(cents, 2)) == Success(cents)
  {
  }

  /** A nonzero raw amount below half a cent passes the zero test and is stored as 0.00. */
  lemma TinyNonzeroBecomesZeroCents(d: Decimal)
    requires !IsZero(d) && 200 * Abs(d.coefficient) < Pow10(d.scale)
    ensures Quantize(d) == Success(0)
  {
    var n, p := d.coefficient * 100, Pow10(d.scale);
    assert 2 * Abs(n - 0 * p) < p;
    RoundToCentsIsHalfUp(d);
    HalfUpCentsUnique(d, 0, RoundToCents(d));
  }

  /** Half a cent goes away from zero: 0.005 -> 0.01 and -0.005 -> -0.01. */
  lemma HalfCentRoundsAwayFromZero()
    ensures Quantize(Decimal(5, 3)) == Success(1)
    ensures Quantize(Decimal(-5, 3)) == Success(-1)
  {
    assert Pow10(1) == 10;
    assert RoundMagnitude(5, 10) == 1;
  }

  /** 0.125 -> 0.13 and 12.005 -> 12.01: ties are not rounded to even. */
  lemma TiesAreNotBankers()
    ensures Quantize(Decimal(125, 3)) == Success(13)
    ensures Quantize(Decimal(12005, 3)) == Success(1201)
  {
    assert Pow10(1) == 10;
    assert RoundMagnitude(125, 10) == 13;
    assert RoundMagnitude(12005, 10) == 1201;
  }
}
