/** Display rounding of nutrient values (`formatNutrient`, `formatNumber`). */
module Format {
  import opened Js
  import opened Text
  import opened Numbers

  function Abs(x: real): (a: real)
    ensures a >= 0.0 && (a == x || a == -x)
  {
    if x < 0.0 then -x else x
  }

  /** The value `formatNutrient` shows for `x`, counted in tenths: below 1 in
      magnitude the ceiling of `10x`, otherwise `Math.round(10x)`. */
  function ShownTenths(x: real): int {
    if Abs(x) < 1.0 then Ceil(x * 10.0) else RoundHalfUp(x * 10.0)
  }

  /** `formatNutrient(value)`: `"0"` for a missing or NaN value, otherwise the
      rounded value written with one decimal. */
  function FormatNutrient(value: JsNum): string {
    match value
    case Null => "0"
    case NaN => "0"
    case Num(x) => ToFixed(ShownTenths(x) as real / 10.0, 1)
  }

  /** `formatNumber(value, decimals)`: the same ceiling below 1 (always to
      tenths), otherwise rounding to `decimals` places; then `toFixed(decimals)`. */
  function FormatNumber(value: JsNum, decimals: nat): string {
    match value
    case Null => "0"
    case NaN => "0"
    case Num(x) =>
      if Abs(x) < 1.0 then ToFixed(Ceil(x * 10.0) as real / 10.0, decimals)
      else ToFixed(RoundToPlaces(x, decimals), decimals)
  }

  /** `Math.round(x * 10^d) / 10^d`. */
  function RoundToPlaces(x: real, d: nat): real {
    RoundHalfUp(x * Pow10(d) as real) as real / Pow10(d) as real
  }

  // ---------------------------------------------------------------------
  // Exactness of `toFixed` on values it can write without rounding.

  lemma Pow10One()
    ensures Pow10(1) == 10
  {
    assert Pow10(0) == 1;
  }

  /** Rounding an integer gives it back. */
  lemma RoundInteger(m: int)
    ensures RoundHalfUp(m as real) == m
  {
  }

  lemma ScaleBack(a: nat, p: nat)
    requires p >= 1
    ensures a as real / p as real * p as real == a as real
  {
  }

  /** `|m / p|` is `|m| / p`. */
  lemma AbsQuotient(m: int, p: nat)
    requires p >= 1
    ensures Abs(m as real / p as real) == (if m < 0 then -m else m) as real / p as real
  {
    var P := p as real;
    if m < 0 {
      assert m as real / P < 0.0;
      assert -(m as real / P) == (-m) as real / P;
    } else {
      assert m as real / P >= 0.0;
    }
  }

  lemma MagnitudeOf(x: real, d: nat, a: nat)
    requires Abs(x) * Pow10(d) as real == a as real
    ensures RoundedMagnitude(x, d) == a
  {
    RoundInteger(a);
  }

  /** `toFixed(d)` writes a multiple of `10^-d` exactly. */
  lemma FixedExact(m: int, d: nat)
    ensures FixedValue(m as real / Pow10(d) as real, d) == m as real / Pow10(d) as real
  {
    var p := Pow10(d);
    var a: nat := if m < 0 then -m else m;
    var x := m as real / p as real;
    AbsQuotient(m, p);
    ScaleBack(a, p);
    MagnitudeOf(x, d, a);
    assert x < 0.0 <==> m < 0;
    assert m < 0 ==> -(a as real / p as real) == x;
  }

  /** A number of tenths, written with `d >= 1` decimals, is written exactly. */
  lemma TenthsExact(m: int, d: nat)
    requires d >= 1
    ensures FixedValue(m as real / 10.0, d) == m as real / 10.0
  {
    var k := Pow10(d - 1);
    assert Pow10(d) == 10 * k;
    assert m as real / 10.0 == (m * k) as real / Pow10(d) as real by {
      assert (m * k) as real == m as real * k as real;
      assert Pow10(d) as real == 10.0 * k as real;
    }
    FixedExact(m * k, d);
  }

  // ---------------------------------------------------------------------
  // What `formatNutrient` shows.

  /** The text `formatNutrient` writes for a number reads back as the rounded
      number of tenths. */
  lemma FormatNutrientValue(x: real)
    ensures ParseFloat(FormatNutrient(Num(x))) == Num(ShownTenths(x) as real / 10.0)
  {
    var y := ShownTenths(x) as real / 10.0;
    ToFixedRoundTrip(y, 1);
    TenthsExact(ShownTenths(x), 1);
  }

  /** Missing and NaN values show as `"0"`. */
  lemma FormatNutrientInvalid(value: JsNum)
    requires !value.Num?
    ensures FormatNutrient(value) == "0" && FormatNumber(value, 1) == "0"
  {
  }

  /** Below 1 in magnitude the shown value is never below `x` and less than
      a tenth above it. */
  lemma {:induction false} SmallValueBound(x: real)
    requires Abs(x) < 1.0
    ensures x <= ShownTenths(x) as real / 10.0 < x + 0.1
  {
    var c := Ceil(x * 10.0);
    assert x * 10.0 <= c as real < x * 10.0 + 1.0;
  }

  /** Every value strictly between 0 and 1 shows as at least `0.1`. */
  lemma SmallPositiveShowsTenth(x: real)
    requires 0.0 < x < 1.0
    ensures ShownTenths(x) >= 1
  {
    SmallValueBound(x);
  }

  /** From 1 in magnitude on, the shown value is the nearest tenth, ties going
      up: within 0.05 of `x`. */
  lemma LargeValueBound(x: real)
    requires Abs(x) >= 1.0
    ensures x - 0.05 < ShownTenths(x) as real / 10.0 <= x + 0.05
  {
    var y := x * 10.0 + 0.5;
    assert y - 1.0 < y.Floor as real <= y;
  }

  /** Every number is written with exactly one digit after a single point. */
  lemma FormatNutrientShape(x: real)
    ensures var s := FormatNutrient(Num(x));
      |s| >= 3 && s[|s| - 2] == '.' && '.' !in s[..|s| - 2] && IsDigit(s[|s| - 1])
  {
    ToFixedShape(ShownTenths(x) as real / 10.0, 1);
  }

  /** The text `toFixed(1)` writes for a non-negative number of tenths. */
  lemma TenthsText(m: nat)
    ensures ToFixed(m as real / 10.0, 1) == NatToString(m / 10) + "." + [DigitChar(m % 10)]
  {
    Pow10One();
    MagnitudeOf(m as real / 10.0, 1, m);
    assert Shift(m, 1) == m / 10;
    assert LowDigits(m, 1) == [DigitChar(m % 10)];
  }

  /** How `formatNutrient` writes a value whose rounded tenths are known. */
  lemma ExampleText(x: real, m: nat, text: string)
    requires ShownTenths(x) == m
    requires text == NatToString(m / 10) + "." + [DigitChar(m % 10)]
    ensures FormatNutrient(Num(x)) == text
  {
    TenthsText(m);
  }

  /** Examples from the documentation comment and the branch boundary. */
  lemma FormatNutrientExamples()
    ensures FormatNutrient(Num(0.4)) == "0.4"
    ensures FormatNutrient(Num(0.04)) == "0.1"
    ensures FormatNutrient(Num(0.96)) == "1.0"
    ensures FormatNutrient(Num(1.0)) == "1.0"
    ensures FormatNutrient(Num(1.05)) == "1.1"
    ensures FormatNutrient(Num(-0.04)) == "0.0"
  {
    var zero, one := NatToString(0), NatToString(1);
    assert zero == "0" && one == "1";
    ExampleText(0.4, 4, "0.4");
    ExampleText(0.04, 1, "0.1");
    ExampleText(0.96, 10, "1.0");
    ExampleText(1.0, 10, "1.0");
    ExampleText(1.05, 11, "1.1");
    ExampleText(-0.04, 0, "0.0");
  }

  // ---------------------------------------------------------------------
  // `formatNumber`.

  /** With one decimal, `formatNumber` is `formatNutrient`. */
  lemma FormatNumberOneDecimal(value: JsNum)
    ensures FormatNumber(value, 1) == FormatNutrient(value)
  {
    Pow10One();
    if value.Num? && Abs(value.v) >= 1.0 {
      assert RoundToPlaces(value.v, 1) == ShownTenths(value.v) as real / 10.0;
    }
  }

  /** Below 1, `formatNumber` still rounds up to tenths whatever `decimals`
      is; with at least one decimal the text denotes that ceiling exactly. */
  lemma FormatNumberSmall(x: real, decimals: nat)
    requires Abs(x) < 1.0 && decimals >= 1
    ensures ParseFloat(FormatNumber(Num(x), decimals)) == Num(Ceil(x * 10.0) as real / 10.0)
  {
    var y := Ceil(x * 10.0) as real / 10.0;
    SmallText(x, decimals);
    ToFixedRoundTrip(y, decimals);
    TenthsExact(Ceil(x * 10.0), decimals);
  }

  lemma SmallText(x: real, decimals: nat)
    requires Abs(x) < 1.0
    ensures FormatNumber(Num(x), decimals) == ToFixed(Ceil(x * 10.0) as real / 10.0, decimals)
  {
  }

  /** From 1 on, `formatNumber` writes `x` rounded to `decimals` places. */
  lemma FormatNumberLarge(x: real, decimals: nat)
    requires Abs(x) >= 1.0
    ensures ParseFloat(FormatNumber(Num(x), decimals)) == Num(RoundToPlaces(x, decimals))
  {
    var y := RoundToPlaces(x, decimals);
    ToFixedRoundTrip(y, decimals);
    FixedExact(RoundHalfUp(x * Pow10(decimals) as real), decimals);
  }

  /** Rounding to `d` places (a scale `p = 10^d`) moves a value by at most
      half a unit of the last place, ties going up. */
  lemma RoundToPlacesBound(x: real, p: real)
    requires p >= 1.0
    ensures x - 0.5 / p < RoundHalfUp(x * p) as real / p <= x + 0.5 / p
  {
    RoundBound(x * p);
    DivideBound(x, RoundHalfUp(x * p) as real, p);
  }

  lemma RoundBound(y: real)
    ensures y - 0.5 < RoundHalfUp(y) as real <= y + 0.5
  {
    var z := y + 0.5;
    assert z - 1.0 < z.Floor as real <= z;
  }

  lemma DivideBound(x: real, m: real, p: real)
    requires p >= 1.0
    requires x * p - 0.5 < m <= x * p + 0.5
    ensures x - 0.5 / p < m / p <= x + 0.5 / p
  {
    assert (x * p - 0.5) / p == x - 0.5 / p;
    assert (x * p + 0.5) / p == x + 0.5 / p;
  }
}
