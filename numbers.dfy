/** Number <-> text conversions used by the front end: `parseFloat`,
    `parseInt`, `Number.prototype.toString` on naturals and
    `Number.prototype.toFixed`, over decimal text and exact reals. */
module Numbers {
  import opened Js
  import opened Text

  function Pow10(d: nat): (p: nat)
    ensures p >= 1
  {
    if d == 0 then 1 else 10 * Pow10(d - 1)
  }

  function DigitVal(c: char): (n: nat)
    requires IsDigit(c)
    ensures n < 10
  {
    c as int - '0' as int
  }

  function DigitChar(n: nat): (c: char)
    requires n < 10
    ensures IsDigit(c) && DigitVal(c) == n
  {
    ('0' as int + n) as char
  }

  predicate AllDigits(s: string) {
    forall k :: 0 <= k < |s| ==> IsDigit(s[k])
  }

  /** The value of a string of decimal digits, most significant first. */
  function DigitsValue(s: string): (n: nat)
    requires AllDigits(s)
    ensures n < Pow10(|s|)
    decreases |s|
  {
    if s == [] then 0 else 10 * DigitsValue(s[..|s| - 1]) + DigitVal(s[|s| - 1])
  }

  /** `n.toString()` for a natural number: its decimal digits, and reading
      them back gives `n`. */
  function NatToString(n: nat): (s: string)
    ensures |s| >= 1 && AllDigits(s)
    ensures DigitsValue(s) == n
  {
    if n < 10 then [DigitChar(n)]
    else
      var s := NatToString(n / 10) + [DigitChar(n % 10)];
      assert s[..|s| - 1] == NatToString(n / 10);
      s
  }

  /** `n` with its last `d` decimal digits dropped (`n / 10^d`). */
  function Shift(n: nat, d: nat): nat {
    if d == 0 then n else Shift(n / 10, d - 1)
  }

  /** The last `d` decimal digits of `n`, zero-padded. */
  function LowDigits(n: nat, d: nat): (s: string)
    ensures |s| == d && AllDigits(s)
  {
    if d == 0 then "" else LowDigits(n / 10, d - 1) + [DigitChar(n % 10)]
  }

  /** Splitting `n` into its high part and its last `d` digits loses nothing. */
  lemma {:induction false} SplitDigits(n: nat, d: nat)
    ensures Shift(n, d) * Pow10(d) + DigitsValue(LowDigits(n, d)) == n
  {
    if d > 0 {
      SplitDigits(n / 10, d - 1);
      SplitStep(n, Shift(n / 10, d - 1), Pow10(d - 1), DigitsValue(LowDigits(n / 10, d - 1)));
      LowDigitsValue(n, d);
    }
  }

  /** The value of the last `d` digits, read off the last one. */
  lemma LowDigitsValue(n: nat, d: nat)
    requires d > 0
    ensures DigitsValue(LowDigits(n, d)) == 10 * DigitsValue(LowDigits(n / 10, d - 1)) + n % 10
  {
    var s := LowDigits(n, d);
    assert s[..|s| - 1] == LowDigits(n / 10, d - 1);
    assert DigitVal(s[|s| - 1]) == n % 10;
  }

  lemma SplitStep(n: nat, q: nat, p: nat, v: nat)
    requires q * p + v == n / 10
    ensures q * (10 * p) + (10 * v + n % 10) == n
  {
    assert q * (10 * p) == 10 * (q * p);
  }

  /** Value of the digits after a decimal point. */
  function FracValue(s: string): real
    requires AllDigits(s)
  {
    DigitsValue(s) as real / Pow10(|s|) as real
  }

  /** The digits after a decimal point found at index `k`, if there is one. */
  function FractionText(t: string, k: nat): (frac: string)
    requires k <= |t|
    ensures AllDigits(frac)
  {
    if k < |t| && t[k] == '.' then t[k + 1..k + 1 + DigitRun(t, k + 1)] else ""
  }

  /** The digits before index `k`. */
  function IntegerText(t: string, k: nat): (digits: string)
    requires k <= DigitRun(t, 0)
    ensures AllDigits(digits) && |digits| == k
  {
    t[..k]
  }

  /** Reads an unsigned decimal `digits [. digits]` at the start of `t`, with
      at least one digit, and ignores whatever follows. */
  function ParseUnsigned(t: string): JsNum {
    var k := DigitRun(t, 0);
    var frac := FractionText(t, k);
    if k == 0 && frac == "" then NaN
    else Num(DigitsValue(IntegerText(t, k)) as real + FracValue(frac))
  }

  function Negate(x: JsNum): JsNum {
    match x
    case Num(v) => Num(-v)
    case other => other
  }

  /** `parseFloat(s)`: skips leading white space, takes an optional sign and the
      longest decimal prefix; NaN when there is no digit. Exponents,
      `Infinity` and hexadecimal are not modelled. */
  function ParseFloat(s: string): JsNum {
    var t := s[SpaceRun(s, 0)..];
    if |t| > 0 && t[0] == '-' then Negate(ParseUnsigned(t[1..]))
    else if |t| > 0 && t[0] == '+' then ParseUnsigned(t[1..])
    else ParseUnsigned(t)
  }

  /** `parseInt(s)` (radix 10): white space, optional sign, then the digit run;
      NaN when there is no digit. */
  function ParseInt(s: string): JsNum {
    var t := s[SpaceRun(s, 0)..];
    var neg := |t| > 0 && t[0] == '-';
    var u := if |t| > 0 && (t[0] == '-' || t[0] == '+') then t[1..] else t;
    var k := DigitRun(u, 0);
    if k == 0 then NaN
    else
      var n := DigitsValue(IntegerText(u, k)) as real;
      Num(if neg then -n else n)
  }

  /** `Math.round(y)`: nearest integer, halves towards +infinity. */
  function RoundHalfUp(y: real): int {
    (y + 0.5).Floor
  }

  /** `Math.ceil(y)`. */
  function Ceil(y: real): (c: int)
    ensures y <= c as real < y + 1.0
  {
    -((-y).Floor)
  }

  /** The text of `n / 10^d` with exactly `d` digits after the point. */
  function Render(n: nat, d: nat): string {
    NatToString(Shift(n, d)) + (if d == 0 then "" else "." + LowDigits(n, d))
  }

  lemma RoundNonNegative(w: real)
    requires w >= 0.0
    ensures RoundHalfUp(w) >= 0
  {
  }

  /** `|x|` scaled by `10^d` and rounded half up: the digits `toFixed` writes. */
  function RoundedMagnitude(x: real, d: nat): (n: nat) {
    var w := (if x < 0.0 then -x else x) * Pow10(d) as real;
    assert w >= 0.0;
    RoundNonNegative(w);
    RoundHalfUp(w)
  }

  /** `x.toFixed(d)`: a minus sign for negative `x`, then `|x|` rounded to
      `d` decimals with halves going up in magnitude. Values of 1e21 and
      above (which JavaScript writes in exponent form) are not modelled. */
  function ToFixed(x: real, d: nat): string {
    (if x < 0.0 then "-" else "") + Render(RoundedMagnitude(x, d), d)
  }

  /** The number that `x.toFixed(d)` denotes. */
  function FixedValue(x: real, d: nat): real {
    var m := RoundedMagnitude(x, d) as real / Pow10(d) as real;
    if x < 0.0 then -m else m
  }

  // ---------------------------------------------------------------------
  // Round trips between the readers and the writers.

  /** A maximal run has the length of the stretch that ends where `p` fails. */
  lemma RunExact(t: string, j: nat, p: char -> bool, m: nat)
    requires j + m <= |t|
    requires forall k :: j <= k < j + m ==> p(t[k])
    requires j + m == |t| || !p(t[j + m])
    ensures Run(t, j, p) == m
  {
    RunMaximal(t, j, p, m);
  }

  /** Digits followed by something that is not a digit: the run is the digits. */
  lemma DigitRunOfPrefix(a: string, rest: string)
    requires AllDigits(a)
    requires rest == [] || !IsDigit(rest[0])
    ensures DigitRun(a + rest, 0) == |a|
  {
    RunExact(a + rest, 0, IsDigit, |a|);
  }

  /** Digits alone read as their value. */
  lemma ParseDigits(a: string)
    requires |a| >= 1 && AllDigits(a)
    ensures ParseUnsigned(a) == Num(DigitsValue(a) as real)
  {
    DigitRunOfPrefix(a, []);
    assert a + [] == a;
    assert DigitRun(a, 0) == |a|;
    assert IntegerText(a, |a|) == a;
    assert FractionText(a, |a|) == "";
    assert FracValue("") == 0.0;
  }

  lemma FractionOfPointDigits(a: string, b: string)
    requires AllDigits(a) && AllDigits(b)
    ensures FractionText(a + "." + b, |a|) == b
  {
    var t := a + "." + b;
    assert t[|a|] == '.';
    assert t[|a| + 1..] == b;
    RunExact(t, |a| + 1, IsDigit, |b|);
  }

  lemma IntegerOfPointDigits(a: string, b: string)
    requires AllDigits(a) && AllDigits(b)
    ensures DigitRun(a + "." + b, 0) == |a|
    ensures IntegerText(a + "." + b, |a|) == a
  {
    var t := a + "." + b;
    assert t == a + ("." + b);
    DigitRunOfPrefix(a, "." + b);
    assert t[..|a|] == a;
  }

  /** `ParseUnsigned` in terms of the integer digits and fraction digits it finds. */
  lemma ParseParts(t: string, a: string, b: string)
    requires |a| >= 1 && DigitRun(t, 0) == |a|
    requires IntegerText(t, |a|) == a && FractionText(t, |a|) == b
    ensures ParseUnsigned(t) == Num(DigitsValue(a) as real + FracValue(b))
  {
  }

  /** Digits, a point and digits read as integer part plus fraction. */
  lemma ParseDigitsPointDigits(a: string, b: string)
    requires |a| >= 1 && AllDigits(a) && AllDigits(b)
    ensures ParseUnsigned(a + "." + b) == Num(DigitsValue(a) as real + FracValue(b))
  {
    IntegerOfPointDigits(a, b);
    FractionOfPointDigits(a, b);
    ParseParts(a + "." + b, a, b);
  }

  lemma RealSplit(q: nat, r: nat, p: nat)
    requires p >= 1
    ensures (q * p + r) as real / p as real == q as real + r as real / p as real
  {
    var P := p as real;
    assert (q * p + r) as real == q as real * P + r as real;
    assert (q as real * P + r as real) / P == q as real * P / P + r as real / P;
  }

  /** The high part plus the fraction of the low digits is `n / 10^d`. */
  lemma RenderValue(n: nat, d: nat)
    ensures DigitsValue(NatToString(Shift(n, d))) as real + FracValue(LowDigits(n, d)) == n as real / Pow10(d) as real
  {
    SplitDigits(n, d);
    RealSplit(Shift(n, d), DigitsValue(LowDigits(n, d)), Pow10(d));
  }

  /** `parseFloat` reads back what `Render` writes. */
  lemma ParseRender(n: nat, d: nat)
    ensures ParseUnsigned(Render(n, d)) == Num(n as real / Pow10(d) as real)
  {
    if d == 0 {
      ParseRenderWhole(n);
    } else {
      ParseRenderPoint(n, d);
    }
  }

  lemma ParseRenderWhole(n: nat)
    ensures ParseUnsigned(Render(n, 0)) == Num(n as real / Pow10(0) as real)
  {
    assert Render(n, 0) == NatToString(n);
    ParseDigits(NatToString(n));
  }

  lemma ParseRenderPoint(n: nat, d: nat)
    requires d > 0
    ensures ParseUnsigned(Render(n, d)) == Num(n as real / Pow10(d) as real)
  {
    RenderWithPoint(n, d);
    RenderValue(n, d);
    ParsePointText(Render(n, d), NatToString(Shift(n, d)), LowDigits(n, d), n as real / Pow10(d) as real);
  }

  lemma RenderWithPoint(n: nat, d: nat)
    requires d > 0
    ensures Render(n, d) == NatToString(Shift(n, d)) + "." + LowDigits(n, d)
  {
  }

  /** Digits, a point and digits read back as the integer part plus the fraction. */
  lemma ParsePointText(r: string, a: string, b: string, y: real)
    requires |a| >= 1 && AllDigits(a) && AllDigits(b) && r == a + "." + b
    requires DigitsValue(a) as real + FracValue(b) == y
    ensures ParseUnsigned(r) == Num(y)
  {
    ParseDigitsPointDigits(a, b);
  }

  /** Text that starts with a digit has no white space or sign to skip. */
  lemma ParseFloatDigitLed(s: string)
    requires |s| > 0 && IsDigit(s[0])
    ensures ParseFloat(s) == ParseUnsigned(s)
  {
    RunExact(s, 0, IsSpace, 0);
    assert s[0..] == s;
  }

  /** A minus sign directly before a digit negates what follows. */
  lemma ParseFloatMinus(r: string)
    requires |r| > 0 && IsDigit(r[0])
    ensures ParseFloat("-" + r) == Negate(ParseUnsigned(r))
  {
    var s := "-" + r;
    RunExact(s, 0, IsSpace, 0);
    assert s[0..] == s;
    assert s[1..] == r;
  }

  lemma RenderDigitLed(n: nat, d: nat)
    ensures |Render(n, d)| > 0 && IsDigit(Render(n, d)[0])
  {
    var a := NatToString(Shift(n, d));
    assert Render(n, d)[0] == a[0];
  }

  /** `parseFloat(x.toFixed(d))` is the rounded value: the text `toFixed`
      writes denotes `FixedValue(x, d)`. */
  lemma ToFixedRoundTrip(x: real, d: nat)
    ensures ParseFloat(ToFixed(x, d)) == Num(FixedValue(x, d))
  {
    var n := RoundedMagnitude(x, d);
    RenderDigitLed(n, d);
    ParseRender(n, d);
    if x < 0.0 {
      assert ToFixed(x, d) == "-" + Render(n, d);
      ParseFloatMinus(Render(n, d));
    } else {
      assert ToFixed(x, d) == Render(n, d);
      ParseFloatDigitLed(Render(n, d));
    }
  }

  /** `parseFloat(n.toString()) == n` and `parseInt(n.toString()) == n`. */
  lemma NatToStringRoundTrip(n: nat)
    ensures ParseFloat(NatToString(n)) == Num(n as real)
    ensures ParseInt(NatToString(n)) == Num(n as real)
  {
    var s := NatToString(n);
    assert IsDigit(s[0]);
    RunExact(s, 0, IsSpace, 0);
    assert s[0..] == s;
    DigitRunOfPrefix(s, []);
    assert s + [] == s;
    assert s[..|s|] == s;
    assert Render(n, 0) == s;
    ParseRender(n, 0);
  }

  /** `toFixed(d)` with `d >= 1` writes exactly `d` digits after a single
      decimal point. */
  lemma ToFixedShape(x: real, d: nat)
    requires d >= 1
    ensures var s := ToFixed(x, d);
      |s| >= d + 2 && s[|s| - d - 1] == '.' && '.' !in s[..|s| - d - 1]
      && AllDigits(s[|s| - d..])
  {
    var n := RoundedMagnitude(x, d);
    var a := NatToString(Shift(n, d));
    var pad := LowDigits(n, d);
    var s := ToFixed(x, d);
    var sign := if x < 0.0 then "-" else "";
    assert s == sign + a + "." + pad;
    assert s[|s| - d..] == pad;
    assert s[..|s| - d - 1] == sign + a;
    assert '.' !in sign + a by {
      forall k | 0 <= k < |sign + a| ensures (sign + a)[k] != '.' {
        if k >= |sign| {
          assert (sign + a)[k] == a[k - |sign|];
        }
      }
    }
  }
}
