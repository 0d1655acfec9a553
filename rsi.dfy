/** `__getRSI__`: Wilder-style strength index over `ewm(span=period, min_periods=period)` averages, its 3-bar signal and buy rule. */
module Rsi {
  import opened Wrappers
  import opened Frame

  datatype RsiFrame = RsiFrame(rsi: Column, signal: Column, buy: seq<bool>)

  /** The RSI level at or below which a buy is confirmed. */
  const BuyLevel := 60.0

  /** `delta.where(delta > 0, 0)`: the rise of the close, 0 on bar 0 where the difference is NaN. */
  function GainAt(bars: seq<Bar>, i: nat): real
    requires i < |bars|
  {
    if i == 0 || bars[i].close <= bars[i - 1].close then 0.0 else bars[i].close - bars[i - 1].close
  }

  /** `-delta.where(delta < 0, 0)`: the fall of the close. */
  function LossAt(bars: seq<Bar>, i: nat): real
    requires i < |bars|
  {
    if i == 0 || bars[i].close >= bars[i - 1].close then 0.0 else bars[i - 1].close - bars[i].close
  }

  function Gains(bars: seq<Bar>): (g: seq<real>)
    ensures |g| == |bars| && forall i :: 0 <= i < |bars| ==> g[i] == GainAt(bars, i)
  {
    seq(|bars|, i requires 0 <= i < |bars| => GainAt(bars, i))
  }

  function Losses(bars: seq<Bar>): (l: seq<real>)
    ensures |l| == |bars| && forall i :: 0 <= i < |bars| ==> l[i] == LossAt(bars, i)
  {
    seq(|bars|, i requires 0 <= i < |bars| => LossAt(bars, i))
  }

  /** Numerator of the `adjust=True` average: the inputs up to bar i weighted by powers of 1 - a. */
  function EwmNumerator(x: seq<real>, a: real, i: nat): real
    requires i < |x|
  {
    x[i] + (1.0 - a) * (if i == 0 then 0.0 else EwmNumerator(x, a, i - 1))
  }

  /** Denominator of the `adjust=True` average: the sum of the same weights. */
  function EwmDenominator(a: real, i: nat): (d: real)
    requires 0.0 < a <= 1.0
    ensures 1.0 <= d
  {
    if i == 0 then 1.0 else
      var p := EwmDenominator(a, i - 1);
      MulNonneg(1.0 - a, p);
      1.0 + (1.0 - a) * p
  }

  /** `ewm(span=span, min_periods=span).mean()` of a column without NaN. */
  function AdjustedEwmAt(x: seq<real>, span: int, i: nat): Option<real>
    requires 1 <= span && i < |x|
  {
    if i + 1 < span then None
    else Some(EwmNumerator(x, SpanAlpha(span), i) / EwmDenominator(SpanAlpha(span), i))
  }

  /** `100 - 100 / (1 + g / l)`; a zero average loss gives +inf strength (100) or, with no gain either, NaN. */
  function RsiOf(g: real, l: real): (r: Option<real>)
    requires 0.0 <= g && 0.0 <= l
    ensures 0.0 < l ==> r.Some? && r.value * (g + l) == 100.0 * g && 0.0 <= r.value < 100.0
    ensures l == 0.0 ==> r == (if 0.0 < g then Some(100.0) else None)
  {
    if 0.0 < l then
      RsiAlgebra(g, l);
      Some(100.0 - 100.0 / (1.0 + g / l))
    else if 0.0 < g then Some(100.0)
    else None
  }

  /** `100 - 100 / (1 + g / l)` is `100 g / (g + l)`, in [0, 100). */
  lemma RsiAlgebra(g: real, l: real)
    requires 0.0 <= g && 0.0 < l
    ensures (100.0 - 100.0 / (1.0 + g / l)) * (g + l) == 100.0 * g
    ensures 0.0 <= 100.0 - 100.0 / (1.0 + g / l) < 100.0
  {
    var rs := g / l;
    assert rs * l == g;
    assert 0.0 <= rs;
    var q := 1.0 + rs;
    assert q * l == l + g;
    var t := 100.0 / q;
    assert t * q == 100.0;
    assert 0.0 < t <= 100.0;
    assert t * (g + l) == t * q * l;
    assert (100.0 - t) * (g + l) == 100.0 * g;
  }

  function RsiAt(bars: seq<Bar>, period: int, i: nat): Option<real>
    requires 1 <= period && i < |bars|
  {
    var g := AdjustedEwmAt(Gains(bars), period, i);
    var l := AdjustedEwmAt(Losses(bars), period, i);
    if g.Some? && l.Some? then
      AverageNonneg(Gains(bars), period, i);
      AverageNonneg(Losses(bars), period, i);
      RsiOf(g.value, l.value)
    else None
  }

  function RsiColumn(bars: seq<Bar>, period: int): (c: Column)
    requires 1 <= period
    ensures |c| == |bars| && forall i :: 0 <= i < |bars| ==> c[i] == RsiAt(bars, period, i)
  {
    seq(|bars|, i requires 0 <= i < |bars| => RsiAt(bars, period, i))
  }

  function GetRsi(bars: seq<Bar>, period: int): (r: RsiFrame)
    requires 1 <= period
    ensures |r.rsi| == |r.signal| == |r.buy| == |bars|
  {
    var c := RsiColumn(bars, period);
    RsiFrame(c,
      seq(|bars|, i requires 0 <= i < |bars| => RollingMeanAt(c, 3, i)),
      seq(|bars|, i requires 0 <= i < |bars| => Le(c[i], Some(BuyLevel))))
  }

  // ---------------------------------------------------------------- lemmas

  /** Gain and loss split the change of the close: both non-negative, never both positive, and gain - loss is the change. */
  lemma GainLossSplit(bars: seq<Bar>, i: nat)
    requires i < |bars|
    ensures 0.0 <= GainAt(bars, i) && 0.0 <= LossAt(bars, i)
    ensures GainAt(bars, i) == 0.0 || LossAt(bars, i) == 0.0
    ensures 1 <= i ==> GainAt(bars, i) - LossAt(bars, i) == bars[i].close - bars[i - 1].close
    ensures i == 0 ==> GainAt(bars, i) == 0.0 == LossAt(bars, i)
  {
  }

  /** The numerator is the denominator times something between the smallest and largest input. */
  lemma NumeratorBounds(x: seq<real>, a: real, i: nat, lo: real, hi: real)
    requires 0.0 < a <= 1.0 && i < |x|
    requires forall j :: 0 <= j <= i ==> lo <= x[j] <= hi
    ensures lo * EwmDenominator(a, i) <= EwmNumerator(x, a, i) <= hi * EwmDenominator(a, i)
  {
    var above := seq(i + 1, j requires 0 <= j <= i => x[j] - lo);
    var below := seq(i + 1, j requires 0 <= j <= i => x[j] - hi);
    NumeratorOffset(x, above, a, i, lo);
    NumeratorOffset(x, below, a, i, hi);
    NumeratorNonneg(above, a, i);
    NumeratorNonpos(below, a, i);
  }

  /** Lowering every input by c lowers the weighted sum by c times the weight sum. */
  lemma {:induction false} NumeratorOffset(x: seq<real>, y: seq<real>, a: real, i: nat, c: real)
    requires 0.0 < a <= 1.0 && i < |x| && i < |y|
    requires forall j :: 0 <= j <= i ==> y[j] == x[j] - c
    ensures EwmNumerator(y, a, i) == EwmNumerator(x, a, i) - c * EwmDenominator(a, i)
  {
    if i > 0 {
      NumeratorOffset(x, y, a, i - 1, c);
      OffsetAlgebra(x[i], c, 1.0 - a, EwmNumerator(x, a, i - 1), EwmDenominator(a, i - 1));
    }
  }

  lemma OffsetAlgebra(xi: real, c: real, b: real, n: real, d: real)
    ensures (xi - c) + b * (n - c * d) == (xi + b * n) - c * (1.0 + b * d)
  {
  }

  /** A weighted sum within lo and hi times the weight sum gives an average within [lo, hi]. */
  lemma {:induction false} AverageOfBoundedSum(x: seq<real>, a: real, i: nat, lo: real, hi: real)
    requires 0.0 < a <= 1.0 && i < |x|
    requires lo * EwmDenominator(a, i) <= EwmNumerator(x, a, i) <= hi * EwmDenominator(a, i)
    ensures lo <= EwmNumerator(x, a, i) / EwmDenominator(a, i) <= hi
  {
    QuotientBounds(EwmNumerator(x, a, i), EwmDenominator(a, i), lo, hi);
  }

  /** Defined exactly from bar span-1 on, and then a weighted average of the inputs so far. */
  lemma AdjustedEwmWithin(x: seq<real>, span: int, i: nat, lo: real, hi: real)
    requires 1 <= span && i < |x|
    requires forall j :: 0 <= j <= i ==> lo <= x[j] <= hi
    ensures AdjustedEwmAt(x, span, i).Some? <==> span <= i + 1
    ensures AdjustedEwmAt(x, span, i).Some? ==> lo <= AdjustedEwmAt(x, span, i).value <= hi
  {
    if span <= i + 1 {
      var a := SpanAlpha(span);
      NumeratorBounds(x, a, i, lo, hi);
      AverageOfBoundedSum(x, a, i, lo, hi);
    }
  }

  lemma AverageNonneg(x: seq<real>, span: int, i: nat)
    requires 1 <= span && i < |x|
    requires forall j :: 0 <= j < |x| ==> 0.0 <= x[j]
    ensures AdjustedEwmAt(x, span, i).Some? ==> 0.0 <= AdjustedEwmAt(x, span, i).value
  {
    NumeratorNonneg(x, SpanAlpha(span), i);
  }

  lemma {:induction false} NumeratorNonneg(x: seq<real>, a: real, i: nat)
    requires 0.0 < a <= 1.0 && i < |x|
    requires forall j :: 0 <= j <= i ==> 0.0 <= x[j]
    ensures 0.0 <= EwmNumerator(x, a, i)
  {
    if i > 0 {
      NumeratorNonneg(x, a, i - 1);
      MulNonneg(1.0 - a, EwmNumerator(x, a, i - 1));
    }
  }
  lemma {:induction false} NumeratorNonpos(x: seq<real>, a: real, i: nat)
    requires 0.0 < a <= 1.0 && i < |x|
    requires forall j :: 0 <= j <= i ==> x[j] <= 0.0
    ensures EwmNumerator(x, a, i) <= 0.0
  {
    if i > 0 {
      NumeratorNonpos(x, a, i - 1);
      MulNonneg(1.0 - a, -EwmNumerator(x, a, i - 1));
    }
  }


  /** The numerator is zero when every input so far is, and positive when none is negative and the last is positive. */
  lemma {:induction false} NumeratorSign(x: seq<real>, a: real, i: nat)
    requires 0.0 < a <= 1.0 && i < |x|
    requires forall j :: 0 <= j <= i ==> 0.0 <= x[j]
    ensures (forall j :: 0 <= j <= i ==> x[j] == 0.0) ==> EwmNumerator(x, a, i) == 0.0
    ensures 0.0 < x[i] ==> 0.0 < EwmNumerator(x, a, i)
  {
    if i > 0 {
      NumeratorSign(x, a, i - 1);
      NumeratorNonneg(x, a, i - 1);
      MulNonneg(1.0 - a, EwmNumerator(x, a, i - 1));
    }
  }

  /** The index is undefined before bar period-1, then lies in [0, 100]; a buy needs it defined and at most 60. */
  lemma RsiRange(bars: seq<Bar>, period: int, i: nat)
    requires 1 <= period && i < |bars|
    ensures i + 1 < period ==> GetRsi(bars, period).rsi[i] == None && !GetRsi(bars, period).buy[i]
    ensures GetRsi(bars, period).rsi[i].Some? ==> 0.0 <= GetRsi(bars, period).rsi[i].value <= 100.0
    ensures GetRsi(bars, period).buy[i] <==>
      GetRsi(bars, period).rsi[i].Some? && GetRsi(bars, period).rsi[i].value <= BuyLevel
  {
  }

  /** A close that rose on every bar since the first gives an index of 100, and no buy. */
  lemma RsiOfRisingCloses(bars: seq<Bar>, period: int, i: nat)
    requires 1 <= period <= i + 1 && 1 <= i < |bars|
    requires forall j :: 1 <= j <= i ==> bars[j - 1].close < bars[j].close
    ensures GetRsi(bars, period).rsi[i] == Some(100.0) && !GetRsi(bars, period).buy[i]
  {
    var g, l := Gains(bars), Losses(bars);
    var a := SpanAlpha(period);
    NumeratorSign(g, a, i);
    NumeratorSign(l, a, i);
    AverageNonneg(g, period, i);
    AverageNonneg(l, period, i);
    assert 0.0 < EwmNumerator(g, a, i) / EwmDenominator(a, i);
  }

  /** A close that fell on every bar since the first gives an index of 0, which confirms a buy. */
  lemma RsiOfFallingCloses(bars: seq<Bar>, period: int, i: nat)
    requires 1 <= period <= i + 1 && 1 <= i < |bars|
    requires forall j :: 1 <= j <= i ==> bars[j].close < bars[j - 1].close
    ensures GetRsi(bars, period).rsi[i] == Some(0.0) && GetRsi(bars, period).buy[i]
  {
    var g, l := Gains(bars), Losses(bars);
    var a := SpanAlpha(period);
    NumeratorSign(g, a, i);
    NumeratorSign(l, a, i);
    var d := EwmDenominator(a, i);
    var gl := EwmNumerator(l, a, i) / d;
    assert EwmNumerator(g, a, i) / d == 0.0;
    assert 0.0 < gl;
    assert RsiAt(bars, period, i) == RsiOf(0.0, gl);
    assert RsiOf(0.0, gl).value * gl == 0.0;
  }

  /** The signal is the mean of the last three index values, and undefined while any of them is. */
  lemma RsiSignalOfThree(bars: seq<Bar>, period: int, i: nat)
    requires 1 <= period && i < |bars|
    ensures var r := GetRsi(bars, period);
      && (r.signal[i].Some? <==> 2 <= i && r.rsi[i - 2].Some? && r.rsi[i - 1].Some? && r.rsi[i].Some?)
      && (r.signal[i].Some? ==> r.signal[i].value == (r.rsi[i - 2].value + r.rsi[i - 1].value + r.rsi[i].value) / 3.0)
  {
    var c := RsiColumn(bars, period);
    RollingMeanDefinedIff(c, 3, i);
    if 2 <= i && c[i - 2].Some? && c[i - 1].Some? && c[i].Some? {
      RollingMeanOfThree(c, i);
    }
  }

  /** The weight sums of an average with smoothing factor 1/2 on bars 2 to 4. */
  lemma HalfWeights()
    ensures EwmDenominator(0.5, 2) == 1.75 && EwmDenominator(0.5, 3) == 1.875 && EwmDenominator(0.5, 4) == 1.9375
  {
    assert EwmDenominator(0.5, 1) == 1.5;
  }

  /** The weighted sums with smoothing factor 1/2 of five inputs, on bars 2 to 4. */
  lemma HalfAverages(x: seq<real>, x0: real, x1: real, x2: real, x3: real, x4: real)
    requires x == [x0, x1, x2, x3, x4]
    ensures EwmNumerator(x, 0.5, 2) == x2 + 0.5 * x1 + 0.25 * x0
    ensures EwmNumerator(x, 0.5, 3) == x3 + 0.5 * x2 + 0.25 * x1 + 0.125 * x0
    ensures EwmNumerator(x, 0.5, 4) == x4 + 0.5 * x3 + 0.25 * x2 + 0.125 * x1 + 0.0625 * x0
  {
    assert EwmNumerator(x, 0.5, 0) == x0;
    assert EwmNumerator(x, 0.5, 1) == x1 + 0.5 * x0;
  }

  /** The closes 100, 102, 101, 105, 104 of the worked example. */
  function ExampleBars(): seq<Bar>
  {
    [Bar(100.0, 100.0, 100.0, 1.0, 1), Bar(102.0, 102.0, 102.0, 1.0, 1), Bar(101.0, 101.0, 101.0, 1.0, 1),
     Bar(105.0, 105.0, 105.0, 1.0, 1), Bar(104.0, 104.0, 104.0, 1.0, 1)]
  }

  /** The example's gains and losses, and their weighted sums for period 3 (smoothing factor 1/2). */
  lemma ExampleAverages()
    ensures Gains(ExampleBars()) == [0.0, 2.0, 0.0, 4.0, 0.0]
    ensures Losses(ExampleBars()) == [0.0, 0.0, 1.0, 0.0, 1.0]
    ensures SpanAlpha(3) == 0.5
    ensures EwmDenominator(0.5, 2) == 1.75 && EwmDenominator(0.5, 3) == 1.875 && EwmDenominator(0.5, 4) == 1.9375
    ensures EwmNumerator(Gains(ExampleBars()), 0.5, 2) == 1.0 && EwmNumerator(Losses(ExampleBars()), 0.5, 2) == 1.0
    ensures EwmNumerator(Gains(ExampleBars()), 0.5, 3) == 4.5 && EwmNumerator(Losses(ExampleBars()), 0.5, 3) == 0.5
    ensures EwmNumerator(Gains(ExampleBars()), 0.5, 4) == 2.25 && EwmNumerator(Losses(ExampleBars()), 0.5, 4) == 1.25
  {
    var g, l := Gains(ExampleBars()), Losses(ExampleBars());
    assert g == [0.0, 2.0, 0.0, 4.0, 0.0];
    assert l == [0.0, 0.0, 1.0, 0.0, 1.0];
    HalfWeights();
    HalfAverages(g, 0.0, 2.0, 0.0, 4.0, 0.0);
    HalfAverages(l, 0.0, 0.0, 1.0, 0.0, 1.0);
  }

  lemma ExampleRsi2()
    ensures RsiAt(ExampleBars(), 3, 2) == Some(50.0)
  {
    ExampleAverages();
    RsiAlgebra(1.0 / 1.75, 1.0 / 1.75);
  }

  lemma ExampleRsi3()
    ensures RsiAt(ExampleBars(), 3, 3) == Some(90.0)
  {
    ExampleAverages();
    RsiAlgebra(4.5 / 1.875, 0.5 / 1.875);
  }

  lemma ExampleRsi4()
    ensures RsiAt(ExampleBars(), 3, 4) == Some(450.0 / 7.0)
  {
    ExampleAverages();
    RsiAlgebra(2.25 / 1.9375, 1.25 / 1.9375);
  }

  /** RSI(3) of the closes 100, 102, 101, 105, 104, worked by hand: undefined, undefined, 50, 90, 450/7; only bar 2 confirms a buy. */
  lemma RsiWorkedExample()
    ensures var bars := [Bar(100.0, 100.0, 100.0, 1.0, 1), Bar(102.0, 102.0, 102.0, 1.0, 1), Bar(101.0, 101.0, 101.0, 1.0, 1),
                         Bar(105.0, 105.0, 105.0, 1.0, 1), Bar(104.0, 104.0, 104.0, 1.0, 1)];
      && GetRsi(bars, 3).rsi == [None, None, Some(50.0), Some(90.0), Some(450.0 / 7.0)]
      && GetRsi(bars, 3).buy == [false, false, true, false, false]
  {
    var bars := ExampleBars();
    ExampleRsi2();
    ExampleRsi3();
    ExampleRsi4();
    var c := RsiColumn(bars, 3);
    assert c == [None, None, Some(50.0), Some(90.0), Some(450.0 / 7.0)];
  }
}
