/**
 * `__getParabolicSAR__`: Wilder's stop-and-reverse, run as a loop over the
 * bars, and its buy/sell confirmations filtered by a 20-bar mean of the
 * close, a volume surge and a 14-bar rolling-mean RSI.
 */
module Psar {
  import opened Wrappers
  import opened Frame
  import Rsi

  /** What the loop carries from one bar to the next: the last SAR, extreme price, acceleration factor and trend. */
  datatype SarState = SarState(sar: real, ep: real, af: real, longTrend: bool)

  /**
   * The frame after reindexing to the input's rows: no SAR on bar 0; the buy
   * confirmation is false on bar 0 and on the last bar, where one of its
   * operands has no row; the sell confirmation is NaN on bar 0.
   */
  datatype SarFrame = SarFrame(sar: Column, buy: seq<bool>, sell: seq<Option<bool>>)

  const MaPeriod := 20
  const RsiPeriod := 14
  const Overbought := 70.0
  const Oversold := 30.0

  /** Before the loop: SAR at the first low, extreme at the first high, factor `step`, uptrend. */
  function Initial(bars: seq<Bar>, step: real): SarState
    requires 0 < |bars|
  {
    SarState(bars[0].low, bars[0].high, step, true)
  }

  /** The SAR moved toward the extreme price, before clamping. */
  function Projected(s: SarState): real
  {
    s.sar + s.af * (s.ep - s.sar)
  }

  /** The projected SAR clamped below the last two lows in an uptrend, above the last two highs in a downtrend. */
  function Clamped(bars: seq<Bar>, s: SarState, i: nat): real
    requires 1 <= i < |bars|
  {
    if s.longTrend then Min(Min(Projected(s), bars[i - 1].low), bars[i].low)
    else Max(Max(Projected(s), bars[i - 1].high), bars[i].high)
  }

  /** One pass of the loop body at bar i. */
  function Step(bars: seq<Bar>, step: real, maxStep: real, s: SarState, i: nat): SarState
    requires 1 <= i < |bars|
  {
    var cur := Clamped(bars, s, i);
    if s.longTrend && bars[i].close < cur then SarState(s.ep, bars[i].low, step, false)
    else if !s.longTrend && bars[i].close > cur then SarState(s.ep, bars[i].high, step, true)
    else if s.longTrend then
      if bars[i].high > s.ep then SarState(cur, bars[i].high, Min(s.af + step, maxStep), true)
      else SarState(cur, s.ep, s.af, true)
    else
      if bars[i].low < s.ep then SarState(cur, bars[i].low, Min(s.af + step, maxStep), false)
      else SarState(cur, s.ep, s.af, false)
  }

  /** The loop state after bar k. */
  function StateAt(bars: seq<Bar>, step: real, maxStep: real, k: nat): SarState
    requires k < |bars|
  {
    if k == 0 then Initial(bars, step) else Step(bars, step, maxStep, StateAt(bars, step, maxStep, k - 1), k)
  }

  /** `Volume.pct_change() > 0.2`; a rise from zero volume is +inf, no change from zero is NaN. */
  predicate VolumeIncrease(bars: seq<Bar>, i: nat)
    requires i < |bars|
  {
    1 <= i &&
      if bars[i - 1].volume == 0.0 then bars[i].volume > 0.0
      else bars[i].volume / bars[i - 1].volume - 1.0 > 0.2
  }

  /** The RSI of these confirmations: rolling 14-bar means of gain and loss, not exponential ones. */
  function Rsi14At(bars: seq<Bar>, i: nat): Option<real>
    requires i < |bars|
  {
    var g := RollingMeanAt(Defined(Rsi.Gains(bars)), RsiPeriod, i);
    var l := RollingMeanAt(Defined(Rsi.Losses(bars)), RsiPeriod, i);
    if g.Some? && l.Some? then
      RollingMeanNonneg(Rsi.Gains(bars), RsiPeriod, i);
      RollingMeanNonneg(Rsi.Losses(bars), RsiPeriod, i);
      Rsi.RsiOf(g.value, l.value)
    else None
  }

  predicate SarBuyAt(bars: seq<Bar>, step: real, maxStep: real, i: nat)
    requires i < |bars|
  {
    && 1 <= i < |bars| - 1
    && StateAt(bars, step, maxStep, i).longTrend
    && bars[i].close > StateAt(bars, step, maxStep, i).sar
    && Gt(Some(bars[i].close), CloseMeanAt(bars, MaPeriod, i))
    && VolumeIncrease(bars, i)
    && Lt(Rsi14At(bars, i), Some(Overbought))
  }

  function SarSellAt(bars: seq<Bar>, step: real, maxStep: real, i: nat): Option<bool>
    requires i < |bars|
  {
    if i == 0 then None
    else Some(
      && !StateAt(bars, step, maxStep, i).longTrend
      && bars[i].close < StateAt(bars, step, maxStep, i).sar
      && Gt(Rsi14At(bars, i), Some(Oversold))
      && 2 <= i && Gt(Rsi14At(bars, i), Rsi14At(bars, i - 1)))
  }

  /** The frame the indicator returns for a non-empty table. */
  function SarOf(bars: seq<Bar>, step: real, maxStep: real): (r: SarFrame)
    ensures |r.sar| == |r.buy| == |r.sell| == |bars|
  {
    var n := |bars|;
    SarFrame(
      seq(n, i requires 0 <= i < n => if i == 0 then None else Some(StateAt(bars, step, maxStep, i).sar)),
      seq(n, i requires 0 <= i < n => SarBuyAt(bars, step, maxStep, i)),
      seq(n, i requires 0 <= i < n => SarSellAt(bars, step, maxStep, i)))
  }

  /**
   * The indicator: the stop-and-reverse loop, then the vectorised
   * confirmations. An empty table has no first low to start from.
   */
  method GetParabolicSar(bars: seq<Bar>, step: real, maxStep: real) returns (r: Result<SarFrame, Failure>)
    ensures |bars| == 0 ==> r == Err(IndexError)
    ensures |bars| > 0 ==> r == Ok(SarOf(bars, step, maxStep))
  {
    if |bars| == 0 {
      return Err(IndexError);
    }
    var sar := [bars[0].low];
    var ep := bars[0].high;
    var af := step;
    var longTrend := true;
    var sarValues: seq<real> := [];
    var trends: seq<bool> := [];
    var i := 1;
    while i < |bars|
      invariant 1 <= i <= |bars|
      invariant |sar| == i && |sarValues| == |trends| == i - 1
      invariant SarState(sar[i - 1], ep, af, longTrend) == StateAt(bars, step, maxStep, i - 1)
      invariant forall j :: 1 <= j < i ==>
        sarValues[j - 1] == StateAt(bars, step, maxStep, j).sar && trends[j - 1] == StateAt(bars, step, maxStep, j).longTrend
    {
      var prevSar, prevEp, prevAf := sar[|sar| - 1], ep, af;
      ghost var prev := SarState(prevSar, prevEp, prevAf, longTrend);
      ghost var next := Step(bars, step, maxStep, prev, i);
      assert next == StateAt(bars, step, maxStep, i);
      var currentSar;
      if longTrend {
        currentSar := Projected(SarState(prevSar, prevEp, prevAf, longTrend));
        currentSar := Min(Min(currentSar, bars[i - 1].low), bars[i].low);
      } else {
        currentSar := Projected(SarState(prevSar, prevEp, prevAf, longTrend));
        currentSar := Max(Max(currentSar, bars[i - 1].high), bars[i].high);
      }
      assert currentSar == Clamped(bars, prev, i);
      if longTrend && bars[i].close < currentSar {
        longTrend := false;
        currentSar := prevEp;
        ep := bars[i].low;
        af := step;
      } else if !longTrend && bars[i].close > currentSar {
        longTrend := true;
        currentSar := prevEp;
        ep := bars[i].high;
        af := step;
      } else {
        if longTrend {
          if bars[i].high > prevEp {
            ep := bars[i].high;
            af := Min(prevAf + step, maxStep);
          }
        } else {
          if bars[i].low < prevEp {
            ep := bars[i].low;
            af := Min(prevAf + step, maxStep);
          }
        }
      }
      assert SarState(currentSar, ep, af, longTrend) == next;
      sar := sar + [currentSar];
      sarValues := sarValues + [currentSar];
      trends := trends + [longTrend];
      i := i + 1;
    }
    r := Ok(Assemble(bars, sarValues, trends));
    AssembleMatches(bars, step, maxStep, sarValues, trends);
  }

  /** The vectorised part: the SAR and trend lists, aligned one row after the input, combined with the filters. */
  function Assemble(bars: seq<Bar>, sarValues: seq<real>, trends: seq<bool>): SarFrame
    requires |sarValues| == |trends| == |bars| - 1
  {
    var n := |bars|;
    SarFrame(
      seq(n, j requires 0 <= j < n => if j == 0 then None else Some(sarValues[j - 1])),
      seq(n, j requires 0 <= j < n =>
        && 1 <= j < n - 1 && trends[j - 1] && bars[j].close > sarValues[j - 1]
        && Gt(Some(bars[j].close), CloseMeanAt(bars, MaPeriod, j))
        && VolumeIncrease(bars, j) && Lt(Rsi14At(bars, j), Some(Overbought))),
      seq(n, j requires 0 <= j < n =>
        if j == 0 then None
        else Some(!trends[j - 1] && bars[j].close < sarValues[j - 1] && Gt(Rsi14At(bars, j), Some(Oversold))
          && 2 <= j && Gt(Rsi14At(bars, j), Rsi14At(bars, j - 1)))))
  }

  lemma AssembleMatches(bars: seq<Bar>, step: real, maxStep: real, sarValues: seq<real>, trends: seq<bool>)
    requires |sarValues| == |trends| == |bars| - 1
    requires forall j :: 1 <= j < |bars| ==>
      sarValues[j - 1] == StateAt(bars, step, maxStep, j).sar && trends[j - 1] == StateAt(bars, step, maxStep, j).longTrend
    ensures Assemble(bars, sarValues, trends) == SarOf(bars, step, maxStep)
  {
  }

  // ---------------------------------------------------------------- lemmas

  /** With 0 < step <= maxStep the acceleration factor always stays in [step, maxStep]. */
  lemma {:induction false} AfInRange(bars: seq<Bar>, step: real, maxStep: real, k: nat)
    requires 0.0 <= step <= maxStep && k < |bars|
    ensures step <= StateAt(bars, step, maxStep, k).af <= maxStep
  {
    if k > 0 {
      AfInRange(bars, step, maxStep, k - 1);
    }
  }

  /**
   * The trend flips exactly when the close crosses the clamped SAR; the
   * flip puts the SAR at the previous extreme price, resets the factor to
   * `step` and restarts the extreme at the bar's low or high.
   */
  lemma StepReversal(bars: seq<Bar>, step: real, maxStep: real, s: SarState, i: nat)
    requires 1 <= i < |bars|
    ensures var t := Step(bars, step, maxStep, s, i);
      && (t.longTrend != s.longTrend <==>
          (s.longTrend && bars[i].close < Clamped(bars, s, i)) || (!s.longTrend && bars[i].close > Clamped(bars, s, i)))
      && (t.longTrend != s.longTrend ==>
          t.sar == s.ep && t.af == step && t.ep == (if t.longTrend then bars[i].high else bars[i].low))
  {
  }

  /**
   * Without a flip the SAR stays at or below the last two lows in an
   * uptrend (at or above the last two highs in a downtrend), the extreme
   * price only moves further in the trend's direction, and the factor grows
   * by `step`, capped at `maxStep`, exactly when a new extreme is set.
   */
  lemma StepContinues(bars: seq<Bar>, step: real, maxStep: real, s: SarState, i: nat)
    requires 1 <= i < |bars|
    requires Step(bars, step, maxStep, s, i).longTrend == s.longTrend
    ensures var t := Step(bars, step, maxStep, s, i);
      && t.sar == Clamped(bars, s, i)
      && (s.longTrend ==>
           t.sar <= bars[i - 1].low && t.sar <= bars[i].low && t.sar <= Projected(s) && s.ep <= t.ep && bars[i].high <= t.ep)
      && (!s.longTrend ==>
           t.sar >= bars[i - 1].high && t.sar >= bars[i].high && t.sar >= Projected(s) && t.ep <= s.ep && t.ep <= bars[i].low)
      && (t.ep != s.ep ==> t.af == Min(s.af + step, maxStep))
      && (t.ep == s.ep ==> t.af == s.af)
  {
  }

  /** After every bar the extreme price is at least that bar's high in an uptrend and at most its low in a downtrend. */
  lemma ExtremeBoundsBar(bars: seq<Bar>, step: real, maxStep: real, k: nat)
    requires k < |bars|
    ensures StateAt(bars, step, maxStep, k).longTrend ==> bars[k].high <= StateAt(bars, step, maxStep, k).ep
    ensures !StateAt(bars, step, maxStep, k).longTrend ==> StateAt(bars, step, maxStep, k).ep <= bars[k].low
  {
  }

  /** The volume test is a rise of more than 20% over the previous bar, also from zero. */
  lemma VolumeIncreaseIff(bars: seq<Bar>, i: nat)
    requires i < |bars|
    ensures VolumeIncrease(bars, i) <==> 1 <= i && bars[i].volume > 1.2 * bars[i - 1].volume
  {
    if 1 <= i && bars[i - 1].volume != 0.0 {
      RatioAbove(bars[i].volume, bars[i - 1].volume, 1.2);
    }
  }

  lemma RatioAbove(v: real, p: real, c: real)
    requires 0.0 < p
    ensures v / p > c <==> v > c * p
  {
    var q := v / p;
    assert q * p == v;
    if q > c {
      assert (q - c) * p > 0.0;
    } else {
      MulMonotone(q, c, p);
    }
  }

  /**
   * A buy needs an uptrend with the close above SAR, a defined 20-bar mean
   * and a defined RSI, so never before bar 19 nor on the first or last bar;
   * a sell needs a downtrend and two defined RSI values, so it is false
   * before bar 14; buy and sell never hold together.
   */
  lemma SarConfirmations(bars: seq<Bar>, step: real, maxStep: real, i: nat)
    requires i < |bars|
    ensures var r := SarOf(bars, step, maxStep);
      && (r.buy[i] ==> StateAt(bars, step, maxStep, i).longTrend && MaPeriod - 1 <= i < |bars| - 1)
      && (r.sell[i] == Some(true) ==> !StateAt(bars, step, maxStep, i).longTrend && RsiPeriod <= i)
      && (r.sell[i] == None <==> i == 0)
      && !(r.buy[i] && r.sell[i] == Some(true))
  {
    if i < MaPeriod - 1 {
      CloseMeanWindow(bars, MaPeriod, i);
    }
    if 1 <= i < RsiPeriod {
      RollingMeanDefinedIff(Defined(Rsi.Gains(bars)), RsiPeriod, i - 1);
    }
  }
}
