/** `__getVWAP__`: the cumulative volume-weighted average of the typical price, and its buy confirmation. */
module Vwap {
  import opened Wrappers
  import opened Frame

  datatype VwapFrame = VwapFrame(
    vwap: Column, buy: seq<bool>,
    close: seq<real>, high: seq<real>, low: seq<real>, volume: seq<Volume>)

  /** `(High + Low + Close) / 3`. */
  function TypicalPrice(b: Bar): real
  {
    (b.high + b.low + b.close) / 3.0
  }

  /** `(typical_price * Volume).cumsum()` at bar i. */
  function CumTpv(bars: seq<Bar>, i: nat): real
    requires i < |bars|
  {
    (if i == 0 then 0.0 else CumTpv(bars, i - 1)) + TypicalPrice(bars[i]) * bars[i].volume
  }

  /** `Volume.cumsum()` at bar i. */
  function CumVolume(bars: seq<Bar>, i: nat): (v: real)
    requires i < |bars|
    ensures 0.0 <= v
  {
    (if i == 0 then 0.0 else CumVolume(bars, i - 1)) + bars[i].volume
  }

  /** The ratio of the two running sums; 0/0 (no volume traded yet) is NaN. */
  function VwapAt(bars: seq<Bar>, i: nat): Option<real>
    requires i < |bars|
  {
    if CumVolume(bars, i) == 0.0 then None else Some(CumTpv(bars, i) / CumVolume(bars, i))
  }

  /** Price below VWAP and above the previous close. */
  predicate VwapBuyAt(bars: seq<Bar>, i: nat)
    requires i < |bars|
  {
    Lt(Some(bars[i].close), VwapAt(bars, i)) && 1 <= i && bars[i].close > bars[i - 1].close
  }

  function GetVwap(bars: seq<Bar>): (r: VwapFrame)
    ensures |r.vwap| == |r.buy| == |bars|
    ensures r.close == Closes(bars) && r.high == Highs(bars) && r.low == Lows(bars)
    ensures |r.volume| == |bars| && forall i :: 0 <= i < |bars| ==> r.volume[i] == bars[i].volume
  {
    var n := |bars|;
    VwapFrame(
      seq(n, i requires 0 <= i < n => VwapAt(bars, i)),
      seq(n, i requires 0 <= i < n => VwapBuyAt(bars, i)),
      Closes(bars), Highs(bars), Lows(bars),
      seq(n, i requires 0 <= i < n => bars[i].volume))
  }

  /** While no volume has traded, the weighted sum is zero too, so the quotient is 0/0. */
  lemma {:induction false} NoVolumeNoWeight(bars: seq<Bar>, i: nat)
    requires i < |bars| && CumVolume(bars, i) == 0.0
    ensures CumTpv(bars, i) == 0.0
    ensures forall j :: 0 <= j <= i ==> bars[j].volume == 0.0
  {
    if i > 0 {
      NoVolumeNoWeight(bars, i - 1);
    }
  }

  /** Typical prices in [lo, hi] up to bar i bound the weighted sum by lo and hi times the volume. */
  lemma {:induction false} WeightedSumBounds(bars: seq<Bar>, i: nat, lo: real, hi: real)
    requires i < |bars|
    requires forall j :: 0 <= j <= i ==> lo <= TypicalPrice(bars[j]) <= hi
    ensures lo * CumVolume(bars, i) <= CumTpv(bars, i) <= hi * CumVolume(bars, i)
  {
    if i == 0 {
      AccumulateBounds(lo, hi, 0.0, 0.0, bars[0].volume, TypicalPrice(bars[0]));
    } else {
      WeightedSumBounds(bars, i - 1, lo, hi);
      AccumulateBounds(lo, hi, CumVolume(bars, i - 1), CumTpv(bars, i - 1), bars[i].volume, TypicalPrice(bars[i]));
    }
  }

  /** One more bar keeps both weighted bounds. */
  lemma AccumulateBounds(lo: real, hi: real, pv: real, pt: real, v: real, tp: real)
    requires lo * pv <= pt <= hi * pv && lo <= tp <= hi && 0.0 <= v
    ensures lo * (pv + v) <= pt + tp * v <= hi * (pv + v)
  {
    MulMonotone(lo, tp, v);
    MulMonotone(tp, hi, v);
    Distribute(lo, pv, v);
    Distribute(hi, pv, v);
  }

  /** VWAP is defined exactly when some volume has traded, and then lies between the lowest and highest typical price so far. */
  lemma VwapWithinTypicalPrices(bars: seq<Bar>, i: nat, lo: real, hi: real)
    requires i < |bars|
    requires forall j :: 0 <= j <= i ==> lo <= TypicalPrice(bars[j]) <= hi
    ensures VwapAt(bars, i).Some? <==> exists j :: 0 <= j <= i && bars[j].volume > 0.0
    ensures VwapAt(bars, i).Some? ==> lo <= VwapAt(bars, i).value <= hi
  {
    if CumVolume(bars, i) == 0.0 {
      NoVolumeNoWeight(bars, i);
    } else {
      WeightedSumBounds(bars, i, lo, hi);
      QuotientBounds(CumTpv(bars, i), CumVolume(bars, i), lo, hi);
      PositiveVolumeSomewhere(bars, i);
    }
  }

  lemma {:induction false} PositiveVolumeSomewhere(bars: seq<Bar>, i: nat)
    requires i < |bars| && CumVolume(bars, i) > 0.0
    ensures exists j :: 0 <= j <= i && bars[j].volume > 0.0
  {
    if bars[i].volume == 0.0 {
      PositiveVolumeSomewhere(bars, i - 1);
    }
  }

  /** With every typical price equal to c, VWAP is c wherever it is defined. */
  lemma VwapOfConstant(bars: seq<Bar>, i: nat, c: real)
    requires i < |bars|
    requires forall j :: 0 <= j < |bars| ==> TypicalPrice(bars[j]) == c
    ensures VwapAt(bars, i) == None || VwapAt(bars, i) == Some(c)
  {
    VwapWithinTypicalPrices(bars, i, c, c);
  }

  /** A buy needs a rising close below VWAP, so never on the first bar and never while nothing has traded. */
  lemma VwapBuyNeeds(bars: seq<Bar>, i: nat)
    requires i < |bars|
    ensures GetVwap(bars).buy[i] <==>
      1 <= i && VwapAt(bars, i).Some? && bars[i - 1].close < bars[i].close < VwapAt(bars, i).value
  {
  }
}
