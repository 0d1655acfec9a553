/** `__getIchimoku__`: Tenkan, Kijun, the two Senkou spans, Chikou and the five-way confirmations. */
module Ichimoku {
  import opened Wrappers
  import opened Frame

  datatype IchimokuFrame = IchimokuFrame(
    tenkan: Column, kijun: Column, spanA: Column, spanB: Column, chikou: Column,
    buy: seq<bool>, sell: seq<bool>)

  /** `(a + b) / 2`, NaN if either operand is. */
  function HalfSum(a: Option<real>, b: Option<real>): Option<real>
  {
    if a.Some? && b.Some? then Some((a.value + b.value) / 2.0) else None
  }

  /** Midpoint of the highest high and the lowest low of the w bars ending at bar i. */
  function MidpointAt(bars: seq<Bar>, w: nat, i: nat): Option<real>
    requires 1 <= w && i < |bars|
  {
    HalfSum(RollingMaxAt(Highs(bars), w, i), RollingMinAt(Lows(bars), w, i))
  }

  /** Senkou span A: `((tenkan + kijun) / 2).shift(medium)`. */
  function SpanAAt(bars: seq<Bar>, short: nat, medium: nat, i: nat): Option<real>
    requires 1 <= short && 1 <= medium && i < |bars|
  {
    if i < medium then None else HalfSum(MidpointAt(bars, short, i - medium), MidpointAt(bars, medium, i - medium))
  }

  /** Senkou span B: the long-window midpoint shifted forward by `medium`. */
  function SpanBAt(bars: seq<Bar>, medium: nat, long: nat, i: nat): Option<real>
    requires 1 <= medium && 1 <= long && i < |bars|
  {
    if i < medium then None else MidpointAt(bars, long, i - medium)
  }

  /** Chikou span: `Close.shift(-medium)`, the close `medium` bars later. */
  function ChikouAt(bars: seq<Bar>, medium: nat, i: nat): Option<real>
    requires i < |bars|
  {
    ShiftAt(Defined(Closes(bars)), -(medium as int), i)
  }

  /** `Close.shift(medium)`, the close `medium` bars earlier. */
  function PastCloseAt(bars: seq<Bar>, medium: nat, i: nat): Option<real>
    requires i < |bars|
  {
    ShiftAt(Defined(Closes(bars)), medium, i)
  }

  predicate IchimokuBuyAt(bars: seq<Bar>, short: nat, medium: nat, long: nat, i: nat)
    requires 1 <= short && 1 <= medium && 1 <= long && i < |bars|
  {
    var close := Some(bars[i].close);
    && Gt(close, SpanAAt(bars, short, medium, i))
    && Gt(close, SpanBAt(bars, medium, long, i))
    && Gt(MidpointAt(bars, short, i), MidpointAt(bars, medium, i))
    && Gt(close, MidpointAt(bars, medium, i))
    && Gt(ChikouAt(bars, medium, i), PastCloseAt(bars, medium, i))
  }

  predicate IchimokuSellAt(bars: seq<Bar>, short: nat, medium: nat, long: nat, i: nat)
    requires 1 <= short && 1 <= medium && 1 <= long && i < |bars|
  {
    var close := Some(bars[i].close);
    && Lt(close, SpanAAt(bars, short, medium, i))
    && Lt(close, SpanBAt(bars, medium, long, i))
    && Lt(MidpointAt(bars, short, i), MidpointAt(bars, medium, i))
    && Lt(close, MidpointAt(bars, medium, i))
    && Lt(ChikouAt(bars, medium, i), PastCloseAt(bars, medium, i))
  }

  function GetIchimoku(bars: seq<Bar>, short: nat, medium: nat, long: nat): (r: IchimokuFrame)
    requires 1 <= short && 1 <= medium && 1 <= long
    ensures |r.tenkan| == |r.kijun| == |r.spanA| == |r.spanB| == |r.chikou| == |r.buy| == |r.sell| == |bars|
  {
    var n := |bars|;
    IchimokuFrame(
      seq(n, i requires 0 <= i < n => MidpointAt(bars, short, i)),
      seq(n, i requires 0 <= i < n => MidpointAt(bars, medium, i)),
      seq(n, i requires 0 <= i < n => SpanAAt(bars, short, medium, i)),
      seq(n, i requires 0 <= i < n => SpanBAt(bars, medium, long, i)),
      seq(n, i requires 0 <= i < n => ChikouAt(bars, medium, i)),
      seq(n, i requires 0 <= i < n => IchimokuBuyAt(bars, short, medium, long, i)),
      seq(n, i requires 0 <= i < n => IchimokuSellAt(bars, short, medium, long, i)))
  }

  /** Tenkan (window `short`) and Kijun (window `medium`) are defined exactly from bar w-1 on, as the window's high/low midpoint. */
  lemma MidpointDefinedFromWindow(bars: seq<Bar>, w: nat, i: nat)
    requires 1 <= w && i < |bars|
    ensures MidpointAt(bars, w, i).Some? <==> w - 1 <= i
    ensures w - 1 <= i ==>
      MidpointAt(bars, w, i).value == (MaxOf(Highs(bars)[i + 1 - w .. i + 1]) + MinOf(Lows(bars)[i + 1 - w .. i + 1])) / 2.0
  {
  }

  /** If no bar's high is below its low, each midpoint lies between the window's lowest low and highest high. */
  lemma MidpointWithinRange(bars: seq<Bar>, w: nat, i: nat)
    requires 1 <= w <= i + 1 && i < |bars|
    requires forall j :: 0 <= j < |bars| ==> bars[j].low <= bars[j].high
    ensures MidpointAt(bars, w, i).Some?
    ensures MinOf(Lows(bars)[i + 1 - w .. i + 1]) <= MidpointAt(bars, w, i).value <= MaxOf(Highs(bars)[i + 1 - w .. i + 1])
  {
    var hs, ls := Highs(bars)[i + 1 - w .. i + 1], Lows(bars)[i + 1 - w .. i + 1];
    assert ls[w - 1] == bars[i].low && hs[w - 1] == bars[i].high;
    assert MinOf(ls) <= MaxOf(hs);
  }

  /** Both spans are the values computed `medium` bars earlier, and undefined before bar `medium`. */
  lemma SpansShiftedForward(bars: seq<Bar>, short: nat, medium: nat, long: nat, i: nat)
    requires 1 <= short && 1 <= medium && 1 <= long && i < |bars|
    ensures var r := GetIchimoku(bars, short, medium, long);
      && (i < medium ==> r.spanA[i] == None && r.spanB[i] == None)
      && (medium <= i ==> r.spanA[i] == HalfSum(r.tenkan[i - medium], r.kijun[i - medium]))
      && (medium <= i ==> r.spanB[i] == MidpointAt(bars, long, i - medium))
  {
  }

  /** Chikou is the close `medium` bars later, undefined on the last `medium` bars, where neither confirmation holds. */
  lemma ChikouLooksAhead(bars: seq<Bar>, short: nat, medium: nat, long: nat, i: nat)
    requires 1 <= short && 1 <= medium && 1 <= long && i < |bars|
    ensures var r := GetIchimoku(bars, short, medium, long);
      && (i + medium < |bars| ==> r.chikou[i] == Some(bars[i + medium].close))
      && (|bars| <= i + medium ==> r.chikou[i] == None && !r.buy[i] && !r.sell[i])
  {
  }

  /** Every confirmation needs span B, so neither holds before bar medium + long - 1. */
  lemma IchimokuWarmUp(bars: seq<Bar>, short: nat, medium: nat, long: nat, i: nat)
    requires 1 <= short && 1 <= medium && 1 <= long && i < |bars| && i < medium + long - 1
    ensures !GetIchimoku(bars, short, medium, long).buy[i] && !GetIchimoku(bars, short, medium, long).sell[i]
  {
  }

  /** Buy and sell confirmations never hold on the same bar. */
  lemma IchimokuExclusive(bars: seq<Bar>, short: nat, medium: nat, long: nat, i: nat)
    requires 1 <= short && 1 <= medium && 1 <= long && i < |bars|
    ensures !(GetIchimoku(bars, short, medium, long).buy[i] && GetIchimoku(bars, short, medium, long).sell[i])
  {
  }
}
