/** `__MACD__`: the difference of two `adjust=False` averages of the close, its signal line and crossovers. */
module Macd {
  import opened Wrappers
  import opened Frame

  datatype MacdFrame = MacdFrame(macd: seq<real>, signal: seq<real>, histogram: seq<real>, buy: seq<bool>, sell: seq<bool>)

  /** The signal line's span is fixed, whatever the caller passes. */
  const SignalSpan := 9

  /** Fast average minus slow average of the close. */
  function MacdLine(bars: seq<Bar>, short: int, long: int): (m: seq<real>)
    requires 1 <= short && 1 <= long
    ensures |m| == |bars|
  {
    var c := Closes(bars);
    seq(|bars|, i requires 0 <= i < |bars| => EmaAt(c, SpanAlpha(short), i) - EmaAt(c, SpanAlpha(long), i))
  }

  /** `(m > s) & (m.shift(1) <= s.shift(1))`: the shifted comparison is false at row 0. */
  predicate CrossAbove(m: seq<real>, s: seq<real>, i: nat)
    requires i < |m| && i < |s|
  {
    m[i] > s[i] && 1 <= i && m[i - 1] <= s[i - 1]
  }

  predicate CrossBelow(m: seq<real>, s: seq<real>, i: nat)
    requires i < |m| && i < |s|
  {
    m[i] < s[i] && 1 <= i && m[i - 1] >= s[i - 1]
  }

  function GetMacd(bars: seq<Bar>, short: int, long: int): (r: MacdFrame)
    requires 1 <= short && 1 <= long
    ensures |r.macd| == |r.signal| == |r.histogram| == |r.buy| == |r.sell| == |bars|
  {
    var m := MacdLine(bars, short, long);
    var s := Ema(m, SpanAlpha(SignalSpan));
    MacdFrame(m, s,
      seq(|bars|, i requires 0 <= i < |bars| => m[i] - s[i]),
      seq(|bars|, i requires 0 <= i < |bars| => CrossAbove(m, s, i)),
      seq(|bars|, i requires 0 <= i < |bars| => CrossBelow(m, s, i)))
  }

  /** The signal line is the `adjust=False` average of the MACD line with smoothing factor 2/(9+1). */
  lemma MacdSignalSpanFixed(bars: seq<Bar>, short: int, long: int, i: nat)
    requires 1 <= short && 1 <= long && i < |bars|
    ensures GetMacd(bars, short, long).signal[i] == EmaAt(GetMacd(bars, short, long).macd, 0.2, i)
    ensures 1 <= i ==>
      GetMacd(bars, short, long).signal[i] == 0.8 * GetMacd(bars, short, long).signal[i - 1] + 0.2 * GetMacd(bars, short, long).macd[i]
  {
  }

  /** Buy and sell crossovers exclude each other; both are false at bar 0; a buy is the histogram turning positive. */
  lemma MacdConfirmations(bars: seq<Bar>, short: int, long: int, i: nat)
    requires 1 <= short && 1 <= long && i < |bars|
    ensures var r := GetMacd(bars, short, long);
      && !(r.buy[i] && r.sell[i])
      && (i == 0 ==> !r.buy[i] && !r.sell[i])
      && (r.buy[i] <==> 1 <= i && r.histogram[i] > 0.0 && r.histogram[i - 1] <= 0.0)
      && (r.sell[i] <==> 1 <= i && r.histogram[i] < 0.0 && r.histogram[i - 1] >= 0.0)
  {
  }

  /** A constant close gives MACD = signal = histogram = 0 on every bar and no confirmation. */
  lemma MacdOfConstant(bars: seq<Bar>, short: int, long: int, c: real, i: nat)
    requires 1 <= short && 1 <= long && i < |bars|
    requires forall j :: 0 <= j < |bars| ==> bars[j].close == c
    ensures var r := GetMacd(bars, short, long);
      r.macd[i] == 0.0 && r.signal[i] == 0.0 && r.histogram[i] == 0.0 && !r.buy[i] && !r.sell[i]
  {
    var m := MacdLine(bars, short, long);
    forall j | 0 <= j < |bars| ensures m[j] == 0.0 {
      EmaConstant(Closes(bars), SpanAlpha(short), j, c);
      EmaConstant(Closes(bars), SpanAlpha(long), j, c);
    }
    EmaConstant(m, SpanAlpha(SignalSpan), i, 0.0);
    if 1 <= i {
      EmaConstant(m, SpanAlpha(SignalSpan), i - 1, 0.0);
    }
  }
}
