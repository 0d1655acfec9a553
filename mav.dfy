/** `__getMAV__`: two rolling means of the close over the last `period` rows, and their crossovers. */
module Mav {
  import opened Wrappers
  import opened Frame

  datatype MavFrame = MavFrame(mavShort: Column, mavLong: Column, buy: seq<bool>, sell: seq<bool>)

  /** Where the Python slice `[-period:]` of n rows starts. */
  function TailStart(n: nat, period: int): (s: nat)
    ensures s <= n
  {
    var start := -period;
    if start < 0 then (if n + start < 0 then 0 else n + start)
    else if start > n then n
    else start
  }

  /** `history.iloc[-period:]`. */
  function Tail(bars: seq<Bar>, period: int): seq<Bar>
  {
    bars[TailStart(|bars|, period)..]
  }

  /** Buy: the short mean crosses above the long mean at row i of the subset. */
  predicate MavBuyAt(sub: seq<Bar>, short: nat, long: nat, i: nat)
    requires 1 <= short && 1 <= long && i < |sub|
  {
    && Gt(CloseMeanAt(sub, short, i), CloseMeanAt(sub, long, i))
    && 1 <= i && Le(CloseMeanAt(sub, short, i - 1), CloseMeanAt(sub, long, i - 1))
  }

  /** Sell: the short mean crosses below the long mean. */
  predicate MavSellAt(sub: seq<Bar>, short: nat, long: nat, i: nat)
    requires 1 <= short && 1 <= long && i < |sub|
  {
    && Lt(CloseMeanAt(sub, short, i), CloseMeanAt(sub, long, i))
    && 1 <= i && Ge(CloseMeanAt(sub, short, i - 1), CloseMeanAt(sub, long, i - 1))
  }

  function GetMav(bars: seq<Bar>, period: int, short: nat, long: nat): (r: MavFrame)
    requires 1 <= short && 1 <= long
    ensures |r.mavShort| == |r.mavLong| == |r.buy| == |r.sell| == |Tail(bars, period)|
  {
    var sub := Tail(bars, period);
    MavFrame(
      seq(|sub|, i requires 0 <= i < |sub| => CloseMeanAt(sub, short, i)),
      seq(|sub|, i requires 0 <= i < |sub| => CloseMeanAt(sub, long, i)),
      seq(|sub|, i requires 0 <= i < |sub| => MavBuyAt(sub, short, long, i)),
      seq(|sub|, i requires 0 <= i < |sub| => MavSellAt(sub, short, long, i)))
  }

  /** The subset is the last min(period, n) rows; period 0 keeps every row (`-0 == 0`), a negative period drops the first -period rows. */
  lemma TailLength(bars: seq<Bar>, period: int)
    ensures 0 < period ==> Tail(bars, period) == bars[|bars| - (if period < |bars| then period else |bars|)..]
    ensures period == 0 ==> Tail(bars, period) == bars
    ensures period < 0 ==> Tail(bars, period) == bars[(if -period < |bars| then -period else |bars|)..]
  {
  }

  /** The rolling windows start at the subset's first row: at subset row i, the mean covers subset rows i-w+1..i. */
  lemma MavWindowsInSubset(bars: seq<Bar>, period: int, short: nat, long: nat, i: nat)
    requires 1 <= short && 1 <= long && i < |Tail(bars, period)|
    ensures GetMav(bars, period, short, long).mavShort[i].Some? <==> short - 1 <= i
    ensures GetMav(bars, period, short, long).mavLong[i].Some? <==> long - 1 <= i
    ensures short - 1 <= i ==>
      GetMav(bars, period, short, long).mavShort[i] == Some(Sum(CloseWindow(Tail(bars, period), short, i)) / short as real)
  {
    CloseMeanWindow(Tail(bars, period), short, i);
    CloseMeanWindow(Tail(bars, period), long, i);
  }

  /** Buy needs short > long and sell needs short < long, so they exclude each other. */
  lemma MavExclusive(bars: seq<Bar>, period: int, short: nat, long: nat, i: nat)
    requires 1 <= short && 1 <= long && i < |Tail(bars, period)|
    ensures !(GetMav(bars, period, short, long).buy[i] && GetMav(bars, period, short, long).sell[i])
  {
  }

  /** No crossover on the subset's first row, nor while either mean (now or one row back) is undefined. */
  lemma MavWarmUp(bars: seq<Bar>, period: int, short: nat, long: nat, i: nat)
    requires 1 <= short && 1 <= long && i < |Tail(bars, period)|
    requires i == 0 || i < short || i < long
    ensures !GetMav(bars, period, short, long).buy[i] && !GetMav(bars, period, short, long).sell[i]
  {
    var sub := Tail(bars, period);
    if 1 <= i {
      CloseMeanWindow(sub, short, i - 1);
      CloseMeanWindow(sub, long, i - 1);
    }
  }
}
