/** `__getDidi__`: the Didi index, three rolling means of the close and their confirmations. */
module Didi {
  import opened Wrappers
  import opened Frame

  datatype DidiFrame = DidiFrame(shortLine: Column, longLine: Column, refLine: Column, buy: seq<bool>, sell: seq<bool>)

  /** Buy: the short line rose, the long line fell, and the short line is above the reference line. */
  predicate DidiBuyAt(bars: seq<Bar>, short: nat, long: nat, ref: nat, i: nat)
    requires 1 <= short && 1 <= long && 1 <= ref && i < |bars|
  {
    && 1 <= i
    && Gt(CloseMeanAt(bars, short, i), CloseMeanAt(bars, short, i - 1))
    && Lt(CloseMeanAt(bars, long, i), CloseMeanAt(bars, long, i - 1))
    && Gt(CloseMeanAt(bars, short, i), CloseMeanAt(bars, ref, i))
  }

  /** Sell: the long line rose, is above the short line and below the reference line. */
  predicate DidiSellAt(bars: seq<Bar>, short: nat, long: nat, ref: nat, i: nat)
    requires 1 <= short && 1 <= long && 1 <= ref && i < |bars|
  {
    && 1 <= i
    && Gt(CloseMeanAt(bars, long, i), CloseMeanAt(bars, long, i - 1))
    && Gt(CloseMeanAt(bars, long, i), CloseMeanAt(bars, short, i))
    && Lt(CloseMeanAt(bars, long, i), CloseMeanAt(bars, ref, i))
  }

  function GetDidi(bars: seq<Bar>, short: nat, long: nat, ref: nat): (r: DidiFrame)
    requires 1 <= short && 1 <= long && 1 <= ref
    ensures |r.shortLine| == |r.longLine| == |r.refLine| == |r.buy| == |r.sell| == |bars|
  {
    DidiFrame(
      seq(|bars|, i requires 0 <= i < |bars| => CloseMeanAt(bars, short, i)),
      seq(|bars|, i requires 0 <= i < |bars| => CloseMeanAt(bars, long, i)),
      seq(|bars|, i requires 0 <= i < |bars| => CloseMeanAt(bars, ref, i)),
      seq(|bars|, i requires 0 <= i < |bars| => DidiBuyAt(bars, short, long, ref, i)),
      seq(|bars|, i requires 0 <= i < |bars| => DidiSellAt(bars, short, long, ref, i)))
  }

  /** Buy needs the long line falling and sell needs it rising, so they never hold together. */
  lemma DidiExclusive(bars: seq<Bar>, short: nat, long: nat, ref: nat, i: nat)
    requires 1 <= short && 1 <= long && 1 <= ref && i < |bars|
    ensures !(GetDidi(bars, short, long, ref).buy[i] && GetDidi(bars, short, long, ref).sell[i])
  {
  }

  /** Both confirmations need the previous long-window mean, so both are false before bar `long`. */
  lemma DidiWarmUp(bars: seq<Bar>, short: nat, long: nat, ref: nat, i: nat)
    requires 1 <= short && 1 <= long && 1 <= ref && i < |bars| && i < long
    ensures !GetDidi(bars, short, long, ref).buy[i] && !GetDidi(bars, short, long, ref).sell[i]
  {
    if 1 <= i {
      CloseMeanWindow(bars, long, i - 1);
    }
  }

  /** A constant close gives no confirmation: every rise and fall is strict. */
  lemma DidiConstantQuiet(bars: seq<Bar>, short: nat, long: nat, ref: nat, c: real, i: nat)
    requires 1 <= short && 1 <= long && 1 <= ref && i < |bars|
    requires forall j :: 0 <= j < |bars| ==> bars[j].close == c
    ensures !GetDidi(bars, short, long, ref).buy[i] && !GetDidi(bars, short, long, ref).sell[i]
  {
    if 1 <= i {
      CloseMeanConstant(bars, short, i, c);
      CloseMeanConstant(bars, short, i - 1, c);
      CloseMeanConstant(bars, long, i, c);
      CloseMeanConstant(bars, long, i - 1, c);
    }
  }
}
