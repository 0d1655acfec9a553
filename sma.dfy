/** `__getSMA__`: simple moving averages of the close over 9, 21 and 200 bars. */
module Sma {
  import opened Wrappers
  import opened Frame

  datatype SmaFrame = SmaFrame(sma9: Column, sma21: Column, sma200: Column)

  function GetSma(bars: seq<Bar>): (r: SmaFrame)
    ensures |r.sma9| == |r.sma21| == |r.sma200| == |bars|
  {
    SmaFrame(
      seq(|bars|, i requires 0 <= i < |bars| => CloseMeanAt(bars, 9, i)),
      seq(|bars|, i requires 0 <= i < |bars| => CloseMeanAt(bars, 21, i)),
      seq(|bars|, i requires 0 <= i < |bars| => CloseMeanAt(bars, 200, i)))
  }

  /** The three columns of one row, by window length. */
  function SmaOfWindow(r: SmaFrame, w: nat, i: nat): Option<real>
    requires w in {9, 21, 200} && i < |r.sma9| && i < |r.sma21| && i < |r.sma200|
  {
    if w == 9 then r.sma9[i] else if w == 21 then r.sma21[i] else r.sma200[i]
  }

  /** SMA_w at bar i is defined exactly from bar w-1 on, and is then the mean of closes i-w+1..i. */
  lemma SmaDefinedFromWindow(bars: seq<Bar>, w: nat, i: nat)
    requires w in {9, 21, 200} && i < |bars|
    ensures SmaOfWindow(GetSma(bars), w, i).Some? <==> w - 1 <= i
    ensures w - 1 <= i ==> SmaOfWindow(GetSma(bars), w, i) == Some(Sum(CloseWindow(bars, w, i)) / w as real)
  {
    CloseMeanWindow(bars, w, i);
  }

  /** Each defined SMA lies between the smallest and the largest close of its window. */
  lemma SmaWithinWindow(bars: seq<Bar>, w: nat, i: nat)
    requires w in {9, 21, 200} && w - 1 <= i < |bars|
    ensures SmaOfWindow(GetSma(bars), w, i).Some?
    ensures MinOf(CloseWindow(bars, w, i)) <= SmaOfWindow(GetSma(bars), w, i).value <= MaxOf(CloseWindow(bars, w, i))
  {
    CloseMeanWithin(bars, w, i);
  }

  /** A constant close c makes all three SMAs equal c wherever they are defined. */
  lemma SmaOfConstant(bars: seq<Bar>, c: real, i: nat)
    requires i < |bars|
    requires forall j :: 0 <= j < |bars| ==> bars[j].close == c
    ensures 8 <= i ==> GetSma(bars).sma9[i] == Some(c)
    ensures 20 <= i ==> GetSma(bars).sma21[i] == Some(c)
    ensures 199 <= i ==> GetSma(bars).sma200[i] == Some(c)
  {
    CloseMeanConstant(bars, 9, i, c);
    CloseMeanConstant(bars, 21, i, c);
    CloseMeanConstant(bars, 200, i, c);
  }
}
