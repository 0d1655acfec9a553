/** `__getTrix__`: the percent change of a triple exponential average of the close, and its smoothed line. */
module Trix {
  import opened Wrappers
  import opened Frame

  datatype TrixFrame = TrixFrame(trix: Column, trixSma: Column, buy: seq<bool>, sell: seq<bool>)

  /** Three chained `ewm(span=long, adjust=False)` averages of the close. */
  function TripleEma(bars: seq<Bar>, long: int): (e: seq<real>)
    requires 1 <= long
    ensures |e| == |bars|
  {
    var a := SpanAlpha(long);
    Ema(Ema(Ema(Closes(bars), a), a), a)
  }

  /** `100 * pct_change()` at row i: NaN at row 0; a zero previous value is treated as undefined. */
  function PctAt(e: seq<real>, i: nat): Option<real>
    requires i < |e|
  {
    if i == 0 || e[i - 1] == 0.0 then None else Some(100.0 * (e[i] / e[i - 1] - 1.0))
  }

  function TrixLine(bars: seq<Bar>, long: int): (c: Column)
    requires 1 <= long
    ensures |c| == |bars|
  {
    var e := TripleEma(bars, long);
    seq(|bars|, i requires 0 <= i < |bars| => PctAt(e, i))
  }

  function GetTrix(bars: seq<Bar>, short: nat, long: int): (r: TrixFrame)
    requires 1 <= short && 1 <= long
    ensures |r.trix| == |r.trixSma| == |r.buy| == |r.sell| == |bars|
  {
    var trix := TrixLine(bars, long);
    var sma := seq(|bars|, i requires 0 <= i < |bars| => RollingMeanAt(trix, short, i));
    TrixFrame(trix, sma,
      seq(|bars|, i requires 0 <= i < |bars| => Gt(trix[i], sma[i])),
      seq(|bars|, i requires 0 <= i < |bars| => Lt(trix[i], sma[i])))
  }

  /** The trix is undefined at bar 0, and its smoothed line is undefined before bar `short`. */
  lemma TrixWarmUp(bars: seq<Bar>, short: nat, long: int, i: nat)
    requires 1 <= short && 1 <= long && i < |bars|
    ensures GetTrix(bars, short, long).trix[0] == None
    ensures i < short ==> GetTrix(bars, short, long).trixSma[i] == None
    ensures i < short ==> !GetTrix(bars, short, long).buy[i] && !GetTrix(bars, short, long).sell[i]
  {
    RollingMeanDefinedIff(TrixLine(bars, long), short, i);
  }

  /** Buy (trix above its mean) and sell (below) never hold together, and both need both values defined. */
  lemma TrixConfirmations(bars: seq<Bar>, short: nat, long: int, i: nat)
    requires 1 <= short && 1 <= long && i < |bars|
    ensures var r := GetTrix(bars, short, long);
      && !(r.buy[i] && r.sell[i])
      && (r.buy[i] || r.sell[i] ==> r.trix[i].Some? && r.trixSma[i].Some?)
  {
  }

  /** A constant close c makes the triple average c on every bar. */
  lemma TripleEmaOfConstant(bars: seq<Bar>, long: int, c: real)
    requires 1 <= long
    requires forall j :: 0 <= j < |bars| ==> bars[j].close == c
    ensures forall j :: 0 <= j < |bars| ==> TripleEma(bars, long)[j] == c
  {
    var a := SpanAlpha(long);
    var e1 := Ema(Closes(bars), a);
    forall j | 0 <= j < |bars| ensures e1[j] == c { EmaConstant(Closes(bars), a, j, c); }
    var e2 := Ema(e1, a);
    forall j | 0 <= j < |bars| ensures e2[j] == c { EmaConstant(e1, a, j, c); }
    var e3 := Ema(e2, a);
    forall j | 0 <= j < |bars| ensures e3[j] == c { EmaConstant(e2, a, j, c); }
  }

  /** A constant nonzero close gives trix 0 from bar 1 on. */
  lemma TrixLineOfConstant(bars: seq<Bar>, long: int, c: real)
    requires 1 <= long && c != 0.0
    requires forall j :: 0 <= j < |bars| ==> bars[j].close == c
    ensures forall j :: 1 <= j < |bars| ==> TrixLine(bars, long)[j] == Some(0.0)
  {
    TripleEmaOfConstant(bars, long, c);
    var e3 := TripleEma(bars, long);
    forall j | 1 <= j < |bars| ensures TrixLine(bars, long)[j] == Some(0.0) {
      assert TrixLine(bars, long)[j] == PctAt(e3, j);
      assert e3[j] / e3[j - 1] == 1.0;
    }
  }

  /** A rolling mean over a window of zeros is zero. */
  lemma MeanOfZeros(trix: Column, w: nat, i: nat)
    requires 1 <= w <= i + 1 <= |trix|
    requires forall j :: i + 1 - w <= j <= i ==> trix[j] == Some(0.0)
    ensures RollingMeanAt(trix, w, i) == Some(0.0)
  {
    var zeros := seq(w, _ => 0.0);
    assert trix[i + 1 - w .. i + 1] == Defined(zeros);
    SumColOfDefined(zeros);
    MeanConstant(zeros, 0.0);
  }

  /** A constant nonzero close gives trix 0 from bar 1 on and never a confirmation. */
  lemma TrixOfConstant(bars: seq<Bar>, short: nat, long: int, c: real, i: nat)
    requires 1 <= short && 1 <= long && i < |bars| && c != 0.0
    requires forall j :: 0 <= j < |bars| ==> bars[j].close == c
    ensures 1 <= i ==> GetTrix(bars, short, long).trix[i] == Some(0.0)
    ensures !GetTrix(bars, short, long).buy[i] && !GetTrix(bars, short, long).sell[i]
  {
    var trix := TrixLine(bars, long);
    TrixLineOfConstant(bars, long, c);
    if short <= i {
      MeanOfZeros(trix, short, i);
    } else {
      TrixWarmUp(bars, short, long, i);
    }
  }
}
