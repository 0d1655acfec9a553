/** `__getOBV__`: on-balance volume, built by a loop and written back onto the input table with its confirmations. */
module Obv {
  import opened Wrappers
  import opened Frame

  datatype ObvFrame = ObvFrame(obv: seq<real>, buy: seq<bool>, sell: seq<bool>)

  /** The names under which the columns are added to the input table. */
  const ObvName := "OBV"
  const BuyName := "OBV_Buy_Conf"
  const SellName := "OBV_Sell_Conf"

  /** On-balance volume at bar i: 0 on bar 0, then the volume added on a rising close and subtracted on a falling one. */
  function ObvAt(bars: seq<Bar>, i: nat): real
    requires i < |bars|
  {
    if i == 0 then 0.0
    else if bars[i].close > bars[i - 1].close then ObvAt(bars, i - 1) + bars[i].volume
    else if bars[i].close < bars[i - 1].close then ObvAt(bars, i - 1) - bars[i].volume
    else ObvAt(bars, i - 1)
  }

  /** The volume traded on bars 1..i, the only bars the running total looks at. */
  function VolumeSince(bars: seq<Bar>, i: nat): (v: real)
    requires i < |bars|
    ensures 0.0 <= v
  {
    if i == 0 then 0.0 else VolumeSince(bars, i - 1) + bars[i].volume
  }

  function ObvLine(bars: seq<Bar>): (o: seq<real>)
    ensures |o| == |bars| && forall i :: 0 <= i < |bars| ==> o[i] == ObvAt(bars, i)
  {
    seq(|bars|, i requires 0 <= i < |bars| => ObvAt(bars, i))
  }

  /** OBV and close both above their previous values. */
  predicate ObvBuyAt(o: seq<real>, bars: seq<Bar>, i: nat)
    requires |o| == |bars| && i < |bars|
  {
    1 <= i && o[i] > o[i - 1] && bars[i].close > bars[i - 1].close
  }

  predicate ObvSellAt(o: seq<real>, bars: seq<Bar>, i: nat)
    requires |o| == |bars| && i < |bars|
  {
    1 <= i && o[i] < o[i - 1] && bars[i].close < bars[i - 1].close
  }

  /** The frame returned for a non-empty table. */
  function ObvOf(bars: seq<Bar>): (r: ObvFrame)
    ensures |r.obv| == |r.buy| == |r.sell| == |bars|
  {
    var o := ObvLine(bars);
    ObvFrame(o,
      seq(|bars|, i requires 0 <= i < |bars| => ObvBuyAt(o, bars, i)),
      seq(|bars|, i requires 0 <= i < |bars| => ObvSellAt(o, bars, i)))
  }

  /** The three columns the call adds to the table. */
  function WithObv(derived: map<string, Derived>, r: ObvFrame): map<string, Derived>
  {
    derived[ObvName := Floats(r.obv)][BuyName := Flags(r.buy)][SellName := Flags(r.sell)]
  }

  /**
   * The running-total loop: starts from a one-element list and appends one
   * total per bar after the first, so an empty table still yields one value.
   */
  method RunningTotal(bars: seq<Bar>) returns (obv: seq<real>)
    ensures |bars| == 0 ==> obv == [0.0]
    ensures |bars| > 0 ==> obv == ObvLine(bars)
  {
    obv := [0.0];
    if |bars| == 0 {
      return;
    }
    var i := 1;
    while i < |bars|
      invariant 1 <= i <= |bars|
      invariant |obv| == i
      invariant forall j :: 0 <= j < i ==> obv[j] == ObvAt(bars, j)
    {
      if bars[i].close - bars[i - 1].close > 0.0 {
        obv := obv + [obv[i - 1] + bars[i].volume];
      } else if bars[i].close - bars[i - 1].close < 0.0 {
        obv := obv + [obv[i - 1] - bars[i].volume];
      } else {
        obv := obv + [obv[i - 1]];
      }
      i := i + 1;
    }
  }

  /**
   * Runs the running-total loop over the table's bars, then adds the OBV
   * column and both confirmations to the table. On an empty table the
   * one-element starting list becomes the table's only row: pandas gives an
   * empty table the index of the list it is assigned, so the result has one
   * row, OBV 0, where neither confirmation holds.
   */
  method GetObv(history: BarTable) returns (r: Result<ObvFrame, Failure>)
    modifies history
    ensures history.bars == old(history.bars)
    ensures |history.bars| == 0 ==> r == Ok(ObvFrame([0.0], [false], [false]))
    ensures |history.bars| > 0 ==> r == Ok(ObvOf(history.bars))
    ensures history.derived == WithObv(old(history.derived), r.value)
  {
    var bars := history.bars;
    var obv := RunningTotal(bars);
    var buy: seq<bool>, sell: seq<bool>;
    if |bars| == 0 {
      buy, sell := [false], [false];
    } else {
      var n := |bars|;
      buy := seq(n, j requires 0 <= j < n => ObvBuyAt(obv, bars, j));
      sell := seq(n, j requires 0 <= j < n => ObvSellAt(obv, bars, j));
    }
    history.derived := history.derived[ObvName := Floats(obv)];
    history.derived := history.derived[BuyName := Flags(buy)];
    history.derived := history.derived[SellName := Flags(sell)];
    r := Ok(ObvFrame(obv, buy, sell));
  }

  // ---------------------------------------------------------------- lemmas

  /** The running total never exceeds, in size, the volume traded since bar 0. */
  lemma {:induction false} ObvBounded(bars: seq<Bar>, i: nat)
    requires i < |bars|
    ensures -VolumeSince(bars, i) <= ObvAt(bars, i) <= VolumeSince(bars, i)
  {
    if i > 0 {
      ObvBounded(bars, i - 1);
    }
  }

  /** A close rising on every bar adds up all the volume; one falling on every bar subtracts it. */
  lemma {:induction false} ObvOfMonotoneCloses(bars: seq<Bar>, i: nat)
    requires i < |bars|
    ensures (forall j :: 1 <= j <= i ==> bars[j - 1].close < bars[j].close) ==> ObvAt(bars, i) == VolumeSince(bars, i)
    ensures (forall j :: 1 <= j <= i ==> bars[j].close < bars[j - 1].close) ==> ObvAt(bars, i) == -VolumeSince(bars, i)
  {
    if i > 0 {
      ObvOfMonotoneCloses(bars, i - 1);
    }
  }

  /**
   * Across any run of strictly rising closes, bars a+1..b, OBV grows by
   * exactly the volume of those bars, so it never decreases.
   */
  lemma {:induction false} ObvRisesOverRisingRun(bars: seq<Bar>, a: nat, b: nat)
    requires a <= b < |bars|
    requires forall j :: a < j <= b ==> bars[j - 1].close < bars[j].close
    ensures ObvAt(bars, b) == ObvAt(bars, a) + (VolumeSince(bars, b) - VolumeSince(bars, a))
    ensures ObvAt(bars, a) <= ObvAt(bars, b)
  {
    if a < b {
      ObvRisesOverRisingRun(bars, a, b - 1);
    }
  }

  /**
   * Across any run of strictly falling closes, bars a+1..b, OBV drops by
   * exactly the volume of those bars, so it never increases.
   */
  lemma {:induction false} ObvFallsOverFallingRun(bars: seq<Bar>, a: nat, b: nat)
    requires a <= b < |bars|
    requires forall j :: a < j <= b ==> bars[j].close < bars[j - 1].close
    ensures ObvAt(bars, b) == ObvAt(bars, a) - (VolumeSince(bars, b) - VolumeSince(bars, a))
    ensures ObvAt(bars, b) <= ObvAt(bars, a)
  {
    if a < b {
      ObvFallsOverFallingRun(bars, a, b - 1);
    }
  }

  /** Closes 5, 4, 6, 7: a fall, then a rise over bars 1..3, where OBV climbs by the volume of bars 2 and 3. */
  lemma ObvRunExample()
    ensures var bars := [Bar(5.0, 5.0, 5.0, 1.0, 1), Bar(4.0, 4.0, 4.0, 2.0, 1), Bar(6.0, 6.0, 6.0, 3.0, 1), Bar(7.0, 7.0, 7.0, 4.0, 1)];
      && ObvLine(bars) == [0.0, -2.0, 1.0, 5.0]
  {
    var bars := [Bar(5.0, 5.0, 5.0, 1.0, 1), Bar(4.0, 4.0, 4.0, 2.0, 1), Bar(6.0, 6.0, 6.0, 3.0, 1), Bar(7.0, 7.0, 7.0, 4.0, 1)];
    assert ObvAt(bars, 1) == -2.0;
    assert ObvAt(bars, 3) == 5.0;
  }

  /** A buy is a rising close on a bar with volume, a sell a falling close with volume; never both, never on bar 0. */
  lemma ObvConfirmations(bars: seq<Bar>, i: nat)
    requires i < |bars|
    ensures var r := ObvOf(bars);
      && (r.buy[i] <==> 1 <= i && bars[i].close > bars[i - 1].close && bars[i].volume > 0.0)
      && (r.sell[i] <==> 1 <= i && bars[i].close < bars[i - 1].close && bars[i].volume > 0.0)
      && !(r.buy[i] && r.sell[i])
  {
  }

  /** The new columns are exactly the three OBV columns; every other column and the bars are as before. */
  lemma WithObvKeepsOthers(derived: map<string, Derived>, r: ObvFrame, name: string)
    requires name != ObvName && name != BuyName && name != SellName
    ensures name in WithObv(derived, r) <==> name in derived
    ensures name in derived ==> WithObv(derived, r)[name] == derived[name]
    ensures WithObv(derived, r)[ObvName] == Floats(r.obv) && WithObv(derived, r)[BuyName] == Flags(r.buy)
    ensures WithObv(derived, r)[SellName] == Flags(r.sell)
  {
  }
}
