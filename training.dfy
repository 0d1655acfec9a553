/**
 * `execute_trades` of the training script: a walk over every row that buys
 * when the prediction is 1 and no position is open, and sells when it is 0
 * and a position is open.
 */
module Training {
  import opened Frame
  import opened Ledger

  predicate NonzeroPrices(closes: seq<real>)
  {
    forall j :: 0 <= j < |closes| ==> closes[j] != 0.0
  }

  /** One pass of the loop at row i. */
  function TradeStep(closes: seq<real>, predictions: seq<int>, tradeSize: real, acc: Account, i: nat): Account
    requires |predictions| == |closes| && NonzeroPrices(closes) && i < |closes|
  {
    if predictions[i] == 1 && acc.position.Flat? then Open(acc, closes[i], tradeSize)
    else if predictions[i] == 0 && acc.position.Long? then Close(acc, closes[i])
    else acc
  }

  /** The account once rows 0..k-1 have been processed. */
  function TradesUpTo(closes: seq<real>, predictions: seq<int>, initialBalance: real, tradeSize: real, k: nat): Account
    requires |predictions| == |closes| && NonzeroPrices(closes) && k <= |closes|
  {
    if k == 0 then Start(initialBalance)
    else TradeStep(closes, predictions, tradeSize, TradesUpTo(closes, predictions, initialBalance, tradeSize, k - 1), k - 1)
  }

  /**
   * The loop with the source's locals, over the closes of the rows and the
   * predictions made for them; returns total profit, final balance and
   * win percentage.
   */
  method ExecuteTrades(closes: seq<real>, predictions: seq<int>, initialBalance: real, tradeSize: real) returns (s: Summary)
    requires |predictions| == |closes| && NonzeroPrices(closes)
    ensures s == Summarize(TradesUpTo(closes, predictions, initialBalance, tradeSize, |closes|))
  {
    var holding := false;
    var buyPrice := 0.0;
    var profits: seq<real> := [];
    var currentBalance := initialBalance;
    var btcQuantity := 0.0;
    var i := 0;
    while i < |closes|
      invariant 0 <= i <= |closes|
      invariant TradesUpTo(closes, predictions, initialBalance, tradeSize, i) ==
        Account(currentBalance, if holding then Long(buyPrice, btcQuantity) else Flat, profits)
    {
      ghost var before := TradesUpTo(closes, predictions, initialBalance, tradeSize, i);
      var prediction := predictions[i];
      if prediction == 1 && !holding {
        var tradeValue := TradeValue(currentBalance, tradeSize);
        btcQuantity := Quantity(tradeValue, closes[i]);
        holding := true;
        buyPrice := closes[i];
        currentBalance := currentBalance - tradeValue;
        assert Account(currentBalance, Long(buyPrice, btcQuantity), profits) == Open(before, closes[i], tradeSize);
      } else if prediction == 0 && holding {
        var sellPrice := closes[i];
        var profit := Profit(Long(buyPrice, btcQuantity), sellPrice);
        currentBalance := currentBalance + Proceeds(btcQuantity, sellPrice);
        profits := profits + [profit];
        holding := false;
      }
      i := i + 1;
    }
    s := Summary(Sum(profits), currentBalance, WinPercentage(profits));
  }

  // ---------------------------------------------------------------- lemmas

  /** Cash plus the cost of the open position is the initial balance plus every closed trade's profit. */
  lemma {:induction false} CommittedIsStartPlusProfits(
    closes: seq<real>, predictions: seq<int>, initialBalance: real, tradeSize: real, k: nat)
    requires |predictions| == |closes| && NonzeroPrices(closes) && k <= |closes|
    ensures var acc := TradesUpTo(closes, predictions, initialBalance, tradeSize, k);
      Committed(acc) == initialBalance + Sum(acc.profits)
  {
    if k > 0 {
      var prev := TradesUpTo(closes, predictions, initialBalance, tradeSize, k - 1);
      CommittedIsStartPlusProfits(closes, predictions, initialBalance, tradeSize, k - 1);
      if predictions[k - 1] == 1 && prev.position.Flat? {
        OpenKeepsCommitted(prev, closes[k - 1], tradeSize);
      } else if predictions[k - 1] == 0 && prev.position.Long? {
        CloseAddsProfit(prev, closes[k - 1]);
        var p := Close(prev, closes[k - 1]).profits;
        assert p[..|p| - 1] == prev.profits;
      }
    }
  }

  /** After a row predicted 1 a position is open; after a row predicted 0 none is. */
  lemma PositionFollowsPrediction(closes: seq<real>, predictions: seq<int>, initialBalance: real, tradeSize: real, k: nat)
    requires |predictions| == |closes| && NonzeroPrices(closes) && 1 <= k <= |closes|
    ensures predictions[k - 1] == 1 ==> TradesUpTo(closes, predictions, initialBalance, tradeSize, k).position.Long?
    ensures predictions[k - 1] == 0 ==> TradesUpTo(closes, predictions, initialBalance, tradeSize, k).position.Flat?
  {
  }

  /** Rows predicted neither 0 nor 1 leave the account untouched. */
  lemma OtherPredictionsHold(closes: seq<real>, predictions: seq<int>, initialBalance: real, tradeSize: real, k: nat)
    requires |predictions| == |closes| && NonzeroPrices(closes) && 1 <= k <= |closes|
    requires predictions[k - 1] != 0 && predictions[k - 1] != 1
    ensures TradesUpTo(closes, predictions, initialBalance, tradeSize, k) == TradesUpTo(closes, predictions, initialBalance, tradeSize, k - 1)
  {
  }

  /** With positive closes, a trade size in [0, 1] and a non-negative start, cash and holding never go negative. */
  lemma {:induction false} StaysSolvent(closes: seq<real>, predictions: seq<int>, initialBalance: real, tradeSize: real, k: nat)
    requires |predictions| == |closes| && NonzeroPrices(closes) && k <= |closes|
    requires forall j :: 0 <= j < |closes| ==> 0.0 < closes[j]
    requires 0.0 <= tradeSize <= 1.0 && 0.0 <= initialBalance
    ensures var acc := TradesUpTo(closes, predictions, initialBalance, tradeSize, k);
      0.0 <= acc.balance && (acc.position.Long? ==> 0.0 <= acc.position.quantity)
  {
    if k > 0 {
      StaysSolvent(closes, predictions, initialBalance, tradeSize, k - 1);
      TradesStaySolvent(TradesUpTo(closes, predictions, initialBalance, tradeSize, k - 1), closes[k - 1], tradeSize);
    }
  }

  /** Predictions 1 then 0 buy at the first close and sell at the second: one trade, returning p2/p1 - 1 on the amount traded. */
  lemma OneRoundTrip(p1: real, p2: real, initialBalance: real, tradeSize: real)
    requires p1 != 0.0 && p2 != 0.0
    ensures var acc := TradesUpTo([p1, p2], [1, 0], initialBalance, tradeSize, 2);
      && acc.position.Flat? && |acc.profits| == 1
      && acc.profits[0] == (p2 / p1 - 1.0) * (initialBalance * tradeSize)
      && acc.balance == initialBalance + acc.profits[0]
  {
    var closes, predictions := [p1, p2], [1, 0];
    var start := Start(initialBalance);
    RoundTrip(start, p1, p2, tradeSize);
    assert TradesUpTo(closes, predictions, initialBalance, tradeSize, 1) == Open(start, p1, tradeSize);
    assert TradesUpTo(closes, predictions, initialBalance, tradeSize, 2) == Close(Open(start, p1, tradeSize), p2);
  }
}
