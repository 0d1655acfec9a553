/**
 * `simulate_trading` of the live bot: a walk over the bars that adds a
 * monthly deposit on each change of calendar month, opens a position when
 * all five indicators confirm, and closes it on an Ichimoku sell.
 */
module Bot {
  import opened Wrappers
  import opened Frame
  import opened Ledger
  import Ichimoku
  import Obv
  import Psar
  import Rsi
  import Macd

  /** The confirmation columns the simulation reads. */
  datatype Signals = Signals(
    ichimokuBuy: seq<bool>, ichimokuSell: seq<bool>, obvBuy: seq<bool>,
    psarBuy: seq<bool>, rsiBuy: seq<bool>, macdBuy: seq<bool>)

  /** The loop's state: the account, the month last seen, and the bars where orders were executed. */
  datatype BotState = BotState(acc: Account, lastMonth: int, buys: seq<nat>, sells: seq<nat>)

  predicate Aligned(sig: Signals, n: nat)
  {
    && |sig.ichimokuBuy| == n && |sig.ichimokuSell| == n && |sig.obvBuy| == n
    && |sig.psarBuy| == n && |sig.rsiBuy| == n && |sig.macdBuy| == n
  }

  predicate NonzeroCloses(bars: seq<Bar>)
  {
    forall j :: 0 <= j < |bars| ==> bars[j].close != 0.0
  }

  /** Python's `iloc[k]` position for -n <= k < n: a negative index counts from the end. */
  function PyIndex(k: int, n: nat): (j: nat)
    requires -(n as int) <= k < n
    ensures j < n && (0 <= k ==> j == k) && (k < 0 ==> j == n + k)
  {
    if k < 0 then n + k else k
  }

  /**
   * The buy rule at bar i. `iloc[i - 2]` is a Python index, so at bar 1 it
   * reads the last bar; the OBV disjunction lists that term twice.
   */
  predicate BuySignal(sig: Signals, i: nat, n: nat)
    requires Aligned(sig, n) && 1 <= i < n
  {
    var back2 := PyIndex(i - 2, n);
    && sig.ichimokuBuy[i]
    && (sig.obvBuy[i] || sig.obvBuy[i - 1] || sig.obvBuy[back2] || sig.obvBuy[back2])
    && (sig.psarBuy[i] || sig.psarBuy[i - 1] || sig.psarBuy[back2])
    && sig.rsiBuy[i]
    && sig.macdBuy[i]
  }

  /** The deposit made when bar `month` starts a new calendar month. */
  function AddMonthly(st: BotState, month: int, monthlyAddition: real): BotState
  {
    if month != st.lastMonth then st.(acc := st.acc.(balance := st.acc.balance + monthlyAddition), lastMonth := month)
    else st
  }

  /** One pass of the loop at bar i: the deposit, then a buy, or else a sell on an Ichimoku sell while holding. */
  function BarStep(bars: seq<Bar>, sig: Signals, tradeSize: real, monthlyAddition: real, st: BotState, i: nat): BotState
    requires Aligned(sig, |bars|) && NonzeroCloses(bars) && 1 <= i < |bars|
  {
    var s := AddMonthly(st, bars[i].month, monthlyAddition);
    if BuySignal(sig, i, |bars|) && s.acc.position.Flat? then
      s.(acc := Open(s.acc, bars[i].close, tradeSize), buys := s.buys + [i])
    else if s.acc.position.Long? && sig.ichimokuSell[i] then
      s.(acc := Close(s.acc, bars[i].close), sells := s.sells + [i])
    else s
  }

  /** The state once bars 1..k-1 have been processed. */
  function RunTo(bars: seq<Bar>, sig: Signals, initialBalance: real, tradeSize: real, monthlyAddition: real, k: nat): BotState
    requires Aligned(sig, |bars|) && NonzeroCloses(bars) && 1 <= k <= |bars|
  {
    if k == 1 then BotState(Start(initialBalance), bars[0].month, [], [])
    else BarStep(bars, sig, tradeSize, monthlyAddition, RunTo(bars, sig, initialBalance, tradeSize, monthlyAddition, k - 1), k - 1)
  }

  /** What the simulation returns; an empty history has no first timestamp to read the month of. */
  function SimulationOf(bars: seq<Bar>, sig: Signals, initialBalance: real, tradeSize: real, monthlyAddition: real): Result<Summary, Failure>
    requires Aligned(sig, |bars|) && NonzeroCloses(bars)
  {
    if |bars| == 0 then Err(IndexError)
    else Ok(Summarize(RunTo(bars, sig, initialBalance, tradeSize, monthlyAddition, |bars|).acc))
  }

  /** The number of bars among 1..k-1 whose month differs from the previous bar's. */
  function MonthChanges(bars: seq<Bar>, k: nat): (c: nat)
    requires k <= |bars|
    ensures c + 1 <= k || k == 0
  {
    if k <= 1 then 0 else MonthChanges(bars, k - 1) + if bars[k - 1].month != bars[k - 2].month then 1 else 0
  }

  /**
   * The simulation loop, with the source's local variables. Returns the
   * summary and the bars at which buy and sell orders were executed.
   */
  method SimulateTrading(bars: seq<Bar>, sig: Signals, initialBalance: real, tradeSize: real, monthlyAddition: real)
    returns (r: Result<Summary, Failure>, executedBuys: seq<nat>, executedSells: seq<nat>)
    requires Aligned(sig, |bars|) && NonzeroCloses(bars)
    ensures r == SimulationOf(bars, sig, initialBalance, tradeSize, monthlyAddition)
    ensures |bars| == 0 ==> executedBuys == [] && executedSells == []
    ensures |bars| > 0 ==>
      var st := RunTo(bars, sig, initialBalance, tradeSize, monthlyAddition, |bars|);
      executedBuys == st.buys && executedSells == st.sells
  {
    if |bars| == 0 {
      return Err(IndexError), [], [];
    }
    var holding := false;
    var buyPrice := 0.0;
    var profits: seq<real> := [];
    var currentBalance := initialBalance;
    var btcQuantity := 0.0;
    var lastMonth := bars[0].month;
    executedBuys, executedSells := [], [];
    var n := |bars|;
    var i := 1;
    while i < n
      invariant 1 <= i <= n
      invariant RunTo(bars, sig, initialBalance, tradeSize, monthlyAddition, i) ==
        BotState(Account(currentBalance, if holding then Long(buyPrice, btcQuantity) else Flat, profits),
                 lastMonth, executedBuys, executedSells)
    {
      ghost var before := RunTo(bars, sig, initialBalance, tradeSize, monthlyAddition, i);
      ghost var deposited := AddMonthly(before, bars[i].month, monthlyAddition);
      var currentMonth := bars[i].month;
      if currentMonth != lastMonth {
        currentBalance := currentBalance + monthlyAddition;
        lastMonth := currentMonth;
      }
      assert deposited == BotState(Account(currentBalance, if holding then Long(buyPrice, btcQuantity) else Flat, profits),
                                   lastMonth, executedBuys, executedSells);
      var back2 := PyIndex(i - 2, n);
      if sig.ichimokuBuy[i]
        && (sig.obvBuy[i] || sig.obvBuy[i - 1] || sig.obvBuy[back2] || sig.obvBuy[back2])
        && (sig.psarBuy[i] || sig.psarBuy[i - 1] || sig.psarBuy[back2])
        && sig.rsiBuy[i]
        && sig.macdBuy[i]
        && !holding
      {
        var tradeValue := TradeValue(currentBalance, tradeSize);
        btcQuantity := Quantity(tradeValue, bars[i].close);
        holding := true;
        buyPrice := bars[i].close;
        currentBalance := currentBalance - tradeValue;
        executedBuys := executedBuys + [i];
        assert Account(currentBalance, Long(buyPrice, btcQuantity), profits) == Open(deposited.acc, bars[i].close, tradeSize);
      } else if holding {
        var sellCondition := sig.ichimokuSell[i];
        if sellCondition {
          holding := false;
          var sellPrice := bars[i].close;
          var profit := Profit(Long(buyPrice, btcQuantity), sellPrice);
          currentBalance := currentBalance + Proceeds(btcQuantity, sellPrice);
          profits := profits + [profit];
          executedSells := executedSells + [i];
        }
      }
      i := i + 1;
    }
    r := Ok(Summary(Sum(profits), currentBalance, WinPercentage(profits)));
  }

  // ---------------------------------------------------------------- the bot's script

  /** The confirmation columns the script computes, with its own parameters. */
  function BotSignals(bars: seq<Bar>): (sig: Signals)
    ensures Aligned(sig, |bars|)
  {
    var ichimoku := Ichimoku.GetIchimoku(bars, 8, 24, 50);
    Signals(ichimoku.buy, ichimoku.sell, Obv.ObvOf(bars).buy, Psar.SarOf(bars, 0.02, 0.2).buy,
      Rsi.GetRsi(bars, 12).buy, Macd.GetMacd(bars, 12, 21).buy)
  }

  const InitialBalance := 10000.0
  const TradeSize := 1.0
  const MonthlyAddition := 500.0

  /**
   * The script: indicators, then the simulation with a 10000 start, the
   * whole balance per trade and 500 a month. On an empty history no
   * indicator raises, but OBV gives the table a one-row integer index in
   * place of its empty timestamp index, so the simulation's first month
   * lookup fails on an integer (bot.py:39).
   */
  function BotRun(bars: seq<Bar>): Result<Summary, Failure>
    requires NonzeroCloses(bars)
  {
    if |bars| == 0 then Err(AttributeError)
    else SimulationOf(bars, BotSignals(bars), InitialBalance, TradeSize, MonthlyAddition)
  }

  // ---------------------------------------------------------------- lemmas

  /** After bar k-1 the remembered month is that bar's month. */
  lemma LastMonthTracks(bars: seq<Bar>, sig: Signals, initialBalance: real, tradeSize: real, monthlyAddition: real, k: nat)
    requires Aligned(sig, |bars|) && NonzeroCloses(bars) && 1 <= k <= |bars|
    ensures RunTo(bars, sig, initialBalance, tradeSize, monthlyAddition, k).lastMonth == bars[k - 1].month
  {
  }

  /** One bar changes cash plus position cost, less the closed trades' profits, by the deposit only. */
  lemma StepCommitted(bars: seq<Bar>, sig: Signals, tradeSize: real, monthlyAddition: real, st: BotState, i: nat)
    requires Aligned(sig, |bars|) && NonzeroCloses(bars) && 1 <= i < |bars|
    ensures var next := BarStep(bars, sig, tradeSize, monthlyAddition, st, i);
      Committed(next.acc) - Sum(next.acc.profits)
        == Committed(st.acc) - Sum(st.acc.profits) + (if bars[i].month != st.lastMonth then monthlyAddition else 0.0)
  {
    var s := AddMonthly(st, bars[i].month, monthlyAddition);
    if BuySignal(sig, i, |bars|) && s.acc.position.Flat? {
      OpenKeepsCommitted(s.acc, bars[i].close, tradeSize);
    } else if s.acc.position.Long? && sig.ichimokuSell[i] {
      CloseAddsProfit(s.acc, bars[i].close);
      var p := Close(s.acc, bars[i].close).profits;
      assert p[..|p| - 1] == s.acc.profits;
    }
  }

  /** The deposits made on bars 1..k-1, one per change of month. */
  function Deposits(bars: seq<Bar>, monthlyAddition: real, k: nat): real
    requires k <= |bars|
  {
    if k <= 1 then 0.0 else Deposits(bars, monthlyAddition, k - 1) + if bars[k - 1].month != bars[k - 2].month then monthlyAddition else 0.0
  }

  lemma {:induction false} DepositsCount(bars: seq<Bar>, monthlyAddition: real, k: nat)
    requires k <= |bars|
    ensures Deposits(bars, monthlyAddition, k) == monthlyAddition * MonthChanges(bars, k) as real
  {
    if k > 1 {
      DepositsCount(bars, monthlyAddition, k - 1);
      Distribute(monthlyAddition, MonthChanges(bars, k - 1) as real, 1.0);
    }
  }

  lemma {:induction false} CommittedMinusProfits(
    bars: seq<Bar>, sig: Signals, initialBalance: real, tradeSize: real, monthlyAddition: real, k: nat)
    requires Aligned(sig, |bars|) && NonzeroCloses(bars) && 1 <= k <= |bars|
    ensures var st := RunTo(bars, sig, initialBalance, tradeSize, monthlyAddition, k);
      Committed(st.acc) - Sum(st.acc.profits) == initialBalance + Deposits(bars, monthlyAddition, k)
  {
    if k > 1 {
      var prev := RunTo(bars, sig, initialBalance, tradeSize, monthlyAddition, k - 1);
      CommittedMinusProfits(bars, sig, initialBalance, tradeSize, monthlyAddition, k - 1);
      LastMonthTracks(bars, sig, initialBalance, tradeSize, monthlyAddition, k - 1);
      StepCommitted(bars, sig, tradeSize, monthlyAddition, prev, k - 1);
    }
  }

  /**
   * Cash plus the cost of the open position is the initial balance, one
   * deposit per month change and the profit of every closed trade.
   */
  lemma CommittedAccountsForEverything(
    bars: seq<Bar>, sig: Signals, initialBalance: real, tradeSize: real, monthlyAddition: real, k: nat)
    requires Aligned(sig, |bars|) && NonzeroCloses(bars) && 1 <= k <= |bars|
    ensures var st := RunTo(bars, sig, initialBalance, tradeSize, monthlyAddition, k);
      Committed(st.acc) == initialBalance + monthlyAddition * MonthChanges(bars, k) as real + Sum(st.acc.profits)
  {
    CommittedMinusProfits(bars, sig, initialBalance, tradeSize, monthlyAddition, k);
    DepositsCount(bars, monthlyAddition, k);
  }

  /** Orders alternate buy, sell, buy, ... at increasing bars before k; one profit per sell; a position is open iff a buy is unmatched, at that buy's close. */
  predicate Interleaved(bars: seq<Bar>, st: BotState, k: nat)
  {
    && |st.sells| == |st.acc.profits|
    && |st.buys| == |st.sells| + (if st.acc.position.Long? then 1 else 0)
    && (forall j :: 0 <= j < |st.sells| ==> st.buys[j] < st.sells[j])
    && (forall j :: 0 <= j < |st.buys| - 1 ==> st.sells[j] < st.buys[j + 1])
    && (forall j :: 0 <= j < |st.buys| ==> 1 <= st.buys[j] < k)
    && (forall j :: 0 <= j < |st.sells| ==> st.sells[j] < k)
    && (st.acc.position.Long? ==> st.buys[|st.buys| - 1] < |bars| && st.acc.position.buyPrice == bars[st.buys[|st.buys| - 1]].close)
  }

  lemma StepInterleaved(bars: seq<Bar>, sig: Signals, tradeSize: real, monthlyAddition: real, st: BotState, i: nat)
    requires Aligned(sig, |bars|) && NonzeroCloses(bars) && 1 <= i < |bars|
    requires Interleaved(bars, st, i)
    ensures Interleaved(bars, BarStep(bars, sig, tradeSize, monthlyAddition, st, i), i + 1)
  {
    var s := AddMonthly(st, bars[i].month, monthlyAddition);
    InterleavedAfterDeposit(bars, st, bars[i].month, monthlyAddition, i);
    if BuySignal(sig, i, |bars|) && s.acc.position.Flat? {
      InterleavedAfterBuy(bars, s, i, tradeSize);
    } else if s.acc.position.Long? && sig.ichimokuSell[i] {
      InterleavedAfterSell(bars, s, i);
    } else {
      InterleavedWiden(bars, s, i);
    }
  }

  lemma InterleavedAfterDeposit(bars: seq<Bar>, st: BotState, month: int, monthlyAddition: real, i: nat)
    requires Interleaved(bars, st, i)
    ensures Interleaved(bars, AddMonthly(st, month, monthlyAddition), i)
  {
  }

  lemma InterleavedWiden(bars: seq<Bar>, s: BotState, i: nat)
    requires Interleaved(bars, s, i)
    ensures Interleaved(bars, s, i + 1)
  {
  }

  lemma InterleavedAfterBuy(bars: seq<Bar>, s: BotState, i: nat, tradeSize: real)
    requires 1 <= i < |bars| && bars[i].close != 0.0 && s.acc.position.Flat?
    requires Interleaved(bars, s, i)
    ensures Interleaved(bars, s.(acc := Open(s.acc, bars[i].close, tradeSize), buys := s.buys + [i]), i + 1)
  {
  }

  lemma InterleavedAfterSell(bars: seq<Bar>, s: BotState, i: nat)
    requires 1 <= i < |bars| && s.acc.position.Long?
    requires Interleaved(bars, s, i)
    ensures Interleaved(bars, s.(acc := Close(s.acc, bars[i].close), sells := s.sells + [i]), i + 1)
  {
  }

  lemma {:induction false} OrdersInterleave(
    bars: seq<Bar>, sig: Signals, initialBalance: real, tradeSize: real, monthlyAddition: real, k: nat)
    requires Aligned(sig, |bars|) && NonzeroCloses(bars) && 1 <= k <= |bars|
    ensures Interleaved(bars, RunTo(bars, sig, initialBalance, tradeSize, monthlyAddition, k), k)
  {
    if k > 1 {
      OrdersInterleave(bars, sig, initialBalance, tradeSize, monthlyAddition, k - 1);
      StepInterleaved(bars, sig, tradeSize, monthlyAddition, RunTo(bars, sig, initialBalance, tradeSize, monthlyAddition, k - 1), k - 1);
    }
  }

  /** With positive closes, a trade size in [0, 1] and non-negative balance and deposits, cash and holding never go negative. */
  lemma {:induction false} StaysSolvent(
    bars: seq<Bar>, sig: Signals, initialBalance: real, tradeSize: real, monthlyAddition: real, k: nat)
    requires Aligned(sig, |bars|) && NonzeroCloses(bars) && 1 <= k <= |bars|
    requires forall j :: 0 <= j < |bars| ==> 0.0 < bars[j].close
    requires 0.0 <= tradeSize <= 1.0 && 0.0 <= initialBalance && 0.0 <= monthlyAddition
    ensures var acc := RunTo(bars, sig, initialBalance, tradeSize, monthlyAddition, k).acc;
      0.0 <= acc.balance && (acc.position.Long? ==> 0.0 <= acc.position.quantity)
  {
    if k > 1 {
      StaysSolvent(bars, sig, initialBalance, tradeSize, monthlyAddition, k - 1);
      var prev := RunTo(bars, sig, initialBalance, tradeSize, monthlyAddition, k - 1);
      TradesStaySolvent(AddMonthly(prev, bars[k - 1].month, monthlyAddition).acc, bars[k - 1].close, tradeSize);
    }
  }

  /** Without a single Ichimoku buy no trade happens: the balance is the initial one plus the deposits. */
  lemma {:induction false} NoBuyNoTrade(
    bars: seq<Bar>, sig: Signals, initialBalance: real, tradeSize: real, monthlyAddition: real, k: nat)
    requires Aligned(sig, |bars|) && NonzeroCloses(bars) && 1 <= k <= |bars|
    requires forall j :: 0 <= j < |bars| ==> !sig.ichimokuBuy[j]
    ensures var st := RunTo(bars, sig, initialBalance, tradeSize, monthlyAddition, k);
      && st.acc.position.Flat? && st.acc.profits == [] && st.buys == [] && st.sells == []
      && st.acc.balance == initialBalance + monthlyAddition * MonthChanges(bars, k) as real
  {
    if k > 1 {
      NoBuyNoTrade(bars, sig, initialBalance, tradeSize, monthlyAddition, k - 1);
    }
    CommittedAccountsForEverything(bars, sig, initialBalance, tradeSize, monthlyAddition, k);
  }

  /** At bar 1 the rule looks at the last bar of the history as the bar "two back". */
  lemma SecondBarReadsLastBar(sig: Signals, n: nat)
    requires Aligned(sig, n) && 2 <= n
    ensures BuySignal(sig, 1, n) <==>
      && sig.ichimokuBuy[1]
      && (sig.obvBuy[1] || sig.obvBuy[0] || sig.obvBuy[n - 1])
      && (sig.psarBuy[1] || sig.psarBuy[0] || sig.psarBuy[n - 1])
      && sig.rsiBuy[1] && sig.macdBuy[1]
  {
  }

  /**
   * Three bars, the last one in a new month: a buy at 100 on bar 1 with the
   * whole balance, then on bar 2 a 500 deposit and a sell at 110. The trade
   * gains 1000, the final balance is 500 + 11000, and every trade won.
   */
  lemma WorkedExample()
    ensures var bars := [Bar(100.0, 100.0, 100.0, 1.0, 1), Bar(100.0, 100.0, 100.0, 1.0, 1), Bar(110.0, 110.0, 110.0, 1.0, 2)];
      var sig := Signals([false, true, false], [false, false, true], [false, true, false],
                         [false, true, false], [false, true, false], [false, true, false]);
      SimulationOf(bars, sig, 10000.0, 1.0, 500.0) == Ok(Summary(1000.0, 11500.0, 100.0))
  {
    var bars := [Bar(100.0, 100.0, 100.0, 1.0, 1), Bar(100.0, 100.0, 100.0, 1.0, 1), Bar(110.0, 110.0, 110.0, 1.0, 2)];
    var sig := Signals([false, true, false], [false, false, true], [false, true, false],
                       [false, true, false], [false, true, false], [false, true, false]);
    assert BuySignal(sig, 1, 3);
    var s2 := RunTo(bars, sig, 10000.0, 1.0, 500.0, 2);
    assert s2.acc == Account(0.0, Long(100.0, 100.0), []) && s2.lastMonth == 1;
    var s3 := RunTo(bars, sig, 10000.0, 1.0, 500.0, 3);
    assert s3.acc == Account(11500.0, Flat, [1000.0]);
    assert Wins([1000.0]) == 1;
  }

  /**
   * The script fails, with AttributeError, exactly on an empty history.
   * Otherwise it is the simulation with a 10000 start, the whole balance per
   * trade and 500 a month; when it ends without an open position, its final
   * balance is the start, 500 per month change and the total profit.
   */
  lemma BotRunMeaning(bars: seq<Bar>)
    requires NonzeroCloses(bars)
    ensures BotRun(bars).Err? <==> |bars| == 0
    ensures |bars| == 0 ==> BotRun(bars) == Err(AttributeError)
    ensures |bars| > 0 ==> BotRun(bars) == SimulationOf(bars, BotSignals(bars), 10000.0, 1.0, 500.0)
    ensures |bars| > 0 && RunTo(bars, BotSignals(bars), 10000.0, 1.0, 500.0, |bars|).acc.position.Flat? ==>
      BotRun(bars).value.finalBalance == 10000.0 + 500.0 * MonthChanges(bars, |bars|) as real + BotRun(bars).value.totalProfit
  {
    if |bars| > 0 {
      CommittedAccountsForEverything(bars, BotSignals(bars), InitialBalance, TradeSize, MonthlyAddition, |bars|);
    }
  }
}
