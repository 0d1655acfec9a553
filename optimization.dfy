/**
 * The optimisation script: `backtest_strategy` runs a one-unit long-only
 * strategy over every symbol's history for one parameter candidate, and
 * the grid loop keeps the first candidate whose total balance is strictly
 * the largest.
 */
module Optimization {
  import opened Wrappers
  import opened Frame
  import opened ParamGrid
  import Ichimoku
  import Rsi
  import Macd
  import Psar

  /** Every symbol starts with this balance. */
  const StartingBalance := 10000.0

  /** The per-symbol loop starts at this bar. */
  const FirstBar := 2

  /** The confirmation columns of one symbol's concatenated table that the strategy reads. */
  datatype SymbolData = SymbolData(
    bars: seq<Bar>, ichimokuBuy: seq<bool>, ichimokuSell: seq<bool>, rsiBuy: seq<bool>, macdBuy: seq<bool>)

  /** A symbol's running state: the buy price while a position is open, and the balance. */
  datatype Holding = Holding(buyPrice: Option<real>, balance: real)

  /** The best total seen so far and the position of the candidate that reached it. */
  datatype Choice = Choice(best: real, index: Option<nat>)

  /** What the script reports: `best_balance` and `best_params`. */
  datatype Outcome = Outcome(bestBalance: real, bestParams: Option<Params>)

  /** The rolling windows of every indicator are at least one bar long. */
  predicate Usable(p: Params)
  {
    1 <= p.shortPeriod && 1 <= p.mediumPeriod && 1 <= p.longPeriod && 1 <= p.rsiPeriod
    && 1 <= p.macdFastPeriod && 1 <= p.macdSlowPeriod
  }

  predicate Aligned(d: SymbolData)
  {
    |d.ichimokuBuy| == |d.ichimokuSell| == |d.rsiBuy| == |d.macdBuy| == |d.bars|
  }

  /**
   * The indicator columns concatenated to one history. The MACD signal
   * period of the candidate is not passed on: the MACD indicator fixes
   * its signal span.
   */
  function FramesOf(bars: seq<Bar>, p: Params): (d: SymbolData)
    requires Usable(p)
    ensures Aligned(d) && d.bars == bars
  {
    var ichimoku := Ichimoku.GetIchimoku(bars, p.shortPeriod, p.mediumPeriod, p.longPeriod);
    SymbolData(bars, ichimoku.buy, ichimoku.sell,
      Rsi.GetRsi(bars, p.rsiPeriod).buy, Macd.GetMacd(bars, p.macdFastPeriod, p.macdSlowPeriod).buy)
  }

  /** The first three confirmations of the buy condition, all read from the symbol's own table. */
  predicate OwnConfirmations(d: SymbolData, i: nat)
    requires Aligned(d) && i < |d.bars|
  {
    d.ichimokuBuy[i] && d.rsiBuy[i] && d.macdBuy[i]
  }

  /**
   * The buy condition at bar i, evaluated left to right with short
   * circuit: the PSAR column is read only when the first three hold, and
   * reading row i of a shorter PSAR column raises.
   */
  function BuyCondition(d: SymbolData, psar: seq<bool>, i: nat): Result<bool, Failure>
    requires Aligned(d) && FirstBar <= i < |d.bars|
  {
    if !OwnConfirmations(d, i) then Ok(false)
    else if i >= |psar| then Err(IndexError)
    else Ok(psar[i] || psar[i - 1] || psar[i - 2])
  }

  /** One bar: open at the close when flat and the condition holds, otherwise close on an Ichimoku sell. */
  function SymbolStep(d: SymbolData, psar: seq<bool>, h: Holding, i: nat): Result<Holding, Failure>
    requires Aligned(d) && FirstBar <= i < |d.bars|
  {
    match BuyCondition(d, psar, i)
    case Err(e) => Err(e)
    case Ok(buy) =>
      if buy && h.buyPrice.None? then Ok(Holding(Some(d.bars[i].close), h.balance))
      else if h.buyPrice.Some? && d.ichimokuSell[i] then Ok(Holding(None, h.balance + d.bars[i].close - h.buyPrice.value))
      else Ok(h)
  }

  /** The state after bars FirstBar..k-1, or the error of the first bar that raises. */
  function SymbolRunTo(d: SymbolData, psar: seq<bool>, k: nat): Result<Holding, Failure>
    requires Aligned(d) && k <= |d.bars|
    decreases k
  {
    if k <= FirstBar then Ok(Holding(None, StartingBalance))
    else
      match SymbolRunTo(d, psar, k - 1)
      case Err(e) => Err(e)
      case Ok(h) => SymbolStep(d, psar, h, k - 1)
  }

  /** A symbol's final balance; an open position is not counted. */
  function SymbolBalance(d: SymbolData, psar: seq<bool>): Result<real, Failure>
    requires Aligned(d)
  {
    match SymbolRunTo(d, psar, |d.bars|)
    case Err(e) => Err(e)
    case Ok(h) => Ok(h.balance)
  }

  predicate AllAligned(data: seq<SymbolData>)
  {
    forall j :: 0 <= j < |data| ==> Aligned(data[j])
  }

  /** The balances of the first k symbols, in order, all traded against the same PSAR column. */
  function BalancesUpTo(data: seq<SymbolData>, psar: seq<bool>, k: nat): (r: Result<seq<real>, Failure>)
    requires AllAligned(data) && k <= |data|
    ensures r.Ok? ==>
      |r.value| == k && forall j :: 0 <= j < k ==> SymbolBalance(data[j], psar) == Ok(r.value[j])
    decreases k
  {
    if k == 0 then Ok([])
    else
      match BalancesUpTo(data, psar, k - 1)
      case Err(e) => Err(e)
      case Ok(b) =>
        match SymbolBalance(data[k - 1], psar)
        case Err(e) => Err(e)
        case Ok(x) => Ok(b + [x])
  }

  /** The first loop's tables, one per history. */
  function Frames(histories: seq<seq<Bar>>, p: Params): (data: seq<SymbolData>)
    requires Usable(p)
    ensures |data| == |histories| && AllAligned(data)
    ensures forall j :: 0 <= j < |histories| ==> data[j] == FramesOf(histories[j], p)
  {
    seq(|histories|, j requires 0 <= j < |histories| => FramesOf(histories[j], p))
  }

  /** Some history has no bars; the PSAR indicator raises on it. */
  predicate SomeEmpty(histories: seq<seq<Bar>>)
  {
    exists j :: 0 <= j < |histories| && |histories[j]| == 0
  }

  /** The PSAR buy column left over from the first loop: the last symbol's. */
  function LastPsar(histories: seq<seq<Bar>>, p: Params): (c: seq<bool>)
    requires |histories| > 0
    ensures |c| == |histories[|histories| - 1]|
  {
    Psar.SarOf(histories[|histories| - 1], p.psarStep, p.psarMaxStep).buy
  }

  /** `backtest_strategy`: the balances per symbol, or the error that aborts it. */
  function BalancesOf(histories: seq<seq<Bar>>, p: Params): Result<seq<real>, Failure>
    requires Usable(p)
  {
    if SomeEmpty(histories) then Err(IndexError)
    else if |histories| == 0 then Ok([])
    else BalancesUpTo(Frames(histories, p), LastPsar(histories, p), |histories|)
  }

  /** A candidate's fitness: the sum of its balances. */
  function Fitness(histories: seq<seq<Bar>>, p: Params): Result<real, Failure>
    requires Usable(p)
  {
    match BalancesOf(histories, p)
    case Err(e) => Err(e)
    case Ok(b) => Ok(Sum(b))
  }

  /** Every candidate's fitness, in grid order. */
  function Scores(histories: seq<seq<Bar>>): (s: seq<Result<real, Failure>>)
    ensures |s| == Size && forall k :: 0 <= k < Size ==> s[k] == Fitness(histories, Grid()[k])
  {
    seq(Size, k requires 0 <= k < Size => Fitness(histories, Grid()[k]))
  }

  /** The totals of a run of candidates in order, or the error of the first that raises. */
  function Collect(rs: seq<Result<real, Failure>>): (r: Result<seq<real>, Failure>)
    ensures r.Ok? ==> |r.value| == |rs|
    decreases |rs|
  {
    if rs == [] then Ok([])
    else
      match Collect(rs[..|rs| - 1])
      case Err(e) => Err(e)
      case Ok(t) =>
        match rs[|rs| - 1]
        case Err(e) => Err(e)
        case Ok(x) => Ok(t + [x])
  }

  /** The update of the best result: only a strictly greater total replaces it. */
  function Improve(c: Choice, total: real, k: nat): Choice
  {
    if total > c.best then Choice(total, Some(k)) else c
  }

  /** The reduction over the totals in order, from a best balance of 0 and no parameters. */
  function Reduce(totals: seq<real>): (c: Choice)
    ensures c.index.Some? ==> c.index.value < |totals|
    decreases |totals|
  {
    if totals == [] then Choice(0.0, None)
    else Improve(Reduce(totals[..|totals| - 1]), totals[|totals| - 1], |totals| - 1)
  }

  /** The grid search over the candidates' results in grid order. */
  function Search(rs: seq<Result<real, Failure>>): Result<Outcome, Failure>
    requires |rs| == Size
  {
    match Collect(rs)
    case Err(e) => Err(e)
    case Ok(t) =>
      Ok(Chosen(Reduce(t)))
  }

  /** The reported result of a reduction: the best total and the candidate at the chosen position. */
  function Chosen(c: Choice): Outcome
    requires c.index.Some? ==> c.index.value < Size
  {
    Outcome(c.best, if c.index.Some? then Some(Grid()[c.index.value]) else None)
  }

  /** The script's result: the grid search, or the error that aborts it. */
  function OptimizationOf(histories: seq<seq<Bar>>): Result<Outcome, Failure>
  {
    Search(Scores(histories))
  }

  // --------------------------------------------------------------- methods

  /** The trading loop of one symbol, against the given PSAR buy column. */
  method BacktestSymbol(d: SymbolData, psar: seq<bool>) returns (r: Result<real, Failure>)
    requires Aligned(d)
    ensures r == SymbolBalance(d, psar)
  {
    var held := false;
    var buyPrice := 0.0;
    var balance := StartingBalance;
    var i := FirstBar;
    while i < |d.bars|
      invariant FirstBar <= i && (i <= |d.bars| || i == FirstBar)
      invariant SymbolRunTo(d, psar, if i <= |d.bars| then i else |d.bars|)
        == Ok(Holding(if held then Some(buyPrice) else None, balance))
    {
      var buyCondition := d.ichimokuBuy[i] && d.rsiBuy[i] && d.macdBuy[i];
      if buyCondition {
        if i >= |psar| {
          SymbolErrorPersists(d, psar, i + 1, |d.bars|);
          return Err(IndexError);
        }
        buyCondition := psar[i] || psar[i - 1] || psar[i - 2];
      }
      if buyCondition && !held {
        held := true;
        buyPrice := d.bars[i].close;
      } else if held {
        if d.ichimokuSell[i] {
          balance := balance + d.bars[i].close - buyPrice;
          held := false;
        }
      }
      i := i + 1;
    }
    r := Ok(balance);
  }

  /**
   * The first loop of `backtest_strategy`: the indicator tables of every
   * symbol, and the PSAR column, which each symbol overwrites so that the
   * last one's is left. PSAR fails on the first empty history.
   */
  method PrepareSymbols(histories: seq<seq<Bar>>, p: Params) returns (r: Result<seq<bool>, Failure>, data: seq<SymbolData>)
    requires Usable(p)
    ensures r.Err? <==> SomeEmpty(histories)
    ensures r.Err? ==> r.error == IndexError
    ensures r.Ok? ==> data == Frames(histories, p)
    ensures r.Ok? && |histories| > 0 ==> r.value == LastPsar(histories, p)
  {
    data := [];
    var psar: seq<bool> := [];
    var j := 0;
    while j < |histories|
      invariant j <= |histories| && |data| == j
      invariant forall m :: 0 <= m < j ==> |histories[m]| > 0 && data[m] == FramesOf(histories[m], p)
      invariant j > 0 ==> psar == Psar.SarOf(histories[j - 1], p.psarStep, p.psarMaxStep).buy
    {
      var sar := Psar.GetParabolicSar(histories[j], p.psarStep, p.psarMaxStep);
      if sar.Err? {
        assert |histories[j]| == 0;
        return Err(sar.error), data;
      }
      psar := sar.value.buy;
      data := data + [FramesOf(histories[j], p)];
      j := j + 1;
    }
    assert !SomeEmpty(histories);
    r := Ok(psar);
  }

  /** The second loop: every symbol traded in turn; the first failure ends the backtest. */
  method TradeSymbols(data: seq<SymbolData>, psar: seq<bool>) returns (r: Result<seq<real>, Failure>)
    requires AllAligned(data)
    ensures r == BalancesUpTo(data, psar, |data|)
  {
    var balances: seq<real> := [];
    var j := 0;
    while j < |data|
      invariant j <= |data|
      invariant BalancesUpTo(data, psar, j) == Ok(balances)
    {
      var b := BacktestSymbol(data[j], psar);
      BalancesStep(data, psar, j, balances);
      if b.Err? {
        BalancesErrorPersists(data, psar, j + 1, |data|);
        return Err(b.error);
      }
      balances := balances + [b.value];
      j := j + 1;
    }
    r := Ok(balances);
  }

  /** `backtest_strategy` for one candidate: the balance of every symbol, in order. */
  method BacktestStrategy(histories: seq<seq<Bar>>, p: Params) returns (r: Result<seq<real>, Failure>)
    requires Usable(p)
    ensures r == BalancesOf(histories, p)
  {
    var psar, data := PrepareSymbols(histories, p);
    if psar.Err? {
      return Err(psar.error);
    }
    r := TradeSymbols(data, psar.value);
  }

  /** The k-th candidate of the grid: the backtest over all symbols and the sum of their balances. */
  method CandidateFitness(histories: seq<seq<Bar>>, grid: seq<Params>, k: nat) returns (r: Result<real, Failure>)
    requires grid == Grid() && k < Size
    ensures r == Scores(histories)[k]
  {
    var balances := BacktestStrategy(histories, grid[k]);
    if balances.Err? {
      return Err(balances.error);
    }
    r := Ok(Sum(balances.value));
  }

  /** The grid loop: every candidate in order, keeping the first strictly best total. */
  method Optimize(histories: seq<seq<Bar>>) returns (r: Result<Outcome, Failure>)
    ensures r == OptimizationOf(histories)
  {
    var grid := Grid();
    var bestBalance := 0.0;
    var bestParams: Option<Params> := None;
    ghost var scores := Scores(histories);
    ghost var totals: seq<real> := [];
    var k := 0;
    while k < Size
      invariant k <= Size && Collect(scores[..k]) == Ok(totals)
      invariant Outcome(bestBalance, bestParams) == Chosen(Reduce(totals))
    {
      var fitness := CandidateFitness(histories, grid, k);
      SearchStep(scores, k, totals);
      if fitness.Err? {
        return Err(fitness.error);
      }
      totals := totals + [fitness.value];
      if fitness.value > bestBalance {
        bestBalance := fitness.value;
        bestParams := Some(grid[k]);
      }
      k := k + 1;
    }
    SearchDone(scores, totals);
    r := Ok(Outcome(bestBalance, bestParams));
  }

  // ---------------------------------------------------------------- lemmas

  /** An error on a bar ends the symbol's run: every later state is that error. */
  lemma {:induction false} SymbolErrorPersists(d: SymbolData, psar: seq<bool>, k: nat, n: nat)
    requires Aligned(d) && k <= n <= |d.bars| && SymbolRunTo(d, psar, k).Err?
    ensures SymbolRunTo(d, psar, n) == SymbolRunTo(d, psar, k)
    decreases n - k
  {
    if k < n {
      SymbolErrorPersists(d, psar, k + 1, n);
    }
  }

  /** One more symbol: its balance is appended, or its error ends the strategy. */
  lemma BalancesStep(data: seq<SymbolData>, psar: seq<bool>, j: nat, balances: seq<real>)
    requires AllAligned(data) && j < |data| && BalancesUpTo(data, psar, j) == Ok(balances)
    ensures SymbolBalance(data[j], psar).Ok? ==>
      BalancesUpTo(data, psar, j + 1) == Ok(balances + [SymbolBalance(data[j], psar).value])
    ensures SymbolBalance(data[j], psar).Err? ==> BalancesUpTo(data, psar, j + 1) == Err(SymbolBalance(data[j], psar).error)
  {
  }

  /** An error on a symbol ends the strategy: the later symbols are not traded. */
  lemma {:induction false} BalancesErrorPersists(data: seq<SymbolData>, psar: seq<bool>, k: nat, n: nat)
    requires AllAligned(data) && k <= n <= |data| && BalancesUpTo(data, psar, k).Err?
    ensures BalancesUpTo(data, psar, n) == BalancesUpTo(data, psar, k)
    decreases n - k
  {
    if k < n {
      BalancesErrorPersists(data, psar, k + 1, n);
    }
  }

  /** One more candidate: its total is appended, or its error ends the search. */
  lemma CollectExtend(rs: seq<Result<real, Failure>>, k: nat, totals: seq<real>)
    requires k < |rs| && Collect(rs[..k]) == Ok(totals)
    ensures rs[k].Ok? ==> Collect(rs[..k + 1]) == Ok(totals + [rs[k].value])
    ensures rs[k].Err? ==> Collect(rs[..k + 1]) == Err(rs[k].error)
  {
    assert rs[..k + 1][..k] == rs[..k];
  }

  /** An error on a candidate ends the grid search. */
  lemma {:induction false} CollectErrorPersists(rs: seq<Result<real, Failure>>, k: nat, n: nat)
    requires k <= n <= |rs| && Collect(rs[..k]).Err?
    ensures Collect(rs[..n]) == Collect(rs[..k])
    decreases n - k
  {
    if k < n {
      assert rs[..k + 1][..k] == rs[..k];
      CollectErrorPersists(rs, k + 1, n);
    }
  }

  /** One candidate of the grid loop: its error is the search's result, or its total extends the totals and updates the best one. */
  lemma SearchStep(rs: seq<Result<real, Failure>>, k: nat, totals: seq<real>)
    requires |rs| == Size && k < Size && Collect(rs[..k]) == Ok(totals)
    ensures rs[k].Err? ==> Search(rs) == Err(rs[k].error)
    ensures rs[k].Ok? ==>
      && Collect(rs[..k + 1]) == Ok(totals + [rs[k].value])
      && Reduce(totals + [rs[k].value]) == Improve(Reduce(totals), rs[k].value, k)
  {
    CollectExtend(rs, k, totals);
    if rs[k].Err? {
      CollectErrorPersists(rs, k + 1, Size);
      assert rs[..Size] == rs;
    } else {
      assert (totals + [rs[k].value])[..|totals|] == totals;
    }
  }

  /** The end of the grid loop: every total was collected, and the reduction is the result. */
  lemma SearchDone(rs: seq<Result<real, Failure>>, totals: seq<real>)
    requires |rs| == Size && Collect(rs[..Size]) == Ok(totals)
    ensures Search(rs) == Ok(Chosen(Reduce(totals)))
  {
    assert rs[..Size] == rs;
  }

  /**
   * One bar of a symbol: a buy happens only when flat, at the close, with
   * all four confirmations; a sell only when long, on an Ichimoku sell,
   * adding sell price minus buy price; otherwise nothing changes. The bar
   * raises exactly when the first three hold and the PSAR column is too short.
   */
  lemma SymbolStepLaws(d: SymbolData, psar: seq<bool>, h: Holding, i: nat)
    requires Aligned(d) && FirstBar <= i < |d.bars|
    ensures SymbolStep(d, psar, h, i).Err? <==> OwnConfirmations(d, i) && i >= |psar|
    ensures SymbolStep(d, psar, h, i).Err? ==> SymbolStep(d, psar, h, i).error == IndexError
    ensures SymbolStep(d, psar, h, i).Ok? ==>
      var next := SymbolStep(d, psar, h, i).value;
      && (h.buyPrice.None? && next.buyPrice.Some? ==>
            OwnConfirmations(d, i) && (psar[i] || psar[i - 1] || psar[i - 2])
            && next == Holding(Some(d.bars[i].close), h.balance))
      && (h.buyPrice.Some? && next.buyPrice.None? ==>
            d.ichimokuSell[i] && next.balance == h.balance + d.bars[i].close - h.buyPrice.value)
      && (h.buyPrice.None? == next.buyPrice.None? ==> next == h)
  {
  }

  /** A symbol raises exactly when, on some bar from the second on, its first three confirmations hold beyond the end of the PSAR column. */
  lemma {:induction false} SymbolFailsIff(d: SymbolData, psar: seq<bool>, k: nat)
    requires Aligned(d) && k <= |d.bars|
    ensures SymbolRunTo(d, psar, k).Err? <==> exists i :: FirstBar <= i < k && OwnConfirmations(d, i) && i >= |psar|
    ensures SymbolRunTo(d, psar, k).Err? ==> SymbolRunTo(d, psar, k).error == IndexError
    decreases k
  {
    if k > FirstBar {
      SymbolFailsIff(d, psar, k - 1);
      if SymbolRunTo(d, psar, k - 1).Ok? {
        SymbolStepLaws(d, psar, SymbolRunTo(d, psar, k - 1).value, k - 1);
      }
    }
  }

  /** Without an Ichimoku sell confirmation no position is ever closed, and the balance stays at its start. */
  lemma {:induction false} NoSellKeepsStart(d: SymbolData, psar: seq<bool>, k: nat)
    requires Aligned(d) && k <= |d.bars|
    requires forall i :: FirstBar <= i < k ==> !d.ichimokuSell[i]
    ensures SymbolRunTo(d, psar, k).Ok? ==> SymbolRunTo(d, psar, k).value.balance == StartingBalance
    decreases k
  {
    if k > FirstBar {
      NoSellKeepsStart(d, psar, k - 1);
    }
  }

  /** The balances are in symbol order, each from that symbol's own confirmations and the last symbol's PSAR column. */
  lemma BacktestBalances(histories: seq<seq<Bar>>, p: Params)
    requires Usable(p)
    ensures BalancesOf(histories, p).Ok? ==>
      var b := BalancesOf(histories, p).value;
      && |b| == |histories|
      && forall j :: 0 <= j < |histories| ==> SymbolBalance(FramesOf(histories[j], p), LastPsar(histories, p)) == Ok(b[j])
  {
  }

  /** The first k symbols have balances exactly when none of them raises. */
  lemma {:induction false} BalancesFailIff(data: seq<SymbolData>, psar: seq<bool>, k: nat)
    requires AllAligned(data) && k <= |data|
    ensures BalancesUpTo(data, psar, k).Err? <==> exists j :: 0 <= j < k && SymbolBalance(data[j], psar).Err?
    ensures BalancesUpTo(data, psar, k).Err? ==> BalancesUpTo(data, psar, k).error == IndexError
    decreases k
  {
    if k > 0 {
      BalancesFailIff(data, psar, k - 1);
      SymbolFailsIff(data[k - 1], psar, |data[k - 1].bars|);
    }
  }

  /**
   * `backtest_strategy` raises exactly when some history is empty, or a
   * symbol's first three confirmations hold on a bar the last symbol's
   * history does not have.
   */
  lemma BacktestFailsIff(histories: seq<seq<Bar>>, p: Params)
    requires Usable(p)
    ensures BalancesOf(histories, p).Err? <==>
      || SomeEmpty(histories)
      || exists j, i :: 0 <= j < |histories| && FirstBar <= i < |histories[j]|
           && OwnConfirmations(FramesOf(histories[j], p), i) && i >= |histories[|histories| - 1]|
    ensures BalancesOf(histories, p).Err? ==> BalancesOf(histories, p).error == IndexError
  {
    if !SomeEmpty(histories) && |histories| > 0 {
      var psar := LastPsar(histories, p);
      var data := Frames(histories, p);
      assert BalancesOf(histories, p) == BalancesUpTo(data, psar, |data|);
      BalancesFailIff(data, psar, |data|);
      if BalancesOf(histories, p).Err? {
        var j :| 0 <= j < |data| && SymbolBalance(data[j], psar).Err?;
        var d := data[j];
        SymbolFailsIff(d, psar, |d.bars|);
        var i :| FirstBar <= i < |d.bars| && OwnConfirmations(d, i) && i >= |psar|;
        assert FirstBar <= i < |histories[j]| && OwnConfirmations(FramesOf(histories[j], p), i);
      }
      if exists j, i :: 0 <= j < |histories| && FirstBar <= i < |histories[j]|
           && OwnConfirmations(FramesOf(histories[j], p), i) && i >= |histories[|histories| - 1]| {
        var j, i :| 0 <= j < |histories| && FirstBar <= i < |histories[j]|
          && OwnConfirmations(FramesOf(histories[j], p), i) && i >= |histories[|histories| - 1]|;
        var d := data[j];
        SymbolFailsIff(d, psar, |d.bars|);
        assert SymbolBalance(d, psar).Err?;
      }
    }
  }

  /** Histories of one common, non-zero length never raise. */
  lemma EqualLengthsNeverFail(histories: seq<seq<Bar>>, p: Params, n: nat)
    requires Usable(p) && 1 <= n
    requires forall j :: 0 <= j < |histories| ==> |histories[j]| == n
    ensures BalancesOf(histories, p).Ok?
  {
    BacktestFailsIff(histories, p);
  }

  /**
   * The reduction keeps the first strict maximum above 0: the best total is
   * never negative, there is no winner exactly when no total exceeds 0, and
   * the winner's total is the best, no total beats it and every earlier
   * total is strictly smaller.
   */
  lemma {:induction false} ReduceFindsFirstMaximum(totals: seq<real>)
    ensures Reduce(totals).best >= 0.0
    ensures Reduce(totals).index.None? <==> forall j :: 0 <= j < |totals| ==> totals[j] <= 0.0
    ensures Reduce(totals).index.None? ==> Reduce(totals).best == 0.0
    ensures Reduce(totals).index.Some? ==>
      var k := Reduce(totals).index.value;
      && totals[k] == Reduce(totals).best
      && (forall j :: 0 <= j < |totals| ==> totals[j] <= totals[k])
      && (forall j :: 0 <= j < k ==> totals[j] < totals[k])
    decreases |totals|
  {
    if totals != [] {
      var front := totals[..|totals| - 1];
      ReduceFindsFirstMaximum(front);
      assert forall j :: 0 <= j < |front| ==> front[j] == totals[j];
    }
  }

  /** The totals exist exactly when no candidate raises, and are then the candidates' values in order; otherwise the error is that of the first candidate that raises. */
  lemma {:induction false} CollectMeaning(rs: seq<Result<real, Failure>>)
    ensures Collect(rs).Ok? <==> forall j :: 0 <= j < |rs| ==> rs[j].Ok?
    ensures Collect(rs).Ok? ==> forall j :: 0 <= j < |rs| ==> Collect(rs).value[j] == rs[j].value
    ensures Collect(rs).Err? ==>
      exists j :: 0 <= j < |rs| && rs[j] == Err(Collect(rs).error) && forall m :: 0 <= m < j ==> rs[m].Ok?
    decreases |rs|
  {
    if rs != [] {
      var front := rs[..|rs| - 1];
      CollectMeaning(front);
      assert forall j :: 0 <= j < |front| ==> front[j] == rs[j];
    }
  }

  /**
   * The grid search: it fails exactly when some candidate raises, with the
   * error of the first; otherwise the best balance is at least 0,
   * `best_params` stays `None` exactly when no total exceeds 0, and the
   * chosen candidate has the best total, no candidate beats it and every
   * earlier candidate is strictly worse.
   */
  lemma SearchFindsFirstBest(rs: seq<Result<real, Failure>>)
    requires |rs| == Size
    ensures Search(rs).Err? <==> exists k :: 0 <= k < Size && rs[k].Err?
    ensures Search(rs).Err? ==>
      exists k :: 0 <= k < Size && rs[k] == Err(Search(rs).error) && forall m :: 0 <= m < k ==> rs[m].Ok?
    ensures Search(rs).Ok? ==>
      var o := Search(rs).value;
      && o.bestBalance >= 0.0
      && (forall k :: 0 <= k < Size ==> rs[k].Ok?)
      && (o.bestParams.None? <==> forall k :: 0 <= k < Size ==> rs[k].value <= 0.0)
    ensures Search(rs).Ok? && Search(rs).value.bestParams.Some? ==>
      var o := Search(rs).value;
      exists k :: 0 <= k < Size && Grid()[k] == o.bestParams.value && rs[k] == Ok(o.bestBalance)
        && (forall j :: 0 <= j < Size ==> rs[j].value <= o.bestBalance)
        && (forall j :: 0 <= j < k ==> rs[j].value < o.bestBalance)
  {
    CollectMeaning(rs);
    if Collect(rs).Ok? {
      ReduceFindsFirstMaximum(Collect(rs).value);
    }
  }
}
