/**
 * The cash-and-position bookkeeping shared by the rule-driven backtest and
 * the prediction-driven one: opening a position with a fraction of the
 * balance, closing it at the bar's close, and the closing summary.
 */
module Ledger {
  import opened Frame

  /** No position, or one opened at `buyPrice` for `quantity` units. */
  datatype Position = Flat | Long(buyPrice: real, quantity: real)

  datatype Account = Account(balance: real, position: Position, profits: seq<real>)

  /** What the backtest returns: total gain, final balance and the share of winning trades in percent. */
  datatype Summary = Summary(totalProfit: real, finalBalance: real, winPercentage: real)

  function Start(balance: real): Account
  {
    Account(balance, Flat, [])
  }

  /** `balance * trade_size`: the cash put into one trade. */
  function TradeValue(balance: real, tradeSize: real): real
  {
    balance * tradeSize
  }

  /** `trade_value / close`: the units bought. */
  function Quantity(tradeValue: real, price: real): real
    requires price != 0.0
  {
    tradeValue / price
  }

  /** `quantity * sell_price`: the cash a sale returns. */
  function Proceeds(quantity: real, price: real): real
  {
    quantity * price
  }

  /** Buy with `tradeSize` times the balance at `price`. */
  function Open(acc: Account, price: real, tradeSize: real): (r: Account)
    requires price != 0.0
  {
    var tradeValue := TradeValue(acc.balance, tradeSize);
    Account(acc.balance - tradeValue, Long(price, Quantity(tradeValue, price)), acc.profits)
  }

  /** Sell the whole position at `price` and record the trade's profit. */
  function Close(acc: Account, price: real): (r: Account)
    requires acc.position.Long?
  {
    Account(acc.balance + Proceeds(acc.position.quantity, price), Flat, acc.profits + [Profit(acc.position, price)])
  }

  /** `(sell_price - buy_price) * quantity`. */
  function Profit(pos: Position, price: real): real
    requires pos.Long?
  {
    (price - pos.buyPrice) * pos.quantity
  }

  /** The cash, plus what the open position cost. */
  function Committed(acc: Account): real
  {
    acc.balance + if acc.position.Long? then acc.position.buyPrice * acc.position.quantity else 0.0
  }

  /** How many recorded trades have a positive profit. */
  function Wins(profits: seq<real>): (w: nat)
    ensures w <= |profits|
  {
    if profits == [] then 0 else Wins(profits[..|profits| - 1]) + if profits[|profits| - 1] > 0.0 then 1 else 0
  }

  function WinPercentage(profits: seq<real>): (p: real)
    ensures 0.0 <= p <= 100.0
    ensures profits == [] ==> p == 0.0
    ensures (p == 100.0) == (profits != [] && Wins(profits) == |profits|)
  {
    if |profits| > 0 then
      var w, t := Wins(profits) as real, |profits| as real;
      QuotientBounds(w, t, 0.0, 1.0);
      assert w / t * t == w;
      w / t * 100.0
    else 0.0
  }

  function Summarize(acc: Account): Summary
  {
    Summary(Sum(acc.profits), acc.balance, WinPercentage(acc.profits))
  }

  // ---------------------------------------------------------------- lemmas

  /** Opening moves cash into the position and leaves the committed total and the trade record as they were. */
  lemma OpenKeepsCommitted(acc: Account, price: real, tradeSize: real)
    requires price != 0.0 && acc.position.Flat?
    ensures Committed(Open(acc, price, tradeSize)) == Committed(acc)
    ensures Open(acc, price, tradeSize).profits == acc.profits
  {
    var tv := acc.balance * tradeSize;
    assert price * (tv / price) == tv;
  }

  /** Closing adds exactly the recorded profit to the committed total. */
  lemma CloseAddsProfit(acc: Account, price: real)
    requires acc.position.Long?
    ensures Close(acc, price).profits == acc.profits + [Close(acc, price).profits[|acc.profits|]]
    ensures Committed(Close(acc, price)) == Committed(acc) + Close(acc, price).profits[|acc.profits|]
  {
    var q, b := acc.position.quantity, acc.position.buyPrice;
    assert q * price == b * q + (price - b) * q;
  }

  /** A buy at p1 followed by a sell at p2 changes the balance by the recorded profit, (p2/p1 - 1) times the amount traded. */
  lemma RoundTrip(acc: Account, p1: real, p2: real, tradeSize: real)
    requires p1 != 0.0 && acc.position.Flat?
    ensures var after := Close(Open(acc, p1, tradeSize), p2);
      && after.position.Flat?
      && after.profits[..|acc.profits|] == acc.profits && |after.profits| == |acc.profits| + 1
      && after.profits[|acc.profits|] == (p2 / p1 - 1.0) * (acc.balance * tradeSize)
      && after.balance == acc.balance + (p2 / p1 - 1.0) * (acc.balance * tradeSize)
  {
    var held := Open(acc, p1, tradeSize);
    var tv, q := acc.balance * tradeSize, held.position.quantity;
    assert Profit(held.position, p2) == (p2 - p1) * q;
    assert Close(held, p2).profits == acc.profits + [(p2 - p1) * q];
    assert Close(held, p2).balance == acc.balance - tv + q * p2;
    ProfitOfTrade(p1, p2, tv);
    assert q == tv / p1;
    var profit := (p2 / p1 - 1.0) * tv;
    assert (p2 - p1) * q == profit;
    assert Close(held, p2).profits == acc.profits + [profit];
  }

  /** The profit `(p2 - p1) * (tv / p1)` of a trade worth tv is `(p2 / p1 - 1) * tv`, and selling returns tv plus it. */
  lemma ProfitOfTrade(p1: real, p2: real, tv: real)
    requires p1 != 0.0
    ensures (p2 - p1) * (tv / p1) == (p2 / p1 - 1.0) * tv
    ensures tv / p1 * p2 == tv + (p2 / p1 - 1.0) * tv
  {
    var q := tv / p1;
    assert q * p1 == tv;
    assert p2 / p1 * tv == p2 * q;
  }

  /** With a non-negative balance, a trade size in [0, 1] and positive prices, no trade makes the balance or the holding negative. */
  lemma TradesStaySolvent(acc: Account, price: real, tradeSize: real)
    requires 0.0 < price && 0.0 <= tradeSize <= 1.0 && 0.0 <= acc.balance
    requires acc.position.Long? ==> 0.0 <= acc.position.quantity
    ensures acc.position.Flat? ==> 0.0 <= Open(acc, price, tradeSize).balance && 0.0 <= Open(acc, price, tradeSize).position.quantity
    ensures acc.position.Long? ==> 0.0 <= Close(acc, price).balance
  {
    if acc.position.Flat? {
      MulMonotone(tradeSize, 1.0, acc.balance);
      MulNonneg(acc.balance, tradeSize);
      assert 0.0 <= acc.balance * tradeSize / price;
    } else {
      MulNonneg(acc.position.quantity, price);
    }
  }

  /** Wins counted trade by trade: a non-winning trade adds nothing. */
  lemma {:induction false} WinsSplit(a: seq<real>, b: seq<real>)
    ensures Wins(a + b) == Wins(a) + Wins(b)
    decreases |b|
  {
    if b == [] {
      assert a + b == a;
    } else {
      assert (a + b)[..|a + b| - 1] == a + b[..|b| - 1];
      WinsSplit(a, b[..|b| - 1]);
    }
  }

  /** Exactly the trades with a positive profit are counted as wins. */
  lemma {:induction false} WinsCountPositive(profits: seq<real>)
    ensures Wins(profits) == |set j | 0 <= j < |profits| && profits[j] > 0.0|
    decreases |profits|
  {
    if profits != [] {
      var k := |profits| - 1;
      var init := profits[..k];
      WinsCountPositive(init);
      var before := set j | 0 <= j < k && init[j] > 0.0;
      var all := set j | 0 <= j < |profits| && profits[j] > 0.0;
      assert before == set j | 0 <= j < k && profits[j] > 0.0;
      if profits[k] > 0.0 {
        assert all == before + {k};
      } else {
        assert all == before;
      }
    }
  }
}
