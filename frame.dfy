/**
 * The bar table and the pandas column operations the indicators are built
 * from: NaN-aware comparisons, shifts, rolling windows and the
 * `adjust=False` exponential moving average.
 */
module Frame {
  import opened Wrappers

  /** Traded volume of one bar; market data never reports a negative volume. */
  type Volume = v: real | 0.0 <= v

  /** One row of the bar table. `month` is the calendar month of the bar's timestamp; the open price is never read. */
  datatype Bar = Bar(high: real, low: real, close: real, volume: Volume, month: int)

  /** The Python exceptions the core can raise. */
  datatype Failure = IndexError | AttributeError

  /** A float column of a data frame; `None` is NaN. */
  type Column = seq<Option<real>>

  /** A column that an indicator writes back onto the input table. */
  datatype Derived = Floats(values: seq<real>) | Flags(flags: seq<bool>)

  /** The input data frame: the bars and the columns added to it in place. */
  class BarTable {
    var bars: seq<Bar>
    var derived: map<string, Derived>

    constructor (bars: seq<Bar>)
      ensures this.bars == bars && derived == map[]
    {
      this.bars := bars;
      derived := map[];
    }
  }

  // Element-wise comparisons of pandas: a NaN operand makes each of them false.
  predicate Gt(a: Option<real>, b: Option<real>) { a.Some? && b.Some? && a.value > b.value }
  predicate Lt(a: Option<real>, b: Option<real>) { a.Some? && b.Some? && a.value < b.value }
  predicate Ge(a: Option<real>, b: Option<real>) { a.Some? && b.Some? && a.value >= b.value }
  predicate Le(a: Option<real>, b: Option<real>) { a.Some? && b.Some? && a.value <= b.value }

  function Min(a: real, b: real): real { if a <= b then a else b }
  function Max(a: real, b: real): real { if a >= b then a else b }

  function Closes(bars: seq<Bar>): (c: seq<real>)
    ensures |c| == |bars|
    ensures forall i :: 0 <= i < |bars| ==> c[i] == bars[i].close
  {
    seq(|bars|, i requires 0 <= i < |bars| => bars[i].close)
  }

  function Highs(bars: seq<Bar>): (h: seq<real>)
    ensures |h| == |bars|
    ensures forall i :: 0 <= i < |bars| ==> h[i] == bars[i].high
  {
    seq(|bars|, i requires 0 <= i < |bars| => bars[i].high)
  }

  function Lows(bars: seq<Bar>): (l: seq<real>)
    ensures |l| == |bars|
    ensures forall i :: 0 <= i < |bars| ==> l[i] == bars[i].low
  {
    seq(|bars|, i requires 0 <= i < |bars| => bars[i].low)
  }

  /** A column without NaN. */
  function Defined(s: seq<real>): (c: Column)
    ensures |c| == |s|
    ensures forall i :: 0 <= i < |s| ==> c[i] == Some(s[i])
  {
    seq(|s|, i requires 0 <= i < |s| => Some(s[i]))
  }

  /** `shift(k)` of row i: the value k rows earlier (later, for negative k), NaN past either end. */
  function ShiftAt(c: Column, k: int, i: int): Option<real>
  {
    if 0 <= i - k < |c| then c[i - k] else None
  }

  function Sum(s: seq<real>): real
    decreases |s|
  {
    if s == [] then 0.0 else Sum(s[..|s| - 1]) + s[|s| - 1]
  }

  /** The sum of a column, NaN as soon as one entry is NaN. */
  function SumCol(c: Column): Option<real>
    decreases |c|
  {
    if c == [] then Some(0.0)
    else
      match SumCol(c[..|c| - 1])
      case None => None
      case Some(t) => if c[|c| - 1].Some? then Some(t + c[|c| - 1].value) else None
  }

  /** `rolling(window=w).mean()` at row i: NaN before w rows exist and whenever the window holds a NaN. */
  function RollingMeanAt(c: Column, w: nat, i: nat): Option<real>
    requires 1 <= w && i < |c|
  {
    if i + 1 < w then None
    else
      match SumCol(c[i + 1 - w .. i + 1])
      case None => None
      case Some(t) => Some(t / w as real)
  }

  /** `Close.rolling(window=w).mean()` at row i. */
  function CloseMeanAt(bars: seq<Bar>, w: nat, i: nat): Option<real>
    requires 1 <= w && i < |bars|
  {
    RollingMeanAt(Defined(Closes(bars)), w, i)
  }

  /** The closes of the w bars ending at bar i. */
  function CloseWindow(bars: seq<Bar>, w: nat, i: nat): seq<real>
    requires w <= i + 1 <= |bars|
  {
    Closes(bars)[i + 1 - w .. i + 1]
  }

  function MaxOf(s: seq<real>): (m: real)
    requires |s| > 0
    ensures forall j :: 0 <= j < |s| ==> s[j] <= m
    ensures exists j :: 0 <= j < |s| && s[j] == m
    decreases |s|
  {
    if |s| == 1 then s[0] else Max(MaxOf(s[..|s| - 1]), s[|s| - 1])
  }

  function MinOf(s: seq<real>): (m: real)
    requires |s| > 0
    ensures forall j :: 0 <= j < |s| ==> m <= s[j]
    ensures exists j :: 0 <= j < |s| && s[j] == m
    decreases |s|
  {
    if |s| == 1 then s[0] else Min(MinOf(s[..|s| - 1]), s[|s| - 1])
  }

  /** `rolling(window=w).max()` of a column without NaN. */
  function RollingMaxAt(s: seq<real>, w: nat, i: nat): Option<real>
    requires 1 <= w && i < |s|
  {
    if i + 1 < w then None else Some(MaxOf(s[i + 1 - w .. i + 1]))
  }

  /** `rolling(window=w).min()` of a column without NaN. */
  function RollingMinAt(s: seq<real>, w: nat, i: nat): Option<real>
    requires 1 <= w && i < |s|
  {
    if i + 1 < w then None else Some(MinOf(s[i + 1 - w .. i + 1]))
  }

  /** The smoothing factor of `ewm(span=span)`; pandas rejects a span below 1. */
  function SpanAlpha(span: int): (a: real)
    requires 1 <= span
    ensures 0.0 < a <= 1.0
  {
    2.0 / (span as real + 1.0)
  }

  /** `ewm(alpha=a, adjust=False).mean()` of a column without NaN, at row i. */
  function EmaAt(x: seq<real>, a: real, i: nat): real
    requires i < |x|
    decreases i
  {
    if i == 0 then x[0] else EmaAt(x, a, i - 1) + a * (x[i] - EmaAt(x, a, i - 1))
  }

  function Ema(x: seq<real>, a: real): (e: seq<real>)
    ensures |e| == |x|
    ensures forall i :: 0 <= i < |x| ==> e[i] == EmaAt(x, a, i)
  {
    seq(|x|, i requires 0 <= i < |x| => EmaAt(x, a, i))
  }

  // ---------------------------------------------------------------- lemmas

  lemma MulNonneg(a: real, b: real)
    requires 0.0 <= a && 0.0 <= b
    ensures 0.0 <= a * b
  {
  }

  lemma MulMonotone(a: real, b: real, v: real)
    requires a <= b && 0.0 <= v
    ensures a * v <= b * v
  {
    MulNonneg(b - a, v);
    assert (b - a) * v == b * v - a * v;
  }

  lemma Distribute(a: real, b: real, c: real)
    ensures a * (b + c) == a * b + a * c
  {
  }

  lemma QuotientBounds(t: real, v: real, lo: real, hi: real)
    requires 0.0 < v && lo * v <= t <= hi * v
    ensures lo <= t / v <= hi
  {
    assert t / v * v == t;
  }

  /** Every term of s in [lo, hi] bounds the sum by |s| times each end. */
  lemma {:induction false} SumBounds(s: seq<real>, lo: real, hi: real)
    requires forall j :: 0 <= j < |s| ==> lo <= s[j] <= hi
    ensures lo * |s| as real <= Sum(s) <= hi * |s| as real
    decreases |s|
  {
    if s != [] {
      SumBounds(s[..|s| - 1], lo, hi);
    }
  }

  /** The mean of a nonempty window lies between its smallest and its largest term. */
  lemma MeanWithin(s: seq<real>, lo: real, hi: real)
    requires |s| > 0
    requires forall j :: 0 <= j < |s| ==> lo <= s[j] <= hi
    ensures lo <= Sum(s) / |s| as real <= hi
  {
    SumBounds(s, lo, hi);
    var n := |s| as real;
    var m := Sum(s) / n;
    assert m * n == Sum(s);
    if m < lo {
      assert (lo - m) * n > 0.0;
    }
    if m > hi {
      assert (m - hi) * n > 0.0;
    }
  }

  /** The mean of a window whose terms all equal c is c. */
  lemma MeanConstant(s: seq<real>, c: real)
    requires |s| > 0
    requires forall j :: 0 <= j < |s| ==> s[j] == c
    ensures Sum(s) / |s| as real == c
  {
    MeanWithin(s, c, c);
  }

  /** The sum of a column is defined exactly when none of its entries is NaN. */
  lemma {:induction false} SumColDefinedIff(c: Column)
    ensures SumCol(c).Some? <==> forall j :: 0 <= j < |c| ==> c[j].Some?
    decreases |c|
  {
    if c != [] {
      SumColDefinedIff(c[..|c| - 1]);
      assert forall j :: 0 <= j < |c| - 1 ==> c[..|c| - 1][j] == c[j];
    }
  }

  /** On a column without NaN, SumCol is the plain sum. */
  lemma {:induction false} SumColOfDefined(s: seq<real>)
    ensures SumCol(Defined(s)) == Some(Sum(s))
    decreases |s|
  {
    if s != [] {
      assert Defined(s)[..|s| - 1] == Defined(s[..|s| - 1]);
      SumColOfDefined(s[..|s| - 1]);
    }
  }

  /** A rolling mean of a column without NaN: defined from row w-1 on, the mean of the last w values. */
  lemma RollingMeanOfDefined(s: seq<real>, w: nat, i: nat)
    requires 1 <= w && i < |s|
    ensures RollingMeanAt(Defined(s), w, i).Some? <==> w <= i + 1
    ensures w <= i + 1 ==> RollingMeanAt(Defined(s), w, i) == Some(Sum(s[i + 1 - w .. i + 1]) / w as real)
  {
    if w <= i + 1 {
      assert Defined(s)[i + 1 - w .. i + 1] == Defined(s[i + 1 - w .. i + 1]);
      SumColOfDefined(s[i + 1 - w .. i + 1]);
    }
  }

  /** A rolling mean of the close is defined from bar w-1 on and is then the mean of the last w closes. */
  lemma CloseMeanWindow(bars: seq<Bar>, w: nat, i: nat)
    requires 1 <= w && i < |bars|
    ensures CloseMeanAt(bars, w, i).Some? <==> w <= i + 1
    ensures w <= i + 1 ==> CloseMeanAt(bars, w, i) == Some(Sum(CloseWindow(bars, w, i)) / w as real)
  {
    RollingMeanOfDefined(Closes(bars), w, i);
  }

  /** A rolling mean of the close lies between the smallest and the largest close of its window. */
  lemma CloseMeanWithin(bars: seq<Bar>, w: nat, i: nat)
    requires 1 <= w <= i + 1 && i < |bars|
    ensures CloseMeanAt(bars, w, i).Some?
    ensures MinOf(CloseWindow(bars, w, i)) <= CloseMeanAt(bars, w, i).value <= MaxOf(CloseWindow(bars, w, i))
  {
    CloseMeanWindow(bars, w, i);
    var win := CloseWindow(bars, w, i);
    MeanWithin(win, MinOf(win), MaxOf(win));
  }

  /** Over a constant close, every defined rolling mean of the close equals it. */
  lemma CloseMeanConstant(bars: seq<Bar>, w: nat, i: nat, c: real)
    requires 1 <= w && i < |bars|
    requires forall j :: 0 <= j < |bars| ==> bars[j].close == c
    ensures CloseMeanAt(bars, w, i) == if i + 1 < w then None else Some(c)
  {
    CloseMeanWindow(bars, w, i);
    if w <= i + 1 {
      MeanConstant(CloseWindow(bars, w, i), c);
    }
  }

  /** The sum of nonnegative terms is nonnegative. */
  lemma {:induction false} SumNonneg(s: seq<real>)
    requires forall j :: 0 <= j < |s| ==> 0.0 <= s[j]
    ensures 0.0 <= Sum(s)
    decreases |s|
  {
    if s != [] {
      SumNonneg(s[..|s| - 1]);
    }
  }

  /** A defined rolling mean of a nonnegative column is nonnegative. */
  lemma RollingMeanNonneg(s: seq<real>, w: nat, i: nat)
    requires 1 <= w && i < |s|
    requires forall j :: 0 <= j < |s| ==> 0.0 <= s[j]
    ensures RollingMeanAt(Defined(s), w, i).Some? ==> 0.0 <= RollingMeanAt(Defined(s), w, i).value
  {
    RollingMeanOfDefined(s, w, i);
    if w <= i + 1 {
      SumNonneg(s[i + 1 - w .. i + 1]);
    }
  }

  /** A rolling mean is defined exactly when w rows exist and none of the last w is NaN. */
  lemma RollingMeanDefinedIff(c: Column, w: nat, i: nat)
    requires 1 <= w && i < |c|
    ensures RollingMeanAt(c, w, i).Some? <==> w <= i + 1 && forall j :: i + 1 - w <= j <= i ==> c[j].Some?
  {
    if w <= i + 1 {
      var win := c[i + 1 - w .. i + 1];
      SumColDefinedIff(win);
      assert forall j :: i + 1 - w <= j <= i ==> c[j] == win[j - (i + 1 - w)];
    }
  }

  /** A rolling mean over three rows is the mean of the current and the two previous values. */
  lemma RollingMeanOfThree(c: Column, i: nat)
    requires 2 <= i < |c|
    requires c[i - 2].Some? && c[i - 1].Some? && c[i].Some?
    ensures RollingMeanAt(c, 3, i) == Some((c[i - 2].value + c[i - 1].value + c[i].value) / 3.0)
  {
    var win := c[i - 2 .. i + 1];
    var one, two := win[..2][..1], win[..2];
    assert one == [c[i - 2]] && one[..0] == [];
    assert SumCol(one) == Some(0.0 + c[i - 2].value);
    assert two == [c[i - 2], c[i - 1]] && two[..1] == one;
    assert SumCol(two) == Some(0.0 + c[i - 2].value + c[i - 1].value);
    assert win[..2] == two;
    assert SumCol(win) == Some(0.0 + c[i - 2].value + c[i - 1].value + c[i].value);
    assert c[i + 1 - 3 .. i + 1] == win;
    var t := 0.0 + c[i - 2].value + c[i - 1].value + c[i].value;
    assert RollingMeanAt(c, 3, i) == Some(t / 3.0);
  }

  /** The `adjust=False` average of values in [lo, hi] stays in [lo, hi]. */
  lemma {:induction false} EmaWithin(x: seq<real>, a: real, i: nat, lo: real, hi: real)
    requires 0.0 < a <= 1.0 && i < |x|
    requires forall j :: 0 <= j <= i ==> lo <= x[j] <= hi
    ensures lo <= EmaAt(x, a, i) <= hi
    decreases i
  {
    if i > 0 {
      EmaWithin(x, a, i - 1, lo, hi);
      EmaStepWithin(EmaAt(x, a, i - 1), x[i], a, lo, hi);
    }
  }

  /** One smoothing step moves the average towards the new value without passing it. */
  lemma EmaStepWithin(e: real, v: real, a: real, lo: real, hi: real)
    requires 0.0 < a <= 1.0 && lo <= e <= hi && lo <= v <= hi
    ensures lo <= e + a * (v - e) <= hi
  {
    if e <= v {
      MulNonneg(a, v - e);
      MulNonneg(1.0 - a, v - e);
    } else {
      MulNonneg(a, e - v);
      MulNonneg(1.0 - a, e - v);
    }
  }

  /** The `adjust=False` average of a constant column is that constant. */
  lemma {:induction false} EmaConstant(x: seq<real>, a: real, i: nat, c: real)
    requires i < |x|
    requires forall j :: 0 <= j <= i ==> x[j] == c
    ensures EmaAt(x, a, i) == c
    decreases i
  {
    if i > 0 {
      EmaConstant(x, a, i - 1, c);
    }
  }
}
