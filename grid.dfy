/**
 * The parameter grid of the optimisation script: nine value lists, walked
 * as their Cartesian product in the order of the sorted parameter names,
 * the last name varying fastest.
 */
module ParamGrid {
  /** One candidate; field order follows the sorted names. */
  datatype Params = Params(
    longPeriod: int, macdFastPeriod: int, macdSignalPeriod: int, macdSlowPeriod: int, mediumPeriod: int,
    psarMaxStep: real, psarStep: real, rsiPeriod: int, shortPeriod: int)

  /** The number of candidates: the product of the nine list lengths. */
  const Size := 300000

  function StepValue(d: nat): real
  {
    if d == 0 then 0.02 else 0.03
  }

  function MaxStepValue(d: nat): real
  {
    if d == 0 then 0.2 else 0.3
  }

  /** Every value of the candidate is in its list. */
  predicate InGrid(p: Params)
  {
    && 10 <= p.longPeriod < 15 && 5 <= p.macdFastPeriod < 10 && 5 <= p.macdSignalPeriod < 8
    && 10 <= p.macdSlowPeriod < 15 && 5 <= p.mediumPeriod < 10
    && (p.psarMaxStep == 0.2 || p.psarMaxStep == 0.3) && (p.psarStep == 0.02 || p.psarStep == 0.03)
    && 5 <= p.rsiPeriod < 15 && 1 <= p.shortPeriod < 5
  }

  /**
   * The n-th candidate of the walk: n written in mixed radix, the last
   * name's list as the lowest digit. The radices are the list lengths:
   * 4 short, 10 RSI, 2 step, 2 max step, 5 medium, 5 slow, 3 signal,
   * 5 fast and 5 long periods.
   */
  function Decode(n: nat): (p: Params)
    requires n < Size
    ensures InGrid(p)
  {
    var n1 := n / 4;
    var n2 := n1 / 10;
    var n3 := n2 / 2;
    var n4 := n3 / 2;
    var n5 := n4 / 5;
    var n6 := n5 / 5;
    var n7 := n6 / 3;
    Params(
      10 + n7 / 5, 5 + n7 % 5, 5 + n6 % 3, 10 + n5 % 5, 5 + n4 % 5,
      MaxStepValue(n3 % 2), StepValue(n2 % 2), 5 + n1 % 10, 1 + n % 4)
  }

  /** The position of a candidate in the walk. */
  function Encode(p: Params): (n: nat)
    requires InGrid(p)
    ensures n < Size
  {
    var step := if p.psarStep == 0.02 then 0 else 1;
    var maxStep := if p.psarMaxStep == 0.2 then 0 else 1;
    ((((((((p.longPeriod - 10) * 5 + (p.macdFastPeriod - 5)) * 3 + (p.macdSignalPeriod - 5))
      * 5 + (p.macdSlowPeriod - 10)) * 5 + (p.mediumPeriod - 5)) * 2 + maxStep)
      * 2 + step) * 10 + (p.rsiPeriod - 5)) * 4 + (p.shortPeriod - 1)
  }

  /** `ParameterGrid(param_grid)` as a list. */
  function Grid(): (g: seq<Params>)
    ensures |g| == Size
    ensures forall n :: 0 <= n < Size ==> g[n] == Decode(n)
  {
    seq(Size, n requires 0 <= n < Size => Decode(n))
  }

  // ---------------------------------------------------------------- lemmas

  /** Every candidate of the product is reached: decoding its position gives it back. */
  lemma DecodeEncode(p: Params)
    requires InGrid(p)
    ensures Decode(Encode(p)) == p
  {
    var step := if p.psarStep == 0.02 then 0 else 1;
    var maxStep := if p.psarMaxStep == 0.2 then 0 else 1;
    var m7 := (p.longPeriod - 10) * 5 + (p.macdFastPeriod - 5);
    var m6 := m7 * 3 + (p.macdSignalPeriod - 5);
    var m5 := m6 * 5 + (p.macdSlowPeriod - 10);
    var m4 := m5 * 5 + (p.mediumPeriod - 5);
    var m3 := m4 * 2 + maxStep;
    var m2 := m3 * 2 + step;
    var m1 := m2 * 10 + (p.rsiPeriod - 5);
    var n := m1 * 4 + (p.shortPeriod - 1);
    assert n == Encode(p);
    assert n / 4 == m1 && n % 4 == p.shortPeriod - 1;
    assert m1 / 10 == m2 && m1 % 10 == p.rsiPeriod - 5;
    assert m2 / 2 == m3 && m2 % 2 == step;
    assert m3 / 2 == m4 && m3 % 2 == maxStep;
    assert m4 / 5 == m5 && m4 % 5 == p.mediumPeriod - 5;
    assert m5 / 5 == m6 && m5 % 5 == p.macdSlowPeriod - 10;
    assert m6 / 3 == m7 && m6 % 3 == p.macdSignalPeriod - 5;
    assert m7 / 5 == p.longPeriod - 10 && m7 % 5 == p.macdFastPeriod - 5;
  }

  /** Each position holds a different candidate: encoding the n-th candidate gives n back. */
  lemma EncodeDecode(n: nat)
    requires n < Size
    ensures Encode(Decode(n)) == n
  {
    var n1 := n / 4;
    var n2 := n1 / 10;
    var n3 := n2 / 2;
    var n4 := n3 / 2;
    var n5 := n4 / 5;
    var n6 := n5 / 5;
    var n7 := n6 / 3;
    assert n7 / 5 < 5;
    assert n7 == n7 / 5 * 5 + n7 % 5;
    assert n6 == n7 * 3 + n6 % 3;
    assert n5 == n6 * 5 + n5 % 5;
    assert n4 == n5 * 5 + n4 % 5;
    assert n3 == n4 * 2 + n3 % 2;
    assert n2 == n3 * 2 + n2 % 2;
    assert n1 == n2 * 10 + n1 % 10;
    assert n == n1 * 4 + n % 4;
  }

  /** The grid is the whole product, each combination exactly once. */
  lemma GridIsProduct()
    ensures forall p :: InGrid(p) ==> exists n :: 0 <= n < Size && Grid()[n] == p
    ensures forall n, m :: 0 <= n < m < Size ==> Grid()[n] != Grid()[m]
    ensures forall n :: 0 <= n < Size ==> InGrid(Grid()[n])
  {
    forall p | InGrid(p) ensures exists n :: 0 <= n < Size && Grid()[n] == p {
      DecodeEncode(p);
      var n := Encode(p);
      assert Grid()[n] == p;
    }
    forall n, m | 0 <= n < m < Size ensures Grid()[n] != Grid()[m] {
      EncodeDecode(n);
      EncodeDecode(m);
    }
  }

  /** The walk starts at the smallest value of every list. */
  lemma GridFirst()
    ensures Grid()[0] == Params(10, 5, 5, 10, 5, 0.2, 0.02, 5, 1)
  {
    assert Grid()[0] == Decode(0);
  }

  /** The walk ends at the largest value of every list. */
  lemma GridLast()
    ensures Grid()[Size - 1] == Params(14, 9, 7, 14, 9, 0.3, 0.03, 14, 4)
  {
    assert Grid()[Size - 1] == Decode(Size - 1);
  }

  /** `short_period`, the last name, varies fastest: the next candidate differs only there, by one. */
  lemma ShortPeriodFastest(n: nat)
    requires n + 1 < Size && n % 4 != 3
    ensures Grid()[n + 1] == Grid()[n].(shortPeriod := Grid()[n].shortPeriod + 1)
  {
    assert (n + 1) / 4 == n / 4 && (n + 1) % 4 == n % 4 + 1;
  }

  /** `rsi_period` comes next: four candidates on, only it has moved, by one. */
  lemma RsiPeriodNext(n: nat)
    requires n + 4 < Size && (n / 4) % 10 != 9
    ensures Grid()[n + 4] == Grid()[n].(rsiPeriod := Grid()[n].rsiPeriod + 1)
  {
    var m := n / 4;
    assert (n + 4) / 4 == m + 1 && (n + 4) % 4 == n % 4;
    assert (m + 1) / 10 == m / 10 && (m + 1) % 10 == m % 10 + 1;
  }
}
