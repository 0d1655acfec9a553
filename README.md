# Trading bot backtester, modelled in Dafny

The repository is a small crypto-trading research tool written with pandas.
It has three parts.

- **Indicators.** Each one turns a table of hourly bars (open time, high, low,
  close, volume) into indicator columns and boolean buy/sell "confirmation"
  columns. The indicators are MACD, RSI, Ichimoku, OBV, Parabolic SAR, VWAP,
  Didi, MAV, TRIX and SMA.
- **Simulators.** A walk over the bars opens a long position when the
  confirmations line up and closes it on a sell condition:
  - `simulate_trading` in `bot.py` works with monthly deposits and a
    trade-size fraction;
  - `execute_trades` in `ml/traning.py` works from a list of model
    predictions.
- **The optimisation script (`ml/optimization.py`).** Its `backtest_strategy`
  gives every symbol a one-unit strategy that starts at a 10000 balance.
  A loop walks a 300000-candidate `ParameterGrid` and keeps the first
  candidate whose total balance is strictly the largest.

How the model represents the program:

- **Values.**
  - Prices are `real`; a missing pandas value (NaN) is `None`.
  - A comparison with a missing value is false, as in pandas.
  - Volumes are non-negative reals.
- **Indicators.**
  - Every vectorised indicator is a pure function from the bars to its
    columns.
  - The indicators written as loops in the source are methods proved against
    those functions: the SAR loop, the OBV running total and the three
    simulation loops.
  - OBV writes its columns back onto the caller's table, so the table is a
    class with the bars and a map of derived columns.
- **Errors.** Where the Python raises, the model returns
  `Err(IndexError)` or `Err(AttributeError)`:
  - an empty table given to PSAR or `simulate_trading` (IndexError);
  - an empty history in the bot script (AttributeError: OBV gives the empty table a one-row integer index, whose entry has no month);
  - reading past the end of the PSAR column in `backtest_strategy`.

  In the optimisation script such an error ends the whole run, and the model
  carries it through to the result.

Files, one module each:

- `wrappers.dfy`: `Option`/`Result`.
- `frame.dfy`: bars, columns, rolling means and maxima, the `adjust=False`
  exponential average, and the table class.
- One file per indicator: `sma.dfy`, `didi.dfy`, `mav.dfy`, `trix.dfy`,
  `macd.dfy`, `ichimoku.dfy`, `vwap.dfy`, `rsi.dfy`, `obv.dfy`, `psar.dfy`.
- `ledger.dfy`: opening and closing a position, and the summary that both
  simulators return.
- `bot.dfy`: `simulate_trading`.
- `training.dfy`: `execute_trades`.
- `grid.dfy`: the parameter grid.
- `optimization.dfy`: `backtest_strategy` and the grid loop.

Points of behaviour worth knowing:

- RSI averages gains and losses with `ewm(span=period, min_periods=period)`
  and the default `adjust=True`. Its buy confirmation is `rsi <= 60` alone.
  The RSI worked example uses period 3, a smoothing factor of 1/2.
- The MACD confirmations are bare crossings of the signal line.
- The optimisation loop runs sequentially. A candidate that raises ends the
  whole run.
- OBV adds its columns to the caller's table.

## Model

| member | source | states |
|---|---|---|
| Frame.MaxOf | indicators/ichimoku.py:17-18 | the rolling maximum bounds every element of its window and is one of them |
| Frame.MinOf | indicators/ichimoku.py:17-18 | the rolling minimum is below every element of its window and is one of them |
| Frame.ShiftAt | indicators/ichimoku.py:32 | `shift(k)`: the value k rows earlier (later for negative k), NaN past either end; its use is stated by Ichimoku.SpansShiftedForward and Ichimoku.ChikouLooksAhead |
| Frame.SumCol | indicators/rsi.py:24 | the sum of a window that becomes NaN with any NaN entry; stated by Frame.SumColDefinedIff and Frame.SumColOfDefined |
| Frame.RollingMeanAt | indicators/SMA.py:5-7 | `rolling(window=w).mean()`: NaN before w rows exist or over a NaN, else the window sum over w; stated by Frame.RollingMeanDefinedIff, Frame.RollingMeanOfDefined and Frame.MeanWithin |
| Frame.CloseMeanAt | indicators/SMA.py:5-7 | the rolling mean of the close; stated by Frame.CloseMeanWindow, Frame.CloseMeanWithin and Frame.CloseMeanConstant |
| Frame.RollingMaxAt | indicators/ichimoku.py:17 | `rolling(window=w).max()`: NaN before the window fills, else the window maximum; stated by Frame.MaxOf and Ichimoku.MidpointDefinedFromWindow |
| Frame.RollingMinAt | indicators/ichimoku.py:18 | `rolling(window=w).min()`: NaN before the window fills, else the window minimum; stated by Frame.MinOf and Ichimoku.MidpointDefinedFromWindow |
| Frame.SpanAlpha | indicators/macd.py:5-6 | the smoothing factor of `ewm(span=n)` lies in (0, 1] for every span of at least 1 |
| Frame.EmaAt | indicators/macd.py:5-6 | the `adjust=False` recurrence, starting at the first value; stated by Frame.EmaWithin and Frame.EmaConstant |
| Frame.Ema | indicators/macd.py:5-6 | the `adjust=False` exponential average has one value per input |
| Frame.SumBounds | indicators/SMA.py:5-7 | a sum of n values in [lo, hi] lies in [n*lo, n*hi] |
| Frame.MeanWithin | indicators/SMA.py:5-7 | a mean lies between the bounds of the values averaged |
| Frame.MeanConstant | indicators/SMA.py:5-7 | the mean of a constant window is that constant |
| Frame.SumColDefinedIff | indicators/rsi.py:24 | a window sum is defined exactly when every value in the window is |
| Frame.SumColOfDefined | indicators/SMA.py:5-7 | over fully defined values, the window sum is the plain sum |
| Frame.RollingMeanOfDefined | indicators/trix.py:11 | a rolling mean of defined values is NaN before the window fills, then the window's sum over its width |
| Frame.CloseMeanWindow | indicators/SMA.py:5-7 | `Close.rolling(w).mean()` is defined exactly from bar w-1 on, and is the mean of the last w closes |
| Frame.CloseMeanWithin | indicators/didi.py:6-8 | a rolling mean of the close lies between the smallest and largest close of its window |
| Frame.CloseMeanConstant | indicators/didi.py:6-8 | with constant closes, the rolling mean is NaN before the window fills and the constant after |
| Frame.SumNonneg | indicators/rsi.py:24 | a sum of non-negative values is non-negative |
| Frame.RollingMeanNonneg | indicators/PSAR.py:83-84 | a rolling mean of non-negative values is non-negative where defined |
| Frame.RollingMeanDefinedIff | indicators/trix.py:11 | a rolling mean is defined exactly when the window has filled and all of its values are defined |
| Frame.RollingMeanOfThree | indicators/rsi.py:24 | the 3-bar rolling mean is the average of the last three values |
| Frame.EmaWithin | indicators/trix.py:6-8 | the `adjust=False` average of values in [lo, hi] stays in [lo, hi] |
| Frame.EmaConstant | indicators/macd.py:5-6 | the `adjust=False` average of a constant column is that constant |
| Sma.GetSma | indicators/SMA.py:3-9 | the 9-, 21- and 200-bar close means are each as long as the history |
| Sma.SmaDefinedFromWindow | indicators/SMA.py:5-7 | each SMA is NaN before bar w-1 and from there the mean of the last w closes |
| Sma.SmaWithinWindow | indicators/SMA.py:5-7 | each defined SMA lies between the least and greatest close of its window |
| Sma.SmaOfConstant | indicators/SMA.py:5-7 | on constant closes every filled SMA equals the constant |
| Didi.GetDidi | indicators/didi.py:4-14 | the three means and both confirmations have one row per bar |
| Didi.DidiBuyAt | indicators/didi.py:10 | short line rising, long line falling, short above reference, each false over NaN; stated by Didi.DidiExclusive, Didi.DidiWarmUp and Didi.DidiConstantQuiet |
| Didi.DidiSellAt | indicators/didi.py:11 | long line rising, above the short line and below the reference; stated by the same three lemmas |
| Didi.DidiExclusive | indicators/didi.py:10-11 | a bar never confirms both a buy and a sell |
| Didi.DidiWarmUp | indicators/didi.py:6-11 | no confirmation before the long mean has a previous value |
| Didi.DidiConstantQuiet | indicators/didi.py:10-11 | constant closes never confirm anything |
| Mav.TailStart | indicators/mav.py:4 | the start of `iloc[-period:]` lies within the table |
| Mav.TailLength | indicators/mav.py:4 | `iloc[-period:]` keeps the last `period` rows for a positive period, the whole table for 0, and drops the first `-period` rows for a negative one |
| Mav.Tail | indicators/mav.py:4 | `history.iloc[-period:]`; its length is stated by Mav.TailLength |
| Mav.MavBuyAt | indicators/mav.py:9 | the short mean crosses above the long one at row i of the subset; stated by Mav.MavExclusive and Mav.MavWarmUp |
| Mav.MavSellAt | indicators/mav.py:10 | the short mean crosses below the long one; stated by Mav.MavExclusive and Mav.MavWarmUp |
| Mav.GetMav | indicators/mav.py:3-13 | all four columns have one row per bar of the subset |
| Mav.MavWindowsInSubset | indicators/mav.py:6-7 | the means are computed inside the subset: each is defined exactly from its window on, and the short one is the subset's window mean |
| Mav.MavExclusive | indicators/mav.py:9-10 | a bar never confirms both a crossing up and a crossing down |
| Mav.MavWarmUp | indicators/mav.py:9-10 | no crossing is confirmed on the first bar or before both means exist |
| Trix.TripleEma | indicators/trix.py:6-8 | the triple exponential average has one value per bar |
| Trix.TrixLine | indicators/trix.py:10 | the percentage change column has one value per bar |
| Trix.PctAt | indicators/trix.py:10 | `100 * pct_change()`: NaN at row 0 and after a zero value; stated by Trix.TrixWarmUp and Trix.TrixLineOfConstant |
| Trix.GetTrix | indicators/trix.py:4-18 | all four columns have one row per bar |
| Trix.TrixWarmUp | indicators/trix.py:10-15 | the first TRIX is NaN; before the short window fills its mean is NaN and nothing is confirmed |
| Trix.TrixConfirmations | indicators/trix.py:13-15 | buy and sell never coincide and need both TRIX and its mean to be defined |
| Trix.TripleEmaOfConstant | indicators/trix.py:6-8 | on constant closes the triple average is the constant |
| Trix.TrixLineOfConstant | indicators/trix.py:10 | on a constant non-zero close TRIX is 0 from bar 1 on |
| Trix.MeanOfZeros | indicators/trix.py:11 | a rolling mean over zeros is zero |
| Trix.TrixOfConstant | indicators/trix.py:10-15 | a constant non-zero close gives TRIX 0 and no confirmation |
| Macd.MacdLine | indicators/macd.py:5-9 | the MACD line has one value per bar |
| Macd.CrossAbove | indicators/macd.py:18 | MACD above its signal line now and at or below it on the previous row, false at row 0; stated by Macd.MacdConfirmations |
| Macd.CrossBelow | indicators/macd.py:19 | MACD below its signal line now and at or above it on the previous row; stated by Macd.MacdConfirmations |
| Macd.GetMacd | indicators/macd.py:3-27 | MACD, signal, histogram and both confirmations have one row per bar |
| Macd.MacdSignalSpanFixed | indicators/macd.py:12 | the signal line is the span-9 average of MACD, the recurrence s = 0.8 s' + 0.2 m, whatever the caller's signal period |
| Macd.MacdConfirmations | indicators/macd.py:15-19 | buy iff the histogram turns from <= 0 to > 0, sell iff from >= 0 to < 0; never both, never on bar 0 |
| Macd.MacdOfConstant | indicators/macd.py:5-19 | constant closes give zero MACD, signal and histogram and no confirmation |
| Ichimoku.GetIchimoku | indicators/ichimoku.py:3-64 | all seven columns have one row per bar |
| Ichimoku.HalfSum | indicators/ichimoku.py:17-18 | `(a + b) / 2`, NaN when either is; used by every Ichimoku line |
| Ichimoku.MidpointAt | indicators/ichimoku.py:17-22 | Tenkan and Kijun: the midpoint of the window's highest high and lowest low; stated by Ichimoku.MidpointDefinedFromWindow and Ichimoku.MidpointWithinRange |
| Ichimoku.SpanAAt | indicators/ichimoku.py:25 | Senkou span A, shifted `medium` bars forward; stated by Ichimoku.SpansShiftedForward |
| Ichimoku.SpanBAt | indicators/ichimoku.py:28-29 | Senkou span B, shifted `medium` bars forward; stated by Ichimoku.SpansShiftedForward |
| Ichimoku.ChikouAt | indicators/ichimoku.py:32 | the close `medium` bars ahead; stated by Ichimoku.ChikouLooksAhead |
| Ichimoku.PastCloseAt | indicators/ichimoku.py:40 | the close `medium` bars back, NaN on the first `medium` bars |
| Ichimoku.IchimokuBuyAt | indicators/ichimoku.py:35-41 | the five "above" comparisons, each false over NaN; stated by Ichimoku.IchimokuWarmUp, Ichimoku.IchimokuExclusive and Ichimoku.ChikouLooksAhead |
| Ichimoku.IchimokuSellAt | indicators/ichimoku.py:44-50 | the five "below" comparisons; stated by the same lemmas |
| Ichimoku.MidpointDefinedFromWindow | indicators/ichimoku.py:17-22 | a midpoint line is defined exactly from bar w-1 on, and is the mean of the window's highest high and lowest low |
| Ichimoku.MidpointWithinRange | indicators/ichimoku.py:17-22 | with low <= high on every bar, a midpoint lies inside the window's price range |
| Ichimoku.SpansShiftedForward | indicators/ichimoku.py:25-29 | both leading spans are NaN on the first `medium` bars and are the `medium`-bars-earlier values after that |
| Ichimoku.ChikouLooksAhead | indicators/ichimoku.py:32-50 | the lagging span is the close `medium` bars ahead; on the last `medium` bars it is NaN and nothing is confirmed |
| Ichimoku.IchimokuWarmUp | indicators/ichimoku.py:35-50 | no confirmation on the first medium+long-1 bars |
| Ichimoku.IchimokuExclusive | indicators/ichimoku.py:35-50 | a bar never confirms both buy and sell |
| Vwap.CumVolume | indicators/vwap.py:20 | cumulative volume is non-negative |
| Vwap.TypicalPrice | indicators/vwap.py:16 | (high + low + close) / 3; stated by Vwap.VwapWithinTypicalPrices |
| Vwap.CumTpv | indicators/vwap.py:19 | the running sum of typical price times volume; stated by Vwap.WeightedSumBounds and Vwap.NoVolumeNoWeight |
| Vwap.VwapAt | indicators/vwap.py:23 | the weighted sum over the cumulative volume, NaN while no volume has traded; stated by Vwap.VwapWithinTypicalPrices and Vwap.VwapOfConstant |
| Vwap.VwapBuyAt | indicators/vwap.py:27-30 | a close below VWAP that rose; stated by Vwap.VwapBuyNeeds |
| Vwap.GetVwap | indicators/vwap.py:33-40 | the price and volume columns are passed through unchanged and VWAP has one row per bar |
| Vwap.NoVolumeNoWeight | indicators/vwap.py:19-23 | while cumulative volume is zero, every volume so far and the weighted sum are zero |
| Vwap.WeightedSumBounds | indicators/vwap.py:19-20 | typical prices in [lo, hi] put the weighted sum between lo and hi times the volume |
| Vwap.VwapWithinTypicalPrices | indicators/vwap.py:16-23 | VWAP is defined exactly once some volume has traded, and then lies between the least and greatest typical price so far |
| Vwap.PositiveVolumeSomewhere | indicators/vwap.py:20 | positive cumulative volume means some bar so far has volume |
| Vwap.VwapOfConstant | indicators/vwap.py:16-23 | a constant typical price gives VWAP equal to it, or NaN |
| Vwap.VwapBuyNeeds | indicators/vwap.py:27-30 | buy iff VWAP is defined and the close rose from the previous bar while staying below VWAP |
| Rsi.Gains | indicators/rsi.py:7-10 | the gain column has one value per bar |
| Rsi.Losses | indicators/rsi.py:7-11 | the loss column has one value per bar |
| Rsi.GainAt | indicators/rsi.py:7-10 | the rise of the close, 0 on bar 0; stated by Rsi.GainLossSplit |
| Rsi.LossAt | indicators/rsi.py:7-11 | the fall of the close, 0 on bar 0; stated by Rsi.GainLossSplit |
| Rsi.EwmNumerator | indicators/rsi.py:14-15 | the `adjust=True` weighted sum; stated by Rsi.NumeratorBounds, Rsi.NumeratorNonneg and Rsi.NumeratorSign |
| Rsi.AdjustedEwmAt | indicators/rsi.py:14-15 | `ewm(span=period, min_periods=period).mean()`: NaN before bar period-1, then the weighted sum over the weight sum; stated by Rsi.AdjustedEwmWithin and Rsi.AverageNonneg |
| Rsi.RsiAt | indicators/rsi.py:18-21 | RSI from the two averages; stated by Rsi.RsiRange, Rsi.RsiOfRisingCloses and Rsi.RsiOfFallingCloses |
| Rsi.EwmDenominator | indicators/rsi.py:14-15 | the `adjust=True` weight sum is at least 1 |
| Rsi.RsiOf | indicators/rsi.py:18-21 | with losses, RSI*(g+l) = 100*g and RSI lies in [0, 100); with none it is 100 if there were gains and NaN if not |
| Rsi.RsiAlgebra | indicators/rsi.py:18-21 | `100 - 100/(1 + g/l)` equals 100g/(g+l) and lies in [0, 100) |
| Rsi.RsiColumn | indicators/rsi.py:18-21 | one RSI value per bar |
| Rsi.GetRsi | indicators/rsi.py:4-32 | RSI, signal and buy have one row per bar |
| Rsi.GainLossSplit | indicators/rsi.py:7-11 | gain and loss are non-negative, never both positive, and their difference is the close's change; both are 0 on bar 0 |
| Rsi.NumeratorBounds | indicators/rsi.py:14-15 | the weighted sum of inputs in [lo, hi] lies within lo and hi times the weight sum |
| Rsi.NumeratorOffset | indicators/rsi.py:14-15 | lowering every input by c lowers the weighted sum by c times the weight sum |
| Rsi.AdjustedEwmWithin | indicators/rsi.py:14-15 | the average is defined exactly from bar period-1 on and lies within the inputs' bounds |
| Rsi.AverageNonneg | indicators/rsi.py:14-15 | averages of gains or losses are non-negative |
| Rsi.NumeratorNonneg | indicators/rsi.py:14-15 | the weighted sum of non-negative inputs is non-negative |
| Rsi.NumeratorNonpos | indicators/rsi.py:14-15 | the weighted sum of non-positive inputs is non-positive |
| Rsi.NumeratorSign | indicators/rsi.py:14-15 | the weighted sum is 0 when every input so far is 0, and positive when the latest input is |
| Rsi.RsiRange | indicators/rsi.py:18-26 | RSI is NaN before bar period-1, lies in [0, 100] where defined, and buy iff it is defined and at most 60 |
| Rsi.RsiOfRisingCloses | indicators/rsi.py:18-26 | closes rising throughout give RSI 100 and no buy |
| Rsi.RsiOfFallingCloses | indicators/rsi.py:18-26 | closes falling throughout give RSI 0 and a buy |
| Rsi.RsiSignalOfThree | indicators/rsi.py:24 | the signal is defined iff the last three RSI values are, and is their average |
| Rsi.RsiWorkedExample | indicators/rsi.py:4-32 | RSI(3) of the closes 100, 102, 101, 105, 104 is NaN, NaN, 50, 90, 450/7, and only bar 2 confirms a buy |
| Psar.SarOf | indicators/PSAR.py:66-109 | SAR and both confirmations have one row per bar |
| Psar.Initial | indicators/PSAR.py:20-23 | SAR at the first low, extreme at the first high, factor `step`, uptrend |
| Psar.Projected | indicators/PSAR.py:34 | the previous SAR moved by the factor towards the extreme |
| Psar.Clamped | indicators/PSAR.py:33-38 | the projection limited by the last two lows (uptrend) or highs (downtrend); stated by Psar.StepContinues |
| Psar.Step | indicators/PSAR.py:28-64 | one pass of the loop; stated by Psar.StepReversal, Psar.StepContinues and Psar.ExtremeBoundsBar |
| Psar.StateAt | indicators/PSAR.py:19-64 | the loop state after bar k; stated by Psar.AfInRange and Psar.GetParabolicSar |
| Psar.VolumeIncrease | indicators/PSAR.py:76 | `Volume.pct_change() > 0.2`; stated by Psar.VolumeIncreaseIff |
| Psar.Rsi14At | indicators/PSAR.py:81-86 | the 14-bar RSI of rolling means; stated by Psar.SarConfirmations |
| Psar.SarBuyAt | indicators/PSAR.py:89-95 | uptrend, close above SAR and above its 20-bar mean, a volume rise, RSI below 70; stated by Psar.SarConfirmations |
| Psar.SarSellAt | indicators/PSAR.py:98-103 | downtrend, close below SAR, RSI above 30 and rising, NaN on bar 0; stated by Psar.SarConfirmations |
| Psar.Assemble | indicators/PSAR.py:66-109 | the loop's lists aligned one row on and combined with the filters; stated by Psar.AssembleMatches |
| Psar.GetParabolicSar | indicators/PSAR.py:15-109 | the loop's result equals the state-by-state definition; an empty table raises IndexError |
| Psar.AssembleMatches | indicators/PSAR.py:66-109 | the lists the loop collects, aligned one row on and combined with the filters, give the indicator's frame |
| Psar.AfInRange | indicators/PSAR.py:22-60 | the acceleration factor stays in [step, max_step] when 0 <= step <= max_step |
| Psar.StepReversal | indicators/PSAR.py:41-50 | the trend flips iff the close crosses the clamped SAR; on a flip SAR becomes the old extreme, the factor resets and the extreme restarts at the bar's high or low |
| Psar.StepContinues | indicators/PSAR.py:33-38 | without a flip the SAR is the clamped projection: below both lows in an uptrend, above both highs in a downtrend; the factor grows by a step, up to max_step, exactly when a new extreme is set |
| Psar.ExtremeBoundsBar | indicators/PSAR.py:44-60 | the extreme price is at least the bar's high in an uptrend and at most its low in a downtrend |
| Psar.VolumeIncreaseIff | indicators/PSAR.py:75-76 | the volume filter holds iff volume rose by more than 20% |
| Psar.SarConfirmations | indicators/PSAR.py:89-103 | a buy needs an uptrend, a filled 20-bar mean and a bar that is not the last; a sell needs a downtrend and a filled RSI(14); sell is NaN only on bar 0; never both |
| Obv.ObvLine | indicators/obv.py:17-26 | one running total per bar, each the definition's value |
| Obv.ObvAt | indicators/obv.py:17-26 | the running total at bar i: add the volume on a rise, subtract it on a fall; stated by Obv.ObvBounded and Obv.ObvOfMonotoneCloses |
| Obv.ObvBuyAt | indicators/obv.py:32-35 | OBV and close both rose; stated by Obv.ObvConfirmations |
| Obv.ObvSellAt | indicators/obv.py:38-41 | OBV and close both fell; stated by Obv.ObvConfirmations |
| Obv.WithObv | indicators/obv.py:29-45 | the table with the three OBV columns set; stated by Obv.WithObvKeepsOthers |
| Obv.ObvOf | indicators/obv.py:29-45 | OBV and both confirmations have one row per bar |
| Obv.RunningTotal | indicators/obv.py:17-26 | the loop's list is the running total; on an empty table it is the single starting 0 |
| Obv.GetObv | indicators/obv.py:13-52 | never raises: on an empty table the result and the three new columns are one row, OBV 0 with both confirmations false; otherwise they are OBV and its confirmations; the bars are unchanged either way |
| Obv.ObvBounded | indicators/obv.py:20-26 | the absolute running total never exceeds the volume traded |
| Obv.ObvOfMonotoneCloses | indicators/obv.py:20-26 | always-rising closes add up all the volume; always-falling ones subtract it |
| Obv.ObvRisesOverRisingRun | indicators/obv.py:20-22 | over any run of strictly rising closes, bars a+1..b, OBV grows by exactly those bars' volume, so OBV at b is at least OBV at a |
| Obv.ObvFallsOverFallingRun | indicators/obv.py:20-24 | over any run of strictly falling closes, bars a+1..b, OBV drops by exactly those bars' volume, so OBV at b is at most OBV at a |
| Obv.ObvRunExample | indicators/obv.py:17-26 | closes 5, 4, 6, 7 with volumes 1, 2, 3, 4 give OBV 0, -2, 1, 5: the rise over bars 1..3 adds the volume of bars 2 and 3 |
| Obv.ObvConfirmations | indicators/obv.py:32-41 | buy iff the close rose on a bar with volume, sell iff it fell on one; never both |
| Obv.WithObvKeepsOthers | indicators/obv.py:29-45 | the call sets exactly the three OBV columns and leaves every other column as it was |
| Ledger.Wins | bot.py:88 | a count of winning trades never exceeds the number of trades |
| Ledger.WinPercentage | bot.py:90 | the win percentage is in [0, 100], 0 without trades, and 100 exactly when every trade won |
| Ledger.Start | bot.py:31-36 | no position, no trades, the initial balance |
| Ledger.TradeValue | bot.py:63 | the balance times the trade size; stated by Ledger.OpenKeepsCommitted |
| Ledger.Quantity | bot.py:64 | the trade value over the close; stated by Ledger.OpenKeepsCommitted |
| Ledger.Proceeds | bot.py:80 | quantity times the sell price; stated by Ledger.CloseAddsProfit |
| Ledger.Open | bot.py:63-67 | a buy; stated by Ledger.OpenKeepsCommitted, Ledger.RoundTrip and Ledger.TradesStaySolvent |
| Ledger.Close | bot.py:76-81 | a sell that records its profit; stated by Ledger.CloseAddsProfit, Ledger.RoundTrip and Ledger.TradesStaySolvent |
| Ledger.Profit | bot.py:79 | `(sell - buy) * quantity`; stated by Ledger.ProfitOfTrade |
| Ledger.Summarize | bot.py:86-90 | total profit, final balance and win percentage; stated by Ledger.WinPercentage |
| Ledger.OpenKeepsCommitted | bot.py:63-67 | a buy moves cash into the position at cost; cash plus the position's cost, and the profit list, are unchanged |
| Ledger.CloseAddsProfit | bot.py:77-81 | a sell appends one profit, and cash plus cost grows by exactly that profit |
| Ledger.RoundTrip | bot.py:63-81 | buying at p1 and selling at p2 gains (p2/p1 - 1) times the trade value and returns flat |
| Ledger.ProfitOfTrade | bot.py:79-80 | `(sell - buy) * quantity` is the trade value times the relative price change |
| Ledger.TradesStaySolvent | bot.py:63-80 | with positive prices and a trade size in [0, 1], buying and selling keep cash and quantity non-negative |
| Ledger.WinsSplit | bot.py:88 | winning trades add up over concatenated trade lists |
| Ledger.WinsCountPositive | bot.py:88 | the win count is the number of positive profits |
| Bot.PyIndex | bot.py:56-57 | a Python index in [-n, n) reads position k, or n+k when negative |
| Bot.BuySignal | bot.py:54-60 | the five confirmations with Python indices; stated by Bot.SecondBarReadsLastBar and Bot.NoBuyNoTrade |
| Bot.AddMonthly | bot.py:48-52 | a deposit when the month changes; stated by Bot.LastMonthTracks and Bot.DepositsCount |
| Bot.BarStep | bot.py:46-83 | one pass of the loop; stated by Bot.StepCommitted and Bot.StepInterleaved |
| Bot.RunTo | bot.py:39-83 | the state after bars 1..k-1; stated by Bot.CommittedAccountsForEverything, Bot.OrdersInterleave and Bot.StaysSolvent |
| Bot.SimulationOf | bot.py:26-107 | IndexError on an empty history, else the summary; the loop is proved equal to it by Bot.SimulateTrading |
| Bot.Deposits | bot.py:48-52 | the sum of the monthly additions made before bar k; stated by Bot.DepositsCount |
| Bot.MonthChanges | bot.py:48-52 | at most one month change per bar after the first |
| Bot.SimulateTrading | bot.py:26-107 | the loop returns the summary of the bar-by-bar definition and the bars where orders ran; an empty history raises IndexError |
| Bot.BotSignals | bot.py:18-23 | the script's indicator calls give one confirmation per bar |
| Bot.BotRun | bot.py:109-115 | the script run with its constants; stated by Bot.BotRunMeaning |
| Bot.BotRunMeaning | bot.py:109-115 | it fails, with AttributeError, exactly on an empty history (bot.py:39 reads the month of an integer index entry that OBV put there); otherwise it is the simulation with a 10000 start, trade size 1 and 500 a month, and when it ends flat the final balance is 10000 + 500 per month change + the total profit |
| Bot.LastMonthTracks | bot.py:39-52 | the month remembered is the month of the last bar seen |
| Bot.StepCommitted | bot.py:46-83 | one bar changes cash plus position cost, less profits, only by that bar's deposit |
| Bot.DepositsCount | bot.py:48-52 | the deposits are the monthly addition times the number of month changes |
| Bot.CommittedMinusProfits | bot.py:46-83 | at every bar, cash plus position cost, less profits, is the start plus the deposits |
| Bot.CommittedAccountsForEverything | bot.py:46-83 | cash plus position cost equals start + monthly addition * month changes + the sum of profits |
| Bot.StepInterleaved | bot.py:54-83 | one bar keeps buys and sells strictly alternating, starting with a buy |
| Bot.InterleavedWiden | bot.py:46 | the alternation is kept by a bar without an order |
| Bot.InterleavedAfterDeposit | bot.py:48-52 | a monthly deposit keeps the alternation |
| Bot.InterleavedAfterBuy | bot.py:63-68 | a buy when flat keeps the alternation |
| Bot.InterleavedAfterSell | bot.py:76-82 | a sell while long keeps the alternation |
| Bot.OrdersInterleave | bot.py:42-82 | executed orders alternate buy, sell, buy, ... at increasing bars. There is one profit per sell. A position is open exactly when a buy is unmatched, at that buy's close |
| Bot.StaysSolvent | bot.py:63-80 | with positive closes, a trade size in [0, 1] and non-negative deposits, cash and quantity stay non-negative |
| Bot.NoBuyNoTrade | bot.py:54-61 | with no Ichimoku buy there are no orders and the balance is the start plus the deposits |
| Bot.SecondBarReadsLastBar | bot.py:56-57 | at bar 1, `iloc[i - 2]` reads the last bar of the history |
| Bot.WorkedExample | bot.py:26-107 | three bars, the last in a new month, with a buy at 100 and a sell at 110, give profit 1000, balance 11500 (with one 500 deposit) and 100% wins |
| Training.ExecuteTrades | ml/traning.py:1-36 | the loop returns the summary of the row-by-row definition |
| Training.TradeStep | ml/traning.py:18-30 | one row: a buy on prediction 1 when flat, a sell on 0 when long; stated by Training.PositionFollowsPrediction and Training.OtherPredictionsHold |
| Training.TradesUpTo | ml/traning.py:8-30 | the account after rows 0..k-1; stated by Training.CommittedIsStartPlusProfits and Training.StaysSolvent |
| Training.CommittedIsStartPlusProfits | ml/traning.py:18-30 | cash plus position cost is the start plus the sum of profits |
| Training.PositionFollowsPrediction | ml/traning.py:18-30 | after a 1 the position is long, after a 0 it is flat |
| Training.OtherPredictionsHold | ml/traning.py:18-30 | any other prediction leaves the account unchanged |
| Training.StaysSolvent | ml/traning.py:18-30 | with positive closes and a trade size in [0, 1], cash and quantity stay non-negative |
| Training.OneRoundTrip | ml/traning.py:18-36 | predictions 1, 0 at prices p1, p2 record one profit of (p2/p1 - 1) times the trade value |
| ParamGrid.Decode | ml/optimization.py:60-72 | every candidate takes each value from its list |
| ParamGrid.Encode | ml/optimization.py:60-72 | every combination has a position below 300000 |
| ParamGrid.Grid | ml/optimization.py:72 | the grid has 300000 candidates, the n-th being the decoding of n |
| ParamGrid.StepValue | ml/optimization.py:68 | the two `psar_step` values; stated by ParamGrid.Decode |
| ParamGrid.MaxStepValue | ml/optimization.py:69 | the two `psar_max_step` values; stated by ParamGrid.Decode |
| ParamGrid.InGrid | ml/optimization.py:60-70 | every value is taken from its list; stated by ParamGrid.GridIsProduct |
| ParamGrid.DecodeEncode | ml/optimization.py:60-72 | decoding a combination's position gives it back |
| ParamGrid.EncodeDecode | ml/optimization.py:60-72 | encoding the n-th candidate gives n back |
| ParamGrid.GridIsProduct | ml/optimization.py:60-72 | the grid is the whole Cartesian product, each combination exactly once |
| ParamGrid.GridFirst | ml/optimization.py:60-72 | the first candidate takes the first value of every list |
| ParamGrid.GridLast | ml/optimization.py:60-72 | the last candidate takes the last value of every list |
| ParamGrid.ShortPeriodFastest | ml/optimization.py:60-72 | `short_period`, last in name order, varies fastest: the next candidate differs only there, by one |
| ParamGrid.RsiPeriodNext | ml/optimization.py:60-72 | `rsi_period` comes next: four on, only it has moved, by one |
| Optimization.FramesOf | ml/optimization.py:18-27 | the concatenated table keeps the symbol's bars, and has one row per bar in every column read |
| Optimization.OwnConfirmations | ml/optimization.py:36-38 | the Ichimoku, RSI and MACD confirmations of the symbol's own table; stated by Optimization.SymbolFailsIff |
| Optimization.BuyCondition | ml/optimization.py:35-42 | the `and` chain, reading the PSAR column only when the first three hold, and IndexError past its end; stated by Optimization.SymbolStepLaws |
| Optimization.SymbolStep | ml/optimization.py:44-53 | one bar of the per-symbol loop; stated by Optimization.SymbolStepLaws |
| Optimization.SymbolRunTo | ml/optimization.py:34-53 | the holding after bars 2..k-1, or the first error; stated by Optimization.SymbolFailsIff |
| Optimization.SymbolBalance | ml/optimization.py:32-55 | the final balance of one symbol; stated by Optimization.BacktestSymbol and Optimization.NoSellKeepsStart |
| Optimization.SomeEmpty | ml/optimization.py:14-21 | some history is empty, so the PSAR indicator raises; stated by Optimization.PrepareSymbols |
| Optimization.BalancesOf | ml/optimization.py:12-57 | `backtest_strategy`; stated by Optimization.BacktestStrategy, Optimization.BacktestBalances and Optimization.BacktestFailsIff |
| Optimization.Fitness | ml/optimization.py:90-92 | the sum of one candidate's balances; stated by Optimization.CandidateFitness |
| Optimization.Improve | ml/optimization.py:94-96 | keep the new total only when strictly larger; stated by Optimization.ReduceFindsFirstMaximum |
| Optimization.Search | ml/optimization.py:74-96 | the first error, or the best of the totals; stated by Optimization.SearchFindsFirstBest |
| Optimization.Chosen | ml/optimization.py:74-96 | the best balance and the grid candidate kept, if any; stated by Optimization.SearchFindsFirstBest |
| Optimization.OptimizationOf | ml/optimization.py:72-96 | the script's search over the grid; the loop is proved equal to it by Optimization.Optimize |
| Optimization.BalancesUpTo | ml/optimization.py:30-55 | successful balances are one per symbol, each that symbol's own run |
| Optimization.Frames | ml/optimization.py:13-28 | one concatenated table per symbol, in order |
| Optimization.LastPsar | ml/optimization.py:21 | the PSAR column left over is as long as the last symbol's history |
| Optimization.Scores | ml/optimization.py:77-92 | one fitness per grid candidate, in grid order |
| Optimization.Collect | ml/optimization.py:77-92 | successful totals are one per candidate |
| Optimization.Reduce | ml/optimization.py:74-96 | the index kept is a position of the totals |
| Optimization.BacktestSymbol | ml/optimization.py:32-55 | the per-symbol loop returns the specified final balance, or the specified error |
| Optimization.PrepareSymbols | ml/optimization.py:13-28 | it fails, with IndexError, exactly when some history is empty; otherwise it returns every table and the last symbol's PSAR column |
| Optimization.TradeSymbols | ml/optimization.py:30-57 | the trading loop returns the balances of every symbol, or the first error |
| Optimization.BacktestStrategy | ml/optimization.py:12-57 | `backtest_strategy` equals its specification for every input |
| Optimization.CandidateFitness | ml/optimization.py:77-92 | one candidate's total is its score in grid order |
| Optimization.Optimize | ml/optimization.py:72-96 | the grid loop returns the specified best balance and parameters, or the first error |
| Optimization.SymbolStepLaws | ml/optimization.py:35-53 | a bar raises iff the own confirmations hold and the bar is past the PSAR column. A buy happens only when flat with all four confirmations, at the close. A sell happens only on an Ichimoku sell, adding close minus buy price. Otherwise nothing changes |
| Optimization.SymbolFailsIff | ml/optimization.py:34-42 | a symbol's run raises iff some bar from 2 on has its own confirmations and lies past the PSAR column; the error is IndexError |
| Optimization.NoSellKeepsStart | ml/optimization.py:44-53 | with no Ichimoku sell the balance stays 10000 |
| Optimization.BacktestBalances | ml/optimization.py:30-57 | the balances are one per symbol, each from the symbol's own tables and the last symbol's PSAR column |
| Optimization.BalancesFailIff | ml/optimization.py:30-57 | the backtest raises iff some symbol's run raises, and then with IndexError |
| Optimization.BacktestFailsIff | ml/optimization.py:14-57 | the backtest raises, with IndexError, iff some history is empty or some symbol confirms at a bar past the end of the last history |
| Optimization.EqualLengthsNeverFail | ml/optimization.py:34-42 | histories of one common non-zero length never raise |
| Optimization.ReduceFindsFirstMaximum | ml/optimization.py:74-96 | the best is at least 0. No candidate is kept iff no total is positive. Otherwise the kept total is the maximum and every earlier total is strictly smaller |
| Optimization.CollectMeaning | ml/optimization.py:77-92 | collecting succeeds iff every candidate does, and keeps their totals in order; otherwise it is the first candidate's error |
| Optimization.SearchFindsFirstBest | ml/optimization.py:74-96 | the run fails iff some candidate does, with the first error. Otherwise the best balance is at least 0, and no parameters are kept iff no total is positive. Kept parameters are the first grid candidate with the maximum total |

## Left out

- Fetching prices with `yfinance`, the progress bar, `print` output, chart rendering (`graph/graph.py`) and the module-level script lines: they are I/O. Histories are parameters.
- Timestamps: a bar carries only its calendar month, as an integer.
- `ml/optimization_rsi.py` and `indicators/ema.py` are not part of this model: no core operation calls them.
- `model.predict` and `indicator_based_strategy` in `ml/traning.py`: predictions are a parameter of `ExecuteTrades`, one integer per row.
- Floating point: prices are exact reals. Rounding, infinities and NaN arithmetic are not modelled, beyond the NaN outcomes written out: RSI with no losses, VWAP with no volume, and comparisons with NaN.
- Indicator windows below 1 are excluded by `requires`. pandas rejects them, and the script never passes them.
- The `Volume` column is assumed present. The PSAR branch without it is not modelled.
- Psar.SarOf: on a one-bar table pandas leaves the buy column NaN; the model gives false. The simulators never read it, since their loops start at bar 1 or 2.
- TRIX with a zero triple-smoothed close: `pct_change` divides by zero. The model leaves that value undefined (`None`).
- The simulators divide by the close, so every close is required to be non-zero (`NonzeroCloses`, `NonzeroPrices`).
- `__getMACD__` is imported and called by both scripts, but `macd.py` defines only `__MACD__(history, short_period, long_period)`, with a fixed signal span of 9. `backtest_strategy` passes `fast_period`, `slow_period` and `signal_period` (ml/optimization.py:6, 19-20); `Optimization.FramesOf` calls `Macd.GetMacd` with the fast and slow periods and ignores `signal_period`. The bot script imports it at bot.py:5 and calls `__getMACD__(history, 12, 21, 9)` at bot.py:18; `Bot.BotSignals`, and through it `Bot.BotRun`, call `Macd.GetMacd(bars, 12, 21)` and drop the 9, which equals the fixed span.
- `backtest_strategy` re-fetches every symbol for every candidate. The model assumes the same history each time.
- `backtest_strategy` also calls `__getOBV__`, but never reads its result. It adds columns to the table and never raises; on an empty table PSAR has already raised at ml/optimization.py:21. So it is not part of `Optimization.FramesOf`.
- Obv.GetObv: on an empty table pandas also gives the table itself one row, with NaN prices and an integer index in place of the timestamps. The model adds the one-row columns, but its bars stay empty, since a bar's prices are never NaN.
- Bot.BotRunMeaning: the grown one-row table that PSAR, VWAP and `simulate_trading` then receive is not modelled bar by bar; the model goes straight to the AttributeError that `history.index[0].month` raises on it at bot.py:39.
- Dictionaries keyed by symbol are sequences in symbol order. The script's four symbols are distinct.
- Optimization.NoSellKeepsStart: its hypothesis is "no Ichimoku sell at all". That is stronger than needed: the source keeps the start balance whenever no round trip completes.
- Bot.BotSignals: the script's call site is modelled only for its column lengths. `simulate_trading` receives the confirmation columns as parameters.
