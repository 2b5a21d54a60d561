# Kline indicators

This project models the technical-indicator engine of `extend/model_kline.go`.
A `Klines` value is a sequence of bars. Each bar has open, high, low and close prices, a traded volume and amount, and two share counts.

Each indicator is a single forward pass:
- `HHV` and `LLV` return the extreme of the last `n` bars.
- `MA`, `EMA`, `MACD`, `RSI`, `BOLL`, `ATR` and `VWAP` fill freshly allocated integer series of the input's length. They keep O(1) running state: a window sum, a seed, or cumulative totals.
- Positions where an indicator is not yet defined hold the sentinel 0.

The model has two layers:
- Module `Klines` holds the methods. Each runs the source's loop over output arrays that start zeroed, as Go's `make` does.
- Modules `Averages`, `Volatility` and `Extremes` hold the closed-form series and folds for those methods, and the lemmas about them. `Oscillator` holds the condition under which the source's RSI stays inside the series. `Kline` holds the bar, and `Arith` holds the arithmetic.

What each method's `ensures` states:
- `MA`, `EMA`, `MACD`, `BOLL`, `ATR` and `VWAP`: the output equals a closed-form series.
- `LLV`: the result equals a fold over the last n lows.
- `HHV`: the ensures pin down the maximum.
- `RSI`: the output is all zeros.

The lemmas then state what each indicator means:
- bounds;
- behaviour on flat input;
- the warm-up sentinel;
- causality;
- worked examples: five flat closes for MA(3), closes 10, 20, 10 for EMA(2), and four flat bars for VWAP.

Prices are the fixed-point `Price` type. It is modelled as an unbounded `int`.

Go's integer `/` truncates toward zero. Every division in the source goes through `Arith.Quot`, which does the same; Dafny's own `/` is Euclidean. This matters because the MACD lines are routinely negative.

Each method's preconditions are exactly the inputs on which the Go code neither indexes outside the series nor divides by zero:
- `MA`: `n >= 1`, or an empty series.
- `EMA`: `n != -1`, or at most one bar.
- `MACD`: a non-empty series.
- `BOLL`: `n >= 1`.
- `ATR`: `n >= 1`, or at most one bar.
- `HHV` and `LLV`: `n <= |ks|`.
- `RSI`: see Findings.

Module `Corrected` holds RSI and ATR with their windows slid as evidently intended. It shows each defect next to its correction.

## Model

| member | source | states |
|---|---|---|
| Kline.MarketValueOrder | extend/model_kline.go:15-21 | FloatValue and TotalValue are the close times the float and total share counts: at a non-negative close, 0 <= FloatValue <= TotalValue, and their difference is the value of the non-tradable shares |
| Kline.TrueRange | extend/model_kline.go:176-180 | the true range is the largest of the bar's span high - low and its two gaps to the previous close: it is at least each of the three, equal to one of them, and so non-negative |
| Klines.HHV | extend/model_kline.go:32-40 | the result is >= 0, is at least every high of the last n bars, and is either 0 or one of those highs (so max(0, max high); 0 when n <= 0) |
| Klines.LLV | extend/model_kline.go:43-51 | the result is the 0-means-unset scan LowestLow over the last n lows; it is 0 when n <= 0, otherwise one of those lows, and their minimum when none of them is 0 |
| Extremes.LowestLowInWindow | extend/model_kline.go:44-48 | on a non-empty window the scan starting from 0 always returns one of the window's lows |
| Extremes.LowestLowIsMinimum | extend/model_kline.go:44-48 | when no low in the window is 0 the scan returns the minimum low |
| Extremes.LowestLowSkipsZero | extend/model_kline.go:46-47 | a low of 0 is taken for "unset": lows 5, 0, 7 give 7 rather than the minimum 0 |
| Klines.MA | extend/model_kline.go:54-70 | the output has one entry per bar and equals MaSeries: 0 before index n - 1, then the truncated mean of the last n closes (running-sum invariant: sum = closes of max(0, i-n+1) .. i) |
| Averages.MaWithinWindow | extend/model_kline.go:58-67 | each average lies between the lowest and highest close of its window |
| Averages.MaOfConstant | extend/model_kline.go:58-67 | on a flat close series c the average is 0 during warm-up and c afterwards |
| Averages.MaFlatExample | extend/model_kline.go:54-70 | five closes of 10 with n = 3 give [0, 0, 10, 10, 10] |
| Klines.EMA | extend/model_kline.go:73-89 | the output has one entry per bar and is the close series smoothed with period n (empty for an empty series) |
| Averages.SmoothStep | extend/model_kline.go:78-86 | out[0] is the first value and out[i] = Quot(2 x[i] + (n - 1) out[i-1], n + 1) |
| Averages.SmoothPrefix | extend/model_kline.go:80-87 | smoothing a prefix gives the prefix of the smoothing: no value depends on a later input |
| Averages.SmoothOfConstant | extend/model_kline.go:80-87 | a flat input is a fixed point of smoothing, for every period |
| Averages.EmaIsCausal | extend/model_kline.go:73-89 | the EMA of the first m bars is the first m values of the EMA |
| Averages.EmaOfConstant | extend/model_kline.go:73-89 | a flat close series c has EMA c at every index |
| Averages.EmaExample | extend/model_kline.go:78-86 | closes 10, 20, 10 with period 2 give [10, 16, 12] under truncation |
| Klines.MACD | extend/model_kline.go:92-118 | on a non-empty series dif, dea and hist equal DifSeries, DeaSeries and HistSeries and all three start at 0 |
| Klines.MacdDif | extend/model_kline.go:93-100 | dif[i] = EMA(12)[i] - EMA(26)[i] for every i |
| Klines.MacdDea | extend/model_kline.go:102-111 | dea is dif seeded with dif[0] and smoothed with period 9 |
| Klines.MacdHist | extend/model_kline.go:113-116 | hist[i] = 2 (dif[i] - dea[i]) for every i |
| Averages.DeaStep | extend/model_kline.go:106-111 | dea[i] = Quot(2 dif[i] + 8 dea[i-1], 10) |
| Averages.MacdStartsAtZero | extend/model_kline.go:96-116 | dif[0] = dea[0] = hist[0] = 0, since both EMAs are seeded with the first close |
| Averages.MacdOfConstant | extend/model_kline.go:92-118 | on a flat close series dif, dea and hist are 0 everywhere |
| Klines.RSI | extend/model_kline.go:121-148 | on every input where the loop stays inside the series, the output has one entry per bar and is all zeros |
| Oscillator.RsiFaultsOutsideBounds | extend/model_kline.go:125-135 | outside those inputs some step i >= n reads a close outside the series (index -1 at i = n for n >= 1) |
| Klines.BOLL | extend/model_kline.go:151-168 | mid equals MaSeries; upper and lower equal BollUpper and BollLower: 0 before n - 1, then mid +- 2 sqrt(Quot(sum of squared deviations from mid, n)) |
| Klines.SquareSum | extend/model_kline.go:157-161 | the inner loop's sum is the sum of squared deviations of the window's closes from mid[i], and is >= 0 |
| Volatility.BollStep | extend/model_kline.go:163-165 | both bands at i >= n - 1 in terms of the window's sum of squared deviations |
| Volatility.VarianceNonNegative | extend/model_kline.go:157-163 | the value whose square root is taken is never negative |
| Volatility.BollBandsOrdered | extend/model_kline.go:151-168 | the bands are 0 during warm-up; afterwards, with a root that is non-negative on non-negative input, upper - mid = mid - lower >= 0 |
| Volatility.BollOfConstant | extend/model_kline.go:151-168 | on a flat series c, with sqrt(0) = 0, both bands equal c from n - 1 on |
| Klines.ATR | extend/model_kline.go:171-191 | the output has one entry per bar and equals AtrSeries: 0 before n, then Quot(sum of true ranges of bars i-n+2 .. i, n) |
| Klines.AtrAdvance | extend/model_kline.go:176-187 | one loop step: the running sum gains bar i's true range and, from i = n on, loses bar i-n+1's; the stored value is Quot of it by n |
| Volatility.AtrRunningSum | extend/model_kline.go:180-186 | the running-sum invariant is kept across one step, before and after the window fills |
| Volatility.AtrNonNegative | extend/model_kline.go:171-191 | every ATR value is >= 0 |
| Volatility.AtrOfConstantRange | extend/model_kline.go:171-191 | with every true range equal to r, ATR is Quot((n - 1) r, n) from n on |
| Volatility.AtrOneBarWindowIsZero | extend/model_kline.go:183-187 | with n = 1 the ATR as written is 0 everywhere |
| Klines.VWAP | extend/model_kline.go:193-205 | the output equals VwapSeries: Quot(cumulative amount, cumulative volume) from bar 0 where that volume is positive, else 0 |
| Averages.VwapOfConstantPrice | extend/model_kline.go:193-205 | when every bar's amount is p times its volume, VWAP is p wherever the cumulative volume is positive |
| Averages.VwapFlatExample | extend/model_kline.go:193-205 | four bars of volume 1 and amount 10 give [10, 10, 10, 10]: cumulative, not windowed |
| Corrected.RsiCorrected | extend/model_kline.go:121-148 | the corrected RSI, whose removal step drops the move of bar i - n, equals RsiSeries: from i >= n with positive loss, Quot(100 gain, gain + loss) over the last n moves, else 0 |
| Corrected.RsiAdvance | extend/model_kline.go:126-145 | one corrected loop step keeps both window sums and gives the stored value |
| Corrected.RsiBounded | extend/model_kline.go:143-145 | every corrected RSI value lies in [0, 100] |
| Corrected.RsiRisingWindowIsSentinel | extend/model_kline.go:143-145 | a window with no falling close gives the sentinel 0 rather than 100 |
| Corrected.RsiFallingWindowIsZero | extend/model_kline.go:143-145 | a window that only falls gives 0 |
| Corrected.RsiAgreesInBounds | extend/model_kline.go:121-148 | on the inputs where the source's RSI stays in bounds, the corrected RSI is all zeros too |
| Corrected.AtrCorrected | extend/model_kline.go:171-191 | the corrected ATR, which removes bar i - n's true range, equals AtrCorrectedSeries: Quot(sum of the n true ranges of bars i-n+1 .. i, n) from n on |
| Corrected.AtrCorrectedAdvance | extend/model_kline.go:176-187 | one corrected loop step keeps the window sum and gives the stored value |
| Corrected.AtrCorrectedOfConstantRange | extend/model_kline.go:171-191 | with every true range equal to r the corrected ATR is r from n on |
| Corrected.AtrCorrectedWithinWindow | extend/model_kline.go:171-191 | the corrected ATR lies between the smallest and largest true range of its window |
| Corrected.AtrCorrectedOneBarWindow | extend/model_kline.go:183-187 | with n = 1 the corrected ATR is each bar's own true range, while the as-written ATR is 0 everywhere |
| Corrected.AtrTwoBarExample | extend/model_kline.go:183-187 | bars (close 10) then (10 .. 14, close 12) with n = 1 give [0, 0] as written and [0, 4] corrected |

## Left out

- int64 overflow and wrap-around in the running sums and products (for example lines 59, 160 and 198) are not modelled: all arithmetic is on unbounded integers.
- The persistence metadata of the `Kline` record (the `xorm` tags, the `Unix` key and the embedding of `protocol.Kline`) are left out. The bar is a flat value with `unix` kept as a plain field. The `Turnover float64` field is left out: it is floating point and no indicator reads it.
- `protocol.Price` is an `int`; its methods are integer operations (`Price.Abs` is `Arith.Abs`).
- `protocol.I64Sqrt` is not part of this model. `BOLL` takes it as a parameter `sqrt: int -> int`. The lemmas that need the root to be non-negative, or to map 0 to 0, say so in their `requires`.
- The bars are values, not pointers. No indicator writes to a bar, so aliasing is not modelled.
- The output arrays are not stated to be freshly allocated.
- Klines.MACD: the source fills dif, dea and hist in three consecutive loops of one function. The model runs each loop in its own helper method, `MacdDif`, `MacdDea` and `MacdHist`, in the same order.
- Klines.RSI: the contract covers only the inputs on which the source stays inside the series. On all of them the output is all zeros. The source panics on every other input.
- Klines.HHV, Klines.LLV: the code has no guard for `n > len`; it reads before the start of the series. The model follows the code with the precondition `n <= |ks|` rather than returning an error value.
- Klines.LLV: a running value of 0 means "unset", and the model follows the code in this. Its contract states the minimum only when no low in the window is 0. On other windows it states only that the result is one of the lows.
- Where the bars come from is outside the engine and not modelled: the market-data protocol, fetching and storage.

## Findings

| source | as written | input that shows it | evidently intended | confidence | as-written member | corrected member |
|---|---|---|---|---|---|---|
| extend/model_kline.go:134-135 | the removal step of RSI reads `ks[i-n-1]`, which is index -1 at i = n, so for n >= 1 RSI only runs without panicking on series of at most n bars, where it returns all zeros; with n = 0 every move is added and removed again, so the store is never reached | n = 2 and three bars: step i = 2 reads `ks[-1]` | the move leaving the window (bar i - n against bar i - n - 1) is removed only once the window is full, i > n, and RSI is 100 gain / (gain + loss) over the last n moves | high; not executed | Oscillator.RsiFaultsOutsideBounds | Corrected.RsiCorrected |
| extend/model_kline.go:183-186 | the removal step of ATR subtracts the true range of bar i - n + 1, which is still inside the window, so each value is the sum of only n - 1 true ranges divided by n, and n = 1 gives all zeros | n = 1 with bars (10, 10, 10, 10) and (10, 14, 10, 12) as open, high, low, close: output [0, 0] | subtract the true range of bar i - n, once the window is full (i > n), so each value averages the n true ranges of bars i - n + 1 .. i: here [0, 4] | high; not executed | Corrected.AtrTwoBarExample | Corrected.AtrCorrected |
