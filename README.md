# Incremental backtesting engine, modelled in Dafny

This project models the core of a small Python trading-research repository:

- a strategy base class whose state is a set of append-only histories (prices
  seen, balances, shares, worth);
- six concrete strategies built on it: maximally greedy, random choice,
  best-after-N, simple-moving-average ordering, Bollinger bands and RSI;
- three streaming indicators (SMA, EMA, Bollinger bands);
- the look-ahead "true optimal" benchmark;
- the backtest loop, with its worked example;
- the strategy factory.

Every Python class that updates its fields in place is a Dafny `class` with
those fields. Its `give_data_point` is a `method` with a `modifies` clause.
Each strategy's trading decision is a function of the prices seen and the
position held, and the method's `ensures` ties the new histories to it.
The lemmas beside each function say what the decision means in closed form:
- each trade keeps the worth at the trade price;
- a rise sells and a fall buys;
- ties qualify where the code uses `>=`;
- the mode flips exactly when the ordering it waits for holds.

Each strategy's `Valid()` invariant says its histories stay aligned with the
prices. Every recorded worth is the position before the trade, valued at the
previous price. Each indicator history holds, at every index, the indicator of
the prices up to that index.

Prices and money are `real`. `Worth(pos, p)` is `balance + p * shares`, which
is the base class's `get_current_worth`. Dafny cannot subclass a class, so each
strategy holds its base part in `const base: TradingAlgorithm`. A base step
(`GiveDataPoint`) followed by `AppendPosition` stands for `super().give_data_point`
followed by the subclass's two `append` calls.

Whatever the ordinary call-super-then-append structure does to the base is
stated once, in `AlgorithmClass.TradingAlgorithm`:
- `Settled()` holds between steps;
- `Pending()` holds after the base step and before the position is appended.

The greedy strategy pushes the first price twice, so it keeps the base's
`Valid()` and states its own alignment.

## Behaviour worth noting

- The greedy strategy trades the fixed proportion 0.5: half the shares on a
  rise, half the cash on a fall.
- The random strategy draws an integer with `randint(1, 3)`: 1 sells and 2
  buys, each with `trading_proportion`, and 3 holds.
- The RSI strategy sells whenever the RSI is at or above `overbought` and
  buys whenever it is at or below `oversold`, on every step after the
  warm-up. During the first `window_size` prices it records RSI 50 and holds.
  Its window always spans `window_size + 1` prices.
- The moving-average strategy, in sell mode, sells every share when the newest
  averages strictly increase in the order of the lengths. In buy mode it
  spends `trading_proportion` of the cash when they strictly decrease.
- The Bollinger strategy computes its bands from the last `window_size`
  prices, or from all of them while fewer have been seen, and holds until
  `window_size` prices have been seen. The Bollinger indicator returns `None`
  and records nothing until it has `window_size` prices. Both policies are
  modelled as written.
- A division by a zero price raises `ZeroDivisionError`. The RSI strategy
  alone tests the price (`stock_price > 0`) before it divides; at a
  non-positive price its purchase spends the cash and adds no shares.
- The factory builds the greedy strategy for the greedy tag and raises
  `KeyError("Not yet implemented")` for every other tag, the random one
  included.

Each strategy's `Valid()` holds its trajectory: for every step k, the
position after step k is that strategy's decision function applied to the
prices up to step k and the position before it (with the mode fields or the
draw of that step where the strategy has them). Every step method keeps
`Valid()`, so after any backtest every recorded position is the strategy's
decision on the one before.

Some loop bodies of the source are split into small methods, each proved
against the decision function it computes: `TradeOnChange`, `DecideAfterN`,
`TradeOnAverages`, `TradeOnNewest`, `BandsOfWindow`, `TradeOnBands`,
`DecideOnRsi`, `TradeOnDraw`, `OptimalTrade` and `Round`. This keeps each
proof small.

The backtest returns its progress lines as a report rather than printing them.
The random draw is a parameter of each step. The square root `** 0.5` is an
injected function that must satisfy `IsSqrt`.

## Model

| member | source | states |
|---|---|---|
| Series.Suffix | trading_algorithms/algorithms/simple_moving_average.py:22 | `s[-n:]`: the last `n` elements, or all of them when `n` is 0 or at least the length |
| Series.MaxBounds | trading_algorithms/algorithms/bestaftern.py:23 | the fold `max` of a non-empty slice is an element of it and no element is above it |
| Series.MinBounds | trading_algorithms/algorithms/bestaftern.py:30 | the fold `min` of a non-empty slice is an element of it and no element is below it |
| AlgorithmClass.TradingAlgorithm.constructor | trading_algorithms/algorithms/algorithm_class.py:4-9 | index 0, no prices, one-entry balance and shares histories holding the starting values, empty worth history |
| AlgorithmClass.TradingAlgorithm.CurrentWorth | trading_algorithms/algorithms/algorithm_class.py:32-33 | the newest position valued at the given price; a function, so it changes no state |
| AlgorithmClass.TradingAlgorithm.CurrentIndex | trading_algorithms/algorithms/algorithm_class.py:23-24 | `get_current_index`: the number of base steps taken; a function, so it changes no state |
| AlgorithmClass.TradingAlgorithm.CurrentBalance | trading_algorithms/algorithms/algorithm_class.py:26-27 | `get_current_balance`: the newest balance entry; a function, so it changes no state |
| AlgorithmClass.TradingAlgorithm.CurrentShares | trading_algorithms/algorithms/algorithm_class.py:29-30 | `get_current_shares`: the newest shares entry; a function, so it changes no state |
| AlgorithmClass.TradingAlgorithm.SettledAccessors | trading_algorithms/algorithms/algorithm_class.py:15-30 | between the calls of a strategy that appends one position per call, the index equals the number of prices seen and of positions after the initial one, and the current balance and shares are the entries at that index |
| AlgorithmClass.TradingAlgorithm.GiveDataPoint | trading_algorithms/algorithms/algorithm_class.py:15-20 | a worth entry (the position held, valued at the previous price) is appended only when a price was seen before; the price is appended and the index grows by one; balance and shares histories are untouched; a settled instance becomes pending |
| AlgorithmClass.TradingAlgorithm.AppendPosition | trading_algorithms/algorithms/random_choice.py:35-36 | exactly one balance and one shares entry are appended and nothing else changes; a pending instance becomes settled, which fixes every history length after k steps |
| Greedy.GreedyTrade | trading_algorithms/algorithms/greedy.py:20-28 | the greedy decision: on a rise half the shares are sold at the price, on a fall half the cash buys shares at the price, on an equal price nothing changes; its properties are the lemmas below |
| Greedy.GreedyConservesWorth | trading_algorithms/algorithms/greedy.py:20-28 | every greedy decision keeps the worth at the current price |
| Greedy.GreedyOnRise | trading_algorithms/algorithms/greedy.py:20-23 | on a rise the shares halve and the balance gains the half sold at the price |
| Greedy.GreedyOnFall | trading_algorithms/algorithms/greedy.py:25-28 | on a fall the balance halves and the half spent buys shares at the price |
| Greedy.GreedyHoldsOnEqualPrice | trading_algorithms/algorithms/greedy.py:20-31 | an unchanged price, which is what the first price is compared with, leaves the position as it was |
| Greedy.GreedyKeepsNonNegative | trading_algorithms/algorithms/greedy.py:20-28 | at a positive price non-negative cash and shares stay non-negative |
| Greedy.MaximallyGreedyAlgorithm.constructor | trading_algorithms/algorithms/greedy.py:7-8 | the base starts fresh with the starting balance and shares, and the greedy invariant holds |
| Greedy.MaximallyGreedyAlgorithm.GiveDataPoint | trading_algorithms/algorithms/greedy.py:11-31 | the first call pushes the price twice (then one push per call); one worth entry at the previous price is recorded; the new position is the greedy decision on the previous price and the pre-step position; the invariant (one price per position, each position the greedy decision on the one before) is kept |
| Greedy.TradeOnChange | trading_algorithms/algorithms/greedy.py:20-28 | the local balance and shares updates compute the greedy decision |
| BestAfterN.BestAfterNStep | trading_algorithms/algorithms/bestaftern.py:19-35 | the best-after-N decision on the prices seen, the advanced index and the two mode fields; its properties are the lemmas below |
| BestAfterN.BestAfterNTradeRule | trading_algorithms/algorithms/bestaftern.py:19-35 | a trade happens if and only if the wait is over and the price is not below (sell mode) or not above (buy mode) any price since `considering_from`, ties included; a trade flips the mode and restarts the wait at the current index; a sale leaves no shares, a purchase no cash; otherwise nothing changes |
| BestAfterN.BestAfterNConservesWorth | trading_algorithms/algorithms/bestaftern.py:22-35 | both trades keep the worth at the current price |
| BestAfterN.BestAfterNWaitsAfterTrade | trading_algorithms/algorithms/bestaftern.py:19-35 | for `searching_number` steps after a trade at index t no trade can happen and the state is kept |
| BestAfterN.BestAfterNAlgorithm.constructor | trading_algorithms/algorithms/bestaftern.py:7-11 | `considering_from` is 0 and the strategy starts selling if and only if it starts with shares |
| BestAfterN.BestAfterNAlgorithm.GiveDataPoint | trading_algorithms/algorithms/bestaftern.py:14-38 | base step, then the best-after-N decision on the pre-step position and mode fields sets the new position and both mode fields; the invariant (each recorded position and mode pair is the decision on the one before, `considering_from` within the index) is kept |
| BestAfterN.DecideAfterN | trading_algorithms/algorithms/bestaftern.py:16-35 | the branches of the step compute the best-after-N decision |
| BestAfterN.AfterNTradedExtend | trading_algorithms/algorithms/bestaftern.py:14-38 | one more step's decision, appended to the positions and the mode histories, keeps every step of the trajectory the best-after-N decision on the step before |
| SimpleMovingAverage.ScanIncreasing | trading_algorithms/algorithms/simple_moving_average.py:39-45 | the sell scan with `break` yields true if and only if the newest averages strictly increase in the order of the lengths |
| SimpleMovingAverage.ScanDecreasing | trading_algorithms/algorithms/simple_moving_average.py:54-60 | the buy scan yields true if and only if the newest averages strictly decrease |
| SimpleMovingAverage.SmaDecision | trading_algorithms/algorithms/simple_moving_average.py:36-66 | the moving-average decision on the mode, the newest averages and the price; its properties are the lemmas below |
| SimpleMovingAverage.SmaDecisionRule | trading_algorithms/algorithms/simple_moving_average.py:36-66 | the mode flips if and only if the ordering the mode looks for holds; a sale sells every share, a purchase spends exactly `trading_proportion` of the cash; without a flip the position is kept |
| SimpleMovingAverage.SmaDecisionConservesWorth | trading_algorithms/algorithms/simple_moving_average.py:47-65 | both trades keep the worth at the current price |
| SimpleMovingAverage.SingleLengthAlwaysTrades | trading_algorithms/algorithms/simple_moving_average.py:40-55 | with one length the scans are empty, so every step trades and the mode alternates |
| SimpleMovingAverage.OrderingsExclusive | trading_algorithms/algorithms/simple_moving_average.py:36-66 | with two or more lengths the sell and buy orderings cannot both hold |
| SimpleMovingAverage.AdvanceAverages | trading_algorithms/algorithms/simple_moving_average.py:19-31 | the loop over the lengths appends exactly one new average to each history and adds no key |
| SimpleMovingAverage.AdvancedAligned | trading_algorithms/algorithms/simple_moving_average.py:19-31 | each appended value (direct mean during warm-up, telescoped after) is the mean of the last `min(length, n)` prices, the histories stay aligned, and the newest values are the current means |
| SimpleMovingAverage.TradeOnAverages | trading_algorithms/algorithms/simple_moving_average.py:33-66 | the trading half of the step computes the moving-average decision on the newest values |
| SimpleMovingAverage.SmaTradedExtend | trading_algorithms/algorithms/simple_moving_average.py:17-69 | one more step's decision on the current means, appended to the positions and the mode history, keeps every step of the trajectory the moving-average decision on the step before |
| SimpleMovingAverage.SimpleMAAlgorithm.constructor | trading_algorithms/algorithms/simple_moving_average.py:7-13 | one empty history per length, and the strategy starts selling if and only if it starts with shares |
| SimpleMovingAverage.SimpleMAAlgorithm.GiveDataPoint | trading_algorithms/algorithms/simple_moving_average.py:17-69 | each history gains the window mean over all prices seen; position and mode follow the moving-average decision on those means from the pre-step position and mode; the invariant (aligned histories, each recorded position and mode the decision on the one before) is kept |
| SimpleMovingAverage.SimpleMAAlgorithm.TradeOnNewest | trading_algorithms/algorithms/simple_moving_average.py:33-69 | once the averages include the newest price, the trading half appends the moving-average decision from the given position, records the new mode and leaves prices, index, worth and averages as they were |
| Indicators.WindowMean | trading_algorithms/algorithms/simple_moving_average.py:21-24 | the mean of the last `min(length, n)` prices, the value an SMA history should hold |
| Indicators.SmaNext | trading_algorithms/algorithms/indicators.py:27-33 | the value one update appends: a direct mean while the history holds at most `length` values, the telescoped update after; `SmaNextIsWindowMean` proves it is the window mean |
| Indicators.SmaTelescope | trading_algorithms/algorithms/simple_moving_average.py:26-30 | the derivation in the comment: a full window's mean is the previous mean plus (newest − dropped) / length |
| Indicators.WindowSums | trading_algorithms/algorithms/simple_moving_average.py:26-29 | the sum of a full window is the previous window's sum plus the newest price minus the dropped one |
| Indicators.SmaNextIsWindowMean | trading_algorithms/algorithms/indicators.py:27-33 | given an aligned history, the value the update appends equals the direct window mean, and the history stays aligned |
| Indicators.SmaUpdateKeepsAligned | trading_algorithms/algorithms/indicators.py:25-33 | one update keeps every aligned history aligned |
| Indicators.SimpleMovingAverageIndicator.constructor | trading_algorithms/algorithms/indicators.py:17-19 | one empty history per length |
| Indicators.SimpleMovingAverageIndicator.Update | trading_algorithms/algorithms/indicators.py:21-33 | an empty price list changes nothing; otherwise each history gains one value, the window mean when the history was aligned |
| Indicators.DefaultSmoothingWeightInRange | trading_algorithms/algorithms/indicators.py:37-50 | with the default smoothing factor 2.0 and a length of at least 1 the weight lies in (0, 1] |
| Indicators.EmaNext | trading_algorithms/algorithms/indicators.py:47-51 | the value one update appends: the newest price for an empty history, then `latest * a + previous * (1 - a)` |
| Indicators.EmaNextBetween | trading_algorithms/algorithms/indicators.py:47-51 | the first value is the latest price; later values lie between the previous value and the latest price |
| Indicators.EmaEntryInRange | trading_algorithms/algorithms/indicators.py:42-51 | each EMA entry lies within any bounds that hold every price |
| Indicators.EmaWithinPriceRange | trading_algorithms/algorithms/indicators.py:42-51 | the whole EMA history lies within any bounds holding every price; a constant series gives a constant EMA |
| Indicators.EmaAlignedExtend | trading_algorithms/algorithms/indicators.py:42-51 | appending the next EMA value keeps the history aligned with the prices |
| Indicators.ExponentialMovingAverageIndicator.constructor | trading_algorithms/algorithms/indicators.py:37-40 | one empty history per length, smoothing factor kept |
| Indicators.ExponentialMovingAverageIndicator.Update | trading_algorithms/algorithms/indicators.py:42-51 | empty prices change nothing; otherwise each history gains the next EMA value and stays aligned |
| Indicators.SquaredDeviations | trading_algorithms/algorithms/indicators.py:66 | a sum of squares is never negative |
| Indicators.Variance | trading_algorithms/algorithms/indicators.py:66 | the population variance is never negative |
| Indicators.BollingerBandsOf | trading_algorithms/algorithms/indicators.py:64-70 | the bands of a window: its mean plus and minus `num_std_dev` population standard deviations; `BandsAroundMean` states what they mean |
| Indicators.BandsAroundMean | trading_algorithms/algorithms/indicators.py:64-70 | the bands are symmetric about the mean, their half-width squared is `num_std_dev²` times the variance, and upper ≥ lower for a non-negative `num_std_dev` |
| Indicators.BollingerBandsIndicator.constructor | trading_algorithms/algorithms/indicators.py:55-59 | empty band histories, window and width kept; a window size of at least 1 |
| Indicators.BollingerBandsIndicator.Update | trading_algorithms/algorithms/indicators.py:61-73 | fewer prices than the window: `None` and nothing appended; otherwise exactly one upper and one lower value, the bands of the last `window_size` prices, also returned |
| Bollinger.BandsAfter | trading_algorithms/algorithms/bollinger.py:17-23 | the bands of `seen[-window_size:]`, which is all of `seen` while it is shorter |
| Bollinger.BollingerTrade | trading_algorithms/algorithms/bollinger.py:36-45 | the trade against given bands; `BollingerTradeRule` states it |
| Bollinger.BollingerStep | trading_algorithms/algorithms/bollinger.py:27-48 | hold while fewer than `window_size` prices were seen, else the trade against the bands after those prices |
| Bollinger.BollingerConservesWorth | trading_algorithms/algorithms/bollinger.py:36-45 | both trades keep the worth at the current price |
| Bollinger.BollingerTradeRule | trading_algorithms/algorithms/bollinger.py:36-48 | above the upper band (strict) the proportion of shares is sold at the price; otherwise, below the lower band, the proportion of cash buys shares at the price; within the bands the position is kept; any change means the price left the bands |
| Bollinger.BollingerTradesAcrossMean | trading_algorithms/algorithms/bollinger.py:17-45 | a sale happens only above the window mean and a purchase only below it |
| Bollinger.FlatSquaredDeviations | trading_algorithms/algorithms/bollinger.py:19 | a constant window has no deviation |
| Bollinger.FlatWindowBands | trading_algorithms/algorithms/bollinger.py:17-23 | a constant window's bands collapse onto the price |
| Bollinger.FlatWindowHolds | trading_algorithms/algorithms/bollinger.py:17-48 | on a constant price series the strategy never trades |
| Bollinger.BandsAlignedExtend | trading_algorithms/algorithms/bollinger.py:17-25 | appending the newest bands keeps one band pair per price, each of the window ending there |
| Bollinger.BandsOfWindow | trading_algorithms/algorithms/bollinger.py:17-23 | the mean, variance and square root of the shrinking window compute the recorded bands |
| Bollinger.TradeOnBands | trading_algorithms/algorithms/bollinger.py:27-48 | the early return and the band tests compute the Bollinger decision |
| Bollinger.BollingerTradedExtend | trading_algorithms/algorithms/bollinger.py:14-48 | one more step's decision, appended to the positions, keeps every step of the trajectory the Bollinger decision on the step before |
| Bollinger.BollingerBandsAlgorithm.constructor | trading_algorithms/algorithms/bollinger.py:5-11 | parameters kept, band histories empty |
| Bollinger.BollingerBandsAlgorithm.GiveDataPoint | trading_algorithms/algorithms/bollinger.py:14-48 | one band pair per step (the shrinking window's bands); hold while fewer than `window_size` prices were seen, otherwise the band decision on the pre-step position; the invariant (one band pair per price, each recorded position the decision on the one before) is kept |
| Rsi.Gains | trading_algorithms/algorithms/rsi.py:36-41 | the sum of positive changes is never negative |
| Rsi.Losses | trading_algorithms/algorithms/rsi.py:36-41 | the sum of the sizes of non-positive changes is never negative |
| Rsi.GainsMinusLosses | trading_algorithms/algorithms/rsi.py:36-41 | gains minus losses is the net change over the window |
| Rsi.GainsAndLosses | trading_algorithms/algorithms/rsi.py:34-41 | the accumulating loop computes the gains and the losses |
| Rsi.RsiAfter | trading_algorithms/algorithms/rsi.py:26-53 | the RSI recorded after the prices seen: 50 during the warm-up, then the index of the last `window_size + 1` prices |
| Rsi.RsiValue | trading_algorithms/algorithms/rsi.py:47-53 | the RSI lies in [0, 100]; it is above 50 if and only if the average gain exceeds the average loss, and exactly 50 if and only if they are equal |
| Rsi.RsiFollowsNetChange | trading_algorithms/algorithms/rsi.py:33-53 | after the warm-up the RSI is above 50 if and only if the price rose over the window, and 50 if and only if it ended where it started (so a constant window gives 50) |
| Rsi.RsiTrade | trading_algorithms/algorithms/rsi.py:63-72 | the trade for a given RSI; `RsiTradeRule` states it |
| Rsi.RsiStep | trading_algorithms/algorithms/rsi.py:26-75 | hold during the warm-up, else the trade for the RSI after those prices |
| Rsi.RsiTradeRule | trading_algorithms/algorithms/rsi.py:63-72 | at or above overbought the proportion of shares is sold at the price (priority over oversold); strictly between the thresholds the position is kept; at or below oversold the proportion of cash is spent and, at a positive price only, buys shares; worth is kept at a positive price and drops by the cash spent at a non-positive one |
| Rsi.RsiTradesAgainstTrend | trading_algorithms/algorithms/rsi.py:43-67 | with thresholds around 50 a sale follows a net rise and a purchase a net fall |
| Rsi.RsiAlignedExtend | trading_algorithms/algorithms/rsi.py:26-55 | appending the RSI after one more price keeps one RSI entry per price |
| Rsi.RsiTradedExtend | trading_algorithms/algorithms/rsi.py:22-75 | one more step's decision, appended to the positions, keeps every step of the trajectory the RSI decision on the step before |
| Rsi.RSIAlgorithm.constructor | trading_algorithms/algorithms/rsi.py:5-19 | parameters kept, empty RSI history |
| Rsi.RSIAlgorithm.GiveDataPoint | trading_algorithms/algorithms/rsi.py:22-75 | one RSI entry per step (50 during the warm-up); hold during the warm-up, otherwise the RSI decision on the pre-step position, at any price; the invariant (one RSI entry per price, each recorded position the decision on the one before) is kept |
| Rsi.DecideOnRsi | trading_algorithms/algorithms/rsi.py:26-75 | the warm-up branch and the computation compute the recorded RSI and the RSI decision |
| Rsi.RsiOfWindow | trading_algorithms/algorithms/rsi.py:33-53 | the window, the loop and the formula compute the RSI of the last `window_size + 1` prices |
| Rsi.TradeOnRsi | trading_algorithms/algorithms/rsi.py:57-75 | the threshold branches compute the RSI trade |
| RandomChoice.RandomTrade | trading_algorithms/algorithms/random_choice.py:20-33 | the trade under a given draw; `RandomTradeRule` states it |
| RandomChoice.RandomTradeRule | trading_algorithms/algorithms/random_choice.py:20-33 | draw 1 sells `w` of the shares at the price, draw 2 spends `w` of the cash on shares, draw 3 keeps the position |
| RandomChoice.RandomConservesWorth | trading_algorithms/algorithms/random_choice.py:20-33 | every draw keeps the worth at the current price |
| RandomChoice.RandomKeepsNonNegative | trading_algorithms/algorithms/random_choice.py:21-30 | for `w` in [0, 1] and a positive price non-negative cash and shares stay non-negative |
| RandomChoice.SaleKeepsNonNegative | trading_algorithms/algorithms/random_choice.py:21-25 | the sale of a proportion in [0, 1] leaves non-negative cash and shares |
| RandomChoice.PurchaseKeepsNonNegative | trading_algorithms/algorithms/random_choice.py:26-30 | the purchase with a proportion in [0, 1] leaves non-negative cash and shares |
| RandomChoice.TradeOnDraw | trading_algorithms/algorithms/random_choice.py:20-33 | the match on the draw computes the random trade |
| RandomChoice.RandomChoiceAlgorithm.constructor | trading_algorithms/algorithms/random_choice.py:8-11 | fresh base with the starting balance and shares, proportion kept |
| RandomChoice.RandomChoiceAlgorithm.GiveDataPoint | trading_algorithms/algorithms/random_choice.py:14-36 | whatever the draw, exactly one balance and one shares entry are appended; they hold the trade under that draw, and the draw is recorded |
| RandomChoice.RandomHistoryKeepsWorth | trading_algorithms/algorithms/algorithm_class.py:15-18 | every recorded worth is the position held before the trade at that price, valued at that price (no look-ahead) |
| TrueOptimal.OptimalStep | trading_algorithms/algorithms/true_optimal.py:11-18 | one look-ahead step; `OptimalStepRule` states it |
| TrueOptimal.LoopHistory | trading_algorithms/algorithms/true_optimal.py:8-20 | one initial entry plus one per pass of the loop |
| TrueOptimal.OptimalWorthHistory | trading_algorithms/algorithms/true_optimal.py:8-23 | `len(data) + 1` entries |
| TrueOptimal.OptimalTrade | trading_algorithms/algorithms/true_optimal.py:11-18 | the loop body computes one look-ahead step |
| TrueOptimal.GetOptimalWorthHistory | trading_algorithms/algorithms/true_optimal.py:1-24 | the loop's result is the reference history |
| TrueOptimal.LoopHistoryEntry | trading_algorithms/algorithms/true_optimal.py:10-20 | the j-th loop entry is the position after j steps valued at `data[j-1]`, a one-step lag |
| TrueOptimal.OptimalEntry | trading_algorithms/algorithms/true_optimal.py:8-23 | entry 0 is the starting worth at `data[0]`, loop entries lag one price, and only the final entry uses the last price |
| TrueOptimal.OptimalStepRule | trading_algorithms/algorithms/true_optimal.py:11-18 | before a rise everything moves into shares, before a fall into cash, on equal prices nothing changes; worth at the trade price is kept |
| TrueOptimal.OptimalStartsFlat | trading_algorithms/algorithms/true_optimal.py:8-20 | the first two entries are both the starting worth |
| TrueOptimal.RiseFactor | trading_algorithms/algorithms/true_optimal.py:10-20 | the factor `max(1, next/here)` is at least 1 |
| TrueOptimal.BestWorthGrows | trading_algorithms/algorithms/true_optimal.py:10-23 | from a non-negative worth the product of rise factors is non-negative and never drops |
| TrueOptimal.OptimalStepWorth | trading_algorithms/algorithms/true_optimal.py:11-20 | one look-ahead step multiplies the worth, carried to the next price, by the rise factor |
| TrueOptimal.StepWorth | trading_algorithms/algorithms/true_optimal.py:10-20 | the worth after step k at `data[k]` is that after step k−1 at `data[k-1]` times the rise factor |
| TrueOptimal.WorthAfterSteps | trading_algorithms/algorithms/true_optimal.py:10-20 | after k steps the worth at `data[k]` is the starting worth times the first k rise factors |
| TrueOptimal.OptimalHistoryClosedForm | trading_algorithms/algorithms/true_optimal.py:2-23 | every entry is the starting worth times the product of `max(1, data[i+1]/data[i])` over the steps so far, lagging one step; the final entry has them all |
| TrueOptimal.OptimalWorthNeverDrops | trading_algorithms/algorithms/true_optimal.py:10-23 | with positive prices and a non-negative start the history is non-decreasing |
| TrueOptimal.HoldingGain | trading_algorithms/algorithms/true_optimal.py:3-4 | a non-negative holding gains at most the rise factor between two prices |
| TrueOptimal.SelfFinancingBound | trading_algorithms/algorithms/true_optimal.py:3-4 | any strategy trading at the current price without going short or borrowing is worth at most the product of rise factors |
| TrueOptimal.OracleDominates | trading_algorithms/algorithms/true_optimal.py:2-23 | "truly optimal": no such strategy ends above the benchmark's final entry |
| Backtester.Step | trading_algorithms/backtester.py:10 | one call of the strategy's own step, whichever of the six it is: index +1, the price pushed (pre-seeded for a fresh greedy instance), exactly the balance and shares entries of that strategy's decision on the pre-step position appended (with its mode fields, or its draw recorded), no old entry changed, and the strategy's trajectory invariant kept |
| Backtester.GreedyStep | trading_algorithms/backtester.py:10 | the same for a greedy instance, which always records a worth entry: the greedy decision on the previous price |
| Backtester.BestAfterNStep | trading_algorithms/backtester.py:10 | the same for a best-after-N instance: its decision sets the position and both mode fields |
| Backtester.SimpleMAStep | trading_algorithms/backtester.py:10 | the same for a moving-average instance: its decision on the current means sets the position and the mode |
| Backtester.BollingerStep | trading_algorithms/backtester.py:10 | the same for a Bollinger instance: its band decision sets the position |
| Backtester.RsiStep | trading_algorithms/backtester.py:10 | the same for an RSI instance, at any price: its RSI decision sets the position |
| Backtester.RandomStep | trading_algorithms/backtester.py:10 | the same for a random instance: the draw is recorded and the trade under it sets the position |
| Backtester.AppendedOne | trading_algorithms/backtester.py:10 | a step that pushes the pre-seed and the price, advances the index and appends one position while keeping every old entry is a step in the sense of `StepTaken` |
| Backtester.Observe | trading_algorithms/backtester.py:11-16 | a progress line holds the accessors' index, balance, shares and worth at the datum, and changes no state |
| Backtester.ReportsAppend | trading_algorithms/backtester.py:9-16 | a line for the next position extends the report |
| Backtester.ReportsExtend | trading_algorithms/backtester.py:9-16 | appending to the histories leaves earlier lines valid |
| Backtester.ValuedAtExtend | trading_algorithms/backtester.py:16 | a line valued at its own datum keeps the report valued |
| Backtester.RanStep | trading_algorithms/backtester.py:9-16 | one pass of the loop keeps the loop invariant |
| Backtester.Round | trading_algorithms/backtester.py:9-16 | one pass of the loop: one step and one progress line, keeping the loop invariant and the strategy's trajectory invariant |
| Backtester.RanDone | trading_algorithms/backtester.py:9-16 | the invariant after the last datum is the backtest's outcome |
| Backtester.Backtest | trading_algorithms/backtester.py:5-16 | one step per datum, in order: index and histories grow by `len(data)`, old entries are kept, prices follow the pre-seed, empty data changes nothing, line k reports step k valued at `data[k]`; the strategy's invariant is kept, so every recorded position is its decision on the one before |
| Backtester.WorkedExample | trading_algorithms/backtester.py:19-22 | greedy from (100, 100) on the example series reports (100, 100), (5225, 50), (7850, 25) and (3925, 6500/103) |
| Backtester.GreedyExampleOpening | trading_algorithms/backtester.py:20-22 | the greedy invariant fixes the first five positions of that run |
| AlgorithmFactory.AlgorithmCreate | trading_algorithms/algorithm_factory.py:13-18 | succeeds if and only if the tag is the greedy one, building a fresh greedy instance with one-entry histories; every other tag fails with "Not yet implemented" |

## Left out

- Floating point: prices and money are exact reals, so no statement is made
  about rounding.
- Printing: the backtest returns its progress lines instead of printing them
  with three decimals. The module-level script is the method `WorkedExample`.
- Randomness: `randint(1, 3)` is replaced by a draw passed to each step. The
  draw must lie in 1..3.
- The square root `** 0.5` is an injected function that must satisfy `IsSqrt`
  (non-negative, squaring back). Real exponentiation is not modelled.
- Greedy.MaximallyGreedyAlgorithm.GiveDataPoint: requires a non-zero price on
  every step, although the code divides only on a fall. The zero-price
  `ZeroDivisionError` is not modelled as an outcome.
- BestAfterN.BestAfterNAlgorithm.GiveDataPoint: requires a non-zero price,
  although the code divides only when it buys.
- SimpleMovingAverage.SimpleMAAlgorithm.GiveDataPoint: requires a non-zero
  price, although the code divides only when it buys.
- Bollinger.BollingerBandsAlgorithm.GiveDataPoint: requires a non-zero price,
  although the code divides only when it buys below the lower band.
- TrueOptimal.GetOptimalWorthHistory: requires non-empty data and no zero
  price before a rise, which is exactly when the code would fail.
- Window sizes and lengths: SMA lengths and the RSI window are at least 1.
  In the code an SMA length of 0 divides by zero on the second update, and a
  negative one reads `history[-1]` of an empty history (`IndexError`). An RSI
  window of 0 divides by zero, and a negative one averages over a negative
  count. A repeated length is excluded too, because a dictionary merges it.
- Indicators.BollingerBandsIndicator.constructor: requires a window size of at
  least 1. In the code a window size of 0 divides by zero, and a negative one
  keeps the prices after the first `-window_size`, divides by the negative
  size and takes `** 0.5` of a variance that is not positive, which gives a
  complex number.
- Bollinger.BollingerBandsAlgorithm.constructor: the window size is a `nat`;
  0 gives the whole series, as `seen[-0:]` does. A negative window would keep
  the prices after the first `-window_size`, dividing by zero while there are
  none.
- EMA lengths may be any integer except -1, for which `1 + length` is zero.
  Lengths of 0 and below -1 give a weight outside [0, 1] and are computed all
  the same; the range lemmas assume a weight in [0, 1].
- Indicators.SimpleMovingAverageIndicator.Update: requires the prices to be long
  enough for `seen_data_points[-1 - length]`. This excludes the `IndexError`
  the code would raise when fed prices inconsistent with its history.
- Dictionary order: the moving-average lengths are a sequence of distinct
  positive integers, scanned in that order. The code scans insertion order,
  which is the same.
- Aliasing: the history getters and `get_current_index`,
  `get_current_balance` and `get_current_shares` return the lists or values
  themselves. Here they are functions on the fields, and no caller mutates a
  returned list.
- Dynamic dispatch: `backtest` takes any subclass. Here it takes a value of a
  closed datatype over the six strategy classes.
- AlgorithmFactory.AlgorithmCreate's defaults apply to the balance and shares
  as in the code. The `KeyError` is a `Failure` value.
- The abstract `Indicator` base class and its `NotImplementedError` are not
  part of this model.
- Metrics, the reinforcement-learning environment, data download and parsing,
  and the plotters are not part of this model. They are I/O, numpy/pandas or
  library calls.
