# funance_blog backtesting core in Dafny

This project models the bookkeeping of the repository's two backtesters and the
decision rules that feed them, and proves properties of each:

- **`BacktestTrader`** (`backtest/backtest_trader.py`) is a signal-driven
  simulator. For every date and every ticker in column order it turns a signal
  (1 long, -1 short, 0 exit, 2 hold) and a weight into changes to the shared
  cash and to the per-ticker share counts. It charges a flat fee per trade and
  a daily borrow charge on shorts, and records one portfolio value per date.
  It is modelled as the class `BacktestTraderModel.BacktestTrader`. Its loops
  are proved against the ghost specification functions `Trade`, `TickerStep`,
  `BarPrefix` and `RunPrefix`.
- **`Backtest`** (`backtest/backtest.py`) is a walk-forward allocation
  backtest. On each pair of consecutive grid dates it fits the strategy on a
  trailing window. It then holds the allocation to the next grid date and
  compounds the weighted price changes. It is modelled as the class
  `WalkForward.Backtest`, whose loops are proved against `Planned` and
  `Tracked`.
- **SMAC / EWMAC** (`strategies/smac.py`, `strategies/ewmac.py`) are
  moving-average crossover signal rules. They are modelled as pure functions
  over a price sequence, sharing the masked-write rule in `Crossover`.
- **PCA/factor stock selection** (`strategies/pca_fa.py`,
  `investing_strategies/pca_fa.py`) covers the column filter, the
  principal-component cutoff, per-cluster top-k selection with thresholds and
  the positive-weight filter. These are in `FactorSelection`, `PcaFaStrategy`
  and `PcaFaInvesting`. Regression estimates, the explained-variance vector,
  k-means fits, silhouette scores and optimiser weights are parameters.
- **`cluster_kmeans`** (`utils/stats.py`) is the best-k search loop. It is
  modelled as `Clustering.ClusterKMeans`, with the k-means fit and the
  silhouette score as uninterpreted functions of k.

Prices, cash and returns are exact `real`s and share counts are `int`s. Dates
are integers (day numbers). Frames (`Frames.Frame`) are a strictly increasing
date column with one row of prices per date, and `.loc[lo:hi]` label slicing
is `Frames.Slice`. Python exceptions are `Common.Error` values in a `Result`.

Quirks of the source are reproduced as written:
- the short branch has no guard against a negative share count, so a budget
  below the fee makes a "short" from flat buy shares;
- the recorded value marks every ticker at the last column's price;
- `cluster_kmeans` with fewer than two clusters fails on an unbound name;
- the investing variant has no empty-selection guard;
- the principal-component count falls back to 1 when no cumulative variance exceeds the threshold (numpy's argmax of an all-false mask is 0), so raising the threshold past the total can lower the count (UnreachedThresholdKeepsOne).

## Model

| member | source | states |
|---|---|---|
| BacktestTraderModel.BacktestTrader.constructor | src/backtest/backtest_trader.py:9-33 | stores data, cash, fee and borrow rate; every ticker starts with 0 shares; value and return histories start empty |
| BacktestTraderModel.MaxShares | src/backtest/backtest_trader.py:54 | the floored share count is the unique integer m with m·price + fee ≤ total_cash·weight < (m+1)·price + fee |
| BacktestTraderModel.BracketsUnique | src/backtest/backtest_trader.py:54 | at most one share count brackets a budget, so the floor is well defined |
| BacktestTraderModel.NotionalIsProduct | src/backtest/backtest_trader.py:57 | the cost of n shares is n·price, for negative n too |
| BacktestTraderModel.NotionalMonotone | src/backtest/backtest_trader.py:54 | more shares never cost less at a positive price |
| BacktestTraderModel.Affordable | src/backtest/backtest_trader.py:54 | the floored count brackets the budget total_cash·weight − fee between m and m+1 shares |
| BacktestTraderModel.FloorScaled | src/backtest/backtest_trader.py:54 | floor(x) shares cost at most x·price and floor(x)+1 shares cost more |
| BacktestTraderModel.TradeLong | src/backtest/backtest_trader.py:53-57 | a long with a positive affordable count m adds m shares and pays m·price + fee; with m ≤ 0 it changes nothing; the budget stays, shares never fall, and the spend is at most total_cash·weight |
| BacktestTraderModel.TradeShort | src/backtest/backtest_trader.py:59-69 | a short on a short position changes nothing; on a long position it sells it, so total cash becomes cash + shares·price − fee; from flat the budget stays; either way it then holds minus the count affordable on that budget and pays that position's notional plus the fee |
| BacktestTraderModel.TradeExit | src/backtest/backtest_trader.py:71-74 | an exit credits shares·price − fee and leaves the ticker flat; a flat ticker is untouched; the budget stays |
| BacktestTraderModel.TradeIgnored | src/backtest/backtest_trader.py:76-77 | hold (2) and every other signal change nothing |
| BacktestTraderModel.TradeConservesEquity | src/backtest/backtest_trader.py:53-77 | every branch keeps cash + shares·price, less one fee per fill (0, 1 or 2 fills) |
| BacktestTraderModel.ShortBelowFeeGoesLong | src/backtest/backtest_trader.py:66-69 | from flat, a short whose budget is below the fee ends with a positive share count and pays more than the fee |
| BacktestTraderModel.ShortFromFlatAlwaysPaysFee | src/backtest/backtest_trader.py:66-69 | a short from flat that can afford 0 shares still charges the fee and changes nothing else |
| BacktestTraderModel.Borrow | src/backtest/backtest_trader.py:80-81 | only a negative position is charged; the charge never adds cash; shares and total cash are unchanged |
| BacktestTraderModel.TickerStep | src/backtest/backtest_trader.py:46-81 | handling one ticker changes only that ticker's share count |
| BacktestTraderModel.BarPrefix | src/backtest/backtest_trader.py:46-81 | after the first k tickers of a bar, the share counts of the remaining tickers are untouched |
| BacktestTraderModel.BarValue | src/backtest/backtest_trader.py:84-87 | with one column the recorded value is cash + shares·price |
| BacktestTraderModel.RunPrefix | src/backtest/backtest_trader.py:40-88 | after d dates exactly d values have been recorded, and there is one share count per ticker |
| BacktestTraderModel.RunPrefixStep | src/backtest/backtest_trader.py:40-88 | one more date runs one bar from the previous cash, which is also that bar's budget, and appends that bar's value |
| BacktestTraderModel.RunValuesGrow | src/backtest/backtest_trader.py:84-88 | a date only appends to the values recorded so far |
| BacktestTraderModel.RunPrefixStable | src/backtest/backtest_trader.py:84-88 | the values recorded after e dates are the first e values recorded after any later date |
| BacktestTraderModel.RunPrefixValues | src/backtest/backtest_trader.py:84-88 | the value recorded for date e is that date's closing cash plus its closing holdings, all marked at date e's last-column price |
| BacktestTraderModel.AllHoldKeepsCash | src/backtest/backtest_trader.py:76-77 | with every signal hold and no short positions, cash and shares never change and each value is cash + holdings marked at that date's last-column price |
| BacktestTraderModel.HoldBarChangesNothing | src/backtest/backtest_trader.py:76-81 | a bar of hold signals over non-short positions leaves the book unchanged |
| BacktestTraderModel.LongBarKeepsBudget | src/backtest/backtest_trader.py:44-57 | a bar of long and hold signals keeps the bar-opening total cash and never lowers any share count |
| BacktestTraderModel.LongBuysWholeBudget | src/backtest/backtest_trader.py:53-57 | 1000 cash at price 100, weight 1, no fee buys 10 shares and leaves 0 cash |
| BacktestTraderModel.ExitSellsHolding | src/backtest/backtest_trader.py:71-74 | exiting 10 shares at 90 with no fee gives 900 cash and a flat position |
| BacktestTraderModel.BacktestTrader.RunBacktest | src/backtest/backtest_trader.py:35-91 | the final shares are those of RunPrefix over all dates; the value history grows by exactly RunPrefix's values, one per date in date order; returns are the pct_change of the values |
| BacktestTraderModel.BacktestTrader.RunBar | src/backtest/backtest_trader.py:40-88 | one date's inner loop yields BarPrefix's cash and shares over all tickers and records BarValue |
| BacktestTraderModel.BacktestTrader.HandleTicker | src/backtest/backtest_trader.py:47-81 | one ticker's step is Trade followed by Borrow |
| BacktestTraderModel.BacktestTrader.GetResults | src/backtest/backtest_trader.py:93-122 | no recorded value gives Err(NotRun); a zero first value gives Err(ZeroDivision); otherwise the final value is the last value, first·(1 + total return) = last, the average return is gmean(1 + returns) − 1, the annual return is (1 + average)^252 − 1 for "D", ^52 for "W", ^12 for "MS", and the average itself for any other frequency |
| Performance.Summarise | src/backtest/backtest.py:93-107 | fails exactly when the first value is zero; first·(1 + total return) = last; average return is gmean(1 + r) − 1; the annual return is (1 + average)^252 − 1 for "D", ^52 for "W", ^12 for "MS", and the average for any other frequency |
| Performance.AnnualReturns | src/backtest/backtest.py:96-107 | (1 + average)^252 − 1 for "D", ^52 for "W", ^12 for "MS"; an unknown frequency returns the average unchanged; a non-negative average never shrinks; a zero average stays zero |
| Performance.AnnualisedAtLeast | src/backtest/backtest_trader.py:100-108 | (1 + a)^p − 1 ≥ a for a ≥ 0 and p ≥ 1 |
| Performance.Bernoulli | src/backtest/backtest_trader.py:101 | (1 + a)^n ≥ 1 + n·a for a ≥ −1 |
| Performance.PctChange | src/backtest/backtest_trader.py:91 | one fewer return than values |
| Performance.PctChangeOfCompound | src/backtest/backtest_trader.py:91 | pct_change of a path compounded from returns gives those returns back when no value is zero |
| Performance.CompoundOfPctChange | src/backtest/backtest_trader.py:91 | compounding the pct_change of a non-zero value path from its first value rebuilds the path |
| Performance.PathFollowsValues | src/backtest/backtest.py:85-87 | a path each of whose steps grows by its return is the compounded path |
| Performance.CompoundPrefix | src/backtest/backtest.py:85-87 | compounding a prefix of the returns gives the prefix of the path |
| Performance.CompoundIsGrowth | src/backtest/backtest.py:85-87 | the k-th compounded value is v0 times the product of (1 + r) over the first k+1 returns |
| Performance.CompoundStep | src/backtest/backtest.py:85-87 | each value is the previous one times (1 + return) |
| Frames.StartOf | src/backtest/backtest.py:55 | the first index whose date is at least lo |
| Frames.EndOf | src/backtest/backtest.py:55 | the first index whose date is after hi |
| Frames.SpanIsWindow | src/backtest/backtest.py:55 | on increasing dates, an index lies in [StartOf, EndOf) exactly when its date lies in [lo, hi] |
| Frames.SliceSelectsSpan | src/backtest/backtest.py:53-55 | label slicing keeps exactly the dates in [lo, hi], each with its own row |
| WalkForward.Backtest.constructor | src/backtest/backtest.py:11-38 | no portfolios, the value history is [starting cash], no returns |
| WalkForward.Collect | src/backtest/backtest.py:50-63 | the loop either completes all n steps or stops early with an error |
| WalkForward.CollectEntries | src/backtest/backtest.py:50-63 | every collected entry is the step's result on its own input, and a stop carries the failing step's error |
| WalkForward.CollectStops | src/backtest/backtest.py:57 | once a step has failed, running longer changes nothing |
| WalkForward.Periods | src/backtest/backtest.py:50 | a grid of n dates gives n − 1 consecutive pairs |
| WalkForward.FitData | src/backtest/backtest.py:53-55 | the fitting slice is a well-shaped frame |
| WalkForward.NoLookAhead | src/backtest/backtest.py:53-55 | the fitting slice for date d holds no date after d and every data date in [window start, d] |
| WalkForward.PlanEntries | src/backtest/backtest.py:50-63 | entry i is bought on grid[i], predicted at grid[i+1], and holds the strategy's allocation for grid[i]; a failure is the strategy's error on the next date |
| WalkForward.PlannedStep | src/backtest/backtest.py:57-63 | a successful strategy call appends exactly one entry for that pair of dates |
| WalkForward.HoldingPeriodsTile | src/backtest/backtest.py:59-63 | each entry's prediction date is the next entry's purchase date |
| WalkForward.Backtest.RunBacktest | src/backtest/backtest.py:40-64 | portfolios grow by exactly the planned entries; it passes exactly when no strategy call failed and otherwise reports that call's error |
| WalkForward.PeriodReturn | src/backtest/backtest.py:71-91 | an empty allocation returns 0; an unknown ticker gives KeyError; the only other failure is IndexError, exactly when no data date lies in the holding window |
| WalkForward.SliceRowsPriced | src/backtest/backtest.py:77-82 | rows of a holding-window slice keep the frame's width and positive prices |
| WalkForward.FlatPricesEarnNothing | src/backtest/backtest.py:83-91 | unchanged prices give a zero period return |
| WalkForward.RisingPricesGainLongOnly | src/backtest/backtest.py:83-91 | non-negative weights on non-falling prices give a non-negative period return |
| WalkForward.PeriodIsBuyAndHold | src/backtest/backtest.py:83-87 | value·(1 + Σ wⱼrⱼ) equals the uninvested part of the value plus each weight's share bought at the start price and marked at the end price |
| WalkForward.TrackedStep | src/backtest/backtest.py:67-91 | a successful period return appends exactly one return |
| WalkForward.TotalReturnsCompound | src/backtest/backtest.py:85-93 | over a compounded history, the final value is v0 times the product of (1 + r), the total return is that product − 1, and only a zero v0 fails |
| WalkForward.CompoundSnoc | src/backtest/backtest.py:85-87 | one more return appends the previous last value times (1 + r) |
| WalkForward.HistoryStep | src/backtest/backtest.py:85-91 | appending a return to the history extends the values by exactly the last value grown by that return |
| WalkForward.Backtest.TrackHoldings | src/backtest/backtest.py:67-91 | returns grow by the tracked period returns; values grow by those returns compounded from the last stored value, one per portfolio; an error stops the loop and is reported |
| WalkForward.Backtest.CalculatePerformance | src/backtest/backtest.py:66-121 | the history is extended as in TrackHoldings and the summary is Summarise of the new history, or the first period's error |
| Crossover.Masked | src/strategies/smac.py:54 | a masked write sets exactly the masked positions and keeps the others |
| Crossover.Signals | src/strategies/smac.py:48-61 | 1 exactly where short > long; −1 exactly where shorting is on and long > short; 0 otherwise; values in {−1, 0, 1}, in {0, 1} without shorting, all 0 when the averages coincide |
| Smac.Sma | src/strategies/smac.py:50-51 | defined exactly when the window is at least 1 and the trailing window has filled |
| Smac.Smas | src/strategies/smac.py:50-51 | one rolling mean per input position |
| Smac.GenerateSignals | src/strategies/smac.py:39-63 | a negative window is a ValueError and the only error; otherwise same length as the input; all 0 when a window is 0; 1 exactly where short SMA > long SMA; −1 exactly where shorting is on and short SMA < long SMA; values in {−1, 0, 1}, {0, 1} without shorting; all 0 for equal windows |
| Smac.WarmUpIsFlat | src/strategies/smac.py:48-51 | before either window fills the signal is 0 |
| Smac.SmaBounded | src/strategies/smac.py:50-51 | a rolling mean lies between the bounds of the prices |
| Smac.ConstantSeriesNeverSignals | src/strategies/smac.py:50-61 | a constant price series never signals |
| Smac.GeneratePortfolio | src/strategies/smac.py:36-37 | always fails with NotImplemented |
| Ewmac.Alpha | src/strategies/ewmac.py:50-51 | α = 2/(span + 1) lies in (0, 1] and is 1 exactly for span 1 |
| Ewmac.Ewmas | src/strategies/ewmac.py:50-51 | one EWMA per input position, all defined |
| Ewmac.GenerateSignals | src/strategies/ewmac.py:39-63 | a span below 1 is a ValueError and the only error; otherwise same length as the input; 1 exactly where short EWMA > long EWMA; −1 exactly where shorting is on and short < long; values in {−1, 0, 1}, {0, 1} without shorting; signal[0] is 0; all 0 for equal spans |
| Ewmac.EwmaBounded | src/strategies/ewmac.py:50-51 | the EWMA stays within the bounds of the prices seen so far |
| Ewmac.BlendBounded | src/strategies/ewmac.py:50-51 | one recurrence step stays within the bounds of its two inputs |
| Ewmac.SpanOneTracksPrice | src/strategies/ewmac.py:50-51 | with span 1 the EWMA is the price itself |
| Ewmac.ConstantSeriesNeverSignals | src/strategies/ewmac.py:50-61 | a constant price series never signals |
| Ewmac.GeneratePortfolio | src/strategies/ewmac.py:36-37 | always fails with NotImplemented |
| Clustering.MaxOfIsLargest | src/utils/stats.py:121 | max over a prefix bounds every entry and is attained |
| Clustering.MaxSnoc | src/utils/stats.py:121 | the max of a list with one more score is the larger of the old max and the new score |
| Clustering.Inertias | src/utils/stats.py:117 | one inertia per tested k |
| Clustering.InertiasAt | src/utils/stats.py:114-117 | entry j is the inertia of the fit with k = j + 2 |
| Clustering.Scores | src/utils/stats.py:118-125 | one silhouette score per tested k |
| Clustering.ScoresAt | src/utils/stats.py:114-125 | entry j is the silhouette score of the labels for k = j + 2 |
| Clustering.FirstBest | src/utils/stats.py:121-123 | the chosen index attains the maximum and every earlier score is strictly smaller |
| Clustering.OptimumIsFirstBest | src/utils/stats.py:121-123 | the optimum is the smallest index attaining the maximum score |
| Clustering.OptimumSnoc | src/utils/stats.py:121-123 | a new score moves the optimum exactly when it is strictly greater than every earlier score |
| Clustering.ScannedMeaning | src/utils/stats.py:114-125 | after n rounds the lists hold the n inertias and scores, and the chosen k and labels are those of the first best score, offset by 2 |
| Clustering.ClusterKMeans | src/utils/stats.py:101-132 | fails with UnboundLocal exactly when max_clusters < 2; otherwise one inertia and one score per k in 2..max_clusters, the optimal k is 2 plus the first best score's index, and the labels are that k's labels |
| FactorSelection.Where | src/strategies/pca_fa.py:83-88 | every listed index is in range and satisfies the filter |
| FactorSelection.WhereAscending | src/strategies/pca_fa.py:83 | indices are listed in column order |
| FactorSelection.WhereComplete | src/strategies/pca_fa.py:83-88 | every index that satisfies the filter is listed |
| FactorSelection.Kept | src/strategies/pca_fa.py:83-88 | a column is kept exactly when its non-missing count equals the factor row count; kept columns are in column order |
| FactorSelection.Dropped | src/strategies/pca_fa.py:86-87 | a column is dropped exactly when its count differs |
| FactorSelection.FilterColumns | src/strategies/pca_fa.py:82-111 | the loop keeps Kept, drops Dropped, regresses each kept column in order, and splits the columns between the two |
| FactorSelection.FirstExceeding | src/strategies/pca_fa.py:124 | the first index from k whose cumulative variance exceeds the threshold, or none |
| FactorSelection.NumPcs | src/strategies/pca_fa.py:124 | no variances is a ValueError; otherwise 1 + the first index whose cumulative variance exceeds the threshold, and 1 when none does |
| FactorSelection.NumPcsMonotone | src/investing_strategies/pca_fa.py:104 | when the total cumulative variance exceeds the stricter of two thresholds, the stricter one never keeps fewer components (without that condition it can, see UnreachedThresholdKeepsOne) |
| FactorSelection.UnreachedThresholdKeepsOne | src/strategies/pca_fa.py:124 | variances [0.5, 0.3] keep 1 component at 0.9 (never exceeded) and 2 at 0.7, so the component count is not monotone in the threshold |
| FactorSelection.OptimalK | src/strategies/pca_fa.py:128 | the cluster count the k-means search settles on for n ≥ 3 kept columns lies in 2 .. n − 1 |
| FactorSelection.Candidates | src/strategies/pca_fa.py:136-141 | candidate positions index the estimates |
| FactorSelection.CandidatesExact | src/strategies/pca_fa.py:136-141 | a position is a candidate exactly when it is in the cluster and beats both thresholds |
| FactorSelection.BestIndex | src/strategies/pca_fa.py:146 | idxmax: the first position with the largest expected return |
| FactorSelection.RemoveAt | src/strategies/pca_fa.py:148 | dropping a pick removes exactly that position |
| FactorSelection.RemoveAtMembers | src/strategies/pca_fa.py:148 | dropping adds nothing |
| FactorSelection.RemoveAtDistinct | src/strategies/pca_fa.py:148 | dropping from a duplicate-free list leaves it duplicate-free and without the dropped stock |
| FactorSelection.TopK | src/strategies/pca_fa.py:143-148 | takes min(k, number of candidates) picks |
| FactorSelection.TopKMembers | src/strategies/pca_fa.py:143-148 | every pick is a candidate |
| FactorSelection.TopKDistinct | src/strategies/pca_fa.py:143-148 | no stock is picked twice |
| FactorSelection.TopKOrdered | src/strategies/pca_fa.py:146-148 | picks come in non-increasing expected-return order |
| FactorSelection.TopKDominates | src/strategies/pca_fa.py:146-148 | no unpicked candidate has a higher expected return than any pick |
| FactorSelection.PickTop | src/strategies/pca_fa.py:143-148 | the in-place pick-and-drop loop yields TopK |
| FactorSelection.SelectStocks | src/strategies/pca_fa.py:134-148 | the cluster loop yields the concatenation of each cluster's TopK |
| FactorSelection.ConcatSource | src/strategies/pca_fa.py:135-147 | every selected stock comes from some cluster's block |
| FactorSelection.ConcatHas | src/strategies/pca_fa.py:135-147 | every stock of every block is selected |
| FactorSelection.ConcatEmpty | src/strategies/pca_fa.py:151-152 | the selection is empty exactly when every cluster's block is |
| FactorSelection.ConcatDistinct | src/strategies/pca_fa.py:135-147 | duplicate-free blocks of stocks from different clusters concatenate without duplicates |
| FactorSelection.DistinctConcat | src/strategies/pca_fa.py:147 | two disjoint duplicate-free lists concatenate without duplicates |
| FactorSelection.TopKInCluster | src/strategies/pca_fa.py:136-148 | each cluster's picks are in that cluster and beat both thresholds |
| FactorSelection.SelectionQualifies | src/strategies/pca_fa.py:138-141 | every selected stock beats both thresholds and belongs to a cluster already visited |
| FactorSelection.SelectionDistinct | src/strategies/pca_fa.py:143-148 | no stock is selected twice |
| FactorSelection.SelectionPerCluster | src/strategies/pca_fa.py:143-148 | a stock of cluster q is selected exactly when it is among q's top-k candidates |
| FactorSelection.SelectionEmpty | src/strategies/pca_fa.py:151-152 | nothing is selected exactly when k is 0 or no stock of a visited cluster beats both thresholds |
| FactorSelection.FloorOf | src/strategies/pca_fa.py:171 | floor x ≤ x < floor x + 1 |
| FactorSelection.RoundHalfEven | src/strategies/pca_fa.py:171 | numpy rounding: within 0.5 of x, ties to even, positive exactly when x > 0.5 |
| FactorSelection.Scale | src/strategies/pca_fa.py:171 | 10^digits ≥ 1 |
| FactorSelection.RoundedPositive | src/strategies/pca_fa.py:171-173 | a weight rounds to a positive value exactly when its scaled value exceeds 0.5 |
| FactorSelection.RoundedPositiveTwoPlaces | src/strategies/pca_fa.py:171-173 | rounded to 2 places, a weight survives the filter exactly when it exceeds 0.005 |
| FactorSelection.RoundedPositiveFourPlaces | src/investing_strategies/pca_fa.py:147-149 | rounded to 4 places, a weight survives exactly when it exceeds 0.00005 |
| FactorSelection.KeepPositive | src/strategies/pca_fa.py:171-173 | keeps exactly the selected stocks whose rounded weight is positive, each with its rounded weight; keys stay distinct |
| FactorSelection.EstimatesOf | src/strategies/pca_fa.py:95-108 | one regression estimate per kept column, in order |
| FactorSelection.TickersAt | src/strategies/pca_fa.py:146-147 | positions in the kept frame map back to their tickers |
| FactorSelection.SelectedWithin | src/strategies/pca_fa.py:146-147 | selected positions index the kept columns |
| FactorSelection.PickedTickersQualify | src/strategies/pca_fa.py:133-152 | selected tickers are distinct, kept and beat both thresholds, and the selection is empty exactly when k is 0 or no kept ticker of any cluster qualifies |
| FactorSelection.AllocationQualifies | src/strategies/pca_fa.py:171-173 | the allocation has distinct keys, each a kept, qualifying ticker with a positive weight |
| FactorSelection.SelectTickers | src/strategies/pca_fa.py:63-148 | no return dates is an IndexError; no kept column or no variances is a ValueError; fewer than 3 kept columns is UnboundLocal; otherwise the result is the selection over the labels of the k-means fit with OptimalK clusters, the first k in 2 .. kept − 1 with the best silhouette score |
| PcaFaStrategy.GeneratePortfolio | src/strategies/pca_fa.py:51-175 | fewer than 2 price dates is an IndexError; no kept column is a ValueError; 1 or 2 kept columns with variances is UnboundLocal; an empty selection gives the empty allocation; otherwise the 2-place positive-weight filter of the optimiser weights over the selection made with OptimalK clusters; every holding is a kept, qualifying ticker with positive weight |
| PcaFaStrategy.GenerateSignals | src/strategies/pca_fa.py:177-178 | always fails with NotImplemented |
| PcaFaInvesting.PcaFa | src/investing_strategies/pca_fa.py:25-151 | as the strategy, with the fixed thresholds 0.01 and 0; an empty selection fails; a success is the 4-place positive-weight filter of the optimiser weights over a non-empty selection made with OptimalK clusters |

## Left out

- `gmean`, `np.std`, `np.sqrt`, the Sharpe ratio and the risk-free rate are not modelled. The geometric mean is a parameter, and the returned summary has no standard deviation or Sharpe field. Only the choice of exponent (252, 52, 12 or none) and the `(1 + average)^P − 1` shape are kept.
- Calendar arithmetic (`relativedelta`, `pd.date_range`) and `daily_to_monthly` resampling are parameters. The backtest grid is a given date sequence, and the start of the fitting window is a given function of the date.
- Regression, ARIMA, PCA, covariance construction, k-means and the SLSQP optimiser are parameters. They are per-column estimates, the explained-variance vector, the fit for each k, the silhouette score and the optimiser's weights.
- Data loading, plotting, printing and progress messages are not modelled.
- Arithmetic is exact; floating-point rounding, NaN and infinity are not modelled. `pct_change` after a zero value records 0 instead of infinity or NaN. A zero first value makes the summary `Err(ZeroDivision)` instead of infinity or NaN.
- Prices are assumed positive, and frames are assumed to have one row per date.
- PcaFaInvesting.PcaFa: an empty selection is reported as `ValueError` from the covariance product (`investing_strategies/pca_fa.py:137`). In the code, that product fails before the optimiser's `1/n_assets` division (`utils/optimize_portfolio.py:38`) could be reached.
- BacktestTraderModel.BacktestTrader.RunBacktest: the four-bar example is not proved as one statement. That example is one ticker at 100, 110, 90 and 120 with signals long, hold, exit, hold, weight 1, no fee and 1000 cash, which records 1000, 1100, 900, 900. Only its long bar and its exit bar are proved, as LongBuysWholeBudget and ExitSellsHolding, and its hold bars follow from HoldBarChangesNothing.
- The trader's strategy call (`generate_signals`) is not modelled. The signal and weight tables are method inputs, because the crossover strategies return a single series and not the pair the trader unpacks.
- FactorSelection.BestIndex: the expected-return column is treated as numbers. In the code, the estimate frame is built from rows that mix scalars with list-valued betas (`strategies/pca_fa.py:114-118`, `investing_strategies/pca_fa.py:94-98`), so its columns have object dtype. pandas' `idxmax` on such a column (`strategies/pca_fa.py:146`, `investing_strategies/pca_fa.py:126`) may raise a TypeError, and that failure is not modelled.
