# Portfolio backtester accounting engine in Dafny

This project models the accounting core of a discrete-rebalance portfolio
backtester. There are three parts:

- **`calculate_rebalance_cost`** (src/utils.py) computes the turnover cost of moving from one weight vector to the next.
- **`balance_calc`** (src/utils.py) simulates one holding period. Each position compounds from `weight × balance`. The balance path is the per-date sum of the positions. The drifted weights are the last positions over the last balance. A period with no held asset keeps a flat balance.
- **`bt`** (__init__.py) runs the rebalance loop:
  - it walks the rebalance dates and breaks out when the last period starts on the end date;
  - it charges the cost and rounds the net balance to cents;
  - it simulates the period and rounds the path to cents;
  - it carries the closing balance and drifted weights into the next period;
  - at the end, it concatenates the period paths, records the starting balance on the first rebalance date, and sorts the result by date.

inv_bt/backtester.py is an older copy of the same engine. It differs in six ways:

- it rounds each return to 6 places;
- it values a position as `allocation × round(growth, 6)` rather than `round(allocation × growth, 2)`;
- it resamples the prices to the reporting frequency `balance_freq` (inv_bt/backtester.py:132), not to days (__init__.py:65), so its returns are per reporting step rather than per day;
- it does not forward-fill gaps in the resampled prices;
- it does not convert `end_date` to a date (__init__.py:47-51 has no counterpart), so its end-date break (inv_bt/backtester.py:151) compares against `end_date` as passed;
- it returns the per-period paths keyed by period index.

Both copies share one loop. The `Variant` datatype (`Current` or `Legacy`) selects between them.

Numbers are exact reals. Dates are day numbers. A weight vector is a
`map<Asset, real>` that holds only its non-NaN entries. Rounding (`Rounding.Round`)
is numpy's round-half-to-even on exact numbers. Proofs use only its lemmas:
- the value is on the 10^-d grid;
- it is at most half a unit away;
- it is idempotent and monotone;
- 0 rounds to 0, a non-negative value stays non-negative, and a value at or above an integer stays at or above it.

Compounding `exp(cumsum(log(1 + r)))` is modelled as the running product
Π(1 + r), which is what it computes for returns of at least -100%.

Modules and files:

| file | module | contents |
|---|---|---|
| rounding.dfy | Rounding | `round(x, d)` with ties to even |
| results.dfy | Results | `Result` and `Option` |
| map_sums.dfy | MapSums | the sum of a map's values; dividing every value |
| time_series.dfy | TimeSeries | dated series, `.loc` slicing, `pd.concat`, `s[d] = v`, `sort_index` |
| utils.dfy | Utils | `calculate_rebalance_cost`, `balance_calc` |
| backtest.dfy | Backtest | one iteration of `bt`, the loop, the three results |
| period_properties.dfy | PeriodProperties | facts about one period |
| loop_properties.dfy | LoopProperties | facts about a whole run |

## Model

| member | source | states |
|---|---|---|
| Rounding.Round | src/utils.py:29 | `round(x, d)` is a whole number of 10^-d units, namely the number nearest to x·10^d, ties to even |
| Rounding.RoundError | src/utils.py:29 | rounding moves a value by at most half a unit of 10^-d |
| Rounding.RoundIdempotent | __init__.py:102-109 | rounding an already rounded value changes nothing |
| Rounding.RoundMonotone | src/utils.py:69 | rounding never reverses the order of two values |
| Rounding.RoundNonNegative | src/utils.py:69 | a non-negative value rounds to a non-negative value |
| MapSums.MapSumNonNegative | src/utils.py:69 | a sum of non-negative entries is non-negative |
| MapSums.MapSumOfZeros | src/utils.py:69 | a sum of zeros is zero |
| MapSums.MapSumDivided | src/utils.py:38 | dividing every entry by c divides the sum by c |
| Utils.CostNonNegative | src/utils.py:66-69 | with a non-negative rate the rebalance cost is non-negative |
| Utils.CostOfUnchangedWeights | src/utils.py:66-69 | keeping the same weights costs nothing |
| Utils.CostSymmetric | src/utils.py:66 | the cost from a to b equals the cost from b to a |
| Utils.CostIgnoresOneSidedAsset | src/utils.py:66-69 | an asset held on one side only does not change the cost, whatever its weight |
| Utils.CostOfDisjointWeights | src/utils.py:66-69 | weight vectors with no common asset cost nothing |
| Utils.CostFromZeroWeights | src/utils.py:66-69 | against all-zero weights over a superset of the held assets, the cost is the rate times the gross exposure, rounded to 6 places |
| Utils.Growth | src/utils.py:26-29 | the compounded growth Π(1 + r) of an asset is never negative |
| Utils.Drifted | src/utils.py:35-38 | the drifted weights are last-date position over last-date balance, over the held assets, and add up to 1, negative weights included |
| Utils.BalanceCalc | src/utils.py:18-47 | flat path and no weights for an empty weight vector; otherwise one entry per returns date holding the summed positions, drifted weights adding up to 1, failure exactly when the frame is empty or the final balance is 0 |
| Backtest.Change | inv_bt/backtester.py:158 | a simple return between positive prices is at least -100%, and (1 + r) · before = after when it is not rounded |
| Backtest.PctChange | __init__.py:91 | `pct_change().dropna()` on the window drops the first row when assets are held and keeps every row when none are, dates carried over |
| Backtest.PeriodReturns | __init__.py:91 | selecting the held columns fails exactly when a held asset is not a price column; the frame covers every held asset |
| Backtest.PeriodReturnsDates | __init__.py:91 | the return frame is in strict date order within [start, to], and strictly after start when assets are held |
| Backtest.SimulatePeriod | __init__.py:105-114 | a successful simulation has a non-empty path with one entry per returns date, dated like it; each entry is the cents-rounded sum of that date's positions, or the cents-rounded net balance when nothing is held; the drifted weights cover the held assets and add up to 1 |
| Backtest.Step | __init__.py:73-118 | one iteration: the dropna'd weights, the period end, the cost charged against the carried weights, the net balance rounded to cents, a non-empty path inside the period's dates, and the drifted weights |
| PeriodProperties.GrowthOfRatios | src/utils.py:26-29 | the running product of 1 + r telescopes to the price ratio |
| PeriodProperties.GrowthTelescopes | __init__.py:91 | on the return frame of a window, an asset's growth to row t is its price at row t + 1 over its first price |
| PeriodProperties.NavTracksPrices | src/utils.py:23-29 | a position at row t is round(weight × balance × price ratio, 2) |
| PeriodProperties.NavRowTracksPrices | src/utils.py:23-29 | every position of row t is its allocation scaled by its price ratio, rounded to cents |
| PeriodProperties.RoundSixError | inv_bt/backtester.py:47 | the older copy's growth factor is within 5·10^-7 of the true growth |
| PeriodProperties.LegacyNavNearGrowth | inv_bt/backtester.py:41-47 | the older copy's position, long or short, differs from allocation × growth by at most the absolute allocation times 5·10^-7 |
| PeriodProperties.ChargedCostNonNegative | __init__.py:94-99 | the charged cost is never negative, and 0 when the rate is not positive |
| PeriodProperties.FirstCost | __init__.py:61-99 | against the initial all-zero weights, the cost is the rate on the gross exposure |
| PeriodProperties.CostAfterFlatPeriod | __init__.py:111 | after a period without positions the carried weights are empty and the next cost is 0 |
| PeriodProperties.FlatPeriod | __init__.py:102-111 | a period without positions records the net balance on every date and carries no weights |
| PeriodProperties.SegmentInCents | __init__.py:109 | every balance a period records is whole cents, in both copies |
| PeriodProperties.FlatKeepsBalance | __init__.py:94-111 | a period without positions opening with a whole-cents balance pays nothing and records exactly that balance |
| PeriodProperties.NetIsCents | __init__.py:102-109 | the net balance is already whole cents, so rounding the flat path again keeps it |
| PeriodProperties.HeldPathTracksPrices | src/utils.py:23-32 | with positions, each path entry is dated like the next price row and is the cents-rounded sum of the cents-rounded allocations scaled by price ratios |
| PeriodProperties.HeldPeriodTracksPrices | __init__.py:91-109 | the same for an iteration of the loop, over the rows from its start to its end date |
| PeriodProperties.StepSimulatesWindow | __init__.py:91-111 | an iteration's path and drifted weights are the simulation of its net balance over its price window |
| LoopProperties.Scheduled | __init__.py:80-85 | one period per rebalance date, one fewer when the last falls on the end date |
| LoopProperties.LoopStep | __init__.py:71-118 | an iteration that does not break out comes first, followed by the loop from the state it leaves |
| LoopProperties.LoopBreaks | __init__.py:80-85 | past the last date, or when the last period starts on the end date, nothing more is simulated |
| LoopProperties.LoopChains | __init__.py:71-118 | each period is its iteration simulated from the state the previous one leaves: start = previous end, opening = previous last rounded balance, carried weights = previous drifted weights |
| LoopProperties.LoopSchedule | __init__.py:76-85 | from iteration k on, period i runs from rebalance date k + i to the next date (the end date for the last), and exactly the scheduled number of periods are simulated |
| LoopProperties.PeriodsSchedule | __init__.py:57-118 | a run simulates the scheduled periods in order; the first opens with the starting balance against all-zero weights; each hands over to the next |
| LoopProperties.ScheduleSameForVariants | inv_bt/backtester.py:137-185 | both copies simulate the same periods with the same dates and weights |
| LoopProperties.RunCosts | __init__.py:94-102 | every cost of a run is non-negative and 0 for a non-positive rate; the first is the rate on the gross exposure; a period after one without positions pays nothing |
| LoopProperties.RunShaped | __init__.py:91-109 | every period's path is non-empty, in strict date order, inside its dates |
| LoopProperties.StartsAfterFirst | __init__.py:118 | no period starts before the first rebalance date |
| LoopProperties.ChainedInOrder | __init__.py:118-121 | the period paths are in order one after another, all dated from the first start on |
| LoopProperties.HeldSegmentsDisjoint | __init__.py:91-118 | a period that holds assets records only dates after everything the previous period recorded |
| LoopProperties.RunHeldSegmentsDisjoint | __init__.py:91-121 | the same for the periods of a run |
| LoopProperties.FlatSegmentRepeatsLast | __init__.py:91-118 | a period without positions that records the previous last balance shares at most the previous last date, with the same point, and records everything else later |
| LoopProperties.RunFlatSegmentsRepeatLast | __init__.py:91-128 | in a run, a period without positions repeats the previous period's last point on a shared date and records every other entry after it |
| LoopProperties.AssembleChain | __init__.py:121-128 | concatenating, setting the starting balance and sorting gives a date-ordered series whose only entry on the first rebalance date is the starting balance, first in the series, and which holds every path entry on other dates and nothing else |
| LoopProperties.AssembledTrajectory | __init__.py:120-128 | the same for the periods of a run |
| LoopProperties.BtTrajectory | __init__.py:20-128 | `bt`'s result, when it succeeds, is that date-ordered trajectory |
| LoopProperties.BtIntendedTrajectory | __init__.py:121-125 | the corrected `bt` succeeds exactly when the loop does, agrees with `bt` wherever `bt` succeeds, and gives the trajectory |
| LoopProperties.BtLegacyPeriods | inv_bt/backtester.py:176-187 | the older `bt` maps each index 0 .. k-1 of the scheduled periods to that period's rounded path |
| LoopProperties.NothingScheduled | __init__.py:80-121 | with one rebalance date equal to the end date, `bt` fails on the empty concatenation, the older copy returns no paths, and the corrected `bt` returns the starting balance alone |
| LoopProperties.EndDateOnlyFails | __init__.py:121 | a concrete one-asset input on which `bt` fails |
| TimeSeries.Window | __init__.py:91 | `.loc[start : to]` keeps rows dated from start to to, both included |
| TimeSeries.WindowMembers | __init__.py:91 | the window holds exactly the rows dated from start to to |
| TimeSeries.WindowIncreasing | __init__.py:91 | a window of a date-ordered table is date-ordered |
| TimeSeries.Concat | __init__.py:121 | `pd.concat` holds every entry of every series and nothing else |
| TimeSeries.ConcatSorted | __init__.py:121 | concatenating series that follow one another gives a date-ordered series starting with the first entry |
| TimeSeries.SetAt | __init__.py:125 | `s[d] = v` sets every entry at d, or adds one at the end when there is none, and keeps the others |
| TimeSeries.Insert | __init__.py:128 | inserting into a date-ordered series keeps it ordered and adds exactly that entry |
| TimeSeries.SortByDate | __init__.py:128 | `sort_index` gives a date-ordered series with the same entries |
| TimeSeries.SortPermutes | __init__.py:128 | sorting keeps each entry as many times as it occurs |
| TimeSeries.SortOfSorted | __init__.py:128 | sorting an ordered series changes nothing |
| TimeSeries.SetEarliestAndSort | __init__.py:124-128 | setting a value at the earliest date and sorting puts that point first, leaves no other entry on that date, and keeps every entry on other dates |

## Left out

- Resampling is not modelled (__init__.py:63-67 and 128, inv_bt/backtester.py:131-134). This covers the current copy's daily resample with forward fill, and the older copy's resample to `balance_freq` without fill, whose grid frequency differs too: in the older copy every price row, and so every return, is one reporting step apart. It also covers the final resample of the series to `balance_freq` and the parsing of the frequency string. The price table is taken as already aligned, and `Backtest.Bt` is the series before the final resample.
- Backtest.WellFormedPrices is required of every run. It asks for a price table in strict date order with a positive price in every column on every row. NaN prices and the rows that `pct_change(...).dropna()` would then drop are not modelled.
- IEEE floating point, `np.log` and `np.exp` are not modelled. Numbers are exact reals, and compounding is the product Π(1 + r), which needs every return to be at least -100%.
- The `try`/`except` blocks that log and return `None` are not modelled as such. A failure becomes a `Failure` value of the enclosing operation: an empty return frame with held assets, a held asset missing from the price table, or the `None` that `bt` then indexes.
- Utils.BalanceCalc: a final balance of exactly 0 makes the source divide by zero, giving infinite or NaN weights. The model reports `ZeroFinalBalance` instead.
- Date normalisation (`.date()`, `pd.to_datetime`) is not modelled. Dates are integers, so the end-date break compares like with like in both copies. The older copy, which does not convert `end_date`, may never take that break when `end_date` is passed as a timestamp.
- TimeSeries.SortByDate is a stable insertion sort. pandas' default `sort_index` is not stable, so entries with equal dates may come out in another order. Only a period without positions records a date that the previous period may also hold: its own start date. There both entries are the same point (`LoopProperties.RunFlatSegmentsRepeatLast`), so the order cannot change any value.
- Utils.Charges charges only assets present in both weight vectors. This is what pandas alignment and a NaN-skipping `sum` do. Treating a missing asset as weight 0 would charge more.

## Findings

| source | as written | input that shows it | evidently intended | confidence | as-written member | corrected member |
|---|---|---|---|---|---|---|
| __init__.py:121 | `pd.concat` of the collected period paths, which is empty when the loop breaks out on its only iteration | a single rebalance date equal to `end_date` (`LoopProperties.EndDateOnly`) | a series holding only the starting balance at the first rebalance date, as line 125 would record | medium, not executed | LoopProperties.NothingScheduled | LoopProperties.BtIntendedTrajectory |
