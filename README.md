# Funding-rate arbitrage backtester — verified model

This project models the decision logic of a backtester for funding-rate arbitrage
between two perpetual-futures venues (called `binance` and `bybite` in the
source), using Dafny `real` arithmetic in place of floating point.

- **Funding predicates and sizing** (`funding_tools.dfy`, module `FundingTools`).
  The "rates differ" flag and the long-perp flag (a strictly negative rate) are
  predicates. The initial quantity of a token is its inventory amount, or the
  USDT budget when the token is not held, divided by its initial price. Missing
  dictionary entries and a zero price are error results.
- **Table construction** (`compute_data.dfy`, module `ComputeData`).
  - The fixed collateral table gives 250000 × haircut per token and 500000 for USDT.
  - The two venues' funding tables are inner-joined on (timestamp, token).
  - The derived flag and quantity columns are filled row by row in a method.
    The first row that cannot be sized stops the construction.
- **Max-funding-rate strategy** (`max_funding_rate.dfy`, module `MaxFundingRate`).
  - Each venue's gain column is zero where the position there would be long
    perpetual, and quantity × rate otherwise.
  - A row takes the first venue's gain only when that venue is strictly best.
  - Gains are summed per token other than USDT, and each sum is valued at the
    close at the last timestamp.
  - The reinvest mode is refused.
- **Best-gain strategy**. Its pure parts are in `best_gain_spec.dfy` (module
  `BestGainSpec`):
  - collateral valuation with the haircut looked up under the token minus its
    last four characters;
  - the gain estimate at the better positive rate;
  - the synthetic USDT row copied from the top-ranked row;
  - the day's ranking in non-increasing USD gain;
  - the allocation step as a state transition and its fold over a day;
  - the day's fee and verdict, broadcast to every row of the day;
  - the run over all days in order of first appearance, keeping the rows of
    held tokens.

  The stateful object is the class `BestGain` in `best_gain.dfy`. Its fields
  `collateralAvailable`, `investedAmount` and `collateralPosted` are updated row
  by row, and its methods are proved against the functions above. The end-of-run
  roll-up (profitable INVESTED rows, per-token gains, one fee per day, P&L, APY
  and fees spread pro rata) is in `best_gain_stats.dfy` (module `BestGainStats`).
  There, `Stats` computes the recap and the lemmas `StatsOutcome` and
  `StatsRecap` state what it promises. The two per-token APY columns are the
  functions `ApyByToken` and `ApyWithFee` of a recap line: they are ratios of
  the stored gain and amount columns.

The main facts proved:
- when the configuration is valid (a buffer in [0, 1) and a positive
  collateral ratio), every quantity, haircut and the USDT budget are
  non-negative and every close is positive, the allocator keeps `available × (1 − buffer) ≥ invested`
  after every step of every day;
- a day ends with the available collateral equal to the posted collateral, and
  the object's running totals after a run are those of the last day;
- raising any fee rate never turns an unprofitable day into a profitable one;
- in a run's result, rows with the same timestamp carry the same fee and verdict,
  so the per-timestamp mean in the roll-up counts each profitable day's fee once;
- grouping gains by token keeps their total;
- the fee is spread over the tokens in proportion to their gains, and the
  gains after fees add up to the P&L;
- the join keeps exactly the (timestamp, token) pairs present in both tables;
- a token's initial quantity, valued at its initial price, gives back its
  inventory amount.

For a token outside the inventory, the haircut lookup uses the integer key `0`,
which is never in the haircut table, so the factor is 1
(strategy/best_gain.py:99).

The source has two call-signature mismatches:
- analysis_tools/compute_data.py:27 calls the three-parameter sizing function of
  analysis_tools/funding_tools.py:13 with the row alone;
- run_backtest.py passes three arguments to the one-parameter
  analysis_tools/compute_data.py:15.

The model uses the intended signatures, with the inventory and the initial
prices as explicit parameters. The three fee rates read at
strategy/best_gain.py:106-108 are not fields of the configuration record, so
the model takes them as an explicit `Fees` value. The configuration defaults
(buffer 0.05, required collateral 0.3, no reinvestment, model/config.py:13-16)
are the constant `Common.DefaultConfig`, a valid configuration.

## Model

| member | source | states |
|---|---|---|
| `Common.DefaultConfigValid` | model/config.py:13-16 | the defaults (buffer 0.05, required collateral 0.3, no reinvestment) form a valid configuration |
| `Common.Distinct` | strategy/best_gain.py:41 | the distinct timestamps: no duplicates, and exactly the elements of the input |
| `Common.DistinctFirstAppearance` | strategy/best_gain.py:41 | the distinct timestamps are in order of first appearance: of any two, the earlier one occurs in the input before the later one first does |
| `Common.DistinctLast` | strategy/max_funding_rate.py:26 | the last distinct value is the last value of the input to appear for the first time |
| `Common.LastDistinct` | strategy/max_funding_rate.py:26 | the last of the distinct timestamps first occurs at some position of the input, and every timestamp of the input has occurred by that position |
| `FundingTools.IsMarketFundingArb` | analysis_tools/funding_tools.py:1-2 | the rates differ; its meaning (an arbitrage row iff one venue is strictly better) is stated by `ComputeData.BinanceBestOnlyOnArb` |
| `FundingTools.IsBuyLongPerp` | analysis_tools/funding_tools.py:5-10 | the rate is strictly negative, one rule for both venues; that it zeroes a venue's gain and keeps every gain non-negative is stated by `MaxFundingRate.VenueGain` and `MaxFundingRate.SelectedGainNonNegative` |
| `FundingTools.InitQuantity` | analysis_tools/funding_tools.py:13-20 | succeeds iff the token or the USDT budget is in the inventory and the token has a non-zero initial price; on success quantity × price is the token's amount, or the USDT budget for an unheld token; a missing USDT budget for an unheld token is that missing key; otherwise a missing initial price is a missing key naming the token and a zero price is a zero-division error |
| `FundingTools.InitQuantityValuesToBudget` | analysis_tools/funding_tools.py:18-20 | for a held token with a positive price, sizing succeeds, round-trips to the inventory amount and is non-negative for a non-negative amount |
| `ComputeData.CollateralValues` | analysis_tools/compute_data.py:10-13 | keys are the haircut tokens plus USDT; USDT maps to 500000 whatever its haircut; every other token maps to 250000 × its haircut |
| `ComputeData.InnerJoin` | analysis_tools/compute_data.py:16-17 | the inner join on (timestamp, token); what it keeps is stated by `ComputeData.InnerJoinSound` and `ComputeData.InnerJoinComplete` |
| `ComputeData.InnerJoinSound` | analysis_tools/compute_data.py:16-17 | every joined row pairs a row of each venue with the same (timestamp, token) |
| `ComputeData.InnerJoinComplete` | analysis_tools/compute_data.py:16-17 | every pair of rows with the same (timestamp, token) appears in the join |
| `ComputeData.DeriveRow` | analysis_tools/compute_data.py:22-27 | succeeds iff the row's token can be sized, failing with the sizing error; a derived row keeps the joined key and rates, its four flags are those of its own rates, and its quantity is the sized one |
| `ComputeData.BinanceBestOnlyOnArb` | analysis_tools/compute_data.py:22-26 | with flags derived from the rates, the first venue is best only on an arbitrage row and never at equal rates; a row is an arbitrage row iff one venue is strictly better |
| `ComputeData.ComputeFundingDataframe` | analysis_tools/compute_data.py:15-28 | succeeds iff every joined row can be sized; then one output row per joined row, in order, with its flags derived from its own rates; otherwise the error is the sizing error of the first joined row that cannot be sized, every earlier row being sizable |
| `MaxFundingRate.VenueGain` | strategy/max_funding_rate.py:29-30 | zero where the long-perp flag is set; non-negative for a non-negative quantity when the flag is set or the rate is non-negative |
| `MaxFundingRate.LookupClose` | strategy/max_funding_rate.py:43 | finds a close iff some spot row has that time and token, and the close found is that of the first such row |
| `MaxFundingRate.SelectedGain` | strategy/max_funding_rate.py:38-39 | the first venue's gain when it is strictly best, else the second's; stated by `MaxFundingRate.SelectedGainIsBestVenue` and `MaxFundingRate.SelectedGainNonNegative` |
| `MaxFundingRate.TokenQuantity` | strategy/max_funding_rate.py:38-40 | the sum of a token's selected gains; stated by `MaxFundingRate.TokenQuantityNonNegative` and `MaxFundingRate.TokenQuantityOfAbsentToken` |
| `MaxFundingRate.TokenHolding` | strategy/max_funding_rate.py:41-44 | a token's entry: its summed quantity and that quantity at the close; stated for every entry by `MaxFundingRate.Apply` |
| `MaxFundingRate.SelectedGainNonNegative` | strategy/max_funding_rate.py:29-30 | with the long-perp flag derived as "rate < 0", both venue gains and the row's selected gain are non-negative for a non-negative quantity |
| `MaxFundingRate.SelectedGainIsBestVenue` | strategy/max_funding_rate.py:39 | equal rates select the second venue; when the better rate is non-negative the row earns quantity × the better rate |
| `MaxFundingRate.TokenQuantityNonNegative` | strategy/max_funding_rate.py:38-40 | a token's summed quantity is non-negative when every row's quantity is |
| `MaxFundingRate.TokenQuantityOfAbsentToken` | strategy/max_funding_rate.py:38-40 | a token with no row sums to zero |
| `MaxFundingRate.Apply` | strategy/max_funding_rate.py:23-46 | empty input fails before the reinvest check; reinvest mode fails; otherwise succeeds iff every non-USDT token has a close at the last timestamp; the keys are exactly the non-USDT tokens; each value is the token's summed selected gain and that sum times its close; a failure after the two checks is a missing key naming a non-USDT token of the table with no close at the last timestamp |
| `BestGainSpec.QuoteStripped` | strategy/best_gain.py:99 | the token minus its last four characters (empty for shorter tokens) |
| `BestGainSpec.Haircut` | strategy/best_gain.py:99 | 1 for an unheld token and for a held token whose stripped name has no haircut; the table's haircut otherwise |
| `BestGainSpec.PotentialGain` | strategy/best_gain.py:152-157 | the quantity times the positive part of the better rate, so zero when both rates are at most zero |
| `BestGainSpec.Value` | strategy/best_gain.py:82-102 | the valuation columns of one row; stated by `BestGainSpec.ValueColumns` |
| `BestGainSpec.ValueColumns` | strategy/best_gain.py:82-102 | collateral value in USD is quantity × haircut × close / required collateral, the need is quantity × close, the USD gain is gain × close, all non-negative for well-formed rows |
| `BestGainSpec.UsdtRow` | strategy/best_gain.py:71-80 | the synthetic USDT row copied from the top-ranked row; stated by `BestGainSpec.UsdtRowColumns` |
| `BestGainSpec.UsdtRowColumns` | strategy/best_gain.py:71-80 | the USDT row keeps the top row's timestamp; its collateral value and need are the USDT budget; its USD gain is the budget times the positive part of the better rate |
| `BestGainSpec.SingleTokenExample` | strategy/best_gain.py:96-102 | one worked row: 40 units at 2500 with rates 0.001 and -0.0005 give 100 USD of gain, a 100000 USD need and 1000000/3 USD of collateral value |
| `BestGainSpec.InsertPermutes` | strategy/best_gain.py:50 | inserting a row adds exactly that row to the multiset |
| `BestGainSpec.InsertKeepsOrder` | strategy/best_gain.py:50 | inserting into a non-increasing sequence keeps it non-increasing |
| `BestGainSpec.SortByGain` | strategy/best_gain.py:50 | the sorted rows are non-increasing in USD gain and a permutation of the input |
| `BestGainSpec.RowsOn` | strategy/best_gain.py:46 | exactly the observations of that timestamp |
| `BestGainSpec.RowsOnCount` | strategy/best_gain.py:46 | each observation of that timestamp is kept as often as it occurs, and no other observation |
| `BestGainSpec.Ranked` | strategy/best_gain.py:50-57 | the USDT row, built from the top-ranked row, comes first; the rest are the day's valued rows, a permutation in non-increasing USD gain |
| `BestGainSpec.Step` | strategy/best_gain.py:164-177 | an unheld token is NOT OWNED and changes nothing; POSTED only adds the row's collateral value to the posted amount; INVESTED, taken iff the remaining collateral after the buffer still covers everything invested plus this row's need, only moves the collateral value out of available and adds the need to invested |
| `BestGainSpec.Allocate` | strategy/best_gain.py:89 | one action per row |
| `BestGainSpec.AllocateKeepsSolvent` | strategy/best_gain.py:168-177 | a solvent state (available × (1 − buffer) ≥ invested) stays solvent through any sequence of steps |
| `BestGainSpec.OwnedCollateral` | strategy/best_gain.py:59 | the summed collateral value of the held rows, the USDT row included when USDT is held; stated by `BestGainSpec.OwnedCollateralNonNegative` and `BestGainSpec.HeldRowsPartition` |
| `BestGainSpec.InitialState` | strategy/best_gain.py:44-60 | the fresh day state: the held collateral available, nothing invested or posted; stated by `BestGainSpec.InitialStateSolvent` and `BestGainSpec.DayEndsWithAvailableEqualToPosted` |
| `BestGainSpec.OwnedCollateralNonNegative` | strategy/best_gain.py:59 | the day's opening collateral is non-negative when every row's columns are |
| `BestGainSpec.InitialStateSolvent` | strategy/best_gain.py:59-60 | the fresh day state (held collateral available, nothing invested or posted) is solvent |
| `BestGainSpec.AllocateAccounts` | strategy/best_gain.py:164-177 | NOT OWNED iff unheld; available falls by the INVESTED collateral values, invested rises by the INVESTED needs, posted rises by the POSTED collateral values |
| `BestGainSpec.HeldRowsPartition` | strategy/best_gain.py:164-177 | the collateral values of the INVESTED and POSTED rows add up to the held rows' collateral |
| `BestGainSpec.DayEndsWithAvailableEqualToPosted` | strategy/best_gain.py:59-62 | after a day from the fresh state, the available collateral equals the posted collateral |
| `BestGainSpec.DayEnd` | strategy/best_gain.py:43-62 | the allocator's totals at the end of a day, from that day's rows alone; the available collateral equals the posted collateral |
| `BestGainSpec.DayFee` | strategy/best_gain.py:104-110 | a round trip of the spot fee on the POSTED collateral, the taker fee on the INVESTED gain and a round trip of the spot-perp fee on the INVESTED need; stated by `BestGainSpec.FeeMonotone` |
| `BestGainSpec.DayProfitable` | strategy/best_gain.py:105-110 | the INVESTED gain strictly exceeds the fee; stated by `BestGainSpec.FeeMonotone` |
| `BestGainSpec.FeeMonotone` | strategy/best_gain.py:104-110 | raising fee rates never lowers the day's fee and never turns a false verdict true |
| `BestGainSpec.Broadcast` | strategy/best_gain.py:91-93 | every row of the day gets its action, the day's verdict (gain > fee) and the day's fee |
| `BestGainSpec.DayResult` | strategy/best_gain.py:46-62 | one day's tagged rows from its own rows and a fresh allocator; stated by `BestGainStats.DayResultOnDate` and `BestGainStats.RunDaysRowsOfDay` |
| `BestGainSpec.RunDays` | strategy/best_gain.py:43-64 | the days' outcomes concatenated in order; stated by `BestGainSpec.RunDaysSnoc`, `BestGainStats.RunDaysRowsOfDay` and `BestGainStats.RunDaysBroadcast` |
| `BestGainSpec.Run` | strategy/best_gain.py:39-67 | every day in order of first appearance, filtered to held tokens; stated by `BestGainStats.RunBroadcastsFees` and `BestGain.BestGain.Apply` |
| `BestGainSpec.RowsOnNonEmpty` | strategy/best_gain.py:41-46 | every timestamp of the table has at least one row |
| `BestGainSpec.RunDaysSnoc` | strategy/best_gain.py:43-64 | running one more day appends that day's outcome, computed from that day's rows alone |
| `BestGainSpec.KeepOwned` | strategy/best_gain.py:67 | exactly the rows of held tokens |
| `BestGainSpec.KeepOwnedCount` | strategy/best_gain.py:67 | each row of a held token is kept as often as it occurs, and no other row |
| `BestGainStats.ProfitableTrades` | strategy/best_gain.py:121-122 | exactly the rows that are INVESTED on a profitable day |
| `BestGainStats.ProfitableTradesCount` | strategy/best_gain.py:121-122 | each INVESTED row of a profitable day is kept as often as it occurs, and no other row |
| `BestGainStats.TokenPnl.ApyByToken` | strategy/best_gain.py:118 | the APY before fees times the amount invested gives back the gain before fees |
| `BestGainStats.TokenPnl.ApyWithFee` | strategy/best_gain.py:136 | the APY after fees times the amount invested gives back the gain after fees |
| `BestGainStats.PnlByToken` | strategy/best_gain.py:112-119 | one line per token, in order, with the token's summed gain and its inventory amount |
| `BestGainStats.TotalFee` | strategy/best_gain.py:128 | the per-timestamp mean fees summed; stated by `BestGainStats.MeanOfBroadcastFee` and `BestGainStats.RunFeeCountedOncePerDay` |
| `BestGainStats.Stats` | strategy/best_gain.py:112-150 | the recap; stated by `BestGainStats.StatsOutcome`, `BestGainStats.StatsRecap` and `BestGainStats.RecapOf` |
| `BestGainStats.FirstMissing` | strategy/best_gain.py:117 | finds a token without an inventory entry iff there is one |
| `BestGainStats.StatsOutcome` | strategy/best_gain.py:124-136 | the recap exists iff there is a profitable INVESTED row, every profitable token has a non-zero inventory amount, and neither the total amount invested nor the gain before fees is zero; no profitable row is the empty-input error; a profitable token without an inventory entry always gives a missing-key error, and a missing-key error names such a token; every error is the empty-input, missing-key or zero-division error |
| `BestGainStats.StatsRecap` | strategy/best_gain.py:112-136 | on success the fee is the per-timestamp means summed, the P&L is the total gain of the profitable rows minus that fee, the per-token table lists each distinct profitable token with its summed gain and its non-zero inventory amount, the gains after fees add up to the P&L, and each line's gain after fees is its gain times P&L / the total gain of the profitable rows, which is not zero |
| `BestGainStats.RecapOf` | strategy/best_gain.py:128-136 | the recap keeps the fee, its P&L is the table's gain minus the fee, its after-fee gains add up to that P&L, every line keeps its token, gain and amount, each line's gain after fees is (P&L / the table's gain) × its gain, and the APY is the P&L as a percentage of the amount invested, so the APY times that amount is 100 × the P&L |
| `BestGainStats.StatsApy` | strategy/best_gain.py:117-133 | on success every distinct profitable token is in the inventory, their summed amounts are not zero, and the APY after fees is the P&L as a percentage of that sum |
| `BestGainStats.Percent` | strategy/best_gain.py:133 | a percentage of a non-zero base, times the base, is 100 times the amount |
| `BestGainStats.RecapOfProRata` | strategy/best_gain.py:135 | each line of the recap gets its pro-rata share of the P&L, stated against any name for the gain total |
| `BestGainStats.GroupedGain` | strategy/best_gain.py:114-115 | the per-token gain sums over the distinct tokens add up to the total gain |
| `BestGainStats.PnlByTokenSum` | strategy/best_gain.py:112-119 | the gain column of the per-token table adds up to the per-token gain sums |
| `BestGainStats.WithFeeColumns` | strategy/best_gain.py:135 | adding the after-fee column keeps every line's token, gain and amount |
| `BestGainStats.WithFeeScaled` | strategy/best_gain.py:135 | every line's gain after fees is its gain before fees times the scale |
| `BestGainStats.WithFeeSum` | strategy/best_gain.py:130-135 | the after-fee column adds up to the scale times the before-fee total |
| `BestGainStats.ProRataSumsToPnl` | strategy/best_gain.py:130-135 | gains scaled by P&L / gain before fees add up to the P&L |
| `BestGainStats.MeanFeeOfBroadcast` | strategy/best_gain.py:128 | when every row of a timestamp carries the same fee, that timestamp's mean fee is that fee |
| `BestGainStats.MeanOfBroadcastFee` | strategy/best_gain.py:128 | when fees are broadcast per timestamp, every row's timestamp has rows and its per-timestamp mean is the row's fee |
| `BestGainStats.RankedOnDate` | strategy/best_gain.py:71-80 | every ranked row of a day, the USDT row included, has the day's timestamp |
| `BestGainStats.DayResultOnDate` | strategy/best_gain.py:87-93 | a day's rows all carry the day's timestamp, fee and verdict |
| `BestGainStats.RunDaysRowsOfDay` | strategy/best_gain.py:43-64 | every row of a run has one of the run's dates and is a row of the outcome of its own day |
| `BestGainStats.RunDaysBroadcast` | strategy/best_gain.py:40-66 | rows of a run with the same timestamp have the same fee and verdict |
| `BestGainStats.RunBroadcastsFees` | strategy/best_gain.py:39-67 | in a run's result, rows with the same timestamp have the same fee and verdict |
| `BestGainStats.ProfitableKeepsBroadcast` | strategy/best_gain.py:121-122 | filtering to profitable INVESTED rows keeps that property |
| `BestGainStats.RunFeeCountedOncePerDay` | strategy/best_gain.py:128 | in the recap of a run, the mean fee at each profitable timestamp is that day's fee, so each day's fee is counted once |
| `BestGain.BestGain.constructor` | strategy/best_gain.py:17-28 | stores the table, configuration, fees, inventory, initial quantities and haircuts; no result and no recap yet |
| `BestGain.BestGain.ApplyBestAllocation` | strategy/best_gain.py:164-177 | the returned tag and the new running totals are those of the allocation step from the old totals |
| `BestGain.BestGain.ComputeStrategy` | strategy/best_gain.py:87-93 | the new totals are the fold of the step over the ranked rows; the rows are tagged with their actions and the day's verdict and fee; a solvent allocator stays solvent |
| `BestGain.BestGain.ProcessDay` | strategy/best_gain.py:43-62 | the day's output is the day's outcome from a fresh allocator; the running totals end as the day's totals, with the available collateral equal to the posted collateral; the allocator ends the day solvent for non-negative inputs |
| `BestGain.BestGain.ProcessDays` | strategy/best_gain.py:43-64 | the days' outputs concatenated in order; no day leaves the totals unchanged; otherwise they are the last day's totals, with the available collateral equal to the posted collateral, and solvent for non-negative inputs |
| `BestGain.BestGain.Apply` | strategy/best_gain.py:39-69 | an empty table fails (nothing to concatenate) and changes nothing; a missing USDT budget fails after resetting the posted collateral; a failure keeps the old result; otherwise the result is the run over all days filtered to held tokens, and the totals are those of the last distinct day, with the available collateral equal to the posted collateral, and solvent for non-negative inputs |
| `BestGain.BestGain.ApplyStats` | strategy/best_gain.py:124-150 | returns the recap of the stored result and stores it when it can be computed |
| `BestGain.RankedColumns` | strategy/best_gain.py:50-80 | every ranked row's summed columns are non-negative for well-formed inputs |

## Left out

- CSV loading and column renaming (analysis_tools/loading_data.py), the entry-point wiring (run_backtest.py), the notebook autosaves under strategy/.ipynb_checkpoints and the unrelated script test.py: I/O and code the strategies do not reach.
- The spot-price merge of `BestGain._merge_data` (strategy/best_gain.py:30-37): the model takes the merged rows (`Observation`, with their close) as the table.
- The date-string column (strategy/best_gain.py:69) and the `print` of the recap (strategy/best_gain.py:138-143): formatting and output.
- The unused `_apply_potential_gain_usdt` (strategy/best_gain.py:159-162), which reads a field never assigned, and the empty `_compute_best_allocation` stub (strategy/best_gain.py:179-180).
- The USDT row's `potential_gain` column, which the source sets to the budget quantity (strategy/best_gain.py:77); nothing downstream reads it, and the model keeps the source's value.
- IEEE floating point: rounding, NaN and infinities. The model uses exact reals. A division by zero is an error result where the source raises or where a NaN or an infinity would reach the result.
- BestGain.BestGain.Apply: requires a non-zero required-collateral ratio and non-zero closes. The collateral valuation divides by the ratio (strategy/best_gain.py:102). The USDT row divides by the close of the top-ranked row (strategy/best_gain.py:76-78), and any row can rank first, so every close must be non-zero. The source would carry infinities forward.
- BestGainStats.RecapOf: the APY is not rounded to four decimals (strategy/best_gain.py:133); the contract states the unrounded APY times the amount invested is 100 × the P&L.
- BestGainStats.StatsApy: the APY is not rounded to four decimals (strategy/best_gain.py:133), as for `BestGainStats.RecapOf`.
- BestGainStats.StatsRecap: the per-token table is in order of first appearance, while the pivot table sorts it by token. Its APY is stated by `BestGainStats.StatsApy`.
- BestGainStats.StatsOutcome: an infinite per-token APY from a zero inventory amount, and an infinite or NaN result from a zero total, are reported as a zero-division error.
- BestGainSpec.SortByGain: a particular stable order stands for pandas' sort, whose order among equal gains is not specified; the properties proved about rankings use only the non-increasing order and the permutation.
- BestGain.BestGain.ApplyBestAllocation: assumes pandas' row-wise `apply` calls it once per row, in order.
- MaxFundingRate.Apply: does not write the two gain columns into the caller's table, and returns the per-token result as a map rather than a DataFrame.
- FundingTools.InitQuantity: a missing entry, which the source turns into a `None` operand and a type error, is reported as a missing-key error.
