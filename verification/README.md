# Value bet tracker: bankroll and performance core in Dafny

A model of the bookkeeping core of a sports bet tracker. A bettor records
wagers with decimal odds, a stake and their own estimate of the chance of
winning. The tracker suggests a stake from a bankroll rule (fixed amount,
a percentage of the bankroll, or the Kelly criterion). It computes
expected value, potential return and net profit, and it keeps a running
bankroll across bets. From the history it derives performance metrics:
totals, ROI, win rate, average odds, longest win and loss streaks, and
profit by bet type and by league. These metrics feed the history table,
the settings panel and the charts.

Modules, one per source file, plus shared helpers:

| file | module | models |
|---|---|---|
| `types.dfy` | `BettingTypes` | the records, configuration and metrics of `src/types/betting.ts` |
| `stake_advisor.dfy` | `StakeAdvisor` | expected value, Kelly, suggested stake, return and profit (`src/utils/bettingCalculations.ts`) |
| `aggregates.dfy`, `streaks.dfy`, `categories.dfy`, `performance.dfy` | `Aggregates`, `Streaks`, `Categories`, `PerformanceAggregator` | `calculatePerformanceMetrics` |
| `record_store.dfy` | `RecordStore` | the context's record operations, the default configuration and the effect that republishes metrics and the current bankroll (`src/contexts/BettingContext.tsx`) |
| `bet_form.dfy` | `BetForm` | live preview, event name, submit validation and record construction (`src/components/BetForm.tsx`) |
| `betting_history.dfy` | `BettingHistory` | search and filters, league list, settling a pending bet (`src/components/BettingHistory.tsx`) |
| `bankroll_settings.dfy` | `BankrollSettings` | field parsing, save validation, percentage preview (`src/components/BankrollSettings.tsx`) |
| `performance_charts.dfy` | `PerformanceCharts` | chart series and average cards (`src/components/PerformanceCharts.tsx`) |
| `wrappers.dfy`, `seqs.dfy` | `Wrappers`, `Seqs` | `Option`/`Result`, first-occurrence deduplication, subsequences |

Modelling conventions:

- Money, odds and percentages are `real`. `parseFloat` yields an
  `Option<real>`, where `None` stands for NaN. `x || 0` is
  `GetOr(0.0)` together with the truthiness predicate `Truthy`.
- Record ids from `crypto.randomUUID()` are a parameter. Where it
  matters, a precondition says the id is fresh.
- React effects are explicit functions applied after the change that
  triggers them: `RecordStore.Refresh`, `BetForm.WithEventName` and
  `BetForm.LivePreview`.
- Loops over records (`reduce`, `forEach`) are recursive folds taken from
  the end of the list, so that appending one record is one step.
- JavaScript object key order (insertion order) is kept as the list of
  categories in order of first occurrence (`Categories.CategoryKeys`).
- Streaks follow the code: a void is skipped and breaks no run. For
  `[win, win, loss, win, void, win, win, win]` the code reports a longest
  win streak of 4, and so does the model (`Streaks.StreakExample`).

## Model

| member | source | states |
|---|---|---|
| StakeAdvisor.ExpectedValue | src/utils/bettingCalculations.ts:4-8 | EV equals stake times (p/100 · odds − 1): the chance-weighted payout less the stake |
| StakeAdvisor.ExpectedValueLinear | src/utils/bettingCalculations.ts:4-8 | EV is additive and scales linearly in the stake; a zero stake has zero EV |
| StakeAdvisor.ExpectedValueSign | src/utils/bettingCalculations.ts:4-8 | for a positive stake, EV is positive iff p/100 · odds > 1 and zero iff it equals 1 |
| StakeAdvisor.KellyFraction | src/utils/bettingCalculations.ts:15-20 | the Kelly fraction f solves f · (odds − 1) = p/100 · odds − 1 |
| StakeAdvisor.KellyFractionSign | src/utils/bettingCalculations.ts:15-23 | above even odds, the Kelly fraction is positive iff the bet has an edge (p/100 · odds > 1) |
| StakeAdvisor.KellyStakeAsWritten | src/utils/bettingCalculations.ts:10-32 | the code as written: value bet iff f > 0; percentage and stake never negative |
| StakeAdvisor.KellyStakeAsWrittenBelowEvenOdds | src/utils/bettingCalculations.ts:15-25 | at odds 0.5 with p = 60 the EV is negative, yet the code reports a value bet with 140% Kelly and stake 1400 of 1000 |
| StakeAdvisor.KellyStake | src/utils/bettingCalculations.ts:10-32 | corrected Kelly: value bet iff odds > 1 and p/100 · odds > 1; then percentage = 100 f and stake = max(0, bankroll · f); otherwise both 0 |
| StakeAdvisor.KellyStakeAgreesAboveEvenOdds | src/utils/bettingCalculations.ts:10-32 | above even odds the corrected and as-written Kelly results coincide |
| StakeAdvisor.KellyValueBetIffPositiveEV | src/utils/bettingCalculations.ts:4-32 | above even odds with a positive stake, a Kelly value bet is exactly a bet of positive expected value |
| StakeAdvisor.KellyStakeExamples | src/utils/bettingCalculations.ts:10-32 | odds 2 at 60% stakes 20% of the bankroll; odds 2 at 40% is no value bet |
| StakeAdvisor.SuggestedStake | src/utils/bettingCalculations.ts:34-59 | fixed gives the fixed amount or 0; percentage gives bankroll × percentage / 100 (a missing percentage counts as 0), which for a non-negative bankroll and a percentage in [0,100] stays within the bankroll; Kelly gives the corrected Kelly stake when odds and probability are both non-zero, and 0 otherwise |
| StakeAdvisor.FixedStakeIgnoresMarket | src/utils/bettingCalculations.ts:43-44 | the fixed method's stake depends on nothing but the fixed amount |
| StakeAdvisor.PercentageStakeExample | src/utils/bettingCalculations.ts:46-47 | 3% of 1000 is 30 |
| StakeAdvisor.KellyMethodStake | src/utils/bettingCalculations.ts:49-54 | for every non-zero odds and probability the Kelly method stakes the corrected Kelly stake, which is positive iff odds > 1, p/100 · odds > 1 and the bankroll is positive |
| StakeAdvisor.KellyMethodStakeExamples | src/utils/bettingCalculations.ts:49-54 | at odds 2 the Kelly method stakes a fifth of the bankroll at 60% and nothing at 40% |
| StakeAdvisor.SuggestedStakeAsWritten | src/utils/bettingCalculations.ts:34-59 | the code as written: the Kelly branch uses the uncorrected Kelly; other methods agree with the corrected suggestion; Kelly is non-negative and 0 without odds and probability |
| StakeAdvisor.SuggestedStakeAgreesOffLowOdds | src/utils/bettingCalculations.ts:49-54 | unless the odds are non-zero and below 1, the as-written and corrected suggestions coincide for every method |
| StakeAdvisor.SuggestedStakeAsWrittenBelowEvenOdds | src/utils/bettingCalculations.ts:49-54 | Kelly staking at odds 0.5, 60%, bankroll 1000: the code suggests 1400, the corrected suggestion 0 |
| StakeAdvisor.PotentialReturn | src/utils/bettingCalculations.ts:61-63 | with non-negative stake and odds of at least 1, the return is at least the stake |
| StakeAdvisor.NetProfit | src/utils/bettingCalculations.ts:65-76 | a win earns return minus stake, a loss costs the stake, void and pending earn 0; never worse than losing the stake |
| StakeAdvisor.NetProfitExamples | src/utils/bettingCalculations.ts:65-76 | 100 at 2.5: +150 on a win, −100 on a loss, 0 on a void |
| Aggregates.Settled | src/utils/bettingCalculations.ts:79 | the settled list is no longer than the records and holds no pending bet |
| Aggregates.SettledCount | src/utils/bettingCalculations.ts:79 | settled plus pending records make up all records |
| Aggregates.SettledMembers | src/utils/bettingCalculations.ts:79 | a record is settled iff it is among the records and not pending |
| Aggregates.SettledIgnoresPending | src/utils/bettingCalculations.ts:79 | inserting a pending record anywhere leaves the settled list unchanged |
| Aggregates.OccurrencesPartition | src/utils/bettingCalculations.ts:79-100 | win, loss, void and pending counts sum to the number of results |
| Aggregates.TotalBounds | src/utils/bettingCalculations.ts:97-103 | a sum of values in [lo, hi] lies in [lo·n, hi·n] |
| Aggregates.MeanBounds | src/utils/bettingCalculations.ts:103 | a mean of values in [lo, hi] lies in [lo, hi] |
| Streaks.ExtendRun | src/utils/bettingCalculations.ts:111-121 | one more result extends the trailing run of its kind and keeps the longest run correct |
| Streaks.WalkTracks | src/utils/bettingCalculations.ts:105-121 | the streak loop's counters are the trailing and longest runs of wins and of losses, voids struck out |
| Streaks.StreaksAreLongestRuns | src/utils/bettingCalculations.ts:105-121 | the reported maxima are the lengths of the longest runs of wins and of losses |
| Streaks.WalkAppend | src/utils/bettingCalculations.ts:111-121 | the loop over a concatenation is the loop over the second part, started from the first part's state |
| Streaks.VoidIsTransparent | src/utils/bettingCalculations.ts:111-121 | removing a void leaves all streak counters unchanged |
| Streaks.StreaksBoundedByCounts | src/utils/bettingCalculations.ts:105-121 | current ≤ longest ≤ number of results of that kind |
| Streaks.StreakExample | src/utils/bettingCalculations.ts:105-121 | W,W,L,W,V,W,W,W ends with longest win streak 4 and longest loss streak 1 |
| Categories.ProfitBy | src/utils/bettingCalculations.ts:123-133 | the profit map's keys are exactly the categories present |
| Categories.ProfitByIsCategoryTotal | src/utils/bettingCalculations.ts:123-133 | each entry is the net profit of the bets of that category |
| Categories.CategoryProfitsSumToTotal | src/utils/bettingCalculations.ts:123-133 | taken over the keys in insertion order, the entries add up to the total net profit |
| PerformanceAggregator.Roi | src/utils/bettingCalculations.ts:101 | with a positive total stake, ROI · staked = 100 · profit and ROI > 0 iff profit > 0; otherwise ROI is 0 |
| PerformanceAggregator.Rate | src/utils/bettingCalculations.ts:102 | the win rate is in [0, 100] and rate · settled = 100 · wins |
| PerformanceAggregator.Summarize | src/utils/bettingCalculations.ts:97-147 | for a non-empty settled list: totalBets is its length, win rate in [0,100], the longest win and loss streaks together fit in totalBets, no stake means ROI 0 |
| PerformanceAggregator.Metrics | src/utils/bettingCalculations.ts:78-148 | no settled bet gives the all-zero metrics; totalBets never exceeds the records; the bounds of Summarize hold |
| PerformanceAggregator.TotalBetsCountsSettled | src/utils/bettingCalculations.ts:79-81 | totalBets plus the pending count is the number of records |
| PerformanceAggregator.StreaksBoundedByOutcomes | src/utils/bettingCalculations.ts:105-121 | the longest win (loss) streak is at most the number of wins (losses) |
| PerformanceAggregator.MetricsIgnorePending | src/utils/bettingCalculations.ts:79 | adding a pending bet anywhere leaves every metric unchanged |
| PerformanceAggregator.MetricsOfSettled | src/utils/bettingCalculations.ts:79 | the metrics of the settled bets alone equal the metrics of all records |
| PerformanceAggregator.MetricsRatios | src/utils/bettingCalculations.ts:99-102 | ROI and win rate are the ratios of the reported totals, and total return is staked plus profit |
| PerformanceAggregator.MetricsSums | src/utils/bettingCalculations.ts:97-103 | staked, profit and average odds are the sums and mean over the settled bets |
| PerformanceAggregator.AverageOddsBounds | src/utils/bettingCalculations.ts:103 | the average odds lie between the lowest and highest settled odds |
| PerformanceAggregator.ZeroStakeRoi | src/utils/bettingCalculations.ts:101 | with every stake zero, the ROI is 0 and there is no division by zero |
| PerformanceAggregator.TotalReturnIsPayout | src/utils/bettingCalculations.ts:97-99 | when profits match results, total return is what the bets paid out: return on wins, stake on voids, nothing on losses |
| PerformanceAggregator.MetricsStreaksAreLongestRuns | src/utils/bettingCalculations.ts:105-121 | the reported streaks are the longest runs among settled results, voids struck out |
| PerformanceAggregator.CategoryMapKeys | src/utils/bettingCalculations.ts:123-133 | a category is a key of a profit map iff some settled bet has it |
| PerformanceAggregator.CategoryMapEntry | src/utils/bettingCalculations.ts:123-133 | each entry is the net profit of the settled bets in that category |
| PerformanceAggregator.CategoryMapSum | src/utils/bettingCalculations.ts:123-133 | the entries of each profit map add up to the metrics' net profit |
| RecordStore.AddRecord | src/contexts/BettingContext.tsx:80-86 | the record gets the id and is appended; earlier records are unchanged; a fresh id keeps ids unique |
| RecordStore.UpdateRecord | src/contexts/BettingContext.tsx:88-92 | same length and order; records with the id are overlaid with the patch, others unchanged |
| RecordStore.OverlayIdempotent | src/contexts/BettingContext.tsx:90 | spreading a patch twice equals spreading it once; the empty patch changes nothing |
| RecordStore.UpdateUnknownId | src/contexts/BettingContext.tsx:88-92 | updating an absent id changes nothing |
| RecordStore.UpdateIdempotent | src/contexts/BettingContext.tsx:88-92 | a patch that keeps the id is idempotent and keeps ids unique |
| RecordStore.DeleteRecord | src/contexts/BettingContext.tsx:98-100 | the result is an order-preserving subsequence with no record of the id, keeping every other record, and shorter by exactly the number of records with the id |
| RecordStore.DeleteUndoesAdd | src/contexts/BettingContext.tsx:80-100 | deleting the id of a record just added restores the list |
| RecordStore.DeleteUnknownId | src/contexts/BettingContext.tsx:98-100 | deleting an absent id changes nothing |
| RecordStore.RunningBalanceTotal | src/contexts/BettingContext.tsx:70-72 | when balances run, the current bankroll is the initial bankroll plus all net profit |
| RecordStore.RunningBalanceIsTotal | src/contexts/BettingContext.tsx:70-72 | when balances run, each record's balance is the initial bankroll plus the profit so far |
| RecordStore.Refresh | src/contexts/BettingContext.tsx:64-78 | records and method settings unchanged; current bankroll becomes the last record's balance, or the initial bankroll when there are none |
| RecordStore.RefreshConsistent | src/contexts/BettingContext.tsx:64-78 | the initial store is consistent, and after the effect the metrics and current bankroll agree with the records |
| RecordStore.UpdateBankrollManagement | src/contexts/BettingContext.tsx:94-96 | the configuration is replaced wholesale; records and metrics are untouched |
| RecordStore.DefaultConfigStake | src/contexts/BettingContext.tsx:20-25 | default is 3% of a 1000 bankroll, which suggests a stake of 30 |
| BetForm.LivePreview | src/components/BetForm.tsx:61-90 | unless parsed odds and probability are both positive, the preview is kept; otherwise EV, return and suggested stake come from the inputs, and the Kelly percentage is the one the Kelly calculation gives for those odds, probability and bankroll |
| BetForm.PreviewFlagsValueBets | src/components/BetForm.tsx:61-90 | when recomputed, a preview flags a value bet iff odds > 1 and p/100 · odds > 1 |
| BetForm.PreviewValueAgreesWithKelly | src/components/BetForm.tsx:61-90 | above even odds with a positive stake, the value-bet flag agrees with a positive EV |
| BetForm.EventName | src/components/BetForm.tsx:93-100 | the event is the home team, " vs ", then the away team |
| BetForm.WithEventName | src/components/BetForm.tsx:93-100 | once both team names are non-empty, the event is their pairing; otherwise the form is unchanged; only the event is touched |
| BetForm.WithEventNameIdempotent | src/components/BetForm.tsx:93-100 | running the event effect again changes nothing |
| BetForm.FirstViolation | src/components/BetForm.tsx:121-154 | no error iff no check fails; a reported error fails its check and every earlier check passes |
| BetForm.BuildRecord | src/components/BetForm.tsx:113-177 | fails iff a check fails; otherwise copies the fields; odds > 1, stake > 0, probability in (0,100); return = stake · odds; balance = bankroll + net profit; share of bankroll times bankroll = 100 · stake, absent for a zero bankroll |
| BetForm.Submit | src/components/BetForm.tsx:113-180 | an invalid form adds nothing; a valid one appends exactly the built record under the new id |
| BetForm.SubmitKeepsRunningBalance | src/components/BetForm.tsx:156-179 | with the bankroll in step with the records, submission keeps balances running and moves the bankroll by the bet's profit (not at all when pending) |
| BetForm.SubmittedExpectedValue | src/components/BetForm.tsx:161-177 | a record built from a fresh preview stores the EV of its own inputs |
| BetForm.SubmitExamples | src/components/BetForm.tsx:113-177 | a won bet of 100 at 2.5 on 1000 ends at 1150 with a 10% share; odds 1 or a blank home team is rejected |
| BettingHistory.Lower | src/components/BettingHistory.tsx:20-23 | lower-casing keeps the length and maps each letter |
| BettingHistory.FilteredRecords | src/components/BettingHistory.tsx:19-30 | the rows are an order-preserving subsequence; a record shows iff it matches search, result and league |
| BettingHistory.FilteredMultiplicity | src/components/BettingHistory.tsx:19-30 | a matching record appears as often as in the history, any other not at all |
| BettingHistory.NeutralFilterShowsAll | src/components/BettingHistory.tsx:19-30 | no search and both filters on "all" shows every record |
| BettingHistory.ResultFilterCounts | src/components/BettingHistory.tsx:26 | filtering by one result shows as many rows as records with that result |
| BettingHistory.UniqueLeagues | src/components/BettingHistory.tsx:32 | each league once, exactly the leagues of the records |
| BettingHistory.OfferedLeagueIsNonEmpty | src/components/BettingHistory.tsx:27-32 | choosing an offered league never yields an empty table |
| BettingHistory.FindIndex | src/components/BettingHistory.tsx:61-62 | none iff no record has the id; otherwise the first record with it |
| BettingHistory.SettleProfitIsNetProfit | src/components/BettingHistory.tsx:64-65 | the history's own profit rule agrees with the shared net-profit rule |
| BettingHistory.Settle | src/components/BettingHistory.tsx:60-71 | absent id: no change; other records unchanged; matching records get the new result and the profit of the first match, every other field kept |
| BettingHistory.SettleUniqueId | src/components/BettingHistory.tsx:60-71 | with unique ids, exactly the one record is settled with its own profit; ids stay unique |
| BettingHistory.ActionsFor | src/components/BettingHistory.tsx:190-209 | win and loss buttons are offered iff the bet is pending |
| BettingHistory.SettlingAddsOneSettledBet | src/components/BettingHistory.tsx:60-71 | pressing a button on a pending row adds exactly one settled bet |
| BettingHistory.SettleLeavesBalanceStale | src/components/BettingHistory.tsx:60-71 | settling a pending 100 at 2.0 as won books +100, but the balance and the current bankroll stay 1000 and balances stop running |
| BettingHistory.Rebalance | src/components/BettingHistory.tsx:60-71 | correction of the settle finding: after a settlement each balance is recomputed as the initial bankroll plus profit up to and including the bet; nothing else changes |
| BettingHistory.RebalanceRuns | src/components/BettingHistory.tsx:60-71 | correction of the settle finding: after recomputation every balance is the previous balance plus the bet's net profit |
| BettingHistory.RebalanceKeepsRunningBalance | src/components/BettingHistory.tsx:60-71 | correction of the settle finding: recomputing balances that already run changes nothing, so the correction only touches stale records |
| BettingHistory.SettleAndRebalance | src/components/BettingHistory.tsx:60-71 | corrected settle: balances run, and the current bankroll is the initial bankroll plus all profit |
| BettingHistory.SettleAndRebalanceExample | src/components/BettingHistory.tsx:60-71 | the won 100 at 2.0 lifts the current bankroll to 1100 |
| BankrollSettings.SettersTouchOneField | src/components/BankrollSettings.tsx:66-69 | each input handler changes one field; blank or NaN input stores 0, a number stores itself |
| BankrollSettings.CheckSettings | src/components/BankrollSettings.tsx:22-31 | no error iff the active method's setting is valid; each error names the active method |
| BankrollSettings.Save | src/components/BankrollSettings.tsx:22-35 | saves iff valid, replacing the configuration and keeping the records; otherwise reports the check's error |
| BankrollSettings.SaveAndSync | src/components/BankrollSettings.tsx:22-35 | saving succeeds iff valid and never touches the records |
| BankrollSettings.SaveKeepsConsistency | src/contexts/BettingContext.tsx:64-78 | saving from an up-to-date copy keeps the store consistent; with no bets the new initial bankroll becomes current |
| BankrollSettings.ClearedFieldIsRejected | src/components/BankrollSettings.tsx:22-31 | clearing the active method's amount, or typing 0, makes saving fail |
| BankrollSettings.SavedConfigStakes | src/components/BankrollSettings.tsx:22-31 | a saved fixed method proposes a positive stake, and a saved percentage stays within a non-negative bankroll |
| BankrollSettings.PercentagePreview | src/components/BankrollSettings.tsx:209-215 | shown iff the method is percentage with a non-zero percentage, and then equals the suggested percentage stake, bankroll × percentage / 100 |
| BankrollSettings.DefaultConfigPreview | src/contexts/BettingContext.tsx:20-25 | the default configuration is valid and previews 30 |
| PerformanceCharts.BankrollEvolution | src/components/PerformanceCharts.tsx:12-19 | one point per record, numbered from 1, at the balance after that bet |
| PerformanceCharts.BankrollLineEndsAtCurrent | src/components/PerformanceCharts.tsx:12-19 | on a consistent store the line ends at the current bankroll; with running balances each point is initial plus profit so far |
| PerformanceCharts.CategoryChartNames | src/components/PerformanceCharts.tsx:22-25 | each category appears once, and the categories shown are exactly those of settled bets |
| PerformanceCharts.CategoryChartProfits | src/components/PerformanceCharts.tsx:22-25 | each bar is the net profit of the settled bets in its category |
| PerformanceCharts.CategoryChartTotal | src/components/PerformanceCharts.tsx:22-25 | the bars add up to the net profit |
| PerformanceCharts.SortDescending | src/components/PerformanceCharts.tsx:29 | the sorted bars descend in profit, with the same length |
| PerformanceCharts.SortPermutes | src/components/PerformanceCharts.tsx:29 | sorting is a permutation of the bars |
| PerformanceCharts.Truncate | src/components/PerformanceCharts.tsx:32 | names of at most 15 characters are kept; longer ones become their first 15 characters and "..." |
| PerformanceCharts.TopTen | src/components/PerformanceCharts.tsx:28-34 | min(10, n) bars are kept, and each is an input bar with its name shortened, none shown more often than it occurs |
| PerformanceCharts.TopTenEntries | src/components/PerformanceCharts.tsx:28-34 | the i-th bar shown is the i-th bar by profit, name shortened |
| PerformanceCharts.ShortenSort | src/components/PerformanceCharts.tsx:28-34 | shortening names commutes with sorting by profit |
| PerformanceCharts.TopTenIsBest | src/components/PerformanceCharts.tsx:28-34 | kept bars descend; each bar is shown (shortened) or is beaten by every bar shown |
| PerformanceCharts.LeagueChartIsTopTen | src/components/PerformanceCharts.tsx:28-34 | at most ten league bars, descending, each a league's bar with its name shortened (none repeated beyond its occurrences), and no omitted league beats a shown one |
| PerformanceCharts.Distribution | src/components/PerformanceCharts.tsx:37-42 | each slice has a positive count equal to its result's occurrences, and a result has a slice iff it occurs |
| PerformanceCharts.ResultDistributionCoversAll | src/components/PerformanceCharts.tsx:37-42 | the slice counts add up to the number of records |
| PerformanceCharts.Average | src/components/PerformanceCharts.tsx:95-98 | 0 with no records; otherwise average · count = sum |
| PerformanceCharts.AverageBounds | src/components/PerformanceCharts.tsx:95-98 | the average lies within any bounds on the field |
| PerformanceCharts.AverageStakeOfEqualStakes | src/components/PerformanceCharts.tsx:112-115 | equal stakes average to that stake, and no records average to 0 |

## Left out

- Floating point: the model uses exact reals. Rounding, `NaN` arithmetic and `Infinity` are not modelled. Where the code divides by zero, the model uses an explicit case instead: percentage of a zero bankroll is `None`, and Kelly at odds exactly 1 takes the corrected branch.
- `toLowerCase` and `trim` are modelled on ASCII letters and on the white space listed in `BetForm.IsSpace`. Other Unicode case mappings and space separators are not.
- `localStorage` persistence and JSON parsing, `toast` messages, currency and date formatting, and chart colours and labels: these are I/O and presentation.
- `crypto.randomUUID()` is a parameter. Today's date as the form's default is not modelled.
- `BettingDashboard.tsx` and `Index.tsx` are layout only and are not part of this model.
- The HTML `required` and `min`/`max` attributes on inputs are browser behaviour. Only the script's own checks are modelled.
- `handleInputChange` and `handleUseSuggestedStake` copy a value into the form. The reset after submission is not modelled.
- The settings panel keeps its own copy of the configuration, taken when it mounts. `BankrollSettings.SaveKeepsConsistency` assumes that copy is current; a stale copy is not modelled.
- Effect scheduling (React batching and dependency lists) is collapsed into explicit function calls after each change.
- JavaScript orders integer-like object keys (a league named "2024") before other keys. The model keeps pure insertion order.
- PerformanceCharts.SortDescending: sorted order and permutation are proved. That equal profits keep their earlier order (the stability of `Array.prototype.sort`) is not stated.
- StakeAdvisor.SuggestedStake: the Kelly branch uses the corrected Kelly (`StakeAdvisor.KellyStake`). For non-zero odds below 1 the code as written suggests a positive stake (1400 at odds 0.5, 60% and bankroll 1000); that behaviour is `StakeAdvisor.SuggestedStakeAsWritten`.
- PerformanceCharts.Truncate: counts Unicode scalar values, while `length` and `substring` count UTF-16 code units. A league name with characters outside the Basic Multilingual Plane (an emoji, say) can be cut by the code but kept by the model, or cut at a different place.
- BetForm.LivePreview: the preview uses the corrected Kelly (`StakeAdvisor.KellyStake`). The code as written, which marks odds below 1 as value bets, is `StakeAdvisor.KellyStakeAsWritten`.
- PerformanceAggregator.Summarize: the ratio facts (ROI, win rate, average odds) are stated by `MetricsRatios`, `MetricsSums` and `AverageOddsBounds`, not in this contract.
- RecordStore.Refresh: that the published metrics are the metrics of the records is stated by `RecordStore.RefreshConsistent`, not in this contract.
- Categories.ProfitBy: a category named like an `Object.prototype` member (`constructor`, `toString`, `__proto__`, …) is an ordinary key here. In the code `obj[key] || 0` reads the inherited member for such a name, so the total becomes a string concatenation, and an assignment to `__proto__` is ignored. `PerformanceAggregator.CategoryMapSum` and `PerformanceCharts.CategoryChartTotal` therefore do not describe the code for those names.

## Findings

| source | as written | input that shows it | evidently intended | confidence | as-written member | corrected member |
|---|---|---|---|---|---|---|
| src/utils/bettingCalculations.ts:17-25 | b = odds − 1 is negative for odds below 1, so f = (bp − q)/b flips sign. A losing price is reported as a value bet with a Kelly fraction above 100%. The form's live preview lets such odds through (it only requires odds > 0). | odds 0.5, probability 60, bankroll 1000: EV is −70 per 100 staked, yet the result is value bet, 140%, stake 1400 | no stake and no value bet unless odds > 1 and the edge p/100 · odds − 1 is positive | not executed | StakeAdvisor.KellyStakeAsWrittenBelowEvenOdds | StakeAdvisor.KellyStake |
| src/components/BettingHistory.tsx:60-71 | Settling a pending bet updates its result and net profit but not its `bankrollAfter`. The current bankroll, which is the last record's `bankrollAfter`, therefore never reflects the settled outcome. | one pending bet of 100 at 2.0 on a 1000 bankroll, settled as won: profit +100, current bankroll still 1000 | balances and the current bankroll follow settled profit (1100 here) | not executed | BettingHistory.SettleLeavesBalanceStale | BettingHistory.SettleAndRebalance |
