/** `calculatePerformanceMetrics` (src/utils/bettingCalculations.ts:78-148):
    one recomputation over the record list that ignores pending bets. */
module PerformanceAggregator {
  import opened BettingTypes
  import opened Aggregates
  import opened Streaks
  import opened Categories
  import StakeAdvisor

  /** ROI in percent, defined as 0 when nothing positive was staked. */
  function Roi(netProfit: real, totalStaked: real): (roi: real)
    ensures totalStaked > 0.0 ==> roi * totalStaked == 100.0 * netProfit
    ensures totalStaked > 0.0 ==> (roi > 0.0 <==> netProfit > 0.0)
    ensures totalStaked <= 0.0 ==> roi == 0.0
  {
    if totalStaked > 0.0 then
      var roi := netProfit / totalStaked * 100.0;
      assert roi * totalStaked == 100.0 * netProfit;
      assert roi > 0.0 ==> roi * totalStaked > 0.0;
      assert netProfit > 0.0 ==> roi > 0.0;
      roi
    else 0.0
  }

  /** `part` out of `whole` as a percentage. */
  function Rate(part: nat, whole: nat): (rate: real)
    requires part <= whole && whole > 0
    ensures 0.0 <= rate <= 100.0
    ensures rate * (whole as real) == 100.0 * (part as real)
  {
    var rate := (part as real) / (whole as real) * 100.0;
    assert rate * (whole as real) == 100.0 * (part as real);
    assert rate <= 100.0 by {
      if rate > 100.0 {
        assert rate * (whole as real) > 100.0 * (whole as real);
      }
    }
    rate
  }

  /** The statistics of a non-empty list of settled bets. */
  function Summarize(settled: seq<BetRecord>): (m: PerformanceMetrics)
    requires |settled| > 0
    ensures m.totalBets == |settled|
    ensures 0.0 <= m.winRate <= 100.0
    ensures m.longestWinStreak + m.longestLossStreak <= m.totalBets
    ensures m.totalStaked <= 0.0 ==> m.roi == 0.0
  {
    var results := Results(settled);
    var totalStaked := Total(settled, Stake);
    var netProfit := Total(settled, Profit);
    var streaks := StreaksOf(results);
    StreaksBoundedByCounts(results);
    OccurrencesPartition(results);
    PerformanceMetrics(
      |settled|,
      totalStaked,
      totalStaked + netProfit,
      netProfit,
      Roi(netProfit, totalStaked),
      Rate(Occurrences(results, Win), |settled|),
      Mean(settled, Odds),
      streaks.longestWin,
      streaks.longestLoss,
      ProfitBy(settled, ByBetType),
      ProfitBy(settled, ByLeague))
  }

  /** The aggregate statistics of `records`; the all-zero metrics when no
      bet is settled. */
  function Metrics(records: seq<BetRecord>): (m: PerformanceMetrics)
    ensures m.totalBets <= |records|
    ensures m.totalBets == 0 ==> m == EmptyMetrics
    ensures 0.0 <= m.winRate <= 100.0
    ensures m.longestWinStreak + m.longestLossStreak <= m.totalBets
    ensures m.totalStaked <= 0.0 ==> m.roi == 0.0
  {
    var settled := Settled(records);
    if |settled| == 0 then EmptyMetrics else Summarize(settled)
  }

  /** The number of bets is the number of records that are not pending. */
  lemma TotalBetsCountsSettled(records: seq<BetRecord>)
    ensures Metrics(records).totalBets + Occurrences(Results(records), Pending) == |records|
  {
    SettledCount(records);
  }

  /** Neither streak is longer than the number of wins, resp. losses. */
  lemma StreaksBoundedByOutcomes(records: seq<BetRecord>)
    ensures Metrics(records).longestWinStreak <= Occurrences(Results(records), Win)
    ensures Metrics(records).longestLossStreak <= Occurrences(Results(records), Loss)
  {
    var settled := Settled(records);
    SettledOccurrences(records, Win);
    SettledOccurrences(records, Loss);
    StreaksBoundedByCounts(Results(settled));
  }

  /** The metrics depend on the settled records only, so a pending record
      can be added or removed anywhere without changing them. */
  lemma MetricsIgnorePending(a: seq<BetRecord>, p: BetRecord, b: seq<BetRecord>)
    requires p.result == Pending
    ensures Metrics(a + [p] + b) == Metrics(a + b)
  {
    SettledIgnoresPending(a, p, b);
  }

  lemma {:induction false} SettledIdempotent(rs: seq<BetRecord>)
    ensures Settled(Settled(rs)) == Settled(rs)
  {
    if |rs| > 0 {
      var prefix := rs[..|rs| - 1];
      SettledIdempotent(prefix);
      if rs[|rs| - 1].result != Pending {
        SettledAppend(Settled(prefix), [rs[|rs| - 1]]);
      }
    }
  }

  /** Recomputing from the settled list gives the same metrics. */
  lemma MetricsOfSettled(records: seq<BetRecord>)
    ensures Metrics(Settled(records)) == Metrics(records)
  {
    SettledIdempotent(records);
  }

  /** With some bet settled, the ROI is the `Roi` of the totals (net profit
      per unit staked) and the win rate is the `Rate` of wins among the
      settled bets; the total return is stake plus profit. */
  lemma MetricsRatios(records: seq<BetRecord>)
    requires |Settled(records)| > 0
    ensures var m := Metrics(records);
      && m.roi == Roi(m.netProfit, m.totalStaked)
      && Occurrences(Results(records), Win) <= m.totalBets
      && m.winRate == Rate(Occurrences(Results(records), Win), m.totalBets)
      && m.totalReturn == m.totalStaked + m.netProfit
  {
    var settled := Settled(records);
    SettledOccurrences(records, Win);
    assert Metrics(records) == Summarize(settled);
  }

  /** The money totals are the sums over the settled bets. */
  lemma MetricsSums(records: seq<BetRecord>)
    requires |Settled(records)| > 0
    ensures Metrics(records).totalStaked == Total(Settled(records), Stake)
    ensures Metrics(records).netProfit == Total(Settled(records), Profit)
    ensures Metrics(records).averageOdds == Mean(Settled(records), Odds)
  {
    assert Metrics(records) == Summarize(Settled(records));
  }

  /** The average odds lie between the lowest and the highest odds of the
      settled bets. */
  lemma AverageOddsBounds(records: seq<BetRecord>, lo: real, hi: real)
    requires |Settled(records)| > 0
    requires forall i | 0 <= i < |records| && records[i].result != Pending :: lo <= records[i].odds <= hi
    ensures lo <= Metrics(records).averageOdds <= hi
  {
    var settled := Settled(records);
    SettledFieldBounds(records, Odds, lo, hi);
    MeanBounds(settled, Odds, lo, hi);
    MetricsSums(records);
  }

  /** When nothing was staked the ROI is 0 rather than a division by zero. */
  lemma ZeroStakeRoi(records: seq<BetRecord>)
    requires forall i | 0 <= i < |records| :: records[i].stakeAmount == 0.0
    ensures Metrics(records).roi == 0.0
  {
    var settled := Settled(records);
    if |settled| > 0 {
      SettledFieldBounds(records, Stake, 0.0, 0.0);
      TotalBounds(settled, Stake, 0.0, 0.0);
      MetricsSums(records);
    }
  }

  /** What a settled bet pays back to the bettor: the potential return on a
      win, the stake on a void, nothing on a loss. */
  function Payout(r: BetRecord): real {
    match r.result
    case Win => StakeAdvisor.PotentialReturn(r.stakeAmount, r.odds)
    case Void => r.stakeAmount
    case _ => 0.0
  }

  /** A record whose net profit was computed from its own result. */
  predicate ProfitConsistent(r: BetRecord) {
    r.netProfit == StakeAdvisor.NetProfit(r.result, r.stakeAmount, r.odds)
  }

  /** The total return equals the sum of the payouts when every settled
      record's profit agrees with its result. */
  lemma {:induction false} TotalReturnIsPayout(records: seq<BetRecord>)
    requires forall r | r in records :: ProfitConsistent(r)
    ensures Metrics(records).totalReturn == SumPayout(Settled(records))
  {
    var settled := Settled(records);
    SettledMembers(records);
    assert forall i | 0 <= i < |settled| :: settled[i] in records;
    ReturnedIsPayout(settled);
    if |settled| > 0 {
      TotalAppendFields(settled);
    }
  }

  function SumPayout(rs: seq<BetRecord>): real {
    if |rs| == 0 then 0.0 else SumPayout(rs[..|rs| - 1]) + Payout(rs[|rs| - 1])
  }

  lemma {:induction false} ReturnedIsPayout(rs: seq<BetRecord>)
    requires forall i | 0 <= i < |rs| :: ProfitConsistent(rs[i]) && rs[i].result != Pending
    ensures Total(rs, Returned) == SumPayout(rs)
  {
    if |rs| > 0 {
      ReturnedIsPayout(rs[..|rs| - 1]);
    }
  }

  lemma {:induction false} TotalAppendFields(rs: seq<BetRecord>)
    ensures Total(rs, Returned) == Total(rs, Stake) + Total(rs, Profit)
  {
    if |rs| > 0 {
      TotalAppendFields(rs[..|rs| - 1]);
    }
  }

  /** The streaks are the longest runs of wins and of losses among the
      settled bets in order, voids struck out. */
  lemma MetricsStreaksAreLongestRuns(records: seq<BetRecord>)
    ensures IsLongestRun(Decisive(Results(Settled(records))), Win, Metrics(records).longestWinStreak)
    ensures IsLongestRun(Decisive(Results(Settled(records))), Loss, Metrics(records).longestLossStreak)
  {
    StreaksAreLongestRuns(Results(Settled(records)));
    if |Settled(records)| == 0 {
      assert RunOf([], Win, 0, 0) && RunOf([], Loss, 0, 0);
    }
  }

  /** The profit map of category `c`. */
  function ProfitMap(m: PerformanceMetrics, c: Category): map<string, real> {
    match c
    case ByBetType => m.profitByBetType
    case ByLeague => m.profitByLeague
  }

  /** Some settled record has category `key`. */
  predicate OccursSettled(records: seq<BetRecord>, c: Category, key: string) {
    exists i | 0 <= i < |records| :: records[i].result != Pending && CategoryOf(records[i], c) == key
  }

  lemma {:induction false} LabelsOfSettled(records: seq<BetRecord>, c: Category, key: string)
    ensures key in Labels(Settled(records), c) <==> OccursSettled(records, c, key)
  {
    if |records| > 0 {
      var prefix := records[..|records| - 1];
      var last := records[|records| - 1];
      LabelsOfSettled(prefix, c, key);
      OccursSettledStep(records, c, key);
      var sp := Settled(prefix);
      if last.result != Pending {
        assert (sp + [last])[..|sp|] == sp;
        assert Labels(Settled(records), c) == Labels(sp, c) + [CategoryOf(last, c)];
      }
    }
  }

  /** A settled record of category `key` is the last one or an earlier
      one. */
  lemma OccursSettledStep(records: seq<BetRecord>, c: Category, key: string)
    requires |records| > 0
    ensures var last := records[|records| - 1];
            OccursSettled(records, c, key) <==>
              OccursSettled(records[..|records| - 1], c, key) || (last.result != Pending && CategoryOf(last, c) == key)
  {
    var prefix := records[..|records| - 1];
    if OccursSettled(records, c, key) {
      var i :| 0 <= i < |records| && records[i].result != Pending && CategoryOf(records[i], c) == key;
      if i < |prefix| {
        assert prefix[i] == records[i];
      }
    }
    if OccursSettled(prefix, c, key) {
      var i :| 0 <= i < |prefix| && prefix[i].result != Pending && CategoryOf(prefix[i], c) == key;
      assert records[i] == prefix[i];
    }
  }

  /** The keys of each profit map are exactly the categories of the settled
      bets. */
  lemma CategoryMapKeys(records: seq<BetRecord>, c: Category, key: string)
    ensures key in ProfitMap(Metrics(records), c) <==> OccursSettled(records, c, key)
  {
    LabelsOfSettled(records, c, key);
  }

  /** Each entry is the net profit of the settled bets of its category. */
  lemma CategoryMapEntry(records: seq<BetRecord>, c: Category, key: string)
    requires key in ProfitMap(Metrics(records), c)
    ensures ProfitMap(Metrics(records), c)[key] == Total(InCategory(Settled(records), c, key), Profit)
  {
    ProfitByIsCategoryTotal(Settled(records), c, key);
  }

  /** The listed categories are keys of the profit map. */
  lemma CategoryMapCoversKeys(records: seq<BetRecord>, c: Category)
    ensures forall k | k in CategoryKeys(Settled(records), c) :: k in ProfitMap(Metrics(records), c)
  {
    CategoryKeysOfProfitBy(Settled(records), c);
  }

  /** Listed in order of first occurrence, the entries of each profit map add
      up to the net profit. */
  lemma CategoryMapSum(records: seq<BetRecord>, c: Category)
    ensures forall k | k in CategoryKeys(Settled(records), c) :: k in ProfitMap(Metrics(records), c)
    ensures SumOver(ProfitMap(Metrics(records), c), CategoryKeys(Settled(records), c)) == Metrics(records).netProfit
  {
    CategoryProfitsSumToTotal(Settled(records), c);
  }
}
