/** The data behind the charts and cards of
    src/components/PerformanceCharts.tsx: the bankroll line, the profit bars
    by bet type and by league, the pie of results, and the average expected
    value and stake. */
module PerformanceCharts {
  import opened Seqs
  import opened BettingTypes
  import opened Aggregates
  import opened Categories
  import opened PerformanceAggregator
  import opened RecordStore

  /** A point of the bankroll line: the bet's 1-based position and the
      balance after it. */
  datatype Point = Point(bet: nat, bankroll: real)

  function BankrollEvolution(rs: seq<BetRecord>): (pts: seq<Point>)
    ensures |pts| == |rs|
    ensures forall i | 0 <= i < |rs| :: pts[i].bet == i + 1 && pts[i].bankroll == rs[i].bankrollAfter
  {
    seq(|rs|, i requires 0 <= i < |rs| => Point(i + 1, rs[i].bankrollAfter))
  }

  /** On a consistent store the line ends at the current bankroll; with
      running balances each point is the initial bankroll plus the profit
      so far. */
  lemma BankrollLineEndsAtCurrent(s: Store, i: nat)
    requires Consistent(s) && i < |s.records|
    ensures BankrollEvolution(s.records)[|s.records| - 1].bankroll == s.config.currentBankroll
    ensures RunningBalance(s.config.initialBankroll, s.records) ==>
      BankrollEvolution(s.records)[i].bankroll == s.config.initialBankroll + Total(s.records[..i + 1], Profit)
  {
    if RunningBalance(s.config.initialBankroll, s.records) {
      RunningBalanceIsTotal(s.config.initialBankroll, s.records, i);
    }
  }

  /** A bar: a category label and its profit. */
  datatype Bar = Bar(name: string, profit: real)

  /** The bars of `m` for `keys`, in that order. */
  function Bars(m: map<string, real>, keys: seq<string>): (bars: seq<Bar>)
    requires forall k | k in keys :: k in m
    ensures |bars| == |keys|
    ensures forall i | 0 <= i < |keys| :: bars[i] == Bar(keys[i], m[keys[i]])
  {
    seq(|keys|, i requires 0 <= i < |keys| => Bar(keys[i], m[keys[i]]))
  }

  /** `Object.entries` of a category's profit map, in the order the keys
      were first inserted. */
  function CategoryChart(records: seq<BetRecord>, c: Category): seq<Bar> {
    CategoryMapCoversKeys(records, c);
    Bars(ProfitMap(Metrics(records), c), CategoryKeys(Settled(records), c))
  }

  /** The bet-type bars. */
  function BetTypeChart(records: seq<BetRecord>): seq<Bar> {
    CategoryChart(records, ByBetType)
  }

  function BarTotal(bars: seq<Bar>): real {
    if |bars| == 0 then 0.0 else BarTotal(bars[..|bars| - 1]) + bars[|bars| - 1].profit
  }

  /** Totalling the bars is summing the map over the keys. */
  lemma {:induction false} BarTotalIsSumOver(m: map<string, real>, keys: seq<string>)
    requires forall k | k in keys :: k in m
    ensures BarTotal(Bars(m, keys)) == SumOver(m, keys)
  {
    if |keys| > 0 {
      var prefix := keys[..|keys| - 1];
      BarTotalIsSumOver(m, prefix);
      assert Bars(m, keys)[..|keys| - 1] == Bars(m, prefix);
    }
  }

  /** Bars for distinct keys have distinct names, one per key. */
  lemma BarsNames(m: map<string, real>, keys: seq<string>)
    requires forall k | k in keys :: k in m
    requires Distinct(keys)
    ensures var bars := Bars(m, keys);
            && (forall i, j | 0 <= i < j < |bars| :: bars[i].name != bars[j].name)
            && (forall key :: key in keys <==> exists i | 0 <= i < |bars| :: bars[i].name == key)
  {
    var bars := Bars(m, keys);
    forall key | key in keys ensures exists i | 0 <= i < |bars| :: bars[i].name == key {
      var i :| 0 <= i < |keys| && keys[i] == key;
      assert bars[i].name == key;
    }
  }

  /** Each category appears once, and the categories shown are exactly
      those of the settled bets. */
  lemma CategoryChartNames(records: seq<BetRecord>, c: Category)
    ensures var bars := CategoryChart(records, c);
            && (forall i, j | 0 <= i < j < |bars| :: bars[i].name != bars[j].name)
            && (forall key :: OccursSettled(records, c, key) <==> exists i | 0 <= i < |bars| :: bars[i].name == key)
  {
    var keys := CategoryKeys(Settled(records), c);
    CategoryMapCoversKeys(records, c);
    BarsNames(ProfitMap(Metrics(records), c), keys);
    forall key ensures key in keys <==> OccursSettled(records, c, key) {
      LabelsOfSettled(records, c, key);
    }
  }

  /** Each bar carries the net profit of the settled bets of its
      category. */
  lemma CategoryChartProfits(records: seq<BetRecord>, c: Category)
    ensures var bars := CategoryChart(records, c);
            forall i | 0 <= i < |bars| :: bars[i].profit == Total(InCategory(Settled(records), c, bars[i].name), Profit)
  {
    var keys := CategoryKeys(Settled(records), c);
    var bars := CategoryChart(records, c);
    forall i | 0 <= i < |bars|
      ensures bars[i].profit == Total(InCategory(Settled(records), c, bars[i].name), Profit)
    {
      assert bars[i] == Bar(keys[i], ProfitMap(Metrics(records), c)[keys[i]]);
      CategoryMapEntry(records, c, keys[i]);
    }
  }

  /** The bars add up to the net profit. */
  lemma CategoryChartTotal(records: seq<BetRecord>, c: Category)
    ensures BarTotal(CategoryChart(records, c)) == Metrics(records).netProfit
  {
    CategoryMapSum(records, c);
    BarTotalIsSumOver(ProfitMap(Metrics(records), c), CategoryKeys(Settled(records), c));
  }

  /** Highest profit first. */
  predicate Descending(bars: seq<Bar>) {
    forall i, j | 0 <= i < j < |bars| :: bars[i].profit >= bars[j].profit
  }

  /** Puts `b` before the first bar with no more profit, so that of two
      equal profits the one inserted later, and so listed earlier, comes
      first. */
  function Insert(b: Bar, bars: seq<Bar>): (out: seq<Bar>)
    ensures |out| == |bars| + 1
    ensures forall x :: x in out <==> x == b || x in bars
    ensures Descending(bars) ==> Descending(out)
  {
    if |bars| == 0 then [b]
    else if b.profit >= bars[0].profit then [b] + bars
    else
      var rest := Insert(b, bars[1..]);
      assert Descending(bars) ==> forall x | x in bars[1..] :: x.profit <= bars[0].profit;
      [bars[0]] + rest
  }

  lemma {:induction false} InsertPermutes(b: Bar, bars: seq<Bar>)
    ensures multiset(Insert(b, bars)) == multiset(bars) + multiset{b}
  {
    if |bars| > 0 && b.profit < bars[0].profit {
      InsertPermutes(b, bars[1..]);
      assert bars == [bars[0]] + bars[1..];
    }
  }

  /** `sort((a, b) => b - a)` on the profits. */
  function SortDescending(bars: seq<Bar>): (out: seq<Bar>)
    ensures Descending(out)
    ensures |out| == |bars|
  {
    if |bars| == 0 then [] else Insert(bars[0], SortDescending(bars[1..]))
  }

  /** Sorting rearranges the bars and loses none. */
  lemma {:induction false} SortPermutes(bars: seq<Bar>)
    ensures multiset(SortDescending(bars)) == multiset(bars)
  {
    if |bars| > 0 {
      SortPermutes(bars[1..]);
      InsertPermutes(bars[0], SortDescending(bars[1..]));
      assert bars == [bars[0]] + bars[1..];
    }
  }

  /** A league name over 15 characters is cut to 15 and marked with "...". */
  function Truncate(name: string): (t: string)
    ensures |name| <= 15 ==> t == name
    ensures |name| > 15 ==> |t| == 18 && t[..15] == name[..15] && t[15..] == "..."
  {
    if |name| > 15 then name[..15] + "..." else name
  }

  function Shorten(b: Bar): Bar {
    Bar(Truncate(b.name), b.profit)
  }

  /** Every bar with its name shortened. */
  function ShortenAll(bars: seq<Bar>): (out: seq<Bar>)
    ensures |out| == |bars|
    ensures forall i | 0 <= i < |bars| :: out[i] == Shorten(bars[i])
  {
    if |bars| == 0 then [] else [Shorten(bars[0])] + ShortenAll(bars[1..])
  }

  /** Shortening names does not change profits, so it commutes with
      insertion by profit. */
  lemma {:induction false} ShortenInsert(b: Bar, bars: seq<Bar>)
    ensures ShortenAll(Insert(b, bars)) == Insert(Shorten(b), ShortenAll(bars))
  {
    if |bars| > 0 {
      var short := ShortenAll(bars);
      assert short == [Shorten(bars[0])] + ShortenAll(bars[1..]);
      assert short[1..] == ShortenAll(bars[1..]);
      if b.profit < bars[0].profit {
        var rest := Insert(b, bars[1..]);
        ShortenInsert(b, bars[1..]);
        assert Insert(b, bars) == [bars[0]] + rest;
        assert ([bars[0]] + rest)[1..] == rest;
        assert ShortenAll([bars[0]] + rest) == [Shorten(bars[0])] + ShortenAll(rest);
        assert Insert(Shorten(b), short) == [short[0]] + Insert(Shorten(b), short[1..]);
      } else {
        assert Insert(b, bars) == [b] + bars;
        assert ([b] + bars)[1..] == bars;
        assert ShortenAll([b] + bars) == [Shorten(b)] + short;
        assert Insert(Shorten(b), short) == [Shorten(b)] + short;
      }
    }
  }

  /** Shortening names commutes with the sort. */
  lemma {:induction false} ShortenSort(bars: seq<Bar>)
    ensures ShortenAll(SortDescending(bars)) == SortDescending(ShortenAll(bars))
  {
    if |bars| > 0 {
      ShortenSort(bars[1..]);
      ShortenInsert(bars[0], SortDescending(bars[1..]));
      assert ShortenAll(bars)[1..] == ShortenAll(bars[1..]);
    }
  }

  /** A prefix holds no bar more often than the whole sequence. */
  lemma PrefixMultiset<T>(s: seq<T>, k: nat)
    requires k <= |s|
    ensures multiset(s[..k]) <= multiset(s)
  {
    assert s == s[..k] + s[k..];
  }

  /** Shortening a prefix is taking the prefix of the shortened bars. */
  lemma ShortenAllPrefix(s: seq<Bar>, k: nat)
    requires k <= |s|
    ensures ShortenAll(s[..k]) == ShortenAll(s)[..k]
  {
  }

  /** A shortened prefix of the sorted bars holds only shortened input
      bars, none more often than it occurs. */
  lemma ShortenedPrefixFromInput(bars: seq<Bar>, k: nat)
    requires k <= |bars|
    ensures multiset(ShortenAll(SortDescending(bars)[..k])) <= multiset(ShortenAll(bars))
  {
    var sorted := SortDescending(bars);
    var short := ShortenAll(sorted);
    ShortenAllPrefix(sorted, k);
    ShortenSort(bars);
    SortPermutes(ShortenAll(bars));
    assert multiset(short) == multiset(ShortenAll(bars));
    PrefixMultiset(short, k);
  }

  /** Sorted by profit, the first ten kept, the names shortened: the bars
      shown are input bars (shortened), none shown more often than it
      occurs. */
  function TopTen(bars: seq<Bar>): (top: seq<Bar>)
    ensures |top| == if |bars| < 10 then |bars| else 10
    ensures multiset(top) <= multiset(ShortenAll(bars))
  {
    var sorted := SortDescending(bars);
    var k := if |sorted| < 10 then |sorted| else 10;
    ShortenedPrefixFromInput(bars, k);
    ShortenAll(sorted[..k])
  }

  /** The i-th bar shown is the i-th bar by profit, shortened. */
  lemma TopTenEntries(bars: seq<Bar>)
    ensures forall i | 0 <= i < |TopTen(bars)| :: TopTen(bars)[i] == Shorten(SortDescending(bars)[i])
  {
  }

  /** The bars shown keep the sorted order. */
  lemma TopTenDescends(bars: seq<Bar>)
    ensures Descending(TopTen(bars))
  {
    TopTenEntries(bars);
  }

  /** The top ten descend, and a bar is either among them (name shortened)
      or has no more profit than any of them. */
  lemma TopTenIsBest(bars: seq<Bar>)
    ensures Descending(TopTen(bars))
    ensures forall b | b in bars ::
      || Shorten(b) in TopTen(bars)
      || forall i | 0 <= i < |TopTen(bars)| :: TopTen(bars)[i].profit >= b.profit
  {
    var sorted := SortDescending(bars);
    var top := TopTen(bars);
    TopTenDescends(bars);
    SortPermutes(bars);
    TopTenEntries(bars);
    forall b | b in bars
      ensures Shorten(b) in top || forall i | 0 <= i < |top| :: top[i].profit >= b.profit
    {
      assert b in multiset(sorted);
      var j :| 0 <= j < |sorted| && sorted[j] == b;
      if j < |top| {
        assert top[j] == Shorten(b);
      }
    }
  }

  /** The league bars. */
  function LeagueChart(records: seq<BetRecord>): seq<Bar> {
    TopTen(CategoryChart(records, ByLeague))
  }

  /** At most ten league bars, in descending profit, and no league left out
      made more than one shown. */
  lemma LeagueChartIsTopTen(records: seq<BetRecord>)
    ensures |LeagueChart(records)| <= 10
    ensures multiset(LeagueChart(records)) <= multiset(ShortenAll(CategoryChart(records, ByLeague)))
    ensures Descending(LeagueChart(records))
    ensures forall b | b in CategoryChart(records, ByLeague) ::
      || Shorten(b) in LeagueChart(records)
      || forall i | 0 <= i < |LeagueChart(records)| :: LeagueChart(records)[i].profit >= b.profit
  {
    TopTenIsBest(CategoryChart(records, ByLeague));
  }

  /** A pie slice: a result and how many records have it. */
  datatype Slice = Slice(result: BetResult, count: nat)

  /** Wins, losses, voids, pending, in that order, empty slices dropped. */
  function Distribution(o: seq<BetResult>): (slices: seq<Slice>)
    ensures forall i | 0 <= i < |slices| :: slices[i].count > 0 && slices[i].count == Occurrences(o, slices[i].result)
    ensures forall x: BetResult :: Occurrences(o, x) > 0 <==> exists i | 0 <= i < |slices| :: slices[i].result == x
  {
    var all := [Slice(Win, Occurrences(o, Win)), Slice(Loss, Occurrences(o, Loss)),
                Slice(Void, Occurrences(o, Void)), Slice(Pending, Occurrences(o, Pending))];
    assert forall x: BetResult :: Slice(x, Occurrences(o, x)) in all;
    NonEmpty(all)
  }

  /** The pie of the records' results. */
  function ResultDistribution(records: seq<BetRecord>): seq<Slice> {
    Distribution(Results(records))
  }

  function NonEmpty(slices: seq<Slice>): (out: seq<Slice>)
    ensures forall s | s in out :: s in slices && s.count > 0
    ensures forall s | s in slices && s.count > 0 :: s in out
  {
    if |slices| == 0 then []
    else if slices[0].count > 0 then [slices[0]] + NonEmpty(slices[1..])
    else NonEmpty(slices[1..])
  }

  function SliceTotal(slices: seq<Slice>): nat {
    if |slices| == 0 then 0 else slices[0].count + SliceTotal(slices[1..])
  }

  /** The pie covers every record exactly once. */
  lemma ResultDistributionCoversAll(records: seq<BetRecord>)
    ensures SliceTotal(ResultDistribution(records)) == |records|
  {
    var o := Results(records);
    OccurrencesPartition(o);
    var all := [Slice(Win, Occurrences(o, Win)), Slice(Loss, Occurrences(o, Loss)),
                Slice(Void, Occurrences(o, Void)), Slice(Pending, Occurrences(o, Pending))];
    NonEmptyKeepsTotal(all);
    SliceTotalOfFour(all[0], all[1], all[2], all[3]);
  }

  lemma SliceTotalOfFour(a: Slice, b: Slice, c: Slice, d: Slice)
    ensures SliceTotal([a, b, c, d]) == a.count + b.count + c.count + d.count
  {
    assert [d][1..] == [];
    assert SliceTotal([d]) == d.count;
    assert [c, d][1..] == [d];
    assert SliceTotal([c, d]) == c.count + d.count;
    assert [b, c, d][1..] == [c, d];
    assert SliceTotal([b, c, d]) == b.count + c.count + d.count;
    assert [a, b, c, d][1..] == [b, c, d];
  }

  lemma {:induction false} NonEmptyKeepsTotal(slices: seq<Slice>)
    ensures SliceTotal(NonEmpty(slices)) == SliceTotal(slices)
  {
    if |slices| > 0 {
      NonEmptyKeepsTotal(slices[1..]);
    }
  }

  /** `records.reduce((sum, r) => sum + r.<field>, 0) / records.length`, or
      0 with no records. */
  function Average(records: seq<BetRecord>, f: Field): (avg: real)
    ensures |records| == 0 ==> avg == 0.0
    ensures |records| > 0 ==> avg * (|records| as real) == Total(records, f)
  {
    if |records| == 0 then 0.0 else Mean(records, f)
  }

  /** The average lies between any bounds on the field. */
  lemma AverageBounds(records: seq<BetRecord>, f: Field, lo: real, hi: real)
    requires |records| > 0
    requires forall i | 0 <= i < |records| :: lo <= FieldOf(records[i], f) <= hi
    ensures lo <= Average(records, f) <= hi
  {
    MeanBounds(records, f, lo, hi);
  }

  /** The "average EV" and "average stake" cards, over all records,
      pending ones included. */
  function AverageExpectedValue(records: seq<BetRecord>): real {
    Average(records, Expected)
  }

  function AverageStake(records: seq<BetRecord>): real {
    Average(records, Stake)
  }

  /** Equal stakes average to that stake, and no records average to 0. */
  lemma AverageStakeOfEqualStakes(records: seq<BetRecord>, x: real)
    requires forall i | 0 <= i < |records| :: records[i].stakeAmount == x
    ensures |records| > 0 ==> AverageStake(records) == x
    ensures |records| == 0 ==> AverageStake(records) == 0.0 && AverageExpectedValue(records) == 0.0
  {
    if |records| > 0 {
      AverageBounds(records, Stake, x, x);
    }
  }
}
