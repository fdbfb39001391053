/** The history table of src/components/BettingHistory.tsx: searching and
    filtering the records, the league list for the filter, and settling a
    pending bet as won or lost. */
module BettingHistory {
  import opened Wrappers
  import opened Seqs
  import opened BettingTypes
  import opened StakeAdvisor
  import opened Aggregates
  import opened Categories
  import opened RecordStore

  /** `toLowerCase` on the ASCII letters; every other character is kept. */
  function LowerChar(c: char): char {
    if 'A' <= c <= 'Z' then (c as int + 32) as char else c
  }

  function Lower(s: string): (t: string)
    ensures |t| == |s|
    ensures forall i | 0 <= i < |s| :: t[i] == LowerChar(s[i])
  {
    seq(|s|, i requires 0 <= i < |s| => LowerChar(s[i]))
  }

  /** `sub` occurs in `s` starting at position `i`. */
  predicate OccursAt(s: string, sub: string, i: nat) {
    i + |sub| <= |s| && s[i..i + |sub|] == sub
  }

  /** `s.includes(sub)`. */
  predicate Contains(s: string, sub: string) {
    exists i: nat | i <= |s| :: OccursAt(s, sub, i)
  }

  /** The search box: an empty term matches everything; otherwise the term
      must occur, ignoring case, in the event, a team or the league. */
  predicate MatchesSearch(r: BetRecord, searchTerm: string) {
    var term := Lower(searchTerm);
    || searchTerm == []
    || Contains(Lower(r.event), term)
    || Contains(Lower(r.homeTeam), term)
    || Contains(Lower(r.awayTeam), term)
    || Contains(Lower(r.league), term)
  }

  /** The result select: every result, or one. */
  datatype ResultFilter = AllResults | OnlyResult(result: BetResult)

  /** The league select holds `"all"` or a league name. */
  const AllLeagues := "all"

  predicate Matches(r: BetRecord, searchTerm: string, filterResult: ResultFilter, filterLeague: string) {
    && MatchesSearch(r, searchTerm)
    && (filterResult.AllResults? || r.result == filterResult.result)
    && (filterLeague == AllLeagues || r.league == filterLeague)
  }

  /** The rows on screen: the matching records, in stored order. */
  function FilteredRecords(rs: seq<BetRecord>, searchTerm: string, filterResult: ResultFilter, filterLeague: string)
    : (out: seq<BetRecord>)
    ensures IsSubsequence(out, rs)
    ensures |out| <= |rs|
    ensures forall r :: r in out <==> r in rs && Matches(r, searchTerm, filterResult, filterLeague)
  {
    if |rs| == 0 then []
    else
      var prefix := rs[..|rs| - 1];
      var last := rs[|rs| - 1];
      var kept := FilteredRecords(prefix, searchTerm, filterResult, filterLeague);
      assert forall i | 0 <= i < |prefix| :: prefix[i] == rs[i];
      assert rs == prefix + [last];
      if Matches(last, searchTerm, filterResult, filterLeague) then
        assert (kept + [last])[..|kept|] == kept;
        kept + [last]
      else
        assert IsSubsequence(kept, rs);
        kept
  }

  /** Filtering keeps every matching record as often as it is stored and
      drops the rest: with the subsequence property this fixes the rows to
      `records.filter(..)`. */
  lemma {:induction false} FilteredMultiplicity(rs: seq<BetRecord>, searchTerm: string, filterResult: ResultFilter,
                                                filterLeague: string, r: BetRecord)
    ensures multiset(FilteredRecords(rs, searchTerm, filterResult, filterLeague))[r]
         == if Matches(r, searchTerm, filterResult, filterLeague) then multiset(rs)[r] else 0
  {
    if |rs| > 0 {
      var prefix := rs[..|rs| - 1];
      var last := rs[|rs| - 1];
      var kept := FilteredRecords(prefix, searchTerm, filterResult, filterLeague);
      FilteredMultiplicity(prefix, searchTerm, filterResult, filterLeague, r);
      assert rs == prefix + [last];
      assert multiset(rs) == multiset(prefix) + multiset{last};
      if Matches(last, searchTerm, filterResult, filterLeague) {
        assert FilteredRecords(rs, searchTerm, filterResult, filterLeague) == kept + [last];
        assert multiset(kept + [last]) == multiset(kept) + multiset{last};
      } else {
        assert FilteredRecords(rs, searchTerm, filterResult, filterLeague) == kept;
      }
    }
  }

  /** With no search term and both selects on "all", every record shows. */
  lemma {:induction false} NeutralFilterShowsAll(rs: seq<BetRecord>)
    ensures FilteredRecords(rs, "", AllResults, AllLeagues) == rs
  {
    if |rs| > 0 {
      NeutralFilterShowsAll(rs[..|rs| - 1]);
    }
  }

  /** Filtering on one result alone shows as many rows as there are records
      with that result. */
  lemma {:induction false} ResultFilterCounts(rs: seq<BetRecord>, x: BetResult)
    ensures |FilteredRecords(rs, "", OnlyResult(x), AllLeagues)| == Occurrences(Results(rs), x)
  {
    if |rs| > 0 {
      var prefix := rs[..|rs| - 1];
      ResultFilterCounts(prefix, x);
      assert Results(rs)[..|rs| - 1] == Results(prefix);
    }
  }

  /** The league select's options: each league once, in order of first
      appearance. */
  function UniqueLeagues(rs: seq<BetRecord>): (ls: seq<string>)
    ensures Distinct(ls)
    ensures forall l :: l in ls <==> exists i | 0 <= i < |rs| :: rs[i].league == l
  {
    var ls := CategoryKeys(rs, ByLeague);
    assert forall l :: l in Labels(rs, ByLeague) <==> exists i | 0 <= i < |rs| :: rs[i].league == l by {
      forall l ensures l in Labels(rs, ByLeague) <==> exists i | 0 <= i < |rs| :: rs[i].league == l {
        if l in Labels(rs, ByLeague) {
          var i :| 0 <= i < |rs| && Labels(rs, ByLeague)[i] == l;
          assert rs[i].league == l;
        }
      }
    }
    ls
  }

  /** Choosing any offered league (other than one literally named "all")
      leaves at least one row. */
  lemma OfferedLeagueIsNonEmpty(rs: seq<BetRecord>, league: string)
    requires league in UniqueLeagues(rs) && league != AllLeagues
    ensures |FilteredRecords(rs, "", AllResults, league)| > 0
  {
    var i :| 0 <= i < |rs| && rs[i].league == league;
    assert rs[i] in FilteredRecords(rs, "", AllResults, league);
  }

  /** The position of the first record with id `id`, as `records.find`. */
  function FindIndex(rs: seq<BetRecord>, id: string): (k: Option<nat>)
    ensures k.None? <==> FreshId(rs, id)
    ensures k.Some? ==> k.value < |rs| && rs[k.value].id == id
    ensures k.Some? ==> forall j | 0 <= j < k.value :: rs[j].id != id
  {
    if |rs| == 0 then None
    else if rs[0].id == id then Some(0)
    else
      match FindIndex(rs[1..], id)
      case None =>
        assert forall j | 1 <= j < |rs| :: rs[j] == rs[1..][j - 1];
        None
      case Some(k) => Some(k + 1)
  }

  /** The profit `handleResultUpdate` computes for a new result. */
  function SettleProfit(r: BetRecord, newResult: BetResult): real {
    if newResult == Win then r.stakeAmount * r.odds - r.stakeAmount
    else if newResult == Loss then -r.stakeAmount
    else 0.0
  }

  /** The history's own profit rule agrees with the shared one. */
  lemma SettleProfitIsNetProfit(r: BetRecord, newResult: BetResult)
    ensures SettleProfit(r, newResult) == NetProfit(newResult, r.stakeAmount, r.odds)
  {
  }

  function SettlePatch(newResult: BetResult, netProfit: real): Patch {
    EmptyPatch.(result := Some(newResult), netProfit := Some(netProfit))
  }

  /** `handleResultUpdate`: the profit is computed from the first record
      with the id, then result and profit are written to every record with
      that id. The balance after the bet is left as it was. An unknown id
      changes nothing. */
  function Settle(rs: seq<BetRecord>, id: string, newResult: BetResult): (rs': seq<BetRecord>)
    ensures |rs'| == |rs|
    ensures FreshId(rs, id) ==> rs' == rs
    ensures forall i | 0 <= i < |rs| && rs[i].id != id :: rs'[i] == rs[i]
    ensures forall i | 0 <= i < |rs| && rs[i].id == id ::
      rs'[i] == rs[i].(result := newResult, netProfit := rs'[i].netProfit)
    ensures forall i | 0 <= i < |rs| && rs[i].id == id ::
      var first := rs[FindIndex(rs, id).value];
      rs'[i].netProfit == NetProfit(newResult, first.stakeAmount, first.odds)
  {
    match FindIndex(rs, id)
    case None => rs
    case Some(k) =>
      SettleProfitIsNetProfit(rs[k], newResult);
      UpdateRecord(rs, id, SettlePatch(newResult, SettleProfit(rs[k], newResult)))
  }

  /** With unique ids, settling writes to the one record the profit was
      computed from. */
  lemma SettleUniqueId(rs: seq<BetRecord>, k: nat, newResult: BetResult)
    requires UniqueIds(rs) && k < |rs|
    ensures var rs' := Settle(rs, rs[k].id, newResult);
            && rs' == rs[k := rs[k].(result := newResult, netProfit := NetProfit(newResult, rs[k].stakeAmount, rs[k].odds))]
            && UniqueIds(rs')
  {
    var id := rs[k].id;
    assert FindIndex(rs, id) == Some(k);
  }

  /** The buttons shown in a row: "won" and "lost", for pending bets only. */
  function ActionsFor(r: BetRecord): (actions: seq<BetResult>)
    ensures |actions| > 0 <==> r.result == Pending
    ensures forall a | a in actions :: a == Win || a == Loss
  {
    if r.result == Pending then [Win, Loss] else []
  }

  /** Replacing one entry moves one count. */
  lemma OccurrencesUpdate(o: seq<BetResult>, k: nat, x: BetResult, y: BetResult)
    requires k < |o|
    ensures Occurrences(o[k := x], y) == Occurrences(o, y) - (if o[k] == y then 1 else 0) + (if x == y then 1 else 0)
  {
    assert o == o[..k] + [o[k]] + o[k + 1..];
    assert o[k := x] == o[..k] + [x] + o[k + 1..];
    OccurrencesAppend(o[..k] + [o[k]], o[k + 1..], y);
    OccurrencesAppend(o[..k], [o[k]], y);
    OccurrencesAppend(o[..k] + [x], o[k + 1..], y);
    OccurrencesAppend(o[..k], [x], y);
    assert Occurrences([o[k]], y) == Occurrences([], y) + (if o[k] == y then 1 else 0);
    assert Occurrences([x], y) == Occurrences([], y) + (if x == y then 1 else 0);
  }

  /** Replacing one record replaces one result. */
  lemma ResultsUpdate(rs: seq<BetRecord>, k: nat, r: BetRecord)
    requires k < |rs|
    ensures Results(rs[k := r]) == Results(rs)[k := r.result]
  {
    var o := Results(rs[k := r]);
    assert forall i | 0 <= i < |rs| :: o[i] == Results(rs)[k := r.result][i];
  }

  /** Pressing one of a pending row's buttons settles exactly one more bet,
      so the metrics count it. */
  lemma SettlingAddsOneSettledBet(rs: seq<BetRecord>, k: nat, action: BetResult)
    requires UniqueIds(rs) && k < |rs|
    requires action in ActionsFor(rs[k])
    ensures |Settled(Settle(rs, rs[k].id, action))| == |Settled(rs)| + 1
  {
    var updated := rs[k].(result := action, netProfit := NetProfit(action, rs[k].stakeAmount, rs[k].odds));
    var rs' := Settle(rs, rs[k].id, action);
    SettleUniqueId(rs, k, action);
    ResultsUpdate(rs, k, updated);
    OccurrencesUpdate(Results(rs), k, action, Pending);
    SettledCount(rs);
    SettledCount(rs');
  }

  /** A single pending bet of 100 at odds 2, recorded against a bankroll of
      1000, is settled as won: its profit becomes 100, but the balance
      after it, and so the current bankroll, stays at 1000. */
  lemma SettleLeavesBalanceStale()
    ensures var pending := BetRecord("a", "2024-01-01", "A vs B", "A", "B", "L", "1X2", 2.0, 100.0, 60.0, 20.0, 200.0,
                                     Pending, 0.0, 1000.0, Some(10.0));
            && RunningBalance(1000.0, [pending])
            && var settled := Settle([pending], "a", Win);
            && settled[0].netProfit == 100.0
            && CurrentBankroll(settled, 1000.0) == 1000.0
            && !RunningBalance(1000.0, settled)
  {
    var pending := BetRecord("a", "2024-01-01", "A vs B", "A", "B", "L", "1X2", 2.0, 100.0, 60.0, 20.0, 200.0,
                             Pending, 0.0, 1000.0, Some(10.0));
    var settled := Settle([pending], "a", Win);
    assert settled[0].bankrollAfter == 1000.0;
  }

  /** Recomputes every balance: the initial bankroll plus the profits of
      the bets up to and including this one. */
  function Rebalance(initialBankroll: real, rs: seq<BetRecord>): (rs': seq<BetRecord>)
    ensures |rs'| == |rs|
    ensures forall i | 0 <= i < |rs| ::
      rs'[i] == rs[i].(bankrollAfter := initialBankroll + Total(rs[..i + 1], Profit))
  {
    seq(|rs|, i requires 0 <= i < |rs| => rs[i].(bankrollAfter := initialBankroll + Total(rs[..i + 1], Profit)))
  }

  /** Rebalanced balances run. */
  lemma RebalanceRuns(initialBankroll: real, rs: seq<BetRecord>)
    ensures RunningBalance(initialBankroll, Rebalance(initialBankroll, rs))
  {
    var rs' := Rebalance(initialBankroll, rs);
    forall i | 0 <= i < |rs'|
      ensures rs'[i].bankrollAfter == BalanceBefore(initialBankroll, rs', i) + rs'[i].netProfit
    {
      ProfitSoFar(rs, i);
      assert rs'[i].netProfit == rs[i].netProfit;
      if i > 0 {
        assert rs'[i - 1].bankrollAfter == initialBankroll + Total(rs[..i], Profit);
      }
    }
  }

  /** A list whose balances already run changes nothing under rebalancing. */
  lemma RebalanceKeepsRunningBalance(initialBankroll: real, rs: seq<BetRecord>)
    requires RunningBalance(initialBankroll, rs)
    ensures Rebalance(initialBankroll, rs) == rs
  {
    forall i | 0 <= i < |rs|
      ensures Rebalance(initialBankroll, rs)[i] == rs[i]
    {
      RunningBalanceIsTotal(initialBankroll, rs, i);
    }
  }

  /** Settling followed by rebalancing: the balances, and so the current
      bankroll, take the new result into account. */
  function SettleAndRebalance(initialBankroll: real, rs: seq<BetRecord>, id: string, newResult: BetResult)
    : (rs': seq<BetRecord>)
    ensures |rs'| == |rs|
    ensures RunningBalance(initialBankroll, rs')
    ensures CurrentBankroll(rs', initialBankroll) == initialBankroll + Total(rs', Profit)
    ensures forall i | 0 <= i < |rs| ::
      rs'[i] == Settle(rs, id, newResult)[i].(bankrollAfter := rs'[i].bankrollAfter)
  {
    var rs' := Rebalance(initialBankroll, Settle(rs, id, newResult));
    RebalanceRuns(initialBankroll, Settle(rs, id, newResult));
    RunningBalanceTotal(initialBankroll, rs');
    rs'
  }

  /** The counterexample above, settled with rebalancing: the current
      bankroll becomes 1100. */
  lemma SettleAndRebalanceExample()
    ensures var pending := BetRecord("a", "2024-01-01", "A vs B", "A", "B", "L", "1X2", 2.0, 100.0, 60.0, 20.0, 200.0,
                                     Pending, 0.0, 1000.0, Some(10.0));
            CurrentBankroll(SettleAndRebalance(1000.0, [pending], "a", Win), 1000.0) == 1100.0
  {
    var pending := BetRecord("a", "2024-01-01", "A vs B", "A", "B", "L", "1X2", 2.0, 100.0, 60.0, 20.0, 200.0,
                             Pending, 0.0, 1000.0, Some(10.0));
    var rs' := SettleAndRebalance(1000.0, [pending], "a", Win);
    assert Settle([pending], "a", Win)[0].netProfit == 100.0;
    assert rs'[0].netProfit == 100.0;
  }
}
