/** The record store of src/contexts/BettingContext.tsx: the list of bets,
    the bankroll configuration and the published metrics, with the
    operations the components call. The React effect that runs whenever the
    records change is the explicit `Refresh`. */
module RecordStore {
  import opened Wrappers
  import opened Seqs
  import opened BettingTypes
  import opened Aggregates
  import opened PerformanceAggregator
  import StakeAdvisor

  /** Percentage staking at 3% of a 1000 bankroll. */
  const DefaultConfig := BankrollManagement(Percentage, None, Some(3.0), 1000.0, 1000.0)

  datatype Store = Store(records: seq<BetRecord>, config: BankrollManagement, metrics: PerformanceMetrics)

  const InitialStore := Store([], DefaultConfig, EmptyMetrics)

  /** No two records share an id. */
  predicate UniqueIds(rs: seq<BetRecord>) {
    forall i, j | 0 <= i < j < |rs| :: rs[i].id != rs[j].id
  }

  /** No record has id `id`. */
  predicate FreshId(rs: seq<BetRecord>, id: string) {
    forall i | 0 <= i < |rs| :: rs[i].id != id
  }

  /** `addRecord`: the new record, stamped with `id`, goes to the end. The
      id stands for `crypto.randomUUID()`. */
  function AddRecord(rs: seq<BetRecord>, record: BetRecord, id: string): (rs': seq<BetRecord>)
    ensures |rs'| == |rs| + 1
    ensures rs'[..|rs|] == rs
    ensures rs'[|rs|] == record.(id := id)
    ensures UniqueIds(rs) && FreshId(rs, id) ==> UniqueIds(rs')
  {
    rs + [record.(id := id)]
  }

  /** `Partial<BettingRecord>`: each field either replaces the record's or
      is absent. */
  datatype Patch = Patch(
    id: Option<string>,
    date: Option<string>,
    event: Option<string>,
    homeTeam: Option<string>,
    awayTeam: Option<string>,
    league: Option<string>,
    betType: Option<string>,
    odds: Option<real>,
    stakeAmount: Option<real>,
    estimatedProbability: Option<real>,
    expectedValue: Option<real>,
    potentialReturn: Option<real>,
    result: Option<BetResult>,
    netProfit: Option<real>,
    bankrollAfter: Option<real>,
    percentageOfBankroll: Option<Option<real>>)

  const EmptyPatch := Patch(None, None, None, None, None, None, None, None, None, None, None, None, None, None, None, None)

  /** `{ ...record, ...updates }`. */
  function Overlay(r: BetRecord, p: Patch): BetRecord {
    BetRecord(
      p.id.GetOr(r.id),
      p.date.GetOr(r.date),
      p.event.GetOr(r.event),
      p.homeTeam.GetOr(r.homeTeam),
      p.awayTeam.GetOr(r.awayTeam),
      p.league.GetOr(r.league),
      p.betType.GetOr(r.betType),
      p.odds.GetOr(r.odds),
      p.stakeAmount.GetOr(r.stakeAmount),
      p.estimatedProbability.GetOr(r.estimatedProbability),
      p.expectedValue.GetOr(r.expectedValue),
      p.potentialReturn.GetOr(r.potentialReturn),
      p.result.GetOr(r.result),
      p.netProfit.GetOr(r.netProfit),
      p.bankrollAfter.GetOr(r.bankrollAfter),
      p.percentageOfBankroll.GetOr(r.percentageOfBankroll))
  }

  /** Overlaying a patch twice is overlaying it once; the empty patch
      changes nothing. */
  lemma OverlayIdempotent(r: BetRecord, p: Patch)
    ensures Overlay(Overlay(r, p), p) == Overlay(r, p)
    ensures Overlay(r, EmptyPatch) == r
  {
  }

  /** `updateRecord`: every record with id `id` gets the patch; the others,
      the length and the order stay. */
  function UpdateRecord(rs: seq<BetRecord>, id: string, updates: Patch): (rs': seq<BetRecord>)
    ensures |rs'| == |rs|
    ensures forall i | 0 <= i < |rs| :: rs'[i] == if rs[i].id == id then Overlay(rs[i], updates) else rs[i]
  {
    seq(|rs|, i requires 0 <= i < |rs| => if rs[i].id == id then Overlay(rs[i], updates) else rs[i])
  }

  /** Updating an id that no record carries changes nothing. */
  lemma UpdateUnknownId(rs: seq<BetRecord>, id: string, updates: Patch)
    requires FreshId(rs, id)
    ensures UpdateRecord(rs, id, updates) == rs
  {
  }

  /** A patch that keeps the id can be applied twice with the effect of
      once, and keeps the ids unique. */
  lemma UpdateIdempotent(rs: seq<BetRecord>, id: string, updates: Patch)
    requires updates.id == None || updates.id == Some(id)
    ensures UpdateRecord(UpdateRecord(rs, id, updates), id, updates) == UpdateRecord(rs, id, updates)
    ensures UniqueIds(rs) ==> UniqueIds(UpdateRecord(rs, id, updates))
  {
    var once := UpdateRecord(rs, id, updates);
    forall i | 0 <= i < |rs|
      ensures once[i].id == rs[i].id
      ensures UpdateRecord(once, id, updates)[i] == once[i]
    {
      OverlayIdempotent(rs[i], updates);
    }
  }

  /** How many records carry id `id`. */
  function CountId(rs: seq<BetRecord>, id: string): nat {
    if |rs| == 0 then 0
    else CountId(rs[..|rs| - 1], id) + (if rs[|rs| - 1].id == id then 1 else 0)
  }

  /** `deleteRecord`: drop every record with id `id`. Exactly the records
      with that id go: the result is an order-preserving subsequence that
      is shorter by their number and keeps every other record. */
  function DeleteRecord(rs: seq<BetRecord>, id: string): (rs': seq<BetRecord>)
    ensures FreshId(rs', id)
    ensures IsSubsequence(rs', rs)
    ensures forall i | 0 <= i < |rs| && rs[i].id != id :: rs[i] in rs'
    ensures |rs'| + CountId(rs, id) == |rs|
  {
    if |rs| == 0 then []
    else
      var prefix := rs[..|rs| - 1];
      var last := rs[|rs| - 1];
      var kept := DeleteRecord(prefix, id);
      assert forall i | 0 <= i < |prefix| :: prefix[i] == rs[i];
      if last.id == id then
        assert IsSubsequence(kept, rs);
        kept
      else
        assert (kept + [last])[..|kept|] == kept;
        kept + [last]
  }

  /** Deleting the id of a record just added gives the list back. */
  lemma DeleteUndoesAdd(rs: seq<BetRecord>, record: BetRecord, id: string)
    requires FreshId(rs, id)
    ensures DeleteRecord(AddRecord(rs, record, id), id) == rs
  {
    DeleteUnknownId(rs, id);
    assert AddRecord(rs, record, id)[..|rs|] == rs;
  }

  /** Deleting an id that no record carries changes nothing. */
  lemma {:induction false} DeleteUnknownId(rs: seq<BetRecord>, id: string)
    requires FreshId(rs, id)
    ensures DeleteRecord(rs, id) == rs
  {
    if |rs| > 0 {
      FreshIdPrefix(rs, id);
      DeleteUnknownId(rs[..|rs| - 1], id);
      DeleteKeepsLast(rs, id);
      SplitLast(rs);
    }
  }

  lemma FreshIdPrefix(rs: seq<BetRecord>, id: string)
    requires FreshId(rs, id) && |rs| > 0
    ensures FreshId(rs[..|rs| - 1], id)
  {
  }

  /** A last record with another id survives deletion, at the end. */
  lemma DeleteKeepsLast(rs: seq<BetRecord>, id: string)
    requires |rs| > 0 && rs[|rs| - 1].id != id
    ensures DeleteRecord(rs, id) == DeleteRecord(rs[..|rs| - 1], id) + [rs[|rs| - 1]]
  {
  }

  /** The balance after the last bet, or the initial bankroll. */
  function CurrentBankroll(rs: seq<BetRecord>, initialBankroll: real): real {
    if |rs| > 0 then rs[|rs| - 1].bankrollAfter else initialBankroll
  }

  /** Each record's balance is the previous balance (the initial bankroll
      for the first) plus its net profit. */
  predicate RunningBalance(initialBankroll: real, rs: seq<BetRecord>) {
    forall i | 0 <= i < |rs| :: rs[i].bankrollAfter == BalanceBefore(initialBankroll, rs, i) + rs[i].netProfit
  }

  /** The balance before bet `i`. */
  function BalanceBefore(initialBankroll: real, rs: seq<BetRecord>, i: nat): real
    requires i < |rs|
  {
    if i == 0 then initialBankroll else rs[i - 1].bankrollAfter
  }

  /** Under a running balance the current bankroll is the initial one plus
      all net profit. */
  lemma RunningBalanceTotal(initialBankroll: real, rs: seq<BetRecord>)
    requires RunningBalance(initialBankroll, rs)
    ensures CurrentBankroll(rs, initialBankroll) == initialBankroll + Total(rs, Profit)
  {
    if |rs| > 0 {
      RunningBalanceIsTotal(initialBankroll, rs, |rs| - 1);
      assert rs[..|rs|] == rs;
    }
  }

  /** The profits up to bet `i` are those before it plus its own. */
  lemma ProfitSoFar(rs: seq<BetRecord>, i: nat)
    requires i < |rs|
    ensures Total(rs[..i + 1], Profit) == Total(rs[..i], Profit) + rs[i].netProfit
    ensures i == 0 ==> Total(rs[..i], Profit) == 0.0
  {
    assert rs[..i + 1][..i] == rs[..i];
  }

  /** Under a running balance each balance is the initial bankroll plus the
      profits so far. */
  lemma {:induction false} RunningBalanceIsTotal(initialBankroll: real, rs: seq<BetRecord>, i: nat)
    requires RunningBalance(initialBankroll, rs) && i < |rs|
    ensures rs[i].bankrollAfter == initialBankroll + Total(rs[..i + 1], Profit)
  {
    ProfitSoFar(rs, i);
    if i > 0 {
      RunningBalanceIsTotal(initialBankroll, rs, i - 1);
    }
  }

  /** The effect on the records: republish the metrics and take the current
      bankroll from the last record; the rest of the configuration stays. */
  function Refresh(s: Store): (s': Store)
    ensures s'.records == s.records
    ensures s'.config.stakeMethod == s.config.stakeMethod && s'.config.initialBankroll == s.config.initialBankroll
    ensures s'.config.fixedAmount == s.config.fixedAmount && s'.config.percentage == s.config.percentage
    ensures |s.records| == 0 ==> s'.config.currentBankroll == s.config.initialBankroll
    ensures |s.records| > 0 ==> s'.config.currentBankroll == s.records[|s.records| - 1].bankrollAfter
  {
    Store(s.records, s.config.(currentBankroll := CurrentBankroll(s.records, s.config.initialBankroll)), Metrics(s.records))
  }

  /** The published state agrees with the records. */
  predicate Consistent(s: Store) {
    && s.metrics == Metrics(s.records)
    && s.config.currentBankroll == CurrentBankroll(s.records, s.config.initialBankroll)
  }

  /** The initial store is consistent, and every refresh makes a store
      consistent. */
  lemma RefreshConsistent(s: Store)
    ensures Consistent(InitialStore)
    ensures Consistent(Refresh(s))
  {
  }

  /** `updateBankrollManagement`: the configuration is replaced wholesale. */
  function UpdateBankrollManagement(s: Store, management: BankrollManagement): (s': Store)
    ensures s'.config == management
    ensures s'.records == s.records && s'.metrics == s.metrics
  {
    s.(config := management)
  }

  /** The default configuration stakes 30 out of its 1000 bankroll. */
  lemma DefaultConfigStake()
    ensures DefaultConfig.stakeMethod == Percentage && DefaultConfig.percentage == Some(3.0)
    ensures DefaultConfig.initialBankroll == DefaultConfig.currentBankroll == 1000.0
    ensures StakeAdvisorStake(DefaultConfig) == 30.0
  {
  }

  /** The stake the advisor suggests for `config` when the market is
      unknown. */
  function StakeAdvisorStake(config: BankrollManagement): real {
    StakeAdvisor.SuggestedStake(config.stakeMethod, config.currentBankroll, config.fixedAmount, config.percentage, None, None)
  }
}
