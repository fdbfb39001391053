/** The bet form of src/components/BetForm.tsx: the live stake and value
    preview, the automatic event name, and the checks and arithmetic of a
    submission. The numeric inputs arrive already parsed: `None` is what
    `parseFloat` turns into NaN. */
module BetForm {
  import opened Wrappers
  import opened BettingTypes
  import opened StakeAdvisor
  import opened RecordStore

  /** The form's state. */
  datatype FormData = FormData(
    date: string,
    event: string,
    homeTeam: string,
    awayTeam: string,
    league: string,
    betType: string,
    odds: Option<real>,
    stakeAmount: Option<real>,
    estimatedProbability: Option<real>,
    result: BetResult)

  /** The values the form shows next to the inputs. */
  datatype Preview = Preview(
    suggestedStake: real,
    expectedValue: real,
    potentialReturn: real,
    kellyPercentage: real,
    isValueBet: bool)

  const InitialPreview := Preview(0.0, 0.0, 0.0, 0.0, false)

  /** The characters `String.prototype.trim` removes (the ASCII ones and four
      common non-ASCII ones). */
  predicate IsSpace(c: char) {
    c == ' ' || c == '\t' || c == '\n' || c == '\r' || c == '\U{B}' || c == '\U{C}'
    || c == '\U{A0}' || c == '\U{FEFF}' || c == '\U{2028}' || c == '\U{2029}'
  }

  /** `!s.trim()`: nothing but white space. */
  predicate Blank(s: string) {
    forall i | 0 <= i < |s| :: IsSpace(s[i])
  }

  /** The recompute effect: with `parseFloat(..) || 0` odds and probability
      both positive, everything is recomputed from the inputs; otherwise the
      previous values stay on screen. */
  function LivePreview(odds: Option<real>, estimatedProbability: Option<real>, stakeAmount: Option<real>,
                       config: BankrollManagement, previous: Preview): (p: Preview)
    ensures !(odds.GetOr(0.0) > 0.0 && estimatedProbability.GetOr(0.0) > 0.0) ==> p == previous
    ensures odds.GetOr(0.0) > 0.0 && estimatedProbability.GetOr(0.0) > 0.0 ==>
      && p.expectedValue == ExpectedValue(odds.value, estimatedProbability.value, stakeAmount.GetOr(0.0))
      && p.potentialReturn == PotentialReturn(stakeAmount.GetOr(0.0), odds.value)
      && p.kellyPercentage >= 0.0
      && p.kellyPercentage == KellyStake(odds.value, estimatedProbability.value, config.currentBankroll).kellyPercentage
      && p.suggestedStake == SuggestedStake(config.stakeMethod, config.currentBankroll, config.fixedAmount,
                                            config.percentage, odds, estimatedProbability)
  {
    var o := odds.GetOr(0.0);
    var prob := estimatedProbability.GetOr(0.0);
    var stake := stakeAmount.GetOr(0.0);
    if o > 0.0 && prob > 0.0 then
      var kelly := KellyStake(o, prob, config.currentBankroll);
      Preview(
        SuggestedStake(config.stakeMethod, config.currentBankroll, config.fixedAmount, config.percentage, odds, estimatedProbability),
        ExpectedValue(o, prob, stake),
        PotentialReturn(stake, o),
        kelly.kellyPercentage,
        kelly.isValueBet)
    else
      previous
  }

  /** With the guard met, the preview flags a value bet exactly when the
      odds are above even and the estimated chance beats the price. */
  lemma PreviewFlagsValueBets(odds: real, estimatedProbability: real, stakeAmount: Option<real>,
                              config: BankrollManagement, previous: Preview)
    requires odds > 0.0 && estimatedProbability > 0.0
    ensures var p := LivePreview(Some(odds), Some(estimatedProbability), stakeAmount, config, previous);
            p.isValueBet <==> odds > 1.0 && estimatedProbability / 100.0 * odds > 1.0
  {
  }

  /** A positive stake on a preview shows positive expected value exactly
      when the preview marks a value bet, once the odds are above even. */
  lemma PreviewValueAgreesWithKelly(odds: real, estimatedProbability: real, stake: real,
                                    config: BankrollManagement, previous: Preview)
    requires odds > 1.0 && estimatedProbability > 0.0 && stake > 0.0
    ensures var p := LivePreview(Some(odds), Some(estimatedProbability), Some(stake), config, previous);
            p.isValueBet <==> p.expectedValue > 0.0
  {
    ExpectedValueSign(odds, estimatedProbability, stake);
  }

  /** `"<home> vs <away>"`. */
  function EventName(homeTeam: string, awayTeam: string): (e: string)
    ensures |e| == |homeTeam| + |awayTeam| + 4
    ensures e[..|homeTeam|] == homeTeam
    ensures e[|homeTeam|..|homeTeam| + 4] == " vs "
    ensures e[|homeTeam| + 4..] == awayTeam
  {
    homeTeam + " vs " + awayTeam
  }

  /** The event effect: once both team names are non-empty, the event
      becomes their pairing; before that it is left as typed. */
  function WithEventName(form: FormData): (form': FormData)
    ensures form'.homeTeam == form.homeTeam && form'.awayTeam == form.awayTeam
    ensures form.homeTeam != [] && form.awayTeam != [] ==> form'.event == EventName(form.homeTeam, form.awayTeam)
    ensures form.homeTeam == [] || form.awayTeam == [] ==> form' == form
    ensures form' == form.(event := form'.event)
  {
    if form.homeTeam != [] && form.awayTeam != [] then
      form.(event := EventName(form.homeTeam, form.awayTeam))
    else
      form
  }

  /** Running the event effect again changes nothing. */
  lemma WithEventNameIdempotent(form: FormData)
    ensures WithEventName(WithEventName(form)) == WithEventName(form)
  {
  }

  /** The submission checks, in the order they are made. */
  datatype SubmitError =
    | MissingHomeTeam
    | MissingAwayTeam
    | MissingLeague
    | MissingBetType
    | InvalidOdds
    | InvalidStake
    | InvalidProbability

  /** The position of a check in the order. */
  function Rank(e: SubmitError): nat {
    match e
    case MissingHomeTeam => 0
    case MissingAwayTeam => 1
    case MissingLeague => 2
    case MissingBetType => 3
    case InvalidOdds => 4
    case InvalidStake => 5
    case InvalidProbability => 6
  }

  /** Whether the form fails the check `e`, each check on its own. Team names
      and league are trimmed, the bet type is not; NaN fails every number
      check. */
  predicate Violates(form: FormData, e: SubmitError) {
    match e
    case MissingHomeTeam => Blank(form.homeTeam)
    case MissingAwayTeam => Blank(form.awayTeam)
    case MissingLeague => Blank(form.league)
    case MissingBetType => form.betType == []
    case InvalidOdds => form.odds.None? || form.odds.value <= 1.0
    case InvalidStake => form.stakeAmount.None? || form.stakeAmount.value <= 0.0
    case InvalidProbability =>
      form.estimatedProbability.None? || form.estimatedProbability.value <= 0.0 || form.estimatedProbability.value >= 100.0
  }

  /** The chain of early returns in `handleSubmit`: the first failing check,
      if any. */
  function FirstViolation(form: FormData): (err: Option<SubmitError>)
    ensures err.Some? ==> Violates(form, err.value)
    ensures err == None <==> forall e: SubmitError :: !Violates(form, e)
    ensures err.Some? ==> forall e: SubmitError | Rank(e) < Rank(err.value) :: !Violates(form, e)
  {
    if Blank(form.homeTeam) then assert Violates(form, MissingHomeTeam); Some(MissingHomeTeam)
    else if Blank(form.awayTeam) then assert Violates(form, MissingAwayTeam); Some(MissingAwayTeam)
    else if Blank(form.league) then assert Violates(form, MissingLeague); Some(MissingLeague)
    else if form.betType == [] then assert Violates(form, MissingBetType); Some(MissingBetType)
    else if form.odds.None? || form.odds.value <= 1.0 then assert Violates(form, InvalidOdds); Some(InvalidOdds)
    else if form.stakeAmount.None? || form.stakeAmount.value <= 0.0 then
      assert Violates(form, InvalidStake); Some(InvalidStake)
    else if form.estimatedProbability.None? || form.estimatedProbability.value <= 0.0
         || form.estimatedProbability.value >= 100.0 then
      assert Violates(form, InvalidProbability); Some(InvalidProbability)
    else None
  }

  /** The record a valid form produces against the current bankroll; the id
      is stamped by the store. The expected value is the one on screen, not
      recomputed. The share of the bankroll is undefined when the bankroll
      is zero. */
  function BuildRecord(form: FormData, preview: Preview, currentBankroll: real): (r: Result<BetRecord, SubmitError>)
    ensures r.Failure? <==> FirstViolation(form).Some?
    ensures r.Failure? ==> r.error == FirstViolation(form).value
    ensures r.Success? ==>
      && var odds := form.odds.value;
      && var stake := form.stakeAmount.value;
      && var rec := r.value;
      && odds > 1.0 && stake > 0.0 && 0.0 < rec.estimatedProbability < 100.0
      && rec.odds == odds && rec.stakeAmount == stake && rec.estimatedProbability == form.estimatedProbability.value
      && rec.date == form.date && rec.event == form.event && rec.homeTeam == form.homeTeam
      && rec.awayTeam == form.awayTeam && rec.league == form.league && rec.betType == form.betType
      && rec.result == form.result
      && rec.expectedValue == preview.expectedValue
      && rec.potentialReturn == stake * odds
      && rec.netProfit == NetProfit(form.result, stake, odds)
      && rec.bankrollAfter == currentBankroll + rec.netProfit
      && (currentBankroll == 0.0 <==> rec.percentageOfBankroll.None?)
      && (rec.percentageOfBankroll.Some? ==> rec.percentageOfBankroll.value * currentBankroll == 100.0 * stake)
  {
    match FirstViolation(form)
    case Some(e) => Failure(e)
    case None =>
      var odds := form.odds.value;
      var stake := form.stakeAmount.value;
      var netProfit := NetProfit(form.result, stake, odds);
      Success(BetRecord(
        "", form.date, form.event, form.homeTeam, form.awayTeam, form.league, form.betType,
        odds, stake, form.estimatedProbability.value, preview.expectedValue,
        PotentialReturn(stake, odds), form.result, netProfit, currentBankroll + netProfit,
        if currentBankroll == 0.0 then None else Some(stake / currentBankroll * 100.0)))
  }

  /** `handleSubmit`: a valid form is added to the records under the fresh
      id `id`; an invalid one leaves them alone and reports the first
      failing check. */
  function Submit(records: seq<BetRecord>, config: BankrollManagement, form: FormData, preview: Preview, id: string)
    : (r: Result<seq<BetRecord>, SubmitError>)
    ensures r.Failure? <==> FirstViolation(form).Some?
    ensures r.Success? ==> |r.value| == |records| + 1 && r.value[..|records|] == records
    ensures r.Success? ==> r.value[|records|] == BuildRecord(form, preview, config.currentBankroll).value.(id := id)
  {
    match BuildRecord(form, preview, config.currentBankroll)
    case Failure(e) => Failure(e)
    case Success(rec) => Success(AddRecord(records, rec, id))
  }

  /** When the configuration's current bankroll is in step with the records,
      a submission keeps the running balance, and (after the store's
      refresh) the new current bankroll is the old one plus the bet's net
      profit: unchanged for a pending bet. */
  lemma SubmitKeepsRunningBalance(records: seq<BetRecord>, config: BankrollManagement, form: FormData,
                                  preview: Preview, id: string)
    requires RunningBalance(config.initialBankroll, records)
    requires config.currentBankroll == CurrentBankroll(records, config.initialBankroll)
    requires Submit(records, config, form, preview, id).Success?
    ensures var rs' := Submit(records, config, form, preview, id).value;
            && RunningBalance(config.initialBankroll, rs')
            && CurrentBankroll(rs', config.initialBankroll) == config.currentBankroll + rs'[|records|].netProfit
            && (form.result == Pending ==> CurrentBankroll(rs', config.initialBankroll) == config.currentBankroll)
  {
    var rs' := Submit(records, config, form, preview, id).value;
    forall i | 0 <= i < |rs'|
      ensures rs'[i].bankrollAfter == BalanceBefore(config.initialBankroll, rs', i) + rs'[i].netProfit
    {
      if i < |records| {
        assert rs'[i] == records[i];
        if i > 0 {
          assert rs'[i - 1] == records[i - 1];
        }
      } else if i > 0 {
        assert rs'[i - 1] == records[i - 1];
      }
    }
  }

  /** The record keeps the expected value of the live preview: it matches
      the bet's own inputs only when the preview was computed from them. */
  lemma SubmittedExpectedValue(form: FormData, config: BankrollManagement, previous: Preview)
    requires FirstViolation(form).None?
    ensures var p := LivePreview(form.odds, form.estimatedProbability, form.stakeAmount, config, previous);
            BuildRecord(form, p, config.currentBankroll).value.expectedValue
              == ExpectedValue(form.odds.value, form.estimatedProbability.value, form.stakeAmount.value)
  {
  }

  /** A form with the required text fields filled and odds 2.5, stake 100
      and probability 50 is accepted; the same form with odds 1 is turned
      down for its odds. */
  lemma SubmitExamples()
    ensures var form := FormData("2024-01-01", "A vs B", "A", "B", "L", "1X2", Some(2.5), Some(100.0), Some(50.0), Win);
            && BuildRecord(form, InitialPreview, 1000.0).Success?
            && BuildRecord(form, InitialPreview, 1000.0).value.bankrollAfter == 1150.0
            && BuildRecord(form, InitialPreview, 1000.0).value.percentageOfBankroll == Some(10.0)
            && BuildRecord(form.(odds := Some(1.0)), InitialPreview, 1000.0) == Failure(InvalidOdds)
            && BuildRecord(form.(homeTeam := " "), InitialPreview, 1000.0) == Failure(MissingHomeTeam)
  {
    var form := FormData("2024-01-01", "A vs B", "A", "B", "L", "1X2", Some(2.5), Some(100.0), Some(50.0), Win);
    assert !Blank(form.homeTeam) by { assert !IsSpace(form.homeTeam[0]); }
    assert !Blank(form.awayTeam) by { assert !IsSpace(form.awayTeam[0]); }
    assert !Blank(form.league) by { assert !IsSpace(form.league[0]); }
    assert Blank(" ");
  }
}
