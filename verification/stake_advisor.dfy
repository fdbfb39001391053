/** The stake advisor of src/utils/bettingCalculations.ts: expected value,
    the Kelly criterion, the stake suggested by the bankroll method, the
    potential return and the profit a settled bet realises.

    Odds are decimal odds (2.0 pays back twice the stake), probabilities are
    percentages in (0, 100), money is `real`.
 */
module StakeAdvisor {
  import opened Wrappers
  import opened BettingTypes

  function Max(a: real, b: real): real {
    if a >= b then a else b
  }

  /** JavaScript truthiness of an optional number: present and non-zero. */
  predicate Truthy(x: Option<real>) {
    x.Some? && x.value != 0.0
  }

  /** Multiplying by a positive number keeps the sign. */
  lemma MulSign(x: real, y: real)
    requires y > 0.0
    ensures x > 0.0 <==> x * y > 0.0
    ensures x == 0.0 <==> x * y == 0.0
  {
  }

  /** Probability-weighted payout minus the stake. */
  function ExpectedValue(odds: real, estimatedProbability: real, stake: real): (ev: real)
    ensures ev == stake * (estimatedProbability / 100.0 * odds - 1.0)
  {
    var probability := estimatedProbability / 100.0;
    probability * odds * stake - stake
  }

  /** The expected value is linear in the stake. */
  lemma ExpectedValueLinear(odds: real, estimatedProbability: real, s1: real, s2: real, k: real)
    ensures ExpectedValue(odds, estimatedProbability, s1 + s2)
         == ExpectedValue(odds, estimatedProbability, s1) + ExpectedValue(odds, estimatedProbability, s2)
    ensures ExpectedValue(odds, estimatedProbability, k * s1) == k * ExpectedValue(odds, estimatedProbability, s1)
    ensures ExpectedValue(odds, estimatedProbability, 0.0) == 0.0
  {
    var e := estimatedProbability / 100.0 * odds - 1.0;
    assert (s1 + s2) * e == s1 * e + s2 * e;
    assert (k * s1) * e == k * (s1 * e);
  }

  /** For a positive stake the bet has positive expected value exactly when
      the probability-weighted odds exceed one. */
  lemma ExpectedValueSign(odds: real, estimatedProbability: real, stake: real)
    requires stake > 0.0
    ensures ExpectedValue(odds, estimatedProbability, stake) > 0.0 <==> estimatedProbability / 100.0 * odds > 1.0
    ensures ExpectedValue(odds, estimatedProbability, stake) == 0.0 <==> estimatedProbability / 100.0 * odds == 1.0
  {
    var e := estimatedProbability / 100.0 * odds - 1.0;
    MulSign(e, stake);
    assert stake * e == e * stake;
  }

  /** The Kelly fraction f = (b·p − q) / b with b = odds − 1, p the
      probability as a fraction and q = 1 − p. Undefined at odds 1. */
  function KellyFraction(odds: real, estimatedProbability: real): (f: real)
    requires odds != 1.0
    ensures f * (odds - 1.0) == estimatedProbability / 100.0 * odds - 1.0
  {
    var p := estimatedProbability / 100.0;
    var q := 1.0 - p;
    var b := odds - 1.0;
    (b * p - q) / b
  }

  /** Above even odds the Kelly fraction is positive exactly when the
      expected value per unit stake is. */
  lemma KellyFractionSign(odds: real, estimatedProbability: real)
    requires odds > 1.0
    ensures KellyFraction(odds, estimatedProbability) > 0.0 <==> estimatedProbability / 100.0 * odds > 1.0
  {
    var f := KellyFraction(odds, estimatedProbability);
    var edge := estimatedProbability / 100.0 * odds - 1.0;
    assert f * (odds - 1.0) == edge;
    MulSign(f, odds - 1.0);
    assert f > 0.0 <==> edge > 0.0;
  }

  /** `calculateKellyStake` exactly as written: the formula is applied to
      any odds other than 1, so odds below 1 make b negative. */
  function KellyStakeAsWritten(odds: real, estimatedProbability: real, currentBankroll: real): (k: KellyCalculation)
    requires odds != 1.0
    ensures k.isValueBet <==> KellyFraction(odds, estimatedProbability) > 0.0
    ensures k.kellyPercentage >= 0.0 && k.recommendedStake >= 0.0
  {
    var f := KellyFraction(odds, estimatedProbability);
    var isValueBet := f > 0.0;
    var recommendedStake := if isValueBet then currentBankroll * f else 0.0;
    KellyCalculation(Max(0.0, recommendedStake), Max(0.0, f * 100.0), isValueBet)
  }

  /** At odds 0.5 a win returns half the stake, so every bet loses money in
      expectation, yet the formula as written reports a value bet with a
      Kelly percentage of 140 and a stake larger than the bankroll. */
  lemma KellyStakeAsWrittenBelowEvenOdds()
    ensures ExpectedValue(0.5, 60.0, 100.0) < 0.0
    ensures KellyStakeAsWritten(0.5, 60.0, 1000.0) == KellyCalculation(1400.0, 140.0, true)
  {
    assert KellyFraction(0.5, 60.0) == 1.4;
  }

  /** The Kelly criterion with odds at or below 1 (no possible profit, and
      a division by zero at exactly 1) treated as no edge. */
  function KellyStake(odds: real, estimatedProbability: real, currentBankroll: real): (k: KellyCalculation)
    ensures k.recommendedStake >= 0.0 && k.kellyPercentage >= 0.0
    ensures k.isValueBet <==> odds > 1.0 && estimatedProbability / 100.0 * odds > 1.0
    ensures k.isValueBet ==> k.kellyPercentage == 100.0 * KellyFraction(odds, estimatedProbability)
    ensures k.isValueBet ==> k.recommendedStake == Max(0.0, currentBankroll * KellyFraction(odds, estimatedProbability))
    ensures !k.isValueBet ==> k.kellyPercentage == 0.0 && k.recommendedStake == 0.0
  {
    if odds <= 1.0 then KellyCalculation(0.0, 0.0, false)
    else
      KellyFractionSign(odds, estimatedProbability);
      KellyStakeAsWritten(odds, estimatedProbability, currentBankroll)
  }

  /** Above even odds the corrected criterion is the formula as written. */
  lemma KellyStakeAgreesAboveEvenOdds(odds: real, estimatedProbability: real, currentBankroll: real)
    requires odds > 1.0
    ensures KellyStake(odds, estimatedProbability, currentBankroll)
         == KellyStakeAsWritten(odds, estimatedProbability, currentBankroll)
  {
  }

  /** A bet is a value bet exactly when its expected value is positive. */
  lemma KellyValueBetIffPositiveEV(odds: real, estimatedProbability: real, currentBankroll: real, stake: real)
    requires odds > 1.0 && stake > 0.0
    ensures KellyStake(odds, estimatedProbability, currentBankroll).isValueBet
        <==> ExpectedValue(odds, estimatedProbability, stake) > 0.0
  {
    ExpectedValueSign(odds, estimatedProbability, stake);
  }

  /** Worked examples at even money. */
  lemma KellyStakeExamples(currentBankroll: real)
    requires currentBankroll >= 0.0
    ensures KellyStake(2.0, 60.0, currentBankroll) == KellyCalculation(0.2 * currentBankroll, 20.0, true)
    ensures KellyStake(2.0, 40.0, currentBankroll) == KellyCalculation(0.0, 0.0, false)
  {
    assert KellyFraction(2.0, 60.0) == 0.2;
  }

  /** A fraction in [0, 1] of a non-negative amount lies between 0 and the
      amount. */
  lemma ScaleWithinBounds(x: real, fraction: real)
    ensures x >= 0.0 && 0.0 <= fraction <= 1.0 ==> 0.0 <= x * fraction <= x
  {
    if x >= 0.0 && 0.0 <= fraction <= 1.0 {
      assert x * (1.0 - fraction) >= 0.0;
    }
  }

  /** Taking `pct` percent of `x` and scaling back by 100 gives `x * pct`. */
  lemma PercentOf(x: real, pct: real)
    ensures 100.0 * (x * (pct / 100.0)) == x * pct
  {
  }

  /** `calculateSuggestedStake`: the stake proposed by the bankroll method.
      Optional arguments follow JavaScript truthiness (`x || 0`). The Kelly
      branch uses the corrected criterion `KellyStake`; the code as written
      is `SuggestedStakeAsWritten`. */
  function SuggestedStake(stakeMethod: Method, currentBankroll: real, fixedAmount: Option<real>,
                          percentage: Option<real>, odds: Option<real>, estimatedProbability: Option<real>): (s: real)
    ensures stakeMethod == Fixed ==> s == fixedAmount.GetOr(0.0)
    ensures stakeMethod == Percentage ==> 100.0 * s == currentBankroll * percentage.GetOr(0.0)
    ensures (stakeMethod == Percentage && currentBankroll >= 0.0 && 0.0 <= percentage.GetOr(0.0) <= 100.0)
            ==> 0.0 <= s <= currentBankroll
    ensures stakeMethod == Kelly ==> s >= 0.0
    ensures stakeMethod == Kelly && Truthy(odds) && Truthy(estimatedProbability)
            ==> s == KellyStake(odds.value, estimatedProbability.value, currentBankroll).recommendedStake
    ensures stakeMethod == Kelly && !(Truthy(odds) && Truthy(estimatedProbability)) ==> s == 0.0
  {
    match stakeMethod
    case Fixed => fixedAmount.GetOr(0.0)
    case Percentage =>
      var fraction := percentage.GetOr(0.0) / 100.0;
      ScaleWithinBounds(currentBankroll, fraction);
      PercentOf(currentBankroll, percentage.GetOr(0.0));
      currentBankroll * fraction
    case Kelly =>
      if Truthy(odds) && Truthy(estimatedProbability) then
        KellyStake(odds.value, estimatedProbability.value, currentBankroll).recommendedStake
      else 0.0
  }

  /** The fixed method ignores the bankroll and the market. */
  lemma FixedStakeIgnoresMarket(fixedAmount: Option<real>, b1: real, b2: real, p1: Option<real>, p2: Option<real>,
                                o1: Option<real>, o2: Option<real>, e1: Option<real>, e2: Option<real>)
    ensures SuggestedStake(Fixed, b1, fixedAmount, p1, o1, e1) == SuggestedStake(Fixed, b2, fixedAmount, p2, o2, e2)
    ensures fixedAmount == Some(50.0) ==> SuggestedStake(Fixed, b1, fixedAmount, p1, o1, e1) == 50.0
  {
  }

  /** The percentage method scales with the bankroll: 3% of 1000 is 30. */
  lemma PercentageStakeExample(fixedAmount: Option<real>, odds: Option<real>, estimatedProbability: Option<real>)
    ensures SuggestedStake(Percentage, 1000.0, fixedAmount, Some(3.0), odds, estimatedProbability) == 30.0
  {
  }

  /** The Kelly method stakes exactly the Kelly stake once odds and
      probability are given: a positive amount precisely for a bet above
      even odds with an edge and a positive bankroll. */
  lemma KellyMethodStake(currentBankroll: real, fixedAmount: Option<real>, percentage: Option<real>,
                         odds: Option<real>, estimatedProbability: Option<real>)
    requires Truthy(odds) && Truthy(estimatedProbability)
    ensures var s := SuggestedStake(Kelly, currentBankroll, fixedAmount, percentage, odds, estimatedProbability);
            && s == KellyStake(odds.value, estimatedProbability.value, currentBankroll).recommendedStake
            && (s > 0.0 <==> odds.value > 1.0 && estimatedProbability.value / 100.0 * odds.value > 1.0
                             && currentBankroll > 0.0)
  {
    var k := KellyStake(odds.value, estimatedProbability.value, currentBankroll);
    if k.isValueBet {
      var f := KellyFraction(odds.value, estimatedProbability.value);
      KellyFractionSign(odds.value, estimatedProbability.value);
      MulSign(currentBankroll, f);
    }
  }

  /** At odds 2 the Kelly method stakes a fifth of the bankroll at 60% and
      nothing at 40%. */
  lemma KellyMethodStakeExamples(currentBankroll: real, fixedAmount: Option<real>, percentage: Option<real>)
    requires currentBankroll >= 0.0
    ensures SuggestedStake(Kelly, currentBankroll, fixedAmount, percentage, Some(2.0), Some(60.0)) == 0.2 * currentBankroll
    ensures SuggestedStake(Kelly, currentBankroll, fixedAmount, percentage, Some(2.0), Some(40.0)) == 0.0
  {
    KellyStakeExamples(currentBankroll);
  }

  /** `calculateSuggestedStake` exactly as written: its Kelly branch calls
      `calculateKellyStake` as written for any truthy odds. At odds of
      exactly 1 the code divides by zero and, below a certainty, ends with
      a zero stake, which is what this returns there. */
  function SuggestedStakeAsWritten(stakeMethod: Method, currentBankroll: real, fixedAmount: Option<real>,
                                   percentage: Option<real>, odds: Option<real>, estimatedProbability: Option<real>)
    : (s: real)
    ensures stakeMethod != Kelly ==> s == SuggestedStake(stakeMethod, currentBankroll, fixedAmount, percentage,
                                                         odds, estimatedProbability)
    ensures stakeMethod == Kelly ==> s >= 0.0
    ensures stakeMethod == Kelly && !(Truthy(odds) && Truthy(estimatedProbability)) ==> s == 0.0
  {
    match stakeMethod
    case Kelly =>
      if Truthy(odds) && Truthy(estimatedProbability) && odds.value != 1.0 then
        KellyStakeAsWritten(odds.value, estimatedProbability.value, currentBankroll).recommendedStake
      else 0.0
    case _ => SuggestedStake(stakeMethod, currentBankroll, fixedAmount, percentage, odds, estimatedProbability)
  }

  /** The corrected and the as-written suggestion differ only for truthy
      odds below 1. */
  lemma SuggestedStakeAgreesOffLowOdds(stakeMethod: Method, currentBankroll: real, fixedAmount: Option<real>,
                                       percentage: Option<real>, odds: Option<real>, estimatedProbability: Option<real>)
    requires !(Truthy(odds) && odds.value < 1.0)
    ensures SuggestedStakeAsWritten(stakeMethod, currentBankroll, fixedAmount, percentage, odds, estimatedProbability)
         == SuggestedStake(stakeMethod, currentBankroll, fixedAmount, percentage, odds, estimatedProbability)
  {
    if stakeMethod == Kelly && Truthy(odds) && Truthy(estimatedProbability) && odds.value > 1.0 {
      KellyStakeAgreesAboveEvenOdds(odds.value, estimatedProbability.value, currentBankroll);
    }
  }

  /** Kelly staking at odds 0.5 and 60% on a 1000 bankroll: the code as
      written suggests 1400, more than the bankroll, on a bet that loses in
      expectation; the corrected suggestion is nothing. */
  lemma SuggestedStakeAsWrittenBelowEvenOdds()
    ensures SuggestedStakeAsWritten(Kelly, 1000.0, None, None, Some(0.5), Some(60.0)) == 1400.0
    ensures SuggestedStake(Kelly, 1000.0, None, None, Some(0.5), Some(60.0)) == 0.0
  {
    KellyStakeAsWrittenBelowEvenOdds();
  }

  /** Gross amount paid back on a win, stake included. */
  function PotentialReturn(stake: real, odds: real): (r: real)
    ensures stake >= 0.0 && odds >= 1.0 ==> r >= stake
  {
    assert stake >= 0.0 && odds >= 1.0 ==> stake * odds >= stake * 1.0;
    stake * odds
  }

  /** `calculateNetProfit`: the profit a bet realises once settled. */
  function NetProfit(result: BetResult, stake: real, odds: real): (p: real)
    ensures result == Win ==> p == PotentialReturn(stake, odds) - stake
    ensures result == Loss ==> p == -stake
    ensures result == Void || result == Pending ==> p == 0.0
    ensures stake >= 0.0 && odds >= 1.0 ==> p >= -stake
  {
    match result
    case Win => stake * odds - stake
    case Loss => -stake
    case Void => 0.0
    case Pending => 0.0
  }

  /** The worked settlement examples for a 100 stake at odds 2.5. */
  lemma NetProfitExamples()
    ensures NetProfit(Win, 100.0, 2.5) == 150.0
    ensures NetProfit(Loss, 100.0, 2.5) == -100.0
    ensures NetProfit(Void, 100.0, 2.5) == 0.0
  {
  }
}
