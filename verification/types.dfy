/** The records the application stores and the aggregate it reports
    (src/types/betting.ts). */
module BettingTypes {
  import opened Wrappers

  /** The settlement state of a bet. */
  datatype BetResult = Win | Loss | Void | Pending

  /** How the stake of the next bet is sized. */
  datatype Method = Fixed | Percentage | Kelly

  /** One bet. `percentageOfBankroll` is None when the bankroll at placement
      was zero: the source divides by it and obtains a non-finite number. */
  datatype BetRecord = BetRecord(
    id: string,
    date: string,
    event: string,
    homeTeam: string,
    awayTeam: string,
    league: string,
    betType: string,
    odds: real,
    stakeAmount: real,
    estimatedProbability: real,
    expectedValue: real,
    potentialReturn: real,
    result: BetResult,
    netProfit: real,
    bankrollAfter: real,
    percentageOfBankroll: Option<real>)

  /** The bankroll policy together with the initial and current balance. */
  datatype BankrollManagement = BankrollManagement(
    stakeMethod: Method,
    fixedAmount: Option<real>,
    percentage: Option<real>,
    initialBankroll: real,
    currentBankroll: real)

  /** The aggregate statistics over the settled bets. */
  datatype PerformanceMetrics = PerformanceMetrics(
    totalBets: nat,
    totalStaked: real,
    totalReturn: real,
    netProfit: real,
    roi: real,
    winRate: real,
    averageOdds: real,
    longestWinStreak: nat,
    longestLossStreak: nat,
    profitByBetType: map<string, real>,
    profitByLeague: map<string, real>)

  /** The outcome of the Kelly criterion for one bet. */
  datatype KellyCalculation = KellyCalculation(
    recommendedStake: real,
    kellyPercentage: real,
    isValueBet: bool)

  /** The metrics reported before any bet is settled. */
  const EmptyMetrics := PerformanceMetrics(0, 0.0, 0.0, 0.0, 0.0, 0.0, 0.0, 0, 0, map[], map[])
}
