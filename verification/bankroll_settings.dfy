/** The settings panel of src/components/BankrollSettings.tsx: a local copy
    of the configuration edited field by field, checked when saved, and a
    preview of the next stake under percentage staking. */
module BankrollSettings {
  import opened Wrappers
  import opened BettingTypes
  import opened StakeAdvisor
  import opened RecordStore

  /** `parseFloat(text) || 0`: NaN and zero both become 0. */
  function ParseOrZero(parsed: Option<real>): real {
    parsed.GetOr(0.0)
  }

  /** The input handlers. */
  function SetInitialBankroll(settings: BankrollManagement, parsed: Option<real>): BankrollManagement {
    settings.(initialBankroll := ParseOrZero(parsed))
  }

  function SetFixedAmount(settings: BankrollManagement, parsed: Option<real>): BankrollManagement {
    settings.(fixedAmount := Some(ParseOrZero(parsed)))
  }

  function SetPercentage(settings: BankrollManagement, parsed: Option<real>): BankrollManagement {
    settings.(percentage := Some(ParseOrZero(parsed)))
  }

  function SetMethod(settings: BankrollManagement, stakeMethod: Method): BankrollManagement {
    settings.(stakeMethod := stakeMethod)
  }

  /** The handlers touch one field each; a blank or unparsable input stores
      0, a number stores itself. */
  lemma SettersTouchOneField(settings: BankrollManagement, parsed: Option<real>)
    ensures SetInitialBankroll(settings, parsed) == settings.(initialBankroll := SetInitialBankroll(settings, parsed).initialBankroll)
    ensures SetFixedAmount(settings, parsed) == settings.(fixedAmount := SetFixedAmount(settings, parsed).fixedAmount)
    ensures SetPercentage(settings, parsed) == settings.(percentage := SetPercentage(settings, parsed).percentage)
    ensures parsed.None? ==> SetFixedAmount(settings, parsed).fixedAmount == Some(0.0)
    ensures parsed.Some? ==> SetPercentage(settings, parsed).percentage == parsed
  {
  }

  datatype SettingsError = InvalidFixedAmount | InvalidPercentage

  /** What the active method needs: a positive fixed amount, or a
      percentage in (0, 100]. Kelly needs nothing. */
  predicate ValidSettings(settings: BankrollManagement) {
    match settings.stakeMethod
    case Fixed => settings.fixedAmount.Some? && settings.fixedAmount.value > 0.0
    case Percentage => settings.percentage.Some? && 0.0 < settings.percentage.value <= 100.0
    case Kelly => true
  }

  /** The checks of `handleSave`, with JavaScript truthiness on the
      optional fields. */
  function CheckSettings(settings: BankrollManagement): (err: Option<SettingsError>)
    ensures err.None? <==> ValidSettings(settings)
    ensures err == Some(InvalidFixedAmount) ==> settings.stakeMethod == Fixed
    ensures err == Some(InvalidPercentage) ==> settings.stakeMethod == Percentage
  {
    if settings.stakeMethod == Fixed && (!Truthy(settings.fixedAmount) || settings.fixedAmount.value <= 0.0) then
      Some(InvalidFixedAmount)
    else if settings.stakeMethod == Percentage
            && (!Truthy(settings.percentage) || settings.percentage.value <= 0.0 || settings.percentage.value > 100.0) then
      Some(InvalidPercentage)
    else
      None
  }

  /** `handleSave`: a valid configuration replaces the store's wholesale; an
      invalid one is reported and the store is left alone. */
  function Save(s: Store, settings: BankrollManagement): (r: Result<Store, SettingsError>)
    ensures r.Success? <==> ValidSettings(settings)
    ensures r.Success? ==> r.value.config == settings && r.value.records == s.records
    ensures r.Failure? ==> r.error == CheckSettings(settings).value
  {
    match CheckSettings(settings)
    case Some(e) => Failure(e)
    case None => Success(UpdateBankrollManagement(s, settings))
  }

  /** A save followed by the store's effect, which runs again only when the
      initial bankroll changed. */
  function SaveAndSync(s: Store, settings: BankrollManagement): (r: Result<Store, SettingsError>)
    ensures r.Success? <==> ValidSettings(settings)
    ensures r.Success? ==> r.value.records == s.records
  {
    match Save(s, settings)
    case Failure(e) => Failure(e)
    case Success(saved) =>
      Success(if settings.initialBankroll != s.config.initialBankroll then Refresh(saved) else saved)
  }

  /** Saving from an up-to-date copy keeps a consistent store consistent,
      and a new initial bankroll with no bets becomes the current one. */
  lemma SaveKeepsConsistency(s: Store, settings: BankrollManagement)
    requires Consistent(s) && ValidSettings(settings)
    requires settings.currentBankroll == s.config.currentBankroll
    ensures Consistent(SaveAndSync(s, settings).value)
    ensures |s.records| == 0 ==> SaveAndSync(s, settings).value.config.currentBankroll == settings.initialBankroll
  {
    RefreshConsistent(Save(s, settings).value);
  }

  /** Clearing the amount of the active method (or typing 0) makes saving
      fail. */
  lemma ClearedFieldIsRejected(s: Store, settings: BankrollManagement, parsed: Option<real>)
    requires parsed.None? || parsed == Some(0.0)
    ensures settings.stakeMethod == Fixed ==> Save(s, SetFixedAmount(settings, parsed)) == Failure(InvalidFixedAmount)
    ensures settings.stakeMethod == Percentage ==> Save(s, SetPercentage(settings, parsed)) == Failure(InvalidPercentage)
  {
  }

  /** A saved configuration proposes a positive fixed stake, or under
      percentage staking a stake no larger than a non-negative bankroll. */
  lemma SavedConfigStakes(settings: BankrollManagement, odds: Option<real>, estimatedProbability: Option<real>)
    requires ValidSettings(settings)
    ensures var stake := SuggestedStake(settings.stakeMethod, settings.currentBankroll, settings.fixedAmount,
                                        settings.percentage, odds, estimatedProbability);
            && (settings.stakeMethod == Fixed ==> stake > 0.0)
            && (settings.stakeMethod == Percentage && settings.currentBankroll >= 0.0 ==> 0.0 <= stake <= settings.currentBankroll)
            && (settings.stakeMethod == Kelly ==> stake >= 0.0)
  {
  }

  /** The "next suggested bet" card: shown under percentage staking with a
      non-zero percentage. */
  function PercentagePreview(settings: BankrollManagement): (preview: Option<real>)
    ensures preview.Some? <==> settings.stakeMethod == Percentage && Truthy(settings.percentage)
    ensures preview.Some? ==> 100.0 * preview.value == settings.currentBankroll * settings.percentage.value
    ensures preview.Some? ==> preview.value == SuggestedStake(Percentage, settings.currentBankroll, settings.fixedAmount,
                                                               settings.percentage, None, None)
  {
    if settings.stakeMethod == Percentage && Truthy(settings.percentage) then
      Some(settings.currentBankroll * (settings.percentage.value / 100.0))
    else
      None
  }

  /** The default configuration is valid and previews a stake of 30. */
  lemma DefaultConfigPreview()
    ensures ValidSettings(DefaultConfig)
    ensures PercentagePreview(DefaultConfig) == Some(30.0)
  {
  }
}
