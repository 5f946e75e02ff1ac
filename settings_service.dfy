/**
 * The settings service: get-or-create, so that every account ends up with
 * settings, and the range checks made before an update is stored.
 */
module SettingsService {
  import opened Wrappers
  import opened Store
  import opened Settings
  import Pricing

  /** The four rejections, in the order the checks are made. */
  datatype SettingsError =
    | TaxRateOutOfRange          // "Tax rate must be between 0 and 100"
    | ProfitMarginOutOfRange     // "Profit margin must be between 0 and 100"
    | NegativeFixedCosts         // "Other fixed costs cannot be negative"
    | OtherPercentageOutOfRange  // "Other percentage costs must be between 0 and 100"

  /** Why `updateAccountSettings` failed: a range check, or the store's update. */
  datatype UpdateError = Invalid(reason: SettingsError) | StoreFailure(error: AccessError)

  predicate Percentage(x: real) {
    0.0 <= x <= 100.0
  }

  /** The ranges the checks enforce, for a whole record. */
  predicate InRange(s: SettingsData) {
    Percentage(s.taxRate) && Percentage(s.profitMargin) && s.otherFixedCosts >= 0.0
    && Percentage(s.otherPercentageCosts)
  }

  /** The tax-rate check: absent, or a percentage. */
  predicate TaxRateOk(p: SettingsPatch) {
    p.taxRate.Some? ==> Percentage(p.taxRate.value)
  }

  /** The profit-margin check: absent, or a percentage. */
  predicate ProfitMarginOk(p: SettingsPatch) {
    p.profitMargin.Some? ==> Percentage(p.profitMargin.value)
  }

  /** The fixed-costs check: absent, or not negative. */
  predicate FixedCostsOk(p: SettingsPatch) {
    p.otherFixedCosts.Some? ==> p.otherFixedCosts.value >= 0.0
  }

  /** The other-percentage check: absent, or a percentage. */
  predicate OtherPercentageOk(p: SettingsPatch) {
    p.otherPercentageCosts.Some? ==> Percentage(p.otherPercentageCosts.value)
  }

  /**
   * The checks of `updateAccountSettings`, in order.  A field that is absent
   * is not checked; the first failing check decides the error.
   */
  function ValidateSettingsPatch(p: SettingsPatch): (r: Outcome<SettingsError>)
    ensures r.Pass? <==> TaxRateOk(p) && ProfitMarginOk(p) && FixedCostsOk(p) && OtherPercentageOk(p)
    ensures r == Fail(TaxRateOutOfRange) <==> !TaxRateOk(p)
    ensures r == Fail(ProfitMarginOutOfRange) <==> TaxRateOk(p) && !ProfitMarginOk(p)
    ensures r == Fail(NegativeFixedCosts) <==> TaxRateOk(p) && ProfitMarginOk(p) && !FixedCostsOk(p)
    ensures r == Fail(OtherPercentageOutOfRange) <==>
      TaxRateOk(p) && ProfitMarginOk(p) && FixedCostsOk(p) && !OtherPercentageOk(p)
  {
    if p.taxRate.Some? && (p.taxRate.value < 0.0 || p.taxRate.value > 100.0) then
      Fail(TaxRateOutOfRange)
    else if p.profitMargin.Some? && (p.profitMargin.value < 0.0 || p.profitMargin.value > 100.0) then
      Fail(ProfitMarginOutOfRange)
    else if p.otherFixedCosts.Some? && p.otherFixedCosts.value < 0.0 then
      Fail(NegativeFixedCosts)
    else if p.otherPercentageCosts.Some? && (p.otherPercentageCosts.value < 0.0 || p.otherPercentageCosts.value > 100.0) then
      Fail(OtherPercentageOutOfRange)
    else
      Pass
  }

  /**
   * The order decides between two failing checks: a profit margin of 150
   * is reported even though the fixed costs are negative too.
   */
  lemma ProfitMarginCheckedBeforeFixedCosts()
    ensures ValidateSettingsPatch(SettingsPatch(None, Some(150.0), Some(-1.0), None)) == Fail(ProfitMarginOutOfRange)
  {
  }

  /** The default record is within the ranges. */
  lemma DefaultsInRange()
    ensures InRange(DefaultSettings)
  {
  }

  /** A patch that passes the checks keeps a record within the ranges. */
  lemma ValidPatchKeepsRanges(s: SettingsData, p: SettingsPatch)
    requires InRange(s) && ValidateSettingsPatch(p).Pass?
    ensures InRange(MergeSettings(s, p))
  {
  }

  /** A patch that supplies nothing always passes. */
  lemma EmptyPatchPasses()
    ensures ValidateSettingsPatch(SettingsPatch(None, None, None, None)) == Pass
  {
  }

  /** The settings as the pricing formula reads them. */
  function AsPricing(s: SettingsData): (r: Pricing.PricingSettings)
    ensures r.taxRate == s.taxRate && r.profitMargin == s.profitMargin
    ensures r.otherFixedCosts == s.otherFixedCosts && r.otherPercentageCosts == s.otherPercentageCosts
  {
    Pricing.PricingSettings(s.taxRate, s.profitMargin, s.otherFixedCosts, s.otherPercentageCosts)
  }

  /**
   * The checks bound each rate on its own, not their sum: settings that pass
   * them can add up to exactly 100%, where the selling price is undefined.
   */
  lemma ValidatedSettingsCanBeUnpriceable()
    ensures var p := SettingsPatch(Some(50.0), Some(50.0), None, None);
            && ValidateSettingsPatch(p).Pass?
            && InRange(MergeSettings(DefaultSettings, p))
            && !Pricing.Priceable(AsPricing(MergeSettings(DefaultSettings, p)))
  {
  }

  /** The default settings can be priced. */
  lemma DefaultsArePriceable()
    ensures Pricing.Priceable(AsPricing(DefaultSettings))
  {
  }

  /**
   * `getOrCreateSettings`: the account's existing settings, untouched, when
   * there are any; otherwise a new default record under `freshId`.  Either
   * way the result is what a lookup by account returns afterwards.
   */
  method GetOrCreateSettings(repo: SettingsRepository, accountId: Id, freshId: Id)
    returns (settings: Listed<SettingsData>)
    requires repo.Valid() && freshId !in repo.docs
    modifies repo
    ensures repo.Valid()
    ensures old(repo.GetSettingsByAccountId(accountId)).Some? ==>
      && settings == old(repo.GetSettingsByAccountId(accountId)).value
      && repo.docs == old(repo.docs) && repo.clock == old(repo.clock)
    ensures old(repo.GetSettingsByAccountId(accountId)).None? ==>
      && settings == Listed(freshId, Doc(accountId, old(repo.clock), old(repo.clock), DefaultSettings))
      && repo.docs == old(repo.docs)[freshId := settings.doc]
      && repo.clock == old(repo.clock) + 1
    ensures repo.GetSettingsByAccountId(accountId) == Some(settings)
    ensures settings.doc.accountId == accountId
  {
    var existing := repo.GetSettingsByAccountId(accountId);
    if existing.Some? {
      settings := existing.value;
    } else {
      settings := repo.CreateSettings(accountId, freshId);
      assert OwnedIds(repo.docs, accountId) == {freshId};
    }
  }

  /**
   * Calling `getOrCreateSettings` a second time for the same account
   * creates nothing and returns the same record.
   */
  method GetOrCreateTwice(repo: SettingsRepository, accountId: Id, id1: Id, id2: Id)
    returns (first: Listed<SettingsData>, second: Listed<SettingsData>)
    requires repo.Valid() && id1 !in repo.docs && id2 !in repo.docs && id1 != id2
    modifies repo
    ensures first == second
    ensures id2 !in repo.docs
    ensures |OwnedIds(repo.docs, accountId)| >= 1
  {
    first := GetOrCreateSettings(repo, accountId, id1);
    var between := repo.docs;
    second := GetOrCreateSettings(repo, accountId, id2);
    assert repo.docs == between;
    assert first.id in OwnedIds(repo.docs, accountId);
  }

  /**
   * `updateAccountSettings`: the range checks first; when one fails the
   * store is left as it was.  Otherwise the patch goes to `updateSettings`.
   */
  method UpdateAccountSettings(repo: SettingsRepository, settingsId: Id, patch: SettingsPatch)
    returns (outcome: Outcome<UpdateError>)
    requires repo.Valid()
    modifies repo
    ensures repo.Valid()
    ensures ValidateSettingsPatch(patch).Fail? ==>
      && outcome == Fail(Invalid(ValidateSettingsPatch(patch).error))
      && repo.docs == old(repo.docs) && repo.clock == old(repo.clock)
    ensures ValidateSettingsPatch(patch).Pass? && settingsId !in old(repo.docs) ==>
      && outcome == Fail(StoreFailure(NotFound))
      && repo.docs == old(repo.docs) && repo.clock == old(repo.clock)
    ensures ValidateSettingsPatch(patch).Pass? && settingsId in old(repo.docs) ==>
      && outcome == Pass
      && repo.docs == old(repo.docs)[settingsId := old(repo.docs)[settingsId].(
           data := MergeSettings(old(repo.docs)[settingsId].data, patch), updatedAt := old(repo.clock))]
      && repo.clock == old(repo.clock) + 1
  {
    var check := ValidateSettingsPatch(patch);
    if check.Fail? {
      outcome := Fail(Invalid(check.error));
      return;
    }
    var stored := repo.UpdateSettings(settingsId, patch);
    if stored.Fail? {
      outcome := Fail(StoreFailure(stored.error));
    } else {
      outcome := Pass;
    }
  }
}
