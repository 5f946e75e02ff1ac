/**
 * Server-side plan gating.  The plan comes from the session's `planName`
 * claim, FREE when the claim is missing; a feature is available when the
 * plan lists it, and a quota allows one more use while usage is strictly
 * below a non-zero configured limit.
 */
module FeatureFlagsServer {
  import opened Wrappers
  import opened PlanConfig

  /** The session as far as gating is concerned: its optional plan claim. */
  datatype Session = Session(planName: Option<string>)

  /** `_isFeatureEnabled`: false for a null or empty plan, else membership in the plan's list. */
  function IsFeatureEnabled(feature: Feature, plan: Option<string>): (r: bool)
    ensures plan.None? ==> !r
    ensures r <==> plan.Some? && LookupPlan(plan.value).Some? && feature in LookupPlan(plan.value).value.features
  {
    if plan.None? || plan.value == "" then false
    else
      match LookupPlan(plan.value)
      case None => false
      case Some(c) => feature in c.features
  }

  /**
   * `_hasQuota`: false for a null or empty plan and for a missing or zero
   * limit; otherwise usage strictly below the limit.
   */
  function HasQuota(feature: Feature, plan: Option<string>, usage: int): (r: bool)
    ensures plan.None? ==> !r
    ensures plan.Some? && (QuotaOf(plan.value, feature).None? || QuotaOf(plan.value, feature) == Some(0)) ==> !r
    ensures plan.Some? && QuotaOf(plan.value, feature).Some? && QuotaOf(plan.value, feature).value != 0 ==>
      (r <==> usage < QuotaOf(plan.value, feature).value)
  {
    if plan.None? || plan.value == "" then false
    else
      var limit := QuotaOf(plan.value, feature);
      if limit.None? || limit.value == 0 then false else usage < limit.value
  }

  /** `_getPlan`: the session's claim, or FREE when there is no session or no claim. */
  function GetPlan(session: Option<Session>): (r: string)
    ensures session.None? || session.value.planName.None? ==> r == PlanKey(Free)
    ensures session.Some? && session.value.planName.Some? ==> r == session.value.planName.value
  {
    if session.Some? && session.value.planName.Some? then session.value.planName.value else "FREE"
  }

  /** `isFeatureAvailable`: the feature test for the session's plan. */
  function IsFeatureAvailable(feature: Feature, session: Option<Session>): (r: bool)
    ensures r <==> LookupPlan(GetPlan(session)).Some? && feature in LookupPlan(GetPlan(session)).value.features
  {
    IsFeatureEnabled(feature, Some(GetPlan(session)))
  }

  /** `hasAvailableQuota`: the quota test for the session's plan. */
  function HasAvailableQuota(feature: Feature, usage: int, session: Option<Session>): (r: bool)
    ensures r <==>
      && QuotaOf(GetPlan(session), feature).Some?
      && QuotaOf(GetPlan(session), feature).value != 0
      && usage < QuotaOf(GetPlan(session), feature).value
  {
    HasQuota(feature, Some(GetPlan(session)), usage)
  }

  /**
   * `remainingQuotaAvailable`: despite its name, the configured limit itself
   * (0 when there is none); usage is not subtracted.
   */
  function RemainingQuotaAvailable(feature: Feature, session: Option<Session>): (r: int)
    ensures QuotaOf(GetPlan(session), feature).None? ==> r == 0
    ensures QuotaOf(GetPlan(session), feature).Some? ==> r == QuotaOf(GetPlan(session), feature).value
  {
    var plan := GetPlan(session);
    if plan == "" then 0 else QuotaOf(plan, feature).GetOr(0)
  }

  /** `getQuota`: an alias of `remainingQuotaAvailable`. */
  function GetQuota(feature: Feature, session: Option<Session>): (r: int)
    ensures r == RemainingQuotaAvailable(feature, session)
  {
    RemainingQuotaAvailable(feature, session)
  }

  /**
   * The quota test and the reported limit agree: usage is allowed exactly
   * when the reported limit is non-zero and usage is below it.
   */
  lemma QuotaAgreesWithLimit(feature: Feature, usage: int, session: Option<Session>)
    ensures HasAvailableQuota(feature, usage, session) <==>
      RemainingQuotaAvailable(feature, session) != 0 && usage < RemainingQuotaAvailable(feature, session)
  {
  }

  /** A session without a plan claim is gated exactly as FREE. */
  lemma MissingClaimIsFree(feature: Feature, usage: int)
    ensures IsFeatureAvailable(feature, None) == IsFeatureAvailable(feature, Some(Session(None)))
                                              == (feature == Materials)
    ensures HasAvailableQuota(feature, usage, Some(Session(None))) ==
      ((feature == Products && usage < 10) || (feature == Materials && usage < 20))
  {
  }

  /** The reported limit for a plan does not move with usage: FREE reports 10 products and 20 materials. */
  lemma FreeLimitsReported()
    ensures GetQuota(Products, None) == 10 && GetQuota(Materials, None) == 20
    ensures GetQuota(LaborCosts, None) == 0
  {
  }

  /** An unknown plan claim unlocks nothing and allows no usage. */
  lemma UnknownPlanGetsNothing(name: string, feature: Feature, usage: int)
    requires name != "FREE" && name != "PRO"
    ensures !IsFeatureEnabled(feature, Some(name)) && !HasQuota(feature, Some(name), usage)
    ensures RemainingQuotaAvailable(feature, Some(Session(Some(name)))) == 0
  {
  }
}
