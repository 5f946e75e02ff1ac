/**
 * Client-side plan gating: the same two tests over the plan table, and the
 * provider that fixes them to the account's plan.
 */
module FeatureFlagsClient {
  import opened Wrappers
  import opened PlanConfig
  import FeatureFlagsServer

  /** `_isFeatureEnabled`: membership in the plan's list; an unknown plan gives false. */
  function IsFeatureEnabled(feature: Feature, plan: string): (r: bool)
    ensures r <==> LookupPlan(plan).Some? && feature in LookupPlan(plan).value.features
  {
    match LookupPlan(plan)
    case None => false
    case Some(c) => feature in c.features
  }

  /** `_hasQuota`: false for a missing or zero limit, else usage strictly below it. */
  function HasQuota(feature: Feature, plan: string, usage: int): (r: bool)
    ensures QuotaOf(plan, feature).None? || QuotaOf(plan, feature) == Some(0) ==> !r
    ensures QuotaOf(plan, feature).Some? && QuotaOf(plan, feature).value != 0 ==>
      (r <==> usage < QuotaOf(plan, feature).value)
  {
    var limit := QuotaOf(plan, feature);
    if limit.None? || limit.value == 0 then false else usage < limit.value
  }

  /** The context value: the plan and the two tests bound to it. */
  datatype FeatureFlagsState = FeatureFlagsState(
    planName: string,
    isFeatureAvailable: Feature -> bool,
    hasAvailableQuota: (Feature, int) -> bool)

  /** `FeatureFlagsProvider`: the two tests with `planName` fixed. */
  function Provide(planName: string): (s: FeatureFlagsState)
    ensures s.planName == planName
    ensures forall f :: s.isFeatureAvailable(f) == IsFeatureEnabled(f, planName)
    ensures forall f, u :: s.hasAvailableQuota(f, u) == HasQuota(f, planName, u)
  {
    FeatureFlagsState(
      planName,
      (f: Feature) => IsFeatureEnabled(f, planName),
      (f: Feature, u: int) => HasQuota(f, planName, u))
  }

  /** For any plan string, the client tests give the server's answers. */
  lemma ClientAgreesWithServer(feature: Feature, plan: string, usage: int)
    ensures IsFeatureEnabled(feature, plan) == FeatureFlagsServer.IsFeatureEnabled(feature, Some(plan))
    ensures HasQuota(feature, plan, usage) == FeatureFlagsServer.HasQuota(feature, Some(plan), usage)
  {
  }

  /** The provider for an account on a plan gates exactly as that plan's entry says. */
  lemma ProviderFollowsTable(p: Plan, feature: Feature, usage: int)
    ensures Provide(PlanKey(p)).isFeatureAvailable(feature) <==> feature in ConfigOf(p).features
    ensures Provide(PlanKey(p)).hasAvailableQuota(feature, usage) <==>
      feature in ConfigOf(p).quotas && usage < ConfigOf(p).quotas[feature]
  {
  }
}
