/**
 * The plan table: for each subscription plan, the features it unlocks and
 * the usage limits (quotas) it grants.
 */
module PlanConfig {
  import opened Wrappers

  /** The gated features of the application. */
  datatype Feature = LaborCosts | AdvancedReports | DataExport | ApiAccess | Products | Materials

  /** The subscription plans. */
  datatype Plan = Free | Pro

  /** A plan's entry: display name, description, features and per-feature limits. */
  datatype PlanSettings = PlanSettings(
    name: string,
    description: string,
    features: seq<Feature>,
    quotas: map<Feature, int>)

  /** The key a plan is stored under, in account records and session claims. */
  function PlanKey(p: Plan): (k: string)
    ensures k == "FREE" || k == "PRO"
    ensures p == Free <==> k == "FREE"
  {
    match p
    case Free => "FREE"
    case Pro => "PRO"
  }

  const FreeConfig := PlanSettings("Free", "Perfect to get started", [Materials], map[Products := 10, Materials := 20])

  const ProConfig := PlanSettings(
    "Pro", "For growing businesses",
    [LaborCosts, AdvancedReports, DataExport, ApiAccess],
    map[Products := 500, Materials := 1000])

  function ConfigOf(p: Plan): PlanSettings {
    match p
    case Free => FreeConfig
    case Pro => ProConfig
  }

  /** `PLAN_CONFIG[name]`: the entry stored under a plan key, if there is one. */
  function LookupPlan(name: string): (r: Option<PlanSettings>)
    ensures r.Some? <==> exists p :: PlanKey(p) == name
    ensures forall p :: PlanKey(p) == name ==> r == Some(ConfigOf(p))
  {
    if name == "FREE" then assert PlanKey(Free) == name; Some(FreeConfig)
    else if name == "PRO" then assert PlanKey(Pro) == name; Some(ProConfig)
    else
      assert forall p :: PlanKey(p) != name;
      None
  }

  /** `PLAN_CONFIG[name]?.quotas[feature]`: the configured limit, if any. */
  function QuotaOf(name: string, feature: Feature): (r: Option<int>)
    ensures r.Some? <==> LookupPlan(name).Some? && feature in LookupPlan(name).value.quotas
    ensures r.Some? ==> r.value == LookupPlan(name).value.quotas[feature]
  {
    match LookupPlan(name)
    case None => None
    case Some(c) => if feature in c.quotas then Some(c.quotas[feature]) else None
  }

  /** The FREE entry: only MATERIALS; 10 products and 20 materials. */
  lemma FreeEntry()
    ensures var c := LookupPlan("FREE").value;
            && c.features == [Materials]
            && c.quotas.Keys == {Products, Materials}
            && c.quotas[Products] == 10 && c.quotas[Materials] == 20
  {
  }

  /** The PRO entry: the four paid features but not MATERIALS; 500 products and 1000 materials. */
  lemma ProEntry()
    ensures var c := LookupPlan("PRO").value;
            && c.features == [LaborCosts, AdvancedReports, DataExport, ApiAccess]
            && Materials !in c.features
            && c.quotas.Keys == {Products, Materials}
            && c.quotas[Products] == 500 && c.quotas[Materials] == 1000
  {
  }

  /** Wherever FREE has a limit, PRO has a strictly larger one. */
  lemma ProLimitsExceedFree(f: Feature)
    requires f in FreeConfig.quotas
    ensures f in ProConfig.quotas && ProConfig.quotas[f] > FreeConfig.quotas[f]
  {
  }

  /** The four paid features have no quota entry in either plan. */
  lemma PaidFeaturesUnmetered(p: Plan, f: Feature)
    requires f == LaborCosts || f == AdvancedReports || f == DataExport || f == ApiAccess
    ensures QuotaOf(PlanKey(p), f).None?
  {
  }
}
