/** The sixteen VIP plans: each plan's fixed daily profit and its rank. */
module Plans {

  /** The plan names in rank order; `VIP_0` is the inert default plan. */
  const PLAN_NAMES: seq<string> := [
    "VIP_0", "VIP_1", "VIP_2", "VIP_3", "VIP_4", "VIP_5", "VIP_6", "VIP_7",
    "VIP_8", "VIP_9", "VIP_10", "VIP_11", "VIP_Bronze", "VIP_Silver", "VIP_Golden", "VIP_Diamond"]

  /** The `PLANS` table: daily profit in USDT per plan name. */
  const PLANS: map<string, real> := map[
    "VIP_0" := 0.0, "VIP_1" := 1.0, "VIP_2" := 2.5, "VIP_3" := 4.0,
    "VIP_4" := 8.0, "VIP_5" := 10.0, "VIP_6" := 15.0, "VIP_7" := 25.0,
    "VIP_8" := 35.0, "VIP_9" := 60.0, "VIP_10" := 85.0, "VIP_11" := 100.0,
    "VIP_Bronze" := 200.0, "VIP_Silver" := 400.0, "VIP_Golden" := 700.0, "VIP_Diamond" := 1000.0]

  /** The `levels` table inside `getPlanLevel`. */
  const LEVELS: map<string, nat> := map[
    "VIP_0" := 0, "VIP_1" := 1, "VIP_2" := 2, "VIP_3" := 3, "VIP_4" := 4, "VIP_5" := 5,
    "VIP_6" := 6, "VIP_7" := 7, "VIP_8" := 8, "VIP_9" := 9, "VIP_10" := 10, "VIP_11" := 11,
    "VIP_Bronze" := 12, "VIP_Silver" := 13, "VIP_Golden" := 14, "VIP_Diamond" := 15]

  /** `getPlanLevel`: `levels[planName] || 0`. */
  function GetPlanLevel(name: string): (level: nat)
    ensures level <= 15
    ensures name !in LEVELS ==> level == 0
  {
    if name in LEVELS then LEVELS[name] else 0
  }

  /** `PLANS[plan]` read as a JavaScript truthiness test: known and non-zero profit. */
  predicate HasProfit(plan: string) {
    plan in PLANS && PLANS[plan] != 0.0
  }

  /** `getPlanLevel` numbers the sixteen plans 0..15 in order, and both tables name the same plans. */
  lemma PlanLevelsAreRanks()
    ensures |PLAN_NAMES| == 16
    ensures forall k :: 0 <= k < 16 ==> PLAN_NAMES[k] in PLANS && GetPlanLevel(PLAN_NAMES[k]) == k
    ensures PLANS.Keys == LEVELS.Keys
  {
  }

  /** Every known plan sits at the index its level gives in `PLAN_NAMES`. */
  lemma PlanAtItsLevel(name: string)
    requires name in PLANS
    ensures GetPlanLevel(name) < 16 && PLAN_NAMES[GetPlanLevel(name)] == name
  {
  }

  /** The plans' profits strictly increase with rank. */
  lemma ProfitIncreasesWithRank(i: nat, j: nat)
    requires i < j < 16
    ensures PLANS[PLAN_NAMES[i]] < PLANS[PLAN_NAMES[j]]
  {
  }

  /** So on known plans the level order and the profit order agree, in both directions. */
  lemma LevelOrderIsProfitOrder(a: string, b: string)
    requires a in PLANS && b in PLANS
    ensures GetPlanLevel(a) <= GetPlanLevel(b) <==> PLANS[a] <= PLANS[b]
  {
    PlanAtItsLevel(a);
    PlanAtItsLevel(b);
    var i, j := GetPlanLevel(a), GetPlanLevel(b);
    if i < j { ProfitIncreasesWithRank(i, j); }
    if j < i { ProfitIncreasesWithRank(j, i); }
  }

  /** The subscribe check `!PLANS[plan] || plan === "VIP_0"` rejects exactly the unknown names and `VIP_0`. */
  lemma PaidPlansAreTheKnownNonInertOnes(plan: string)
    ensures HasProfit(plan) <==> plan in PLANS && plan != "VIP_0"
  {
  }
}
