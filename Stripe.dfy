/**
 * The billing helpers (src/services/stripe.js): the plan table, the plan-validity guard that runs
 * before a checkout request, and the pure usage and pricing rules. The ceilings come from the
 * configuration's limit table, which is a parameter here.
 */
module Stripe {
  import opened Wrappers
  import opened Config

  /** One entry of `SUBSCRIPTION_PLANS`; the free plan has no Stripe price. */
  datatype Plan = Plan(id: string, name: string, price: nat, interval: string,
                       stripePriceId: Option<string>, features: seq<string>, limits: PlanLimits)

  const FreeId: string := "free"
  const ProId: string := "pro"
  const PremiumId: string := "premium"
  const PlanIds: seq<string> := [FreeId, ProId, PremiumId]

  const FreeFeatures: seq<string> :=
    ["5 outreach messages per month", "10 investor searches", "3 response templates", "Basic analytics"]
  const ProFeatures: seq<string> :=
    ["50 outreach messages per month", "100 investor searches", "10 response templates",
     "Advanced analytics", "Follow-up scheduling", "Email support"]
  const PremiumFeatures: seq<string> :=
    ["Unlimited outreach messages", "Unlimited investor searches", "Unlimited response templates",
     "Advanced analytics & insights", "Follow-up scheduling", "CRM integration", "Priority support",
     "Custom templates"]

  /** `SUBSCRIPTION_PLANS`, keyed by plan id, with the ceilings of the given limit table. */
  function SubscriptionPlans(table: LimitTable): (plans: map<string, Plan>)
    ensures plans.Keys == {FreeId, ProId, PremiumId}
  {
    map[FreeId := Plan(FreeId, "Free", 0, "month", None, FreeFeatures, table.free),
        ProId := Plan(ProId, "Pro", 29, "month", Some("price_pro_monthly"), ProFeatures, table.pro),
        PremiumId := Plan(PremiumId, "Premium", 79, "month", Some("price_premium_monthly"), PremiumFeatures, table.premium)]
  }

  /**
   * Every plan is stored under its own id, bills monthly and carries its tier's ceilings; prices
   * rise strictly from free to pro to premium, and exactly the paid plans have a Stripe price.
   */
  lemma PlanTableShape(table: LimitTable)
    ensures forall key :: key in SubscriptionPlans(table) ==>
      SubscriptionPlans(table)[key].id == key && SubscriptionPlans(table)[key].interval == "month"
    ensures forall key :: key in SubscriptionPlans(table) ==>
      (SubscriptionPlans(table)[key].stripePriceId.Some? <==> SubscriptionPlans(table)[key].price > 0)
    ensures SubscriptionPlans(table)[FreeId].price < SubscriptionPlans(table)[ProId].price < SubscriptionPlans(table)[PremiumId].price
    ensures SubscriptionPlans(table)[FreeId].limits == table.free
    ensures SubscriptionPlans(table)[ProId].limits == table.pro
    ensures SubscriptionPlans(table)[PremiumId].limits == table.premium
  {
  }

  /**
   * `SUBSCRIPTION_PLANS[planId] || SUBSCRIPTION_PLANS.free`: an unknown id reads as the free plan.
   * That an unknown plan is then judged as the free one throughout is `UnknownPlanIsFree`.
   */
  function LookupPlan(table: LimitTable, planId: string): (plan: Plan)
    ensures planId in SubscriptionPlans(table) ==> plan == SubscriptionPlans(table)[planId]
    ensures planId !in SubscriptionPlans(table) ==> plan == SubscriptionPlans(table)[FreeId]
  {
    var plans := SubscriptionPlans(table);
    if planId in plans then plans[planId] else plans[FreeId]
  }

  /** `usageService.getPlanLimits`: the plan's ceilings, the free ones for an unknown id. */
  function GetPlanLimits(table: LimitTable, planId: string): (limits: PlanLimits)
    ensures planId == ProId ==> limits == table.pro
    ensures planId == PremiumId ==> limits == table.premium
    ensures planId != ProId && planId != PremiumId ==> limits == table.free
  {
    LookupPlan(table, planId).limits
  }

  /** The counters `canPerformAction` compares with the ceilings. */
  datatype CurrentUsage = CurrentUsage(outreachThisMonth: int, searchesToday: int, templatesCreated: int)

  const Actions: set<string> := {"outreach", "search", "template"}

  /** The counter an action uses up, and its ceiling in `limits`. */
  function Counter(actionType: string, usage: CurrentUsage): int {
    if actionType == "outreach" then usage.outreachThisMonth
    else if actionType == "search" then usage.searchesToday
    else usage.templatesCreated
  }

  function Ceiling(actionType: string, limits: PlanLimits): int {
    if actionType == "outreach" then limits.outreachPerMonth
    else if actionType == "search" then limits.investorSearches
    else limits.templates
  }

  /**
   * `usageService.canPerformAction`: an action is allowed while its counter is strictly below the
   * plan's ceiling; an unknown action never is.
   */
  function CanPerformAction(table: LimitTable, userPlan: string, actionType: string, usage: CurrentUsage): (allowed: bool)
    ensures actionType !in Actions ==> !allowed
    ensures actionType in Actions ==>
      (allowed <==> Counter(actionType, usage) < Ceiling(actionType, GetPlanLimits(table, userPlan)))
  {
    var limits := LookupPlan(table, userPlan).limits;
    match actionType
    case "outreach" => usage.outreachThisMonth < limits.outreachPerMonth
    case "search" => usage.searchesToday < limits.investorSearches
    case "template" => usage.templatesCreated < limits.templates
    case _ => false
  }

  /** An unknown plan id is held to the free plan's ceilings. */
  lemma UnknownPlanIsFree(table: LimitTable, userPlan: string, actionType: string, usage: CurrentUsage)
    requires userPlan !in PlanIds
    ensures CanPerformAction(table, userPlan, actionType, usage) == CanPerformAction(table, FreeId, actionType, usage)
    ensures GetPlanLimits(table, userPlan) == GetPlanLimits(table, FreeId)
  {
    assert userPlan != ProId && userPlan != PremiumId by {
      assert PlanIds[1] == ProId && PlanIds[2] == PremiumId;
    }
  }

  /** Once a counter has reached its ceiling, the action stays refused however far the counter grows. */
  lemma CeilingIsFinal(table: LimitTable, userPlan: string, actionType: string, usage: CurrentUsage, later: CurrentUsage)
    requires !CanPerformAction(table, userPlan, actionType, usage)
    requires Counter(actionType, usage) <= Counter(actionType, later)
    ensures !CanPerformAction(table, userPlan, actionType, later)
  {
  }

  /** The order of the tiers: free, pro, premium, with unknown ids counted as free. */
  function Rank(planId: string): (r: nat)
    ensures r <= 2
  {
    if planId == PremiumId then 2 else if planId == ProId then 1 else 0
  }

  /** With the default ceilings, a higher tier allows everything a lower tier allows. */
  lemma HigherTierAllowsMore(lower: string, higher: string, actionType: string, usage: CurrentUsage)
    requires Rank(lower) <= Rank(higher)
    ensures CanPerformAction(DefaultLimits(), lower, actionType, usage) ==>
      CanPerformAction(DefaultLimits(), higher, actionType, usage)
  {
    DefaultCeilings();
  }

  /** With the default ceilings, the free plan allows exactly five outreach messages a month. */
  lemma FreeOutreachAllowance(usage: CurrentUsage)
    ensures CanPerformAction(DefaultLimits(), FreeId, "outreach", usage) <==> usage.outreachThisMonth < 5
  {
    DefaultCeilings();
  }

  /**
   * `usageService.getUsagePercentage`: 0 for the unlimited sentinel, otherwise the share of the
   * ceiling used, in percent, capped at 100.
   */
  function GetUsagePercentage(current: real, limit: real): (percent: real)
    requires limit != 0.0
    ensures limit == Unlimited as real ==> percent == 0.0
    ensures limit != Unlimited as real ==> percent == Min(current / limit * 100.0, 100.0)
  {
    if limit == Unlimited as real then 0.0 else Min(current / limit * 100.0, 100.0)
  }

  /** `Math.min` on two numbers. */
  function Min(a: real, b: real): (m: real)
    ensures m <= a && m <= b && (m == a || m == b)
  {
    if a <= b then a else b
  }

  /**
   * The percentage never exceeds 100; for a positive ceiling it is never negative while usage is
   * not, it grows with usage, and it is exactly 100 once usage reaches the ceiling.
   */
  lemma UsagePercentageBounds(current: real, more: real, limit: real)
    requires limit > 0.0
    ensures GetUsagePercentage(current, limit) <= 100.0
    ensures current >= 0.0 ==> GetUsagePercentage(current, limit) >= 0.0
    ensures current <= more ==> GetUsagePercentage(current, limit) <= GetUsagePercentage(more, limit)
    ensures limit != Unlimited as real && current >= limit ==> GetUsagePercentage(current, limit) == 100.0
  {
    if limit != Unlimited as real {
      if current <= more {
        assert current / limit <= more / limit by {
          DivideMonotone(current, more, limit);
        }
      }
      if current >= limit {
        DivideMonotone(limit, current, limit);
        assert limit / limit == 1.0;
      }
      if current >= 0.0 {
        DivideMonotone(0.0, current, limit);
      }
    }
  }

  /** Dividing by a positive number keeps the order. */
  lemma DivideMonotone(a: real, b: real, d: real)
    requires a <= b && d > 0.0
    ensures a / d <= b / d
  {
    assert b / d - a / d == (b - a) / d;
  }

  /** `pricingHelpers.getRecommendedPlan`: free up to 5 messages a month, pro up to 50, premium above. */
  function GetRecommendedPlan(monthlyOutreach: int): (planId: string)
    ensures planId in PlanIds
    ensures planId == FreeId <==> monthlyOutreach <= 5
    ensures planId == PremiumId <==> monthlyOutreach > 50
  {
    if monthlyOutreach <= 5 then FreeId
    else if monthlyOutreach <= 50 then ProId
    else PremiumId
  }

  /** More outreach never recommends a lower tier. */
  lemma RecommendationMonotone(a: int, b: int)
    requires a <= b
    ensures Rank(GetRecommendedPlan(a)) <= Rank(GetRecommendedPlan(b))
  {
  }

  /**
   * With the default ceilings, the recommended plan is the cheapest whose outreach ceiling covers
   * the monthly volume (up to the unlimited sentinel): every lower tier's ceiling is below it.
   */
  lemma RecommendationCoversUsage(monthlyOutreach: int)
    requires monthlyOutreach <= Unlimited
    ensures monthlyOutreach <= GetPlanLimits(DefaultLimits(), GetRecommendedPlan(monthlyOutreach)).outreachPerMonth
    ensures forall lower :: lower in PlanIds && Rank(lower) < Rank(GetRecommendedPlan(monthlyOutreach)) ==>
      GetPlanLimits(DefaultLimits(), lower).outreachPerMonth < monthlyOutreach
  {
    DefaultCeilings();
  }

  const InvalidPlanError: string := "Invalid subscription plan"

  /**
   * The guard at the top of `stripeService.createCheckoutSession`: only a plan with a Stripe price
   * may be checked out, and its price id is what the request sends.
   */
  function CheckoutPriceId(table: LimitTable, planId: string): (r: Result<string, string>)
    ensures r.Ok? <==> planId == ProId || planId == PremiumId
    ensures r.Err? ==> r.error == InvalidPlanError
    ensures r.Ok? ==> Some(r.value) == SubscriptionPlans(table)[planId].stripePriceId
  {
    var plans := SubscriptionPlans(table);
    if planId !in plans || plans[planId].stripePriceId.None? then Err(InvalidPlanError)
    else Ok(plans[planId].stripePriceId.value)
  }
}
