/** Subscription plans (lib/config/plans.ts): three tiers whose Stripe price ids come from
    the environment, and lookups by plan id and by price id. */
module Plans {
  import opened Wrappers

  datatype Plan = Plan(
    id: string,
    name: string,
    description: string,
    price: nat,
    credits: nat,
    stripePriceId: string,
    popular: bool,
    features: seq<string>)

  /** STRIPE_PRICE_ID_STARTER, STRIPE_PRICE_ID_PRO and STRIPE_PRICE_ID_BUSINESS. */
  datatype PriceEnv = PriceEnv(starter: Option<string>, pro: Option<string>, business: Option<string>)

  const Unset: PriceEnv := PriceEnv(None, None, None)

  /** `process.env.X || ''`. */
  function PriceIdOf(v: Option<string>): (id: string)
    ensures v.Some? ==> id == v.value
    ensures v.None? ==> id == ""
  {
    v.GetOr("")
  }

  /** PLANS (lines 10-57). */
  function AllPlans(env: PriceEnv): seq<Plan> {
    [
      Plan("starter", "Starter", "Perfect for getting started", 9, 50, PriceIdOf(env.starter), false,
           ["50 credits per month", "Basic features", "Email support", "API access"]),
      Plan("pro", "Professional", "Best for professionals", 29, 200, PriceIdOf(env.pro), true,
           ["200 credits per month", "All Starter features", "Priority support", "Advanced analytics", "Team collaboration"]),
      Plan("business", "Business", "For teams and businesses", 99, 1000, PriceIdOf(env.business), false,
           ["1000 credits per month", "All Pro features", "Dedicated support", "Custom integrations", "SSO authentication", "SLA guarantee"])
    ]
  }

  /** `PLANS.find(plan => plan.id === planId)`: the first plan with that id. */
  function FindById(plans: seq<Plan>, id: string): (r: Option<Plan>)
    ensures r.Some? ==> r.value in plans && r.value.id == id
    ensures r.None? <==> forall i :: 0 <= i < |plans| ==> plans[i].id != id
    ensures forall i :: 0 <= i < |plans| && plans[i].id == id && (forall j :: 0 <= j < i ==> plans[j].id != id) ==>
      r == Some(plans[i])
  {
    if plans == [] then None
    else if plans[0].id == id then Some(plans[0])
    else
      var r := FindById(plans[1..], id);
      assert forall i :: 1 <= i < |plans| && plans[i].id == id && (forall j :: 0 <= j < i ==> plans[j].id != id) ==>
        (plans[1..][i - 1] == plans[i] && forall j :: 0 <= j < i - 1 ==> plans[1..][j] == plans[j + 1]);
      r
  }

  /** `PLANS.find(plan => plan.stripePriceId === priceId)`; an undefined price id matches
      no plan. */
  function FindByPriceId(plans: seq<Plan>, priceId: Option<string>): (r: Option<Plan>)
    ensures r.Some? ==> r.value in plans && priceId == Some(r.value.stripePriceId)
    ensures r.None? <==> forall i :: 0 <= i < |plans| ==> priceId != Some(plans[i].stripePriceId)
    ensures forall i :: (0 <= i < |plans| && priceId == Some(plans[i].stripePriceId)
      && forall j :: 0 <= j < i ==> priceId != Some(plans[j].stripePriceId)) ==> r == Some(plans[i])
  {
    if plans == [] then None
    else if priceId == Some(plans[0].stripePriceId) then Some(plans[0])
    else
      var r := FindByPriceId(plans[1..], priceId);
      assert forall i :: (1 <= i < |plans| && priceId == Some(plans[i].stripePriceId)
        && forall j :: 0 <= j < i ==> priceId != Some(plans[j].stripePriceId)) ==>
        (plans[1..][i - 1] == plans[i] && forall j :: 0 <= j < i - 1 ==> plans[1..][j] == plans[j + 1]);
      r
  }

  /** getPlanById (lines 62-64). */
  function GetPlanById(env: PriceEnv, planId: string): Option<Plan> {
    FindById(AllPlans(env), planId)
  }

  /** getPlanByPriceId (lines 69-71). */
  function GetPlanByPriceId(env: PriceEnv, priceId: Option<string>): Option<Plan> {
    FindByPriceId(AllPlans(env), priceId)
  }

  /** getCreditsForPriceId (lines 76-79): the plan's credits, or 0. */
  function GetCreditsForPriceId(env: PriceEnv, priceId: Option<string>): (credits: nat)
    ensures GetPlanByPriceId(env, priceId).Some? ==> credits == GetPlanByPriceId(env, priceId).value.credits
    ensures GetPlanByPriceId(env, priceId).None? ==> credits == 0
  {
    match GetPlanByPriceId(env, priceId)
    case Some(plan) => plan.credits
    case None => 0
  }

  /** getPlanNameForPriceId (lines 84-87): the plan's name, or 'Unknown'. */
  function GetPlanNameForPriceId(env: PriceEnv, priceId: Option<string>): (name: string)
    ensures GetPlanByPriceId(env, priceId).Some? ==> name == GetPlanByPriceId(env, priceId).value.name
    ensures GetPlanByPriceId(env, priceId).None? ==> name == "Unknown"
  {
    match GetPlanByPriceId(env, priceId)
    case Some(plan) => if plan.name != "" then plan.name else "Unknown"
    case None => "Unknown"
  }

  /** Three plans with distinct ids and 50, 200 and 1000 credits. */
  lemma PlanTable(env: PriceEnv)
    ensures var plans := AllPlans(env);
      && |plans| == 3
      && plans[0].id == "starter" && plans[1].id == "pro" && plans[2].id == "business"
      && plans[0].credits == 50 && plans[1].credits == 200 && plans[2].credits == 1000
      && forall i, j :: 0 <= i < j < 3 ==> plans[i].id != plans[j].id
  {
  }

  /** The three plan ids resolve to their plans, and nothing else resolves. */
  lemma PlanByIdResolves(env: PriceEnv, planId: string)
    ensures GetPlanById(env, planId).Some? <==> planId in {"starter", "pro", "business"}
    ensures GetPlanById(env, planId).Some? ==> GetPlanById(env, planId).value.id == planId
  {
    var plans := AllPlans(env);
    if planId == "starter" {
      assert plans[0].id == planId;
    } else if planId == "pro" {
      assert plans[1].id == planId;
    } else if planId == "business" {
      assert plans[2].id == planId;
    }
  }

  /** A price id earns credits exactly when some plan carries it. */
  lemma CreditsIffPlanMatches(env: PriceEnv, priceId: Option<string>)
    ensures GetCreditsForPriceId(env, priceId) > 0 <==>
      exists plan :: plan in AllPlans(env) && priceId == Some(plan.stripePriceId)
  {
    var plans := AllPlans(env);
    if GetPlanByPriceId(env, priceId).None? {
      forall plan | plan in plans ensures priceId != Some(plan.stripePriceId) {
        var i :| 0 <= i < |plans| && plans[i] == plan;
      }
    }
  }

  /** With the price variables unset every plan's price id is '', and the first plan in list
      order wins: '' resolves to Starter. */
  lemma UnsetPricesResolveToStarter()
    ensures GetPlanByPriceId(Unset, Some("")) == Some(AllPlans(Unset)[0])
    ensures GetPlanNameForPriceId(Unset, Some("")) == "Starter"
    ensures GetCreditsForPriceId(Unset, Some("")) == 50
  {
  }
}
