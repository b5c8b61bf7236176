// Plan limits and the gate that applies them to a create view.

module BillingLimits {
  import opened Common
  import opened Text
  import opened BillingModels

  const MaxUsers := "max_users"
  const MaxProducts := "max_products"

  /** `PLAN_LIMITS`. */
  const PlanLimits: map<string, map<string, nat>> := map[
    "starter" := map[MaxUsers := 3, MaxProducts := 100],
    "pro" := map[MaxUsers := 10, MaxProducts := 1000],
    "enterprise" := map[MaxUsers := 1000, MaxProducts := 100000]]

  /** The plan `get_limits` looks up: "none" when there is no subscription or its plan is empty. */
  function EffectivePlan(sub: Option<Subscription>): (plan: string)
    ensures plan != []
    ensures sub.Some? && sub.value.currentPlan != [] ==> plan == sub.value.currentPlan
  {
    if sub.None? || sub.value.currentPlan == [] then "none" else sub.value.currentPlan
  }

  /** `get_limits(org)`. */
  function Limits(sub: Option<Subscription>): (r: map<string, nat>)
    ensures EffectivePlan(sub) in PlanLimits ==> r == PlanLimits[EffectivePlan(sub)]
    ensures EffectivePlan(sub) !in PlanLimits ==> r == map[]
  {
    var plan := EffectivePlan(sub);
    if plan in PlanLimits then PlanLimits[plan] else map[]
  }

  /** The table itself: each paid plan caps users and products. */
  lemma PlanTable()
    ensures PlanLimits.Keys == {Starter.Code(), Pro.Code(), Enterprise.Code()}
    ensures PlanLimits[Starter.Code()] == map[MaxUsers := 3, MaxProducts := 100]
    ensures PlanLimits[Pro.Code()] == map[MaxUsers := 10, MaxProducts := 1000]
    ensures PlanLimits[Enterprise.Code()] == map[MaxUsers := 1000, MaxProducts := 100000]
  {
  }

  /** No subscription, an empty plan and the "none" plan all mean no limits at all. */
  lemma NoPlanNoLimits(sub: Option<Subscription>)
    requires sub.None? || sub.value.currentPlan == [] || sub.value.currentPlan == NoPlan.Code()
    ensures Limits(sub) == map[]
  {
  }

  /** Each paid plan allows at least as much as the one below it. */
  lemma PlansAreOrdered(key: string)
    requires key in PlanLimits["starter"]
    ensures PlanLimits["starter"][key] <= PlanLimits["pro"][key] <= PlanLimits["enterprise"][key]
  {
  }

  /** What the wrapped view answers. */
  datatype Gate<V> = PaymentRequired(detail: string) | ViewRan(response: V)

  const PaymentRequiredStatus := 402

  function LimitMessage(key: string, limit: nat): string
  {
    "Límite de plan alcanzado: " + key + "=" + NatToString(limit)
  }

  /**
   * `enforce_limit(resource_key, count_fn)` around a view. The view's answer
   * `run` and the count `current` are parameters; the count is only used
   * when the plan has a limit for the key.
   */
  function EnforceLimit<V>(key: string, sub: Option<Subscription>, current: nat, run: V): (r: Gate<V>)
    ensures key !in Limits(sub) ==> r == ViewRan(run)
    ensures key in Limits(sub) ==>
      (r.PaymentRequired? <==> current >= Limits(sub)[key]) &&
      (r.ViewRan? ==> r.response == run) &&
      (r.PaymentRequired? ==> r.detail == LimitMessage(key, Limits(sub)[key]))
  {
    var limits := Limits(sub);
    if key !in limits then ViewRan(run)
    else if current >= limits[key] then PaymentRequired(LimitMessage(key, limits[key]))
    else ViewRan(run)
  }

  /** The gate only closes further as the count grows. */
  lemma GateMonotone<V>(key: string, sub: Option<Subscription>, current: nat, more: nat, run: V)
    requires current <= more
    requires EnforceLimit(key, sub, current, run).PaymentRequired?
    ensures EnforceLimit(key, sub, more, run).PaymentRequired?
  {
  }

  /** A starter organization can hold its fourth user only after an upgrade. */
  lemma StarterBlocksFourthUser<V>(sub: Subscription, run: V)
    requires sub.currentPlan == "starter"
    ensures EnforceLimit(MaxUsers, Some(sub), 2, run) == ViewRan(run)
    ensures EnforceLimit(MaxUsers, Some(sub), 3, run) == PaymentRequired(LimitMessage(MaxUsers, 3))
  {
  }

  /** The rejection text names the key and ends with the limit's digits. */
  lemma MessageNamesKeyAndLimit(key: string, limit: nat)
    ensures var head := "Límite de plan alcanzado: ";
      LimitMessage(key, limit) == head + key + "=" + NatToString(limit) &&
      ParseInt(LimitMessage(key, limit)[|head| + |key| + 1..]) == Some(limit)
  {
    var head := "Límite de plan alcanzado: ";
    var m := LimitMessage(key, limit);
    assert m == (head + key + "=") + NatToString(limit);
    assert m[|head + key + "="|..] == NatToString(limit);
    ParseIntToString(limit);
    assert IntToString(limit) == NatToString(limit);
  }
}
