// Billing records: the plan choices and an organization's subscription.

module BillingModels {
  import opened Common

  /** `BillingPlan`. */
  datatype BillingPlan = Starter | Pro | Enterprise | NoPlan
  {
    function Code(): string
    {
      match this
        case Starter => "starter"
        case Pro => "pro"
        case Enterprise => "enterprise"
        case NoPlan => "none"
    }
  }

  function ParsePlan(code: string): (r: Option<BillingPlan>)
    ensures r.Some? ==> r.value.Code() == code
    ensures r.None? ==> forall p: BillingPlan :: p.Code() != code
  {
    if code == "starter" then Some(Starter)
    else if code == "pro" then Some(Pro)
    else if code == "enterprise" then Some(Enterprise)
    else if code == "none" then Some(NoPlan)
    else None
  }

  /** The four plans have four different codes. */
  lemma PlanCodesDistinct(p: BillingPlan, q: BillingPlan)
    requires p.Code() == q.Code()
    ensures p == q
  {
    assert ParsePlan(p.Code()) == Some(p);
  }

  /**
   * `Subscription`. `currentPlan` and `status` are kept as the stored text;
   * `currentPeriodEnd` is the Unix timestamp it was built from.
   */
  datatype Subscription = Subscription(
    org: OrgId,
    customerId: Option<string>,
    subscriptionId: Option<string>,
    currentPlan: string,
    status: string,
    currentPeriodEnd: Option<int>,
    cancelAtPeriodEnd: bool)

  /** A new row: no plan, inactive, not set to cancel, no Stripe ids. */
  function NewSubscription(org: OrgId): (s: Subscription)
    ensures s.org == org && s.currentPlan == NoPlan.Code() && s.status == "inactive" && !s.cancelAtPeriodEnd
    ensures s.customerId.None? && s.subscriptionId.None? && s.currentPeriodEnd.None?
    ensures !IsActive(s)
  {
    Subscription(org, None, None, NoPlan.Code(), "inactive", None, false)
  }

  /** `is_active`. */
  predicate IsActive(s: Subscription)
  {
    s.status in {"active", "trialing", "past_due"}
  }

  /** The statuses that count as active, stated one by one. */
  lemma ActiveStatuses(s: Subscription)
    ensures IsActive(s) <==> s.status == "active" || s.status == "trialing" || s.status == "past_due"
  {
  }

  /** The one-to-one link to the organization. */
  predicate OnePerOrg(subs: seq<Subscription>)
  {
    forall i, j :: 0 <= i < j < |subs| ==> subs[i].org != subs[j].org
  }
}
