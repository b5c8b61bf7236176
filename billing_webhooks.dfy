// The Stripe webhook: after the signature check, a completed checkout links
// an organization's subscription to its Stripe ids, and subscription events
// copy plan, status, period end and the cancel flag onto the stored row.
// Signature verification and JSON decoding are reduced to the event they
// yield; the price ids come from the settings as parameters.

module BillingWebhooks {
  import opened Common
  import opened BillingModels

  /** `STRIPE_PRICE_*` settings; each is `None` when its variable is unset. */
  datatype PriceSettings = PriceSettings(starter: Option<string>, pro: Option<string>, enterprise: Option<string>)

  /** The fields of `event["data"]["object"]` the handler reads; `None` when a key is missing or null. */
  datatype EventObject = EventObject(
    customer: Option<string>,
    subscription: Option<string>,
    orgId: Option<OrgId>,
    planCode: Option<string>,
    id: Option<string>,
    status: Option<string>,
    currentPeriodEnd: Option<int>,
    cancelAtPeriodEnd: Option<bool>,
    priceId: Option<string>)

  /** `construct_event` either fails or yields an event. */
  datatype Delivery = BadSignature | Event(kind: string, obj: EventObject)

  /** Python truthiness of an optional string. */
  predicate Given(s: Option<string>)
  {
    s.Some? && s.value != []
  }

  /** `_plan_from_price` as written: `None == None` holds, so a missing price matches an unset setting. */
  function PlanFromPriceAsWritten(price: Option<string>, cfg: PriceSettings): (r: Option<BillingPlan>)
    ensures r.Some? ==> r.value != NoPlan
    ensures r == Some(Starter) <==> price == cfg.starter
  {
    if price == cfg.starter then Some(Starter)
    else if price == cfg.pro then Some(Pro)
    else if price == cfg.enterprise then Some(Enterprise)
    else None
  }

  /** `_plan_from_price` with a missing price mapped to no plan, so the stored plan is kept. */
  function PlanFromPrice(price: Option<string>, cfg: PriceSettings): (r: Option<BillingPlan>)
    ensures price.None? ==> r.None?
    ensures price.Some? ==> r == PlanFromPriceAsWritten(price, cfg)
  {
    if price.None? then None else PlanFromPriceAsWritten(price, cfg)
  }

  const SubscriptionEvents := {"customer.subscription.created", "customer.subscription.updated", "customer.subscription.deleted"}
  const PaidPlanCodes := {"starter", "pro", "enterprise"}

  /** The first row matching a test, in primary-key order (`.first()`). */
  function FirstWhere(subs: seq<Subscription>, p: Subscription -> bool): (r: Option<nat>)
    ensures r.Some? ==> r.value < |subs| && p(subs[r.value])
    ensures r.Some? ==> forall k :: 0 <= k < r.value ==> !p(subs[k])
    ensures r.None? ==> forall k :: 0 <= k < |subs| ==> !p(subs[k])
  {
    if subs == [] then None
    else if p(subs[0]) then Some(0)
    else
      var rest := FirstWhere(subs[1..], p);
      assert forall k :: 1 <= k < |subs| ==> subs[k] == subs[1..][k - 1];
      if rest.None? then None else Some(rest.value + 1)
  }

  /** `checkout.session.completed` on the organization's row. */
  function AfterCheckout(s: Subscription, obj: EventObject): (r: Subscription)
    requires obj.customer.Some? && obj.subscription.Some?
    ensures r.org == s.org && r.status == "active"
    ensures r.customerId == obj.customer && r.subscriptionId == obj.subscription
    ensures r.currentPlan == if obj.planCode.Some? && obj.planCode.value in PaidPlanCodes then obj.planCode.value else s.currentPlan
    ensures r.currentPeriodEnd == s.currentPeriodEnd && r.cancelAtPeriodEnd == s.cancelAtPeriodEnd
  {
    s.(customerId := obj.customer, subscriptionId := obj.subscription,
       currentPlan := if obj.planCode.Some? && obj.planCode.value in PaidPlanCodes then obj.planCode.value else s.currentPlan,
       status := "active")
  }

  /** A subscription event on the matching row, with the price mapping passed in. */
  function AfterSubscriptionEventWith(s: Subscription, obj: EventObject, plan: Option<BillingPlan>): (r: Subscription)
    ensures r.org == s.org && r.customerId == s.customerId && r.subscriptionId == s.subscriptionId
    ensures r.currentPlan == if plan.Some? then plan.value.Code() else s.currentPlan
    ensures r.status == if Given(obj.status) then obj.status.value else s.status
    ensures r.currentPeriodEnd == if obj.currentPeriodEnd.Some? && obj.currentPeriodEnd.value != 0 then obj.currentPeriodEnd else s.currentPeriodEnd
    ensures r.cancelAtPeriodEnd == (obj.cancelAtPeriodEnd == Some(true))
  {
    s.(currentPlan := if plan.Some? then plan.value.Code() else s.currentPlan,
       status := if Given(obj.status) then obj.status.value else s.status,
       currentPeriodEnd := if obj.currentPeriodEnd.Some? && obj.currentPeriodEnd.value != 0 then obj.currentPeriodEnd else s.currentPeriodEnd,
       cancelAtPeriodEnd := obj.cancelAtPeriodEnd == Some(true))
  }

  function AfterSubscriptionEventAsWritten(s: Subscription, obj: EventObject, cfg: PriceSettings): Subscription
  {
    AfterSubscriptionEventWith(s, obj, PlanFromPriceAsWritten(obj.priceId, cfg))
  }

  function AfterSubscriptionEvent(s: Subscription, obj: EventObject, cfg: PriceSettings): Subscription
  {
    AfterSubscriptionEventWith(s, obj, PlanFromPrice(obj.priceId, cfg))
  }

  /**
   * As written, an event without a price item moves a subscription to the
   * starter plan whenever `STRIPE_PRICE_STARTER` is unset.
   */
  lemma MissingPriceDowngradesAsWritten(s: Subscription, obj: EventObject, cfg: PriceSettings)
    requires s.currentPlan == "enterprise" && obj.priceId.None? && cfg.starter.None?
    ensures AfterSubscriptionEventAsWritten(s, obj, cfg).currentPlan == "starter"
  {
  }

  /** With the correction, an event without a price item keeps the stored plan. */
  lemma MissingPriceKeepsPlan(s: Subscription, obj: EventObject, cfg: PriceSettings)
    requires obj.priceId.None?
    ensures AfterSubscriptionEvent(s, obj, cfg).currentPlan == s.currentPlan
  {
  }

  /** Both versions agree whenever the event names a price. */
  lemma PriceGivenAgrees(s: Subscription, obj: EventObject, cfg: PriceSettings)
    requires obj.priceId.Some?
    ensures AfterSubscriptionEvent(s, obj, cfg) == AfterSubscriptionEventAsWritten(s, obj, cfg)
  {
  }

  /** The checkout target: the organization named in the metadata, when customer and subscription are given too. */
  function CheckoutTarget(subs: seq<Subscription>, obj: EventObject): Option<nat>
  {
    if Given(obj.customer) && Given(obj.subscription) && obj.orgId.Some? then
      FirstWhere(subs, (s: Subscription) => s.org == obj.orgId.value)
    else None
  }

  /** `filter(stripe_subscription_id=sub_id)`: a missing id matches a row without one, as `=None` means IS NULL. */
  function SubscriptionTarget(subs: seq<Subscription>, obj: EventObject): Option<nat>
  {
    FirstWhere(subs, (s: Subscription) => s.subscriptionId == obj.id)
  }

  /** The table after one verified event. */
  function Handle(subs: seq<Subscription>, kind: string, obj: EventObject, cfg: PriceSettings): (r: seq<Subscription>)
    ensures |r| == |subs|
    ensures forall k :: 0 <= k < |subs| ==> r[k].org == subs[k].org
  {
    if kind == "checkout.session.completed" then
      var i := CheckoutTarget(subs, obj);
      if i.None? then subs else subs[i.value := AfterCheckout(subs[i.value], obj)]
    else if kind in SubscriptionEvents then
      var i := SubscriptionTarget(subs, obj);
      if i.None? then subs else subs[i.value := AfterSubscriptionEventAsWritten(subs[i.value], obj, cfg)]
    else subs
  }

  /** A completed checkout changes only the named organization's row, and makes it active. */
  lemma CheckoutActivates(subs: seq<Subscription>, obj: EventObject, cfg: PriceSettings, k: nat)
    requires OnePerOrg(subs) && k < |subs|
    requires Given(obj.customer) && Given(obj.subscription) && obj.orgId == Some(subs[k].org)
    ensures var r := Handle(subs, "checkout.session.completed", obj, cfg);
      r[k] == AfterCheckout(subs[k], obj) && IsActive(r[k]) &&
      forall j :: 0 <= j < |subs| && j != k ==> r[j] == subs[j]
  {
    var i := CheckoutTarget(subs, obj);
    assert i.Some?;
    assert i.value == k;
  }

  /**
   * On the table, an event without a price item moves the matching row from
   * enterprise to starter whenever `STRIPE_PRICE_STARTER` is unset.
   */
  lemma ItemlessEventDowngrades(subs: seq<Subscription>, kind: string, obj: EventObject, cfg: PriceSettings, k: nat)
    requires kind in SubscriptionEvents && k < |subs|
    requires subs[k].subscriptionId == obj.id && forall j :: 0 <= j < k ==> subs[j].subscriptionId != obj.id
    requires subs[k].currentPlan == "enterprise" && obj.priceId.None? && cfg.starter.None?
    ensures Handle(subs, kind, obj, cfg)[k].currentPlan == "starter"
  {
    assert SubscriptionTarget(subs, obj) == Some(k);
    MissingPriceDowngradesAsWritten(subs[k], obj, cfg);
  }

  /** A checkout lacking a customer, a subscription or an organization changes nothing. */
  lemma IncompleteCheckoutIgnored(subs: seq<Subscription>, obj: EventObject, cfg: PriceSettings)
    requires !Given(obj.customer) || !Given(obj.subscription) || obj.orgId.None?
    ensures Handle(subs, "checkout.session.completed", obj, cfg) == subs
  {
  }

  /** Events other than checkouts and subscription changes, such as a failed payment, change nothing. */
  lemma OtherEventsIgnored(subs: seq<Subscription>, kind: string, obj: EventObject, cfg: PriceSettings)
    requires kind != "checkout.session.completed" && kind !in SubscriptionEvents
    ensures Handle(subs, kind, obj, cfg) == subs
  {
  }

  /** Handling any event keeps one subscription per organization. */
  lemma HandleKeepsOnePerOrg(subs: seq<Subscription>, kind: string, obj: EventObject, cfg: PriceSettings)
    requires OnePerOrg(subs)
    ensures OnePerOrg(Handle(subs, kind, obj, cfg))
  {
    var r := Handle(subs, kind, obj, cfg);
    assert forall i :: 0 <= i < |r| ==> r[i].org == subs[i].org;
  }

  /** The subscriptions of every organization, updated in place. */
  class SubscriptionTable {
    var subs: seq<Subscription>

    ghost predicate Valid()
      reads this
    {
      OnePerOrg(subs)
    }

    constructor ()
      ensures Valid() && subs == []
    {
      subs := [];
    }

    /** `Subscription.objects.get_or_create(organization=org)`: returns the row's index. */
    method GetOrCreate(org: OrgId) returns (i: nat)
      requires Valid()
      modifies this
      ensures Valid()
      ensures i < |subs| && subs[i].org == org
      ensures (exists k :: 0 <= k < |old(subs)| && old(subs)[k].org == org) ==> subs == old(subs)
      ensures (forall k :: 0 <= k < |old(subs)| ==> old(subs)[k].org != org) ==> subs == old(subs) + [NewSubscription(org)]
    {
      var found := FirstWhere(subs, (s: Subscription) => s.org == org);
      if found.Some? {
        i := found.value;
      } else {
        subs := subs + [NewSubscription(org)];
        i := |subs| - 1;
      }
    }

    /** `stripe_webhook`: 400 and no change for a bad signature, otherwise 200 after the event's update. */
    method Webhook(d: Delivery, cfg: PriceSettings) returns (status: nat)
      requires Valid()
      modifies this
      ensures Valid()
      ensures d.BadSignature? ==> status == 400 && subs == old(subs)
      ensures d.Event? ==> status == 200 && subs == Handle(old(subs), d.kind, d.obj, cfg)
    {
      if d.BadSignature? {
        return 400;
      }
      HandleKeepsOnePerOrg(subs, d.kind, d.obj, cfg);
      subs := Handle(subs, d.kind, d.obj, cfg);
      status := 200;
    }
  }
}
