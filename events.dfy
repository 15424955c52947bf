/**
 * Verified Stripe events and the webhook's reconciliation of one event into at most
 * one `updateUserTier` call.
 */
module Events {
  import opened Wrappers
  import opened Plans
  import opened Profiles

  /** The part of a completed checkout session the webhook reads. */
  datatype CheckoutSession = CheckoutSession(metadata: map<string, string>, subscription: Option<string>)

  /** The part of a subscription object the webhook reads; `itemPrices` lists the items' price ids. */
  datatype Subscription = Subscription(id: string, metadata: map<string, string>, itemPrices: seq<string>, status: string)

  /**
   * A verified event, one variant per kind the webhook switches on. `Other` carries
   * the `type` of every event that is none of the three handled kinds
   * (`checkout.session.completed`, `customer.subscription.updated`,
   * `customer.subscription.deleted`); the verifier maps those three to their own variants.
   */
  datatype Event =
    | CheckoutSessionCompleted(session: CheckoutSession)
    | SubscriptionUpdated(subscription: Subscription)
    | SubscriptionDeleted(subscription: Subscription)
    | Other(kind: string)

  const STATUS_ACTIVE: string := "active"
  const STATUS_CANCELED: string := "canceled"
  const STATUS_UNPAID: string := "unpaid"

  /**
   * The `updateUserTier` call the webhook makes for a verified event, if any.
   * A completed checkout writes the plan and subscription recorded in its metadata;
   * an updated subscription writes the resolved plan when active and free when
   * canceled or unpaid; a deleted subscription writes free; nothing else writes.
   */
  function Reconciliation(prices: PriceIds, ev: Event): (w: Option<TierWrite>)
    ensures w.Some? ==> Truthy(Some(w.value.userId)) && w.value.tier != ""
    ensures w.Some? && w.value.tier != SCHOLAR && w.value.tier != ACHIEVER ==>
              ev.CheckoutSessionCompleted? || (w.value.tier == FREE && w.value.subscriptionId == None)
    ensures ev.Other? ==> w == None
  {
    match ev
    case CheckoutSessionCompleted(session) =>
      var userId := Field(session.metadata, "userId");
      var plan := Field(session.metadata, "plan");
      if Truthy(userId) && Truthy(plan) then Some(TierWrite(userId.value, plan.value, session.subscription))
      else None
    case SubscriptionUpdated(subscription) =>
      var userId := Field(subscription.metadata, "userId");
      if Truthy(userId) then
        var plan := ResolvePlan(prices, subscription.itemPrices);
        if subscription.status == STATUS_ACTIVE then Some(TierWrite(userId.value, plan, Some(subscription.id)))
        else if subscription.status == STATUS_CANCELED || subscription.status == STATUS_UNPAID then
          Some(TierWrite(userId.value, FREE, None))
        else None
      else None
    case SubscriptionDeleted(subscription) =>
      var userId := Field(subscription.metadata, "userId");
      if Truthy(userId) then Some(TierWrite(userId.value, FREE, None)) else None
    case Other(_) => None
  }

  /** The profile table after the webhook has handled a verified event at time `now`. */
  function Deliver(users: Users, prices: PriceIds, ev: Event, now: string): (r: Users)
    ensures Reconciliation(prices, ev).None? ==> r == users
    ensures users.Keys <= r.Keys
  {
    match Reconciliation(prices, ev)
    case None => users
    case Some(w) => ApplyWrite(users, w, now)
  }

  /** Whether handling `ev` writes the record of user `u`. */
  predicate Touches(prices: PriceIds, ev: Event, u: string)
  {
    var w := Reconciliation(prices, ev);
    w.Some? && w.value.userId == u
  }

  /** A completed checkout with both metadata fields sets that user's tier and subscription. */
  lemma CheckoutCompletedSetsPlan(users: Users, prices: PriceIds, session: CheckoutSession, now: string)
    ensures var r := Deliver(users, prices, CheckoutSessionCompleted(session), now);
            var userId := Field(session.metadata, "userId");
            var plan := Field(session.metadata, "plan");
            if Truthy(userId) && Truthy(plan) then
              userId.value in r && r[userId.value].tier == plan
              && r[userId.value].stripeSubscriptionId == session.subscription
              && forall u :: u in users && u != userId.value ==> r[u] == users[u]
            else r == users
  {
  }

  /**
   * An updated subscription: status active writes the resolved plan and the
   * subscription's id; canceled or unpaid writes free and null whatever the price;
   * any other status, or missing attribution, changes nothing.
   */
  lemma SubscriptionUpdatedEffect(users: Users, prices: PriceIds, s: Subscription, now: string)
    ensures var r := Deliver(users, prices, SubscriptionUpdated(s), now);
            var userId := Field(s.metadata, "userId");
            if Truthy(userId) && s.status == STATUS_ACTIVE then
              userId.value in r
              && (r[userId.value].tier == Some(ACHIEVER) <==> |s.itemPrices| > 0 && s.itemPrices[0] == prices.achiever)
              && (r[userId.value].tier == Some(SCHOLAR) <==> !(|s.itemPrices| > 0 && s.itemPrices[0] == prices.achiever))
              && r[userId.value].stripeSubscriptionId == Some(s.id)
            else if Truthy(userId) && (s.status == STATUS_CANCELED || s.status == STATUS_UNPAID) then
              userId.value in r && r[userId.value].tier == Some(FREE) && r[userId.value].stripeSubscriptionId == None
            else r == users
  {
  }

  /** A deleted subscription with attribution resets that user to free with no subscription. */
  lemma SubscriptionDeletedResetsToFree(users: Users, prices: PriceIds, s: Subscription, now: string)
    ensures var r := Deliver(users, prices, SubscriptionDeleted(s), now);
            var userId := Field(s.metadata, "userId");
            if Truthy(userId) then
              userId.value in r && r[userId.value].tier == Some(FREE) && r[userId.value].stripeSubscriptionId == None
            else r == users
  {
  }

  /** Unrecognised kinds change nothing. */
  lemma OtherEventIsNoop(users: Users, prices: PriceIds, kind: string, now: string)
    ensures Deliver(users, prices, Other(kind), now) == users
  {
  }

  /** Handling an event changes at most the one record it is attributed to. */
  lemma DeliverChangesOnlyTarget(users: Users, prices: PriceIds, ev: Event, now: string, u: string)
    requires !Touches(prices, ev, u)
    ensures Field(Deliver(users, prices, ev, now), u) == Field(users, u)
  {
  }

  /** No event changes a record's email or Stripe customer id. */
  lemma DeliverKeepsContactAttributes(users: Users, prices: PriceIds, ev: Event, now: string, u: string)
    requires u in users
    ensures var r := Deliver(users, prices, ev, now);
            u in r && r[u].email == users[u].email && r[u].stripeCustomerId == users[u].stripeCustomerId
  {
  }

  /** A redelivered event leaves the state of a single delivery at the later time. */
  lemma RedeliveryIdempotent(users: Users, prices: PriceIds, ev: Event, t1: string, t2: string)
    ensures Deliver(Deliver(users, prices, ev, t1), prices, ev, t2) == Deliver(users, prices, ev, t2)
  {
  }
}
