/**
 * Sequences of webhook deliveries, each handled atomically and in order, and the
 * path from a checkout to the webhook events that attribute it back to the user.
 */
module Lifecycle {
  import opened Wrappers
  import opened Plans
  import opened Tiers
  import opened Profiles
  import opened Events
  import opened Checkout

  /** One webhook delivery: a verified event handled at time `at`. */
  datatype Delivery = Delivery(event: Event, at: string)

  /** The profile table after handling `ds` in order. */
  function DeliverAll(users: Users, prices: PriceIds, ds: seq<Delivery>): (r: Users)
    decreases |ds|
  {
    if |ds| == 0 then users
    else
      var last := ds[|ds| - 1];
      Deliver(DeliverAll(users, prices, ds[..|ds| - 1]), prices, last.event, last.at)
  }

  /** A user no delivery is attributed to keeps their record (or keeps having none). */
  lemma {:induction false} UntouchedUserUnchanged(users: Users, prices: PriceIds, ds: seq<Delivery>, u: string)
    requires forall i :: 0 <= i < |ds| ==> !Touches(prices, ds[i].event, u)
    ensures Field(DeliverAll(users, prices, ds), u) == Field(users, u)
  {
    if |ds| > 0 {
      var last := ds[|ds| - 1];
      UntouchedUserUnchanged(users, prices, ds[..|ds| - 1], u);
      DeliverChangesOnlyTarget(DeliverAll(users, prices, ds[..|ds| - 1]), prices, last.event, last.at, u);
    }
  }

  /**
   * Last write wins: a user's tier, subscription id and timestamp are those of the
   * last delivery attributed to them, whatever came before it.
   */
  lemma {:induction false} LastWriteWins(users: Users, prices: PriceIds, ds: seq<Delivery>, i: nat, u: string)
    requires i < |ds| && Touches(prices, ds[i].event, u)
    requires forall j :: i < j < |ds| ==> !Touches(prices, ds[j].event, u)
    ensures var r := DeliverAll(users, prices, ds);
            var w := Reconciliation(prices, ds[i].event).value;
            u in r && r[u].tier == Some(w.tier) && r[u].stripeSubscriptionId == w.subscriptionId
            && r[u].updatedAt == Some(ds[i].at)
  {
    var prefix := ds[..|ds| - 1];
    var last := ds[|ds| - 1];
    if i < |ds| - 1 {
      LastWriteWins(users, prices, prefix, i, u);
      DeliverChangesOnlyTarget(DeliverAll(users, prices, prefix), prices, last.event, last.at, u);
    }
  }

  /** Records are never removed, and no delivery changes a record's email or Stripe customer id. */
  lemma {:induction false} ContactAttributesPreserved(users: Users, prices: PriceIds, ds: seq<Delivery>, u: string)
    requires u in users
    ensures var r := DeliverAll(users, prices, ds);
            u in r && r[u].email == users[u].email && r[u].stripeCustomerId == users[u].stripeCustomerId
  {
    if |ds| > 0 {
      var last := ds[|ds| - 1];
      ContactAttributesPreserved(users, prices, ds[..|ds| - 1], u);
      DeliverKeepsContactAttributes(DeliverAll(users, prices, ds[..|ds| - 1]), prices, last.event, last.at, u);
    }
  }

  /** A record created by a delivery has no Stripe customer id, and none is ever written. */
  lemma {:induction false} NoCustomerIdWritten(users: Users, prices: PriceIds, ds: seq<Delivery>, u: string)
    requires u !in users || users[u].stripeCustomerId == None
    ensures var r := DeliverAll(users, prices, ds);
            u in r ==> r[u].stripeCustomerId == None
  {
    if |ds| > 0 {
      var prefix := ds[..|ds| - 1];
      var last := ds[|ds| - 1];
      NoCustomerIdWritten(users, prices, prefix, u);
      var before := DeliverAll(users, prices, prefix);
      if u in before {
        DeliverKeepsContactAttributes(before, prices, last.event, last.at, u);
      }
    }
  }

  /** Every stored tier is missing or one of free, scholar and achiever. */
  ghost predicate TiersKnown(users: Users)
  {
    forall u :: u in users && users[u].tier.Some? ==> KnownTier(users[u].tier.value)
  }

  /** A completed checkout whose plan, when present, passed create-checkout's whitelist. */
  predicate IssuedByCheckout(ev: Event)
  {
    ev.CheckoutSessionCompleted? ==>
      var plan := Field(ev.session.metadata, "plan");
      !Truthy(plan) || IsPlan(plan)
  }

  /**
   * Stored tiers stay within free, scholar and achiever, as long as every completed
   * checkout carries metadata that create-checkout wrote.
   */
  lemma {:induction false} TiersStayKnown(users: Users, prices: PriceIds, ds: seq<Delivery>)
    requires TiersKnown(users)
    requires forall i :: 0 <= i < |ds| ==> IssuedByCheckout(ds[i].event)
    ensures TiersKnown(DeliverAll(users, prices, ds))
  {
    if |ds| > 0 {
      var prefix := ds[..|ds| - 1];
      var last := ds[|ds| - 1];
      TiersStayKnown(users, prices, prefix);
      var before := DeliverAll(users, prices, prefix);
      assert IssuedByCheckout(last.event);
      match Reconciliation(prices, last.event)
      case None =>
      case Some(w) =>
        assert KnownTier(w.tier);
        var after := ApplyWrite(before, w, last.at);
        forall u | u in after && after[u].tier.Some? ensures KnownTier(after[u].tier.value) {
          if u != w.userId {
            assert after[u] == before[u];
          }
        }
    }
  }

  /** A completed checkout carrying some other plan in its metadata stores that plan as the tier. */
  lemma ForeignPlanIsStored(users: Users, prices: PriceIds, now: string)
    ensures var r := Deliver(users, prices, CheckoutSessionCompleted(CheckoutSession(Attribution("u1", "premium"), None)), now);
            "u1" in r && r["u1"].tier == Some("premium") && !TiersKnown(r)
  {
  }

  /**
   * A redelivered event that has since been superseded reverts the user's state: with
   * no idempotency key, the late copy wins.
   */
  lemma StaleRedeliveryReverts(users: Users, prices: PriceIds, s: Subscription, t1: string, t2: string, t3: string)
    requires Truthy(Field(s.metadata, "userId")) && s.status == STATUS_ACTIVE
    ensures var u := s.metadata["userId"];
            var r := DeliverAll(users, prices, [Delivery(SubscriptionUpdated(s), t1), Delivery(SubscriptionDeleted(s), t2), Delivery(SubscriptionUpdated(s), t3)]);
            u in r && r[u].stripeSubscriptionId == Some(s.id) && r[u].tier == Some(ResolvePlan(prices, s.itemPrices))
  {
  }

  /**
   * The session metadata written by create-checkout attributes the completed checkout
   * back to the user: the webhook stores the plan bought and the new subscription.
   */
  lemma CheckoutAttributesSession(users: Users, prices: PriceIds, userId: string, plan: string, sub: Option<string>, now: string)
    requires userId != "" && IsPlan(Some(plan))
    ensures var r := Deliver(users, prices, CheckoutSessionCompleted(CheckoutSession(Attribution(userId, plan), sub)), now);
            userId in r && r[userId].tier == Some(plan) && r[userId].stripeSubscriptionId == sub
  {
  }

  /**
   * The subscription metadata written by create-checkout attributes later updates back
   * to the user: an active subscription on the price charged for `plan` stores `plan`,
   * provided the two configured prices differ.
   */
  lemma CheckoutAttributesSubscription(users: Users, prices: PriceIds, userId: string, plan: string, subId: string, now: string)
    requires userId != "" && IsPlan(Some(plan))
    requires prices.scholar != prices.achiever
    ensures var s := Subscription(subId, Attribution(userId, plan), [PriceFor(prices, plan)], STATUS_ACTIVE);
            var r := Deliver(users, prices, SubscriptionUpdated(s), now);
            userId in r && r[userId].tier == Some(plan) && r[userId].stripeSubscriptionId == Some(subId)
  {
  }

  /** A completed scholar checkout followed by the status read reports the scholar row of the table. */
  lemma ScholarCheckoutThenStatus(users: Users, prices: PriceIds, now: string)
    ensures var r := Deliver(users, prices, CheckoutSessionCompleted(CheckoutSession(Attribution("u1", SCHOLAR), Some("sub_abc"))), now);
            StatusOf(r, "u1") == Status(SCHOLAR, Some("sub_abc"), Limits(5, UNLIMITED, UNLIMITED))
  {
  }
}
