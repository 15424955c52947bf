# Payment handler: subscription tiers reconciled from Stripe events

A Dafny model of the payment handler of the tutoring API
(`packages/api/src/handlers/payment.ts`). The handler serves four routes over one
table of user profile records:

- `POST /payments/create-checkout` opens a Stripe checkout session for the `scholar` or `achiever` plan.
- `POST /payments/webhook` verifies a Stripe event and reconciles the user's tier with at most one `updateUserTier` write.
- `GET /payments/portal` opens a Stripe billing-portal session for the caller's Stripe customer.
- `GET /payments/status` reports the caller's tier, subscription id and limits from the `TIER_LIMITS` table.

Layout, one module per file:

- `wrappers.dfy` (`Wrappers`): `Option`, and JavaScript truthiness of strings (`x || fallback`, `x || null`, `obj?.key`).
- `plans.dfy` (`Plans`): the plan whitelist, `PRICE_IDS`, and plan resolution from a subscription's first price.
- `settings.dfy` (`Settings`): the configuration resolved from the environment, with its defaults.
- `tiers.dfy` (`Tiers`): the `TIER_LIMITS` table and its lookup with the free fallback.
- `profiles.dfy` (`Profiles`): profile records, the `USER#<id>`/`PROFILE` key, the write made by `updateUserTier`, and the status read.
- `events.dfy` (`Events`): verified events, one variant per kind, and the reconciliation of one event.
- `checkout.dfy` (`Checkout`): the parameters sent to Stripe and the `{userId, plan}` attribution metadata.
- `lifecycle.dfy` (`Lifecycle`): sequences of deliveries (last write wins, frames, the tier invariant) and the checkout-to-webhook round trips.
- `handler.dfy` (`PaymentApi`): the class `PaymentHandler`. It holds the table as a `map` field and has one method per route, plus `UpdateUserTier` and the router `Handle`.

Conventions of the model:

- JavaScript truthiness is explicit. A missing or empty `userId`, `plan`, signature header, tier or subscription id counts as absent, as in the source.
- `updateUserTier` is an upsert. A write to a missing record creates one that holds only the written attributes.
- Remote calls become inputs and outputs. Each route returns the sequence of store reads and Stripe calls it makes. Stripe's reply is an input (`None`: the call threw, which gives a server error).
- `stripe.webhooks.constructEvent` is an input function from (body, signature, secret) to an optional verified event.
- `JSON.parse` of the checkout body, with the destructuring of `plan`, is an input function from the raw body to `JsonBody`.

Behaviour of the code worth knowing:

- The status route's `TIER_LIMITS` knows only free, scholar and achiever, but the webhook stores the `plan` field of a completed checkout's metadata unchecked (payment.ts:119-120). `Lifecycle.TiersStayKnown` proves the invariant only for completed checkouts whose metadata passed create-checkout's whitelist. `Lifecycle.ForeignPlanIsStored` shows a metadata plan `"premium"` being stored.
- Handling the same event twice gives the state of one delivery at the later timestamp; only `updatedAt` differs from a single delivery at the earlier time.
- The status read defaults an empty tier or an empty subscription id as it does a missing one.
- Nothing in this handler writes `stripeCustomerId` (`Lifecycle.NoCustomerIdWritten`). The portal route works only for records whose customer id was written elsewhere; account registration is not part of this model.

## Model

| member | source | states |
|---|---|---|
| Wrappers.OrElse | packages/api/src/handlers/payment.ts:201 | JavaScript `x or fallback` on a string: the value when present and non-empty, the fallback otherwise |
| Wrappers.OrNull | packages/api/src/handlers/payment.ts:202 | JavaScript `x or null`: a missing or empty string reads as null |
| Wrappers.Field | packages/api/src/handlers/payment.ts:116-117 | `obj?.key` (session metadata, a store item) is present exactly when the key is, with the stored value |
| Plans.IsPlan | packages/api/src/handlers/payment.ts:51 | the whitelist accepts exactly the plans "scholar" and "achiever"; a missing or empty plan is rejected |
| Plans.PriceFor | packages/api/src/handlers/payment.ts:70 | `PRICE_IDS[plan]` is the achiever price for achiever and the scholar price for scholar |
| Plans.FirstPrice | packages/api/src/handlers/payment.ts:130 | `items.data[0]?.price.id` is present exactly when there is an item, and is the first item's price |
| Plans.ResolvePlan | packages/api/src/handlers/payment.ts:130 | the resolved plan is achiever exactly when the first price equals the configured achiever price, and scholar otherwise (an empty list included) |
| Plans.PlanRoundTrip | packages/api/src/handlers/payment.ts:130 | resolving the price checkout charges for a plan gives that plan back, when the two configured prices differ |
| Plans.SharedPriceMisresolves | packages/api/src/handlers/payment.ts:130 | with one price configured for both plans, a scholar subscription resolves as achiever |
| Settings.ResolveConfig | packages/api/src/handlers/payment.ts:9-15 | each setting takes the environment's value when non-empty, else its own default: secret "", prices "price_scholar" and "price_achiever" independently, frontend URL "https://tutor.agentsform.ai" (the base of the redirect URLs at lines 78-79 and 180) |
| Settings.DefaultPricesDistinct | packages/api/src/handlers/payment.ts:12-15 | with no prices configured the two default prices differ |
| Tiers.TierTable | packages/api/src/handlers/payment.ts:18-34 | the table has a row for exactly free, scholar and achiever: free (2, 20, 10), scholar (5, -1, -1), achiever (10, -1, -1) |
| Tiers.LimitsFor | packages/api/src/handlers/payment.ts:203 | a known tier gets its `TIER_LIMITS` row (free (2, 20, 10), scholar (5, -1, -1), achiever (10, -1, -1)), a missing or unknown tier the free row; paid tiers, and only they, have unlimited (-1) questions and AI calls |
| Tiers.HigherTierGrantsMore | packages/api/src/handlers/payment.ts:18-34 | a higher plan never grants less than a lower one (reading -1 as unlimited) and always more children |
| Profiles.ProfileKey | packages/api/src/handlers/payment.ts:217 | the partition key is `USER#` followed by exactly the user id, and the sort key is `PROFILE` |
| Profiles.ProfileKeyInjective | packages/api/src/handlers/payment.ts:217 | distinct users have distinct keys, so the table may be indexed by user id |
| Profiles.ApplyWrite | packages/api/src/handlers/payment.ts:214-224 | `updateUserTier` sets tier, subscription id and timestamp on one record; it keeps that record's email and customer id, creates the record if missing, and leaves every other record as it was |
| Profiles.ApplyWriteIdempotent | packages/api/src/handlers/payment.ts:214-224 | writing the same call twice equals writing it once at the later time |
| Profiles.ApplyWriteCommutes | packages/api/src/handlers/payment.ts:214-224 | writes to different users commute |
| Profiles.StatusOf | packages/api/src/handlers/payment.ts:198-204 | the status is free/null without a record or with a missing or empty attribute, the stored values otherwise; its limits are those of the reported tier |
| Profiles.StatusAfterWrite | packages/api/src/handlers/payment.ts:200-204 | right after `updateUserTier(u, t, s)` the status of u reports t, s and t's limits |
| Profiles.EmptySubscriptionReadsAsNull | packages/api/src/handlers/payment.ts:202 | an empty subscription id written reads back as null |
| Events.Reconciliation | packages/api/src/handlers/payment.ts:113-154 | a write always names a non-empty user and tier; a tier outside the paid plans comes only from a completed checkout or is free with no subscription; unrecognised kinds write nothing |
| Events.Deliver | packages/api/src/handlers/payment.ts:113-154 | an event that makes no write leaves the table as it was; no record is ever removed |
| Events.CheckoutCompletedSetsPlan | packages/api/src/handlers/payment.ts:114-123 | with userId and plan in the metadata, that user ends with tier = plan and the session's subscription, all other records unchanged; with either missing, nothing changes |
| Events.SubscriptionUpdatedEffect | packages/api/src/handlers/payment.ts:125-140 | active writes the resolved plan (achiever iff the first price is the achiever price) and the subscription id; canceled or unpaid writes free and null whatever the price; other statuses or no userId change nothing |
| Events.SubscriptionDeletedResetsToFree | packages/api/src/handlers/payment.ts:142-150 | a deleted subscription with a userId sets free and null; without one nothing changes |
| Events.OtherEventIsNoop | packages/api/src/handlers/payment.ts:152-153 | unrecognised event kinds change nothing |
| Events.DeliverChangesOnlyTarget | packages/api/src/handlers/payment.ts:113-154 | an event changes no record other than the one it is attributed to |
| Events.DeliverKeepsContactAttributes | packages/api/src/handlers/payment.ts:218 | no event changes a record's email or Stripe customer id |
| Events.RedeliveryIdempotent | packages/api/src/handlers/payment.ts:113-154 | a redelivered event gives the state of a single delivery at the later time |
| Checkout.Attribution | packages/api/src/handlers/payment.ts:74-85 | the checkout metadata holds exactly userId and plan, and reading it back yields them |
| Lifecycle.UntouchedUserUnchanged | packages/api/src/handlers/payment.ts:214-224 | over any sequence of deliveries, a user no event is attributed to keeps their record, or keeps having none |
| Lifecycle.LastWriteWins | packages/api/src/handlers/payment.ts:214-224 | a user's tier, subscription id and timestamp are those of the last delivery attributed to them |
| Lifecycle.ContactAttributesPreserved | packages/api/src/handlers/payment.ts:218 | over any sequence of deliveries, records are never removed and keep their email and customer id |
| Lifecycle.NoCustomerIdWritten | packages/api/src/handlers/payment.ts:218 | a record without a Stripe customer id never gets one from the webhook |
| Lifecycle.TiersStayKnown | packages/api/src/handlers/payment.ts:114-121 | stored tiers stay within free, scholar and achiever while every completed checkout carries whitelisted metadata |
| Lifecycle.ForeignPlanIsStored | packages/api/src/handlers/payment.ts:119-120 | a completed checkout whose metadata plan is "premium" stores tier "premium" |
| Lifecycle.StaleRedeliveryReverts | packages/api/src/handlers/payment.ts:133-147 | a late copy of an active update after a deletion restores the plan resolved from its price and its subscription id: there is no idempotency key |
| Lifecycle.CheckoutAttributesSession | packages/api/src/handlers/payment.ts:74-77 | the session metadata from checkout makes the completed-checkout event store the plan bought and its subscription |
| Lifecycle.CheckoutAttributesSubscription | packages/api/src/handlers/payment.ts:80-85 | the subscription metadata from checkout makes an active update on the charged price store the plan bought, when the prices differ |
| Lifecycle.ScholarCheckoutThenStatus | packages/api/src/handlers/payment.ts:200-204 | after a completed scholar checkout for u1 with sub_abc, the status reports scholar, sub_abc and limits (5, -1, -1) |
| PaymentApi.RouteOf | packages/api/src/handlers/payment.ts:42-207 | each of the four routes is selected exactly by its path and method (POST create-checkout, POST webhook, GET portal, GET status); every other path and method pair is no route |
| PaymentApi.PaymentHandler.UpdateUserTier | packages/api/src/handlers/payment.ts:214-224 | the table becomes `ApplyWrite` of the old table |
| PaymentApi.PaymentHandler.CreateCheckout | packages/api/src/handlers/payment.ts:42-89 | no caller: forbidden; unparsable body: server error; bad plan: bad request; none of the three reads the store or calls Stripe; otherwise one profile read then one subscription-mode session with the plan's price at quantity 1 and `{userId, plan}` as session and subscription metadata, with the redirect URLs of lines 78-79 (`Checkout.SuccessUrl`, `Checkout.CancelUrl`: the frontend URL followed by `/dashboard?payment=success` and `/pricing?payment=cancelled`); Stripe's id and url are forwarded |
| PaymentApi.PaymentHandler.Webhook | packages/api/src/handlers/payment.ts:92-157 | missing signature or failed verification: bad request and no record changed; a verified event is acknowledged and the table becomes `Deliver` of it |
| PaymentApi.PaymentHandler.Portal | packages/api/src/handlers/payment.ts:160-184 | no caller: forbidden; no customer id: bad request after one profile read and no Stripe call; otherwise a portal session for that customer whose return URL is the frontend URL followed by `/dashboard` (line 180, `Checkout.PortalReturnUrl`), url forwarded |
| PaymentApi.PaymentHandler.GetStatus | packages/api/src/handlers/payment.ts:187-205 | no caller: forbidden with no read; otherwise one profile read and `StatusOf` the caller |
| PaymentApi.PaymentHandler.Handle | packages/api/src/handlers/payment.ts:36-212 | each route gets its own route's outcome (checkout, webhook, portal and status contracts); only the webhook route changes the table; an unknown route is "Invalid endpoint" with no calls |

## Left out

- Stripe signature cryptography: `constructEvent` is an input function; its timestamped HMAC is not modelled.
- Stripe session creation is a remote call: the model keeps the arguments passed and forwards the returned id and url, supplied as an input.
- DynamoDB transport failures are not modelled. A store read or write that throws would give a server error; the model's store calls always succeed. In particular, a webhook whose write throws is not acknowledged, and that path is not modelled.
- `process.env` is read once into `Settings.Config`. `new Date().toISOString()` is the `now` input.
- `JSON.parse` is an input function. A `plan` that is not a string is modelled as missing, which the whitelist rejects just the same.
- Console logging is left out, and so are the response envelope helpers (`success`, `badRequest`, `forbidden`, `serverError`), beyond the status kind and message.
- Tiers.LimitsFor: a JavaScript property lookup also finds keys inherited from `Object.prototype` (a tier of `"toString"` yields a function). Only the three table rows are modelled.
- `session.subscription` is modelled as an optional string id. The case of an expanded subscription object is left out.
- Concurrent webhook deliveries are left out: each invocation is atomic and deliveries are sequential (`Lifecycle.DeliverAll`).
- `packages/api/src/handlers/admin.ts` is not part of this model: it reshapes store scans and Stripe listings and does float arithmetic on amounts.
- `packages/curriculum/src/types.ts` is not part of this model: it declares types only.
