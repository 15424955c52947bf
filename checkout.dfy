/** The arguments create-checkout passes to Stripe when it opens a checkout session. */
module Checkout {
  import opened Wrappers
  import opened Plans

  datatype LineItem = LineItem(price: string, quantity: nat)

  /** The parameters of `stripe.checkout.sessions.create`. */
  datatype CheckoutParams = CheckoutParams(
    mode: string,
    paymentMethodTypes: seq<string>,
    customerEmail: Option<string>,
    lineItems: seq<LineItem>,
    metadata: map<string, string>,
    successUrl: string,
    cancelUrl: string,
    subscriptionMetadata: map<string, string>)

  /**
   * The metadata `{userId, plan}` that checkout attaches to the session and to the
   * subscription: reading it back yields exactly that user and plan, and nothing else.
   */
  function Attribution(userId: string, plan: string): (m: map<string, string>)
    ensures m.Keys == {"userId", "plan"}
    ensures Field(m, "userId") == Some(userId) && Field(m, "plan") == Some(plan)
  {
    map["userId" := userId, "plan" := plan]
  }

  function SuccessUrl(frontendUrl: string): string { frontendUrl + "/dashboard?payment=success" }

  function CancelUrl(frontendUrl: string): string { frontendUrl + "/pricing?payment=cancelled" }

  function PortalReturnUrl(frontendUrl: string): string { frontendUrl + "/dashboard" }
}
