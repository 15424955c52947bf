/** The payment HTTP handler: its four routes over the profile table. */
module PaymentApi {
  import opened Wrappers
  import opened Plans
  import opened Settings
  import opened Tiers
  import opened Profiles
  import opened Events
  import opened Checkout

  /** What Stripe returns for a created checkout or portal session. */
  datatype Session = Session(id: string, url: string)

  /** The JSON body of a create-checkout request, read for its `plan` field. */
  datatype JsonBody =
    | Unparsable               // JSON.parse threw, or the value cannot be destructured
    | Parsed(plan: Option<string>)   // `plan` when it is a string, None otherwise

  datatype ResponseBody =
    | CheckoutStarted(sessionId: string, url: string)
    | Received
    | PortalOpened(url: string)
    | StatusReport(status: Status)

  datatype Response =
    | Success(body: ResponseBody)
    | BadRequest(message: string)
    | Forbidden(message: string)
    | ServerError

  /** The calls a request makes to the store and to Stripe, in order. */
  datatype Call =
    | GetProfile(key: Key)
    | CreateCheckoutSession(params: CheckoutParams)
    | CreatePortalSession(customer: string, returnUrl: string)

  datatype Request = Request(
    rawPath: string,
    httpMethod: string,
    caller: Option<string>,        // what the authorizer resolves as the caller's user id
    headers: map<string, string>,
    body: Option<string>)

  const AUTH_REQUIRED: string := "Authentication required"
  const INVALID_PLAN: string := "Invalid plan. Must be \"scholar\" or \"achiever\""
  const MISSING_SIGNATURE: string := "Missing stripe-signature header"
  const SIGNATURE_FAILED: string := "Webhook signature verification failed"
  const NO_SUBSCRIPTION: string := "No subscription found. Please subscribe first."
  const INVALID_ENDPOINT: string := "Invalid endpoint"
  const SIGNATURE_HEADER: string := "stripe-signature"

  datatype Route = CreateCheckoutRoute | WebhookRoute | PortalRoute | StatusRoute | NoRoute

  function RouteOf(path: string, httpMethod: string): (r: Route)
    ensures r == CreateCheckoutRoute <==> path == "/payments/create-checkout" && httpMethod == "POST"
    ensures r == WebhookRoute <==> path == "/payments/webhook" && httpMethod == "POST"
    ensures r == PortalRoute <==> path == "/payments/portal" && httpMethod == "GET"
    ensures r == StatusRoute <==> path == "/payments/status" && httpMethod == "GET"
    ensures r == NoRoute <==>
              !(httpMethod == "POST" && (path == "/payments/create-checkout" || path == "/payments/webhook"))
              && !(httpMethod == "GET" && (path == "/payments/portal" || path == "/payments/status"))
  {
    if path == "/payments/create-checkout" && httpMethod == "POST" then CreateCheckoutRoute
    else if path == "/payments/webhook" && httpMethod == "POST" then WebhookRoute
    else if path == "/payments/portal" && httpMethod == "GET" then PortalRoute
    else if path == "/payments/status" && httpMethod == "GET" then StatusRoute
    else NoRoute
  }

  /** The handler over the profile table; each call handles one request atomically. */
  class PaymentHandler {
    var users: Users
    const config: Config

    constructor (config: Config, users: Users)
      ensures this.config == config && this.users == users
    {
      this.config := config;
      this.users := users;
    }

    /** `updateUserTier`: sets tier, subscription id and timestamp on one record. */
    method UpdateUserTier(userId: string, tier: string, subscriptionId: Option<string>, now: string)
      modifies this
      ensures users == ApplyWrite(old(users), TierWrite(userId, tier, subscriptionId), now)
    {
      users := ApplyWrite(users, TierWrite(userId, tier, subscriptionId), now);
    }

    /**
     * The contract of create-checkout: no caller is forbidden, an unparsable body a
     * server error and a plan outside the whitelist a bad request, all three before
     * any store read or Stripe call. Otherwise one read of the caller's profile, then
     * one subscription-mode session for the plan's price at quantity 1, attributed to
     * the caller and the plan; Stripe's id and url are forwarded.
     */
    ghost predicate CheckoutOutcome(table: Users, caller: Option<string>, body: Option<string>,
                                    parseJson: string -> JsonBody, reply: Option<Session>,
                                    resp: Response, calls: seq<Call>)
    {
      var parsed := parseJson(OrElse(body, "{}"));
      if !Truthy(caller) then resp == Forbidden(AUTH_REQUIRED) && calls == []
      else if parsed.Unparsable? then resp == ServerError && calls == []
      else if !IsPlan(parsed.plan) then resp == BadRequest(INVALID_PLAN) && calls == []
      else
        var userId := caller.value;
        var plan := parsed.plan.value;
        |calls| == 2 && calls[0] == GetProfile(ProfileKey(userId))
        && calls[1].CreateCheckoutSession?
        && calls[1].params.mode == "subscription"
        && calls[1].params.paymentMethodTypes == ["card"]
        && calls[1].params.customerEmail == (if userId in table then table[userId].email else None)
        && calls[1].params.lineItems == [LineItem(PriceFor(config.prices, plan), 1)]
        && calls[1].params.metadata == Attribution(userId, plan)
        && calls[1].params.subscriptionMetadata == Attribution(userId, plan)
        && calls[1].params.successUrl == SuccessUrl(config.frontendUrl)
        && calls[1].params.cancelUrl == CancelUrl(config.frontendUrl)
        && resp == (if reply.Some? then Success(CheckoutStarted(reply.value.id, reply.value.url)) else ServerError)
    }

    /**
     * The contract of the portal route: no caller is forbidden with no calls; a caller
     * without a Stripe customer id gets a bad request after one profile read; otherwise
     * a portal session for that customer, its url forwarded.
     */
    ghost predicate PortalOutcome(table: Users, caller: Option<string>, reply: Option<Session>,
                                  resp: Response, calls: seq<Call>)
    {
      if !Truthy(caller) then resp == Forbidden(AUTH_REQUIRED) && calls == []
      else
        var userId := caller.value;
        var customer := if userId in table then table[userId].stripeCustomerId else None;
        if !Truthy(customer) then resp == BadRequest(NO_SUBSCRIPTION) && calls == [GetProfile(ProfileKey(userId))]
        else
          calls == [GetProfile(ProfileKey(userId)), CreatePortalSession(customer.value, PortalReturnUrl(config.frontendUrl))]
          && resp == (if reply.Some? then Success(PortalOpened(reply.value.url)) else ServerError)
    }

    /**
     * The contract of the status route: no caller is forbidden with no read; otherwise
     * one profile read and the caller's status.
     */
    ghost predicate StatusOutcome(table: Users, caller: Option<string>, resp: Response, calls: seq<Call>)
    {
      if !Truthy(caller) then resp == Forbidden(AUTH_REQUIRED) && calls == []
      else calls == [GetProfile(ProfileKey(caller.value))] && resp == Success(StatusReport(StatusOf(table, caller.value)))
    }

    /**
     * POST /payments/create-checkout. Without a caller: forbidden; with a plan outside
     * the whitelist: bad request; both before any store read or Stripe call. Otherwise
     * one store read for the email, then one checkout session for the plan's price,
     * attributed to the caller and the plan; `reply` is Stripe's answer (None: it threw).
     */
    method CreateCheckout(caller: Option<string>, body: Option<string>, parseJson: string -> JsonBody,
                          reply: Option<Session>)
      returns (resp: Response, calls: seq<Call>)
      ensures CheckoutOutcome(users, caller, body, parseJson, reply, resp, calls)
    {
      if !Truthy(caller) {
        return Forbidden(AUTH_REQUIRED), [];
      }
      var userId := caller.value;
      var parsed := parseJson(OrElse(body, "{}"));
      if parsed.Unparsable? {
        return ServerError, [];
      }
      var plan := parsed.plan;
      if !Truthy(plan) || !(plan.value in [SCHOLAR, ACHIEVER]) {
        return BadRequest(INVALID_PLAN), [];
      }
      calls := [GetProfile(ProfileKey(userId))];
      var email := if userId in users then users[userId].email else None;
      var params := CheckoutParams(
        "subscription", ["card"], email,
        [LineItem(PriceFor(config.prices, plan.value), 1)],
        map["userId" := userId, "plan" := plan.value],
        SuccessUrl(config.frontendUrl), CancelUrl(config.frontendUrl),
        map["userId" := userId, "plan" := plan.value]);
      calls := calls + [CreateCheckoutSession(params)];
      match reply
      case None => resp := ServerError;
      case Some(session) => resp := Success(CheckoutStarted(session.id, session.url));
    }

    /**
     * The contract of the webhook route: a missing or empty signature, or one
     * `constructEvent` rejects, is a bad request that changes nothing; a verified event
     * is acknowledged and the table becomes `Deliver` of it.
     */
    ghost predicate WebhookOutcome(before: Users, after: Users, resp: Response, headers: map<string, string>,
                                   body: Option<string>, constructEvent: (string, string, string) -> Option<Event>,
                                   now: string)
    {
      var sig := Field(headers, SIGNATURE_HEADER);
      if !Truthy(sig) then resp == BadRequest(MISSING_SIGNATURE) && after == before
      else
        var verified := constructEvent(OrElse(body, ""), sig.value, config.webhookSecret);
        if verified.None? then resp == BadRequest(SIGNATURE_FAILED) && after == before
        else resp == Success(Received) && after == Deliver(before, config.prices, verified.value, now)
    }

    /**
     * POST /payments/webhook. A missing or empty signature, or one `constructEvent`
     * rejects, is a bad request and changes nothing; a verified event makes at most one
     * `updateUserTier` call and is acknowledged.
     */
    method Webhook(headers: map<string, string>, body: Option<string>,
                   constructEvent: (string, string, string) -> Option<Event>, now: string)
      returns (resp: Response)
      modifies this
      ensures WebhookOutcome(old(users), users, resp, headers, body, constructEvent, now)
    {
      var sig := Field(headers, SIGNATURE_HEADER);
      if !Truthy(sig) {
        return BadRequest(MISSING_SIGNATURE);
      }
      var verified := constructEvent(OrElse(body, ""), sig.value, config.webhookSecret);
      if verified.None? {
        return BadRequest(SIGNATURE_FAILED);
      }
      var write := Reconciliation(config.prices, verified.value);
      if write.Some? {
        UpdateUserTier(write.value.userId, write.value.tier, write.value.subscriptionId, now);
      }
      resp := Success(Received);
    }

    /**
     * GET /payments/portal. Without a caller: forbidden. A caller whose record has no
     * Stripe customer id gets a bad request and no portal session; otherwise a portal
     * session for that customer, its url forwarded.
     */
    method Portal(caller: Option<string>, reply: Option<Session>) returns (resp: Response, calls: seq<Call>)
      ensures PortalOutcome(users, caller, reply, resp, calls)
    {
      if !Truthy(caller) {
        return Forbidden(AUTH_REQUIRED), [];
      }
      var userId := caller.value;
      calls := [GetProfile(ProfileKey(userId))];
      var customer := if userId in users then users[userId].stripeCustomerId else None;
      if !Truthy(customer) {
        return BadRequest(NO_SUBSCRIPTION), calls;
      }
      calls := calls + [CreatePortalSession(customer.value, PortalReturnUrl(config.frontendUrl))];
      match reply
      case None => resp := ServerError;
      case Some(session) => resp := Success(PortalOpened(session.url));
    }

    /**
     * GET /payments/status. Without a caller: forbidden; otherwise one store read and
     * the caller's tier, subscription id and limits, with their defaults.
     */
    method GetStatus(caller: Option<string>) returns (resp: Response, calls: seq<Call>)
      ensures StatusOutcome(users, caller, resp, calls)
    {
      if !Truthy(caller) {
        return Forbidden(AUTH_REQUIRED), [];
      }
      calls := [GetProfile(ProfileKey(caller.value))];
      resp := Success(StatusReport(StatusOf(users, caller.value)));
    }

    /**
     * `handler`: routes by path and method. Each route meets its own route's contract,
     * only the webhook route writes the table, and anything else is an invalid endpoint.
     */
    method Handle(req: Request, parseJson: string -> JsonBody,
                  constructEvent: (string, string, string) -> Option<Event>,
                  checkoutReply: Option<Session>, portalReply: Option<Session>, now: string)
      returns (resp: Response, calls: seq<Call>)
      modifies this
      ensures RouteOf(req.rawPath, req.httpMethod) != WebhookRoute ==> users == old(users)
      ensures RouteOf(req.rawPath, req.httpMethod) == NoRoute ==> resp == BadRequest(INVALID_ENDPOINT) && calls == []
      ensures RouteOf(req.rawPath, req.httpMethod) == CreateCheckoutRoute ==>
                CheckoutOutcome(users, req.caller, req.body, parseJson, checkoutReply, resp, calls)
      ensures RouteOf(req.rawPath, req.httpMethod) == PortalRoute ==>
                PortalOutcome(users, req.caller, portalReply, resp, calls)
      ensures RouteOf(req.rawPath, req.httpMethod) == StatusRoute ==>
                StatusOutcome(users, req.caller, resp, calls)
      ensures RouteOf(req.rawPath, req.httpMethod) == WebhookRoute ==>
                calls == [] && WebhookOutcome(old(users), users, resp, req.headers, req.body, constructEvent, now)
    {
      match RouteOf(req.rawPath, req.httpMethod)
      case CreateCheckoutRoute =>
        resp, calls := CreateCheckout(req.caller, req.body, parseJson, checkoutReply);
      case WebhookRoute =>
        resp := Webhook(req.headers, req.body, constructEvent, now);
        calls := [];
      case PortalRoute =>
        resp, calls := Portal(req.caller, portalReply);
      case StatusRoute =>
        resp, calls := GetStatus(req.caller);
      case NoRoute =>
        resp, calls := BadRequest(INVALID_ENDPOINT), [];
    }
  }
}
