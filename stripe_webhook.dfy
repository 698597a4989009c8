/** The Stripe webhook (app/api/webhooks/stripe/route.ts): signature and configuration
    checks, dispatch on the event type, and the four handlers. Stripe itself is an input:
    the result of verifying the signature is the event (or the error message), and the
    answer of `stripe.subscriptions.retrieve` (the subscription, or the error it throws)
    comes with the event. The users' subscription columns are the map `users`; their credit
    balances live in the ledger. */
module StripeWebhook {
  import opened Wrappers
  import opened CreditTypes
  import opened Ledger
  import opened Plans

  /** The subscription columns of one `users` row. */
  datatype SubscriptionFields = SubscriptionFields(
    customerId: Option<string>,
    subscriptionId: Option<string>,
    status: Option<string>,
    plan: Option<string>,
    periodEnd: Option<int>)

  type Directory = map<UserId, SubscriptionFields>

  /** A retrieved Stripe subscription: its id, status, the price of its first item and the
      end of the current period in seconds. */
  datatype StripeSubscription = StripeSubscription(id: string, status: string, priceId: Option<string>, periodEnd: int)

  datatype Session = Session(
    id: string,
    userId: Option<string>,
    mode: string,
    subscriptionId: Option<string>,
    customerId: Option<string>)

  datatype Invoice = Invoice(
    id: string,
    subscriptionId: Option<string>,
    customerId: Option<string>,
    billingReason: Option<string>,
    amountPaid: int)

  datatype Event =
    | CheckoutCompleted(session: Session, retrieved: Result<StripeSubscription>)
    | InvoicePaymentSucceeded(invoice: Invoice, retrieved: Result<StripeSubscription>)
    | SubscriptionUpdated(subscription: StripeSubscription)
    | SubscriptionDeleted(subscription: StripeSubscription)
    | Unhandled(eventType: string)

  /** The `type` of an event. */
  function EventType(e: Event): string {
    match e
    case CheckoutCompleted(_, _) => "checkout.session.completed"
    case InvoicePaymentSucceeded(_, _) => "invoice.payment_succeeded"
    case SubscriptionUpdated(_) => "customer.subscription.updated"
    case SubscriptionDeleted(_) => "customer.subscription.deleted"
    case Unhandled(t) => t
  }

  datatype WebhookState = WebhookState(ledger: LedgerState, users: Directory)

  /** A truthy id. */
  predicate Present(id: Option<string>) {
    id.Some? && id.value != ""
  }

  /** `metadata->>key = value`. */
  predicate MetaIs(m: Metadata, key: string, value: string) {
    key in m && m[key] == value
  }

  /** Rows the checkout idempotency query selects (lines 112-117). */
  predicate IsSessionGrant(t: Tx, sessionId: string) {
    MetaIs(t.metadata, "stripe_session_id", sessionId) && t.operationType == Subscription
  }

  /** Rows the renewal idempotency query selects (lines 170-174): any operation type. */
  predicate IsInvoiceGrant(t: Tx, invoiceId: string) {
    MetaIs(t.metadata, "stripe_invoice_id", invoiceId)
  }

  function SessionGrants(log: seq<Tx>, sessionId: string): nat {
    if log == [] then 0
    else SessionGrants(log[..|log| - 1], sessionId) + (if IsSessionGrant(log[|log| - 1], sessionId) then 1 else 0)
  }

  function InvoiceGrants(log: seq<Tx>, invoiceId: string): nat {
    if log == [] then 0
    else InvoiceGrants(log[..|log| - 1], invoiceId) + (if IsInvoiceGrant(log[|log| - 1], invoiceId) then 1 else 0)
  }

  /** `maybeSingle()` returns a row only when exactly one matches; none or several give null. */
  predicate MaybeSingleFinds(count: nat) {
    count == 1
  }

  function CheckoutMetadata(sessionId: string, plan: string): Metadata {
    map["stripe_session_id" := sessionId, "plan_name" := plan, "type" := "subscription_initial"]
  }

  function RenewalMetadata(invoiceId: string, plan: string): Metadata {
    map["stripe_invoice_id" := invoiceId, "plan_name" := plan, "type" := "subscription_renewal"]
  }

  /** `.update(...).eq('id', userId)`: no row, no change. */
  function UpdateById(users: Directory, userId: UserId, fields: SubscriptionFields): (r: Directory)
    ensures r.Keys == users.Keys
    ensures userId in users ==> r[userId] == fields
    ensures forall u :: u in users && u != userId ==> r[u] == users[u]
  {
    if userId in users then users[userId := fields] else users
  }

  /** A checkout session that gets past the early returns of lines 73-91 and so reaches the
      subscription retrieval of line 93. */
  predicate CheckoutRetrieves(session: Session) {
    Present(session.userId) && session.mode == "subscription"
    && Present(session.subscriptionId) && Present(session.customerId)
  }

  /** handleCheckoutCompleted (lines 71-130); Err is the exception a failed retrieval throws,
      raised before anything is written. */
  function Checkout(s: WebhookState, session: Session, retrieved: Result<StripeSubscription>, env: PriceEnv,
                    faults: StoreFaults): (r: Result<WebhookState>)
    ensures !CheckoutRetrieves(session) ==> r == Ok(s)
    ensures r.Err? <==> CheckoutRetrieves(session) && retrieved.Err?
    ensures r.Err? ==> r.error == retrieved.error
    ensures r.Ok? ==> r.value.users.Keys == s.users.Keys && r.value.ledger.balances.Keys == s.ledger.balances.Keys
  {
    if !CheckoutRetrieves(session) then Ok(s)
    else match retrieved
      case Err(e) => Err(e)
      case Ok(sub) =>
        var userId := session.userId.value;
        var plan := GetPlanNameForPriceId(env, sub.priceId);
        var credits := GetCreditsForPriceId(env, sub.priceId);
        var users := UpdateById(s.users, userId,
          SubscriptionFields(session.customerId, session.subscriptionId, Some("active"), Some(plan), Some(sub.periodEnd)));
        Ok(WebhookState(InitialGrant(s.ledger, userId, session, credits, plan, faults), users))
  }

  /** The credit grant of lines 111-126: once per checkout session, and only for a plan with credits. */
  function InitialGrant(l: LedgerState, userId: UserId, session: Session, credits: int, plan: string,
                        faults: StoreFaults): (g: LedgerState)
    ensures credits <= 0 || MaybeSingleFinds(SessionGrants(l.log, session.id)) ==> g == l
    ensures g.balances.Keys == l.balances.Keys
    ensures forall u :: u in l.balances && u != userId ==> g.balances[u] == l.balances[u]
    ensures userId in l.balances ==> l.balances[userId] <= g.balances[userId]
  {
    if credits > 0 && !MaybeSingleFinds(SessionGrants(l.log, session.id)) then
      Add(l, userId, Subscription, credits, CheckoutMetadata(session.id, plan), None, faults).state
    else l
  }

  /** The users whose subscription or customer id is the invoice's. */
  function Subscribers(users: Directory, subscriptionId: string, customerId: string): set<UserId> {
    set u | u in users && (users[u].subscriptionId == Some(subscriptionId) || users[u].customerId == Some(customerId))
  }

  function OnlyElement(s: set<UserId>): (u: UserId)
    requires |s| == 1
    ensures s == {u}
  {
    SingletonHasOne(s);
    var u :| u in s; u
  }

  lemma SingletonHasOne(s: set<UserId>)
    requires |s| == 1
    ensures forall a, b :: a in s && b in s ==> a == b
  {
    var x :| x in s;
    assert s - {x} == {} by {
      assert |s - {x}| == 0;
    }
  }

  /** The user lookup of lines 146-150, with `maybeSingle()`: found only when unique. */
  function FindSubscriber(users: Directory, subscriptionId: string, customerId: string): (r: Option<UserId>)
    ensures r.Some? <==> |Subscribers(users, subscriptionId, customerId)| == 1
    ensures r.Some? ==> (r.value in users
      && (users[r.value].subscriptionId == Some(subscriptionId) || users[r.value].customerId == Some(customerId)))
  {
    var matches := Subscribers(users, subscriptionId, customerId);
    if |matches| == 1 then
      var u := OnlyElement(matches);
      assert u in matches;
      Some(u)
    else None
  }

  /** An invoice that gets past the early returns of lines 133-161 and so reaches the
      subscription retrieval of line 164. */
  predicate InvoiceRetrieves(users: Directory, invoice: Invoice) {
    Present(invoice.subscriptionId) && Present(invoice.customerId)
    && FindSubscriber(users, invoice.subscriptionId.value, invoice.customerId.value).Some?
    && invoice.billingReason != Some("subscription_create")
  }

  /** handleInvoicePaymentSucceeded (lines 132-195); Err is the exception a failed retrieval
      throws, raised before anything is written. */
  function InvoicePaid(s: WebhookState, invoice: Invoice, retrieved: Result<StripeSubscription>, env: PriceEnv,
                       faults: StoreFaults): (r: Result<WebhookState>)
    ensures !InvoiceRetrieves(s.users, invoice) ==> r == Ok(s)
    ensures r.Err? <==> InvoiceRetrieves(s.users, invoice) && retrieved.Err?
    ensures r.Err? ==> r.error == retrieved.error
    ensures r.Ok? ==> r.value.users.Keys == s.users.Keys && r.value.ledger.balances.Keys == s.ledger.balances.Keys
  {
    if !InvoiceRetrieves(s.users, invoice) then Ok(s)
    else match retrieved
      case Err(e) => Err(e)
      case Ok(sub) =>
        var userId := FindSubscriber(s.users, invoice.subscriptionId.value, invoice.customerId.value).value;
        var credits := GetCreditsForPriceId(env, sub.priceId);
        var plan := GetPlanNameForPriceId(env, sub.priceId);
        var users := s.users[userId := s.users[userId].(periodEnd := Some(sub.periodEnd), status := Some(sub.status))];
        Ok(WebhookState(RenewalGrant(s.ledger, userId, invoice, credits, plan, faults), users))
  }

  /** The user lookup of lines 146-150: a user only when exactly one row matches. */
  method LookUpSubscriber(dir: UserDirectory, subscriptionId: string, customerId: string) returns (found: Option<UserId>)
    ensures found == FindSubscriber(dir.users, subscriptionId, customerId)
    ensures found.Some? ==> found.value in dir.users
  {
    var matches := set u | u in dir.users && (dir.users[u].subscriptionId == Some(subscriptionId) || dir.users[u].customerId == Some(customerId));
    if |matches| != 1 {
      return None;
    }
    var userId :| userId in matches;
    SingletonHasOne(matches);
    return Some(userId);
  }

  /** The credit grant of lines 169-183: once per invoice, and only for a paid invoice of a plan
      with credits. */
  function RenewalGrant(l: LedgerState, userId: UserId, invoice: Invoice, credits: int, plan: string,
                        faults: StoreFaults): (g: LedgerState)
    ensures credits <= 0 || invoice.amountPaid <= 0 || MaybeSingleFinds(InvoiceGrants(l.log, invoice.id)) ==> g == l
    ensures g.balances.Keys == l.balances.Keys
    ensures forall u :: u in l.balances && u != userId ==> g.balances[u] == l.balances[u]
    ensures userId in l.balances ==> l.balances[userId] <= g.balances[userId]
  {
    if credits > 0 && invoice.amountPaid > 0 && !MaybeSingleFinds(InvoiceGrants(l.log, invoice.id)) then
      Add(l, userId, Subscription, credits, RenewalMetadata(invoice.id, plan), None, faults).state
    else l
  }

  /** `.update(...).eq('stripe_subscription_id', id)`: every row with that subscription. */
  function UpdateBySubscription(users: Directory, subscriptionId: string, change: SubscriptionFields -> SubscriptionFields): (r: Directory)
    ensures r.Keys == users.Keys
    ensures forall u :: u in users ==> r[u] == if users[u].subscriptionId == Some(subscriptionId) then change(users[u]) else users[u]
  {
    map u | u in users :: if users[u].subscriptionId == Some(subscriptionId) then change(users[u]) else users[u]
  }

  /** handleSubscriptionUpdated (lines 197-212). */
  function Updated(s: WebhookState, sub: StripeSubscription, env: PriceEnv): (r: WebhookState)
    ensures r.ledger == s.ledger && r.users.Keys == s.users.Keys
    ensures forall u :: u in s.users && s.users[u].subscriptionId != Some(sub.id) ==> r.users[u] == s.users[u]
    ensures forall u :: u in s.users && s.users[u].subscriptionId == Some(sub.id) ==>
      r.users[u] == s.users[u].(status := Some(sub.status), plan := Some(GetPlanNameForPriceId(env, sub.priceId)),
                                periodEnd := Some(sub.periodEnd))
  {
    var plan := GetPlanNameForPriceId(env, sub.priceId);
    s.(users := UpdateBySubscription(s.users, sub.id,
      (f: SubscriptionFields) => f.(status := Some(sub.status), plan := Some(plan), periodEnd := Some(sub.periodEnd))))
  }

  /** handleSubscriptionDeleted (lines 214-223). */
  function Deleted(s: WebhookState, sub: StripeSubscription): (r: WebhookState)
    ensures r.ledger == s.ledger && r.users.Keys == s.users.Keys
    ensures forall u :: u in s.users && s.users[u].subscriptionId != Some(sub.id) ==> r.users[u] == s.users[u]
    ensures forall u :: u in s.users && s.users[u].subscriptionId == Some(sub.id) ==>
      r.users[u] == s.users[u].(status := Some("canceled"))
  {
    s.(users := UpdateBySubscription(s.users, sub.id, (f: SubscriptionFields) => f.(status := Some("canceled"))))
  }

  /** The `switch (event.type)` of lines 47-62; Err when a handler throws. */
  function HandleEvent(s: WebhookState, e: Event, env: PriceEnv, faults: StoreFaults): (r: Result<WebhookState>)
    ensures r.Err? ==> e.CheckoutCompleted? || e.InvoicePaymentSucceeded?
    ensures e.Unhandled? ==> r == Ok(s)
    ensures r.Ok? ==> r.value.users.Keys == s.users.Keys && r.value.ledger.balances.Keys == s.ledger.balances.Keys
  {
    match e
    case CheckoutCompleted(session, retrieved) => Checkout(s, session, retrieved, env, faults)
    case InvoicePaymentSucceeded(invoice, retrieved) => InvoicePaid(s, invoice, retrieved, env, faults)
    case SubscriptionUpdated(sub) => Ok(Updated(s, sub, env))
    case SubscriptionDeleted(sub) => Ok(Deleted(s, sub))
    case Unhandled(_) => Ok(s)
  }

  datatype Body = ErrorBody(error: string) | Received
  datatype Response = Response(status: int, body: Body)

  /** The request as the route sees it: the signature header, and what verifying the body
      against it and the secret yields. */
  datatype WebhookRequest = WebhookRequest(signature: Option<string>, verified: Result<Event>)

  datatype WebhookEnv = WebhookEnv(secret: Option<string>, prices: PriceEnv)

  datatype Handled = Handled(state: WebhookState, response: Response)

  /** POST (lines 20-69): a handler that throws lands in the catch of lines 65-68. */
  function WebhookPost(s: WebhookState, req: WebhookRequest, env: WebhookEnv, faults: StoreFaults): (h: Handled)
    ensures h.response.status != 200 ==> h.state == s
    ensures h.response.status == 200 <==>
      Present(req.signature) && Present(env.secret) && req.verified.Ok?
      && HandleEvent(s, req.verified.value, env.prices, faults).Ok?
  {
    if !Present(req.signature) then Handled(s, Response(400, ErrorBody("Missing signature")))
    else if !Present(env.secret) then Handled(s, Response(500, ErrorBody("Webhook not configured")))
    else match req.verified
      case Err(message) => Handled(s, Response(400, ErrorBody(message)))
      case Ok(e) =>
        match HandleEvent(s, e, env.prices, faults)
        case Err(_) => Handled(s, Response(500, ErrorBody("Webhook failed")))
        case Ok(s') => Handled(s', Response(200, Received))
  }

  /** The subscription columns of the `users` table, updated in place. */
  class UserDirectory {
    var users: Directory

    constructor (initial: Directory)
      ensures users == initial
    {
      users := initial;
    }
  }

  /** Returns the exception thrown, if any; a throw leaves both tables as they were. */
  method HandleCheckoutCompleted(ledger: CreditLedger, dir: UserDirectory, session: Session,
                                 retrieved: Result<StripeSubscription>, env: PriceEnv, faults: StoreFaults)
    returns (thrown: Option<string>)
    modifies ledger, dir
    ensures Checkout(WebhookState(old(ledger.State()), old(dir.users)), session, retrieved, env, faults) ==
      if thrown.None? then Ok(WebhookState(ledger.State(), dir.users)) else Err(thrown.value)
    ensures thrown.Some? ==> ledger.State() == old(ledger.State()) && dir.users == old(dir.users)
  {
    if session.userId.None? || session.userId.value == "" || session.mode != "subscription" {
      return None;
    }
    if session.subscriptionId.None? || session.subscriptionId.value == "" || session.customerId.None? || session.customerId.value == "" {
      return None;
    }
    if retrieved.Err? {
      return Some(retrieved.error);
    }
    var sub := retrieved.value;
    var userId := session.userId.value;
    var plan := GetPlanNameForPriceId(env, sub.priceId);
    var credits := GetCreditsForPriceId(env, sub.priceId);
    if userId in dir.users {
      dir.users := dir.users[userId := SubscriptionFields(session.customerId, session.subscriptionId, Some("active"), Some(plan), Some(sub.periodEnd))];
    }
    GrantInitial(ledger, userId, session, credits, plan, faults);
    thrown := None;
  }

  method GrantInitial(ledger: CreditLedger, userId: UserId, session: Session, credits: int, plan: string,
                      faults: StoreFaults)
    modifies ledger
    ensures ledger.State() == InitialGrant(old(ledger.State()), userId, session, credits, plan, faults)
  {
    if credits > 0 {
      var existing := SessionGrants(ledger.log, session.id);
      if existing != 1 {
        var _ := ledger.AddCredits(userId, Subscription, credits, CheckoutMetadata(session.id, plan), None, faults);
      }
    }
  }

  /** Returns the exception thrown, if any; a throw leaves both tables as they were. */
  method HandleInvoicePaymentSucceeded(ledger: CreditLedger, dir: UserDirectory, invoice: Invoice,
                                       retrieved: Result<StripeSubscription>, env: PriceEnv, faults: StoreFaults)
    returns (thrown: Option<string>)
    modifies ledger, dir
    ensures InvoicePaid(WebhookState(old(ledger.State()), old(dir.users)), invoice, retrieved, env, faults) ==
      if thrown.None? then Ok(WebhookState(ledger.State(), dir.users)) else Err(thrown.value)
    ensures thrown.Some? ==> ledger.State() == old(ledger.State()) && dir.users == old(dir.users)
  {
    if invoice.subscriptionId.None? || invoice.subscriptionId.value == "" || invoice.customerId.None? || invoice.customerId.value == "" {
      return None;
    }
    var found := LookUpSubscriber(dir, invoice.subscriptionId.value, invoice.customerId.value);
    if found.None? {
      return None;
    }
    var userId := found.value;
    if invoice.billingReason == Some("subscription_create") {
      return None;
    }
    if retrieved.Err? {
      return Some(retrieved.error);
    }
    var sub := retrieved.value;
    var credits := GetCreditsForPriceId(env, sub.priceId);
    var plan := GetPlanNameForPriceId(env, sub.priceId);
    var renewed := dir.users[userId := dir.users[userId].(periodEnd := Some(sub.periodEnd), status := Some(sub.status))];
    GrantRenewal(ledger, userId, invoice, credits, plan, faults);
    dir.users := renewed;
    thrown := None;
  }

  method GrantRenewal(ledger: CreditLedger, userId: UserId, invoice: Invoice, credits: int, plan: string,
                      faults: StoreFaults)
    modifies ledger
    ensures ledger.State() == RenewalGrant(old(ledger.State()), userId, invoice, credits, plan, faults)
  {
    if credits > 0 && invoice.amountPaid > 0 {
      var existing := InvoiceGrants(ledger.log, invoice.id);
      if existing != 1 {
        var _ := ledger.AddCredits(userId, Subscription, credits, RenewalMetadata(invoice.id, plan), None, faults);
      }
    }
  }

  method HandleSubscriptionUpdated(dir: UserDirectory, sub: StripeSubscription, env: PriceEnv)
    modifies dir
    ensures dir.users == UpdateBySubscription(old(dir.users), sub.id,
      (f: SubscriptionFields) => f.(status := Some(sub.status), plan := Some(GetPlanNameForPriceId(env, sub.priceId)),
                                    periodEnd := Some(sub.periodEnd)))
  {
    var plan := GetPlanNameForPriceId(env, sub.priceId);
    dir.users := UpdateBySubscription(dir.users, sub.id,
      (f: SubscriptionFields) => f.(status := Some(sub.status), plan := Some(plan), periodEnd := Some(sub.periodEnd)));
  }

  method HandleSubscriptionDeleted(dir: UserDirectory, sub: StripeSubscription)
    modifies dir
    ensures dir.users == UpdateBySubscription(old(dir.users), sub.id, (f: SubscriptionFields) => f.(status := Some("canceled")))
  {
    dir.users := UpdateBySubscription(dir.users, sub.id, (f: SubscriptionFields) => f.(status := Some("canceled")));
  }

  /** The `switch (event.type)` of lines 47-62; returns the exception a handler threw. */
  method Dispatch(ledger: CreditLedger, dir: UserDirectory, e: Event, env: PriceEnv, faults: StoreFaults)
    returns (thrown: Option<string>)
    modifies ledger, dir
    ensures HandleEvent(WebhookState(old(ledger.State()), old(dir.users)), e, env, faults) ==
      if thrown.None? then Ok(WebhookState(ledger.State(), dir.users)) else Err(thrown.value)
    ensures thrown.Some? ==> ledger.State() == old(ledger.State()) && dir.users == old(dir.users)
  {
    thrown := None;
    match e {
      case CheckoutCompleted(session, retrieved) =>
        thrown := HandleCheckoutCompleted(ledger, dir, session, retrieved, env, faults);
      case InvoicePaymentSucceeded(invoice, retrieved) =>
        thrown := HandleInvoicePaymentSucceeded(ledger, dir, invoice, retrieved, env, faults);
      case SubscriptionUpdated(sub) =>
        HandleSubscriptionUpdated(dir, sub, env);
      case SubscriptionDeleted(sub) =>
        HandleSubscriptionDeleted(dir, sub);
      case Unhandled(_) =>
    }
  }

  method Post(ledger: CreditLedger, dir: UserDirectory, req: WebhookRequest, env: WebhookEnv, faults: StoreFaults)
    returns (response: Response)
    modifies ledger, dir
    ensures Handled(WebhookState(ledger.State(), dir.users), response) ==
      WebhookPost(WebhookState(old(ledger.State()), old(dir.users)), req, env, faults)
  {
    if req.signature.None? || req.signature.value == "" {
      return Response(400, ErrorBody("Missing signature"));
    }
    if env.secret.None? || env.secret.value == "" {
      return Response(500, ErrorBody("Webhook not configured"));
    }
    if req.verified.Err? {
      return Response(400, ErrorBody(req.verified.error));
    }
    var thrown := Dispatch(ledger, dir, req.verified.value, env.prices, faults);
    if thrown.Some? {
      return Response(500, ErrorBody("Webhook failed"));
    }
    response := Response(200, Received);
  }
}
