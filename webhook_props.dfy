/** Replaying a Stripe event: the grant is idempotent as long as the log holds at most one
    row for the event's session or invoice, and the log insert succeeds. */
module StripeWebhookProperties {
  import opened Wrappers
  import opened CreditTypes
  import opened Ledger
  import opened Plans
  import opened StripeWebhook

  lemma SessionGrantsAppend(log: seq<Tx>, t: Tx, sessionId: string)
    ensures SessionGrants(log + [t], sessionId) == SessionGrants(log, sessionId) + (if IsSessionGrant(t, sessionId) then 1 else 0)
  {
    assert (log + [t])[..|log|] == log;
  }

  lemma InvoiceGrantsAppend(log: seq<Tx>, t: Tx, invoiceId: string)
    ensures InvoiceGrants(log + [t], invoiceId) == InvoiceGrants(log, invoiceId) + (if IsInvoiceGrant(t, invoiceId) then 1 else 0)
  {
    assert (log + [t])[..|log|] == log;
  }

  /** The checkout grant, when it happens, writes exactly one row the checkout query selects. */
  lemma CheckoutGrantCounted(s: LedgerState, userId: UserId, credits: int, sessionId: string, plan: string, faults: StoreFaults)
    requires !faults.insertFails
    ensures var a := Add(s, userId, Subscription, credits, CheckoutMetadata(sessionId, plan), None, faults);
      SessionGrants(a.state.log, sessionId) == SessionGrants(s.log, sessionId) + (if a.result.success then 1 else 0)
  {
    var a := Add(s, userId, Subscription, credits, CheckoutMetadata(sessionId, plan), None, faults);
    if a.result.success {
      var before := s.balances[userId];
      SessionGrantsAppend(s.log, Tx(s.nextId, userId, Subscription, credits, before, before + credits,
                                    CheckoutMetadata(sessionId, plan), None), sessionId);
    }
  }

  lemma RenewalGrantCounted(s: LedgerState, userId: UserId, credits: int, invoiceId: string, plan: string, faults: StoreFaults)
    requires !faults.insertFails
    ensures var a := Add(s, userId, Subscription, credits, RenewalMetadata(invoiceId, plan), None, faults);
      InvoiceGrants(a.state.log, invoiceId) == InvoiceGrants(s.log, invoiceId) + (if a.result.success then 1 else 0)
  {
    var a := Add(s, userId, Subscription, credits, RenewalMetadata(invoiceId, plan), None, faults);
    if a.result.success {
      var before := s.balances[userId];
      InvoiceGrantsAppend(s.log, Tx(s.nextId, userId, Subscription, credits, before, before + credits,
                                    RenewalMetadata(invoiceId, plan), None), invoiceId);
    }
  }

  /** Replaying a checkout changes nothing more: the subscription row gets the same values
      and the credits are granted once. */
  lemma CheckoutReplayIdempotent(s: WebhookState, session: Session, retrieved: Result<StripeSubscription>, env: PriceEnv,
                                  faults: StoreFaults)
    requires !faults.insertFails && SessionGrants(s.ledger.log, session.id) <= 1
    ensures var once := Checkout(s, session, retrieved, env, faults);
      once.Ok? ==> Checkout(once.value, session, retrieved, env, faults) == once
  {
    if CheckoutRetrieves(session) && retrieved.Ok? {
      var sub := retrieved.value;
      var userId := session.userId.value;
      var plan := GetPlanNameForPriceId(env, sub.priceId);
      var credits := GetCreditsForPriceId(env, sub.priceId);
      var fields := SubscriptionFields(session.customerId, session.subscriptionId, Some("active"), Some(plan), Some(sub.periodEnd));
      UpdateByIdTwice(s.users, userId, fields);
      CheckoutLedgerReplay(s.ledger, userId, session, credits, plan, faults);
    }
  }

  lemma UpdateByIdTwice(users: Directory, userId: UserId, fields: SubscriptionFields)
    ensures UpdateById(UpdateById(users, userId, fields), userId, fields) == UpdateById(users, userId, fields)
  {
  }

  /** The ledger half of a checkout, run twice, grants at most once. */
  lemma CheckoutLedgerReplay(l: LedgerState, userId: UserId, session: Session, credits: int, plan: string, faults: StoreFaults)
    requires !faults.insertFails && SessionGrants(l.log, session.id) <= 1
    ensures var once := InitialGrant(l, userId, session, credits, plan, faults);
      InitialGrant(once, userId, session, credits, plan, faults) == once
  {
    if credits > 0 && SessionGrants(l.log, session.id) == 0 {
      CheckoutGrantCounted(l, userId, credits, session.id, plan, faults);
    }
  }

  /** A first checkout for a known user with a priced plan adds the plan's credits once and
      leaves exactly one matching row. */
  lemma CheckoutGrantsOnce(s: WebhookState, session: Session, sub: StripeSubscription, env: PriceEnv)
    requires Present(session.userId) && session.mode == "subscription"
    requires Present(session.subscriptionId) && Present(session.customerId)
    requires session.userId.value in s.ledger.balances
    requires GetCreditsForPriceId(env, sub.priceId) > 0 && SessionGrants(s.ledger.log, session.id) == 0
    ensures var once := Checkout(s, session, Ok(sub), env, NoFaults);
      var u := session.userId.value;
      && once.Ok?
      && once.value.ledger.balances == s.ledger.balances[u := s.ledger.balances[u] + GetCreditsForPriceId(env, sub.priceId)]
      && SessionGrants(once.value.ledger.log, session.id) == 1
      && Checkout(once.value, session, Ok(sub), env, NoFaults) == once
  {
    CheckoutGrantCounted(s.ledger, session.userId.value, GetCreditsForPriceId(env, sub.priceId), session.id,
                         GetPlanNameForPriceId(env, sub.priceId), NoFaults);
    CheckoutReplayIdempotent(s, session, Ok(sub), env, NoFaults);
  }

  /** The invoice's own update touches neither id column, so a replay finds the same user. */
  lemma SubscribersKeptByRenewal(users: Directory, u: UserId, sub: StripeSubscription, subscriptionId: string, customerId: string)
    requires u in users
    ensures var users' := users[u := users[u].(periodEnd := Some(sub.periodEnd), status := Some(sub.status))];
      Subscribers(users', subscriptionId, customerId) == Subscribers(users, subscriptionId, customerId)
  {
  }

  lemma InvoiceReplayIdempotent(s: WebhookState, invoice: Invoice, retrieved: Result<StripeSubscription>, env: PriceEnv,
                                 faults: StoreFaults)
    requires !faults.insertFails && InvoiceGrants(s.ledger.log, invoice.id) <= 1
    ensures var once := InvoicePaid(s, invoice, retrieved, env, faults);
      once.Ok? ==> InvoicePaid(once.value, invoice, retrieved, env, faults) == once
  {
    if Present(invoice.subscriptionId) && Present(invoice.customerId) && retrieved.Ok? {
      var sub := retrieved.value;
      var found := FindSubscriber(s.users, invoice.subscriptionId.value, invoice.customerId.value);
      if found.Some? && invoice.billingReason != Some("subscription_create") {
        var userId := found.value;
        var users' := s.users[userId := s.users[userId].(periodEnd := Some(sub.periodEnd), status := Some(sub.status))];
        SubscribersKeptByRenewal(s.users, userId, sub, invoice.subscriptionId.value, invoice.customerId.value);
        assert FindSubscriber(users', invoice.subscriptionId.value, invoice.customerId.value) == found;
        assert users'[userId := users'[userId].(periodEnd := Some(sub.periodEnd), status := Some(sub.status))] == users';
        InvoiceLedgerReplay(s.ledger, userId, GetCreditsForPriceId(env, sub.priceId), invoice,
                            GetPlanNameForPriceId(env, sub.priceId), faults);
      }
    }
  }

  /** The ledger half of a renewal, run twice, grants at most once. */
  lemma InvoiceLedgerReplay(l: LedgerState, userId: UserId, credits: int, invoice: Invoice, plan: string, faults: StoreFaults)
    requires !faults.insertFails && InvoiceGrants(l.log, invoice.id) <= 1
    ensures var once := RenewalGrant(l, userId, invoice, credits, plan, faults);
      RenewalGrant(once, userId, invoice, credits, plan, faults) == once
  {
    if credits > 0 && invoice.amountPaid > 0 && InvoiceGrants(l.log, invoice.id) == 0 {
      RenewalGrantCounted(l, userId, credits, invoice.id, plan, faults);
    }
  }

  /** Status updates and cancellations set fixed values, so repeating one changes nothing. */
  lemma UpdatedTwice(s: WebhookState, sub: StripeSubscription, env: PriceEnv)
    ensures Updated(Updated(s, sub, env), sub, env) == Updated(s, sub, env)
  {
    var once := Updated(s, sub, env);
    var twice := Updated(once, sub, env);
    assert twice.users.Keys == once.users.Keys;
    forall u | u in once.users ensures twice.users[u] == once.users[u] {
    }
    assert twice.users == once.users;
  }

  lemma DeletedTwice(s: WebhookState, sub: StripeSubscription)
    ensures Deleted(Deleted(s, sub), sub) == Deleted(s, sub)
  {
    var once := Deleted(s, sub);
    var twice := Deleted(once, sub);
    assert twice.users.Keys == once.users.Keys;
    forall u | u in once.users ensures twice.users[u] == once.users[u] {
    }
    assert twice.users == once.users;
  }

  /** The condition under which a replay of the event adds nothing: at most one row already
      answers the event's idempotency query. */
  ghost predicate ReplaySafe(s: WebhookState, e: Event) {
    match e
    case CheckoutCompleted(session, _) => SessionGrants(s.ledger.log, session.id) <= 1
    case InvoicePaymentSucceeded(invoice, _) => InvoiceGrants(s.ledger.log, invoice.id) <= 1
    case _ => true
  }

  /** Delivering the same request twice has the effect of delivering it once. */
  lemma WebhookReplayIdempotent(s: WebhookState, req: WebhookRequest, env: WebhookEnv, faults: StoreFaults)
    requires !faults.insertFails
    requires req.verified.Ok? ==> ReplaySafe(s, req.verified.value)
    ensures var once := WebhookPost(s, req, env, faults);
      WebhookPost(once.state, req, env, faults) == once
  {
    if Present(req.signature) && Present(env.secret) && req.verified.Ok? {
      HandleEventReplay(s, req.verified.value, env.prices, faults);
    }
  }

  lemma HandleEventReplay(s: WebhookState, e: Event, env: PriceEnv, faults: StoreFaults)
    requires !faults.insertFails && ReplaySafe(s, e)
    ensures var once := HandleEvent(s, e, env, faults);
      once.Ok? ==> HandleEvent(once.value, e, env, faults) == once
  {
    match e {
      case CheckoutCompleted(session, retrieved) => CheckoutReplayIdempotent(s, session, retrieved, env, faults);
      case InvoicePaymentSucceeded(invoice, retrieved) => InvoiceReplayIdempotent(s, invoice, retrieved, env, faults);
      case SubscriptionUpdated(sub) => UpdatedTwice(s, sub, env);
      case SubscriptionDeleted(sub) => DeletedTwice(s, sub);
      case Unhandled(_) =>
    }
  }

  /** Only the four listed event types act; anything else is acknowledged and changes nothing. */
  lemma UnhandledEventsAcknowledged(s: WebhookState, signature: string, eventType: string, env: WebhookEnv, faults: StoreFaults)
    requires signature != "" && Present(env.secret)
    ensures WebhookPost(s, WebhookRequest(Some(signature), Ok(Unhandled(eventType))), env, faults) ==
      Handled(s, Response(200, Received))
  {
  }

  /** A checkout without a user, outside subscription mode or without both ids changes nothing. */
  lemma CheckoutIgnored(s: WebhookState, session: Session, retrieved: Result<StripeSubscription>, env: PriceEnv,
                        faults: StoreFaults)
    requires !Present(session.userId) || session.mode != "subscription"
      || !Present(session.subscriptionId) || !Present(session.customerId)
    ensures Checkout(s, session, retrieved, env, faults) == Ok(s)
  {
  }

  /** An activated subscription gets status 'active', the plan name of its price, and its ids. */
  lemma CheckoutActivates(s: WebhookState, session: Session, sub: StripeSubscription, env: PriceEnv, faults: StoreFaults)
    requires Present(session.userId) && session.mode == "subscription"
    requires Present(session.subscriptionId) && Present(session.customerId)
    requires session.userId.value in s.users
    ensures Checkout(s, session, Ok(sub), env, faults).Ok?
    ensures Checkout(s, session, Ok(sub), env, faults).value.users[session.userId.value] ==
      SubscriptionFields(session.customerId, session.subscriptionId, Some("active"),
                         Some(GetPlanNameForPriceId(env, sub.priceId)), Some(sub.periodEnd))
  {
  }

  /** Initial invoices, invoices without a unique user and unpaid or unpriced renewals grant nothing. */
  lemma InvoiceNotGranted(s: WebhookState, invoice: Invoice, sub: StripeSubscription, env: PriceEnv, faults: StoreFaults)
    requires !Present(invoice.subscriptionId) || !Present(invoice.customerId)
      || FindSubscriber(s.users, invoice.subscriptionId.value, invoice.customerId.value).None?
      || invoice.billingReason == Some("subscription_create")
      || invoice.amountPaid <= 0 || GetCreditsForPriceId(env, sub.priceId) == 0
    ensures InvoicePaid(s, invoice, Ok(sub), env, faults).Ok?
    ensures InvoicePaid(s, invoice, Ok(sub), env, faults).value.ledger == s.ledger
  {
  }

  /** The renewal query does not look at the operation type: any row carrying the invoice id
      blocks the grant, while the checkout query counts only 'subscription' rows. */
  lemma LookupsDiffer(t: Tx, id: string)
    requires MetaIs(t.metadata, "stripe_session_id", id) && MetaIs(t.metadata, "stripe_invoice_id", id)
    requires t.operationType != Subscription
    ensures SessionGrants([t], id) == 0 && InvoiceGrants([t], id) == 1
  {
    assert [t][..0] == [];
  }

  /** `maybeSingle()` finds nothing when two rows match, so a ledger that already holds two
      grants for a session receives a third. */
  lemma DuplicateRowsDefeatTheCheck(s: WebhookState, session: Session, sub: StripeSubscription, env: PriceEnv)
    requires Present(session.userId) && session.mode == "subscription"
    requires Present(session.subscriptionId) && Present(session.customerId)
    requires session.userId.value in s.ledger.balances
    requires GetCreditsForPriceId(env, sub.priceId) > 0 && SessionGrants(s.ledger.log, session.id) == 2
    ensures Checkout(s, session, Ok(sub), env, NoFaults).Ok?
    ensures SessionGrants(Checkout(s, session, Ok(sub), env, NoFaults).value.ledger.log, session.id) == 3
  {
    CheckoutGrantCounted(s.ledger, session.userId.value, GetCreditsForPriceId(env, sub.priceId), session.id,
                         GetPlanNameForPriceId(env, sub.priceId), NoFaults);
  }

  /** A handler whose subscription retrieval throws answers 500 'Webhook failed' and writes
      nothing, so Stripe's redelivery meets the state the first delivery met. */
  lemma FailedRetrievalRejected(s: WebhookState, req: WebhookRequest, env: WebhookEnv, faults: StoreFaults)
    requires Present(req.signature) && Present(env.secret) && req.verified.Ok?
    requires match req.verified.value
      case CheckoutCompleted(session, retrieved) => CheckoutRetrieves(session) && retrieved.Err?
      case InvoicePaymentSucceeded(invoice, retrieved) => InvoiceRetrieves(s.users, invoice) && retrieved.Err?
      case _ => false
    ensures WebhookPost(s, req, env, faults) == Handled(s, Response(500, ErrorBody("Webhook failed")))
  {
  }

  /** The retrieval is made only past the early returns: before them a failing retrieval is
      never seen, and the event is acknowledged without change. */
  lemma EarlyReturnSkipsRetrieval(s: WebhookState, session: Session, invoice: Invoice, error: string, env: PriceEnv,
                                  faults: StoreFaults)
    requires !CheckoutRetrieves(session) && !InvoiceRetrieves(s.users, invoice)
    ensures Checkout(s, session, Err(error), env, faults) == Ok(s)
    ensures InvoicePaid(s, invoice, Err(error), env, faults) == Ok(s)
  {
  }

  /** Subscription updates and deletions never touch credits; a deletion changes only the status. */
  lemma StatusEventsKeepCredits(s: WebhookState, sub: StripeSubscription, env: PriceEnv)
    ensures Updated(s, sub, env).ledger == s.ledger && Deleted(s, sub).ledger == s.ledger
    ensures var users := Deleted(s, sub).users;
      users.Keys == s.users.Keys
      && forall u :: u in s.users ==>
        (users[u] == if s.users[u].subscriptionId == Some(sub.id) then s.users[u].(status := Some("canceled")) else s.users[u])
  {
  }
}
