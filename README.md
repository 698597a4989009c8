# Credits, billing and client state of a SaaS starter, in Dafny

This project models the core of a Next.js SaaS starter kit. The product sells subscription plans
with a monthly credit allowance. Users spend credits on AI chat and image generation. Every
change to a balance is written to a transaction log.

The model covers:

- **The credit ledger** (`lib/services/credits/credit-service.ts`). It checks, deducts, adds and
  refunds credits, and logs one transaction row per change.
- **The Stripe webhook** (`app/api/webhooks/stripe/route.ts`). It grants plan credits on
  checkout and on each paid invoice, and keeps every user's subscription fields in step.
- **The chat endpoint** (`app/api/chat/route.ts`). It bills one credit per call, and refunds it
  when a non-streaming provider call fails.
- **The credits endpoint** (`app/api/credits/route.ts`) and the RPC-based credit client
  (`lib/services/credits.ts`).
- **Pure helpers**: the plan table, the operation types with their prices, credit formatting,
  the validation schemas, the route-protection middleware, the i18n lookup, the AI provider
  adapters with their stream decoding, and the helpers of the Gemini image pipeline.
- **Client components**: the admin data table, the persona editor, the chat composer and the
  onboarding form.

## How the model is built

- **The database is a value.** A `LedgerState` holds the balances by user, the transaction log
  in insertion order and the next transaction number. A transaction's id is the decimal text of
  its number.
- **Store failures are inputs.** A `StoreFaults` value says whether the balance update returns
  an error and whether the log insert fails. The source ignores a failed insert, and the model
  keeps that behaviour.
- **Pure functions and pure lemmas.** Every service operation is a pure function over these
  values, and the properties are lemmas about those functions.
- **Classes where the source mutates state.**
  - The ledger (`Ledger.CreditLedger`) and the webhook's user table
    (`StripeWebhook.UserDirectory`) are classes. So are the React components: `DataTable.Table`,
    `PersonaEditor.Editor`, `ChatInput.Composer`, `Onboarding.OnboardingForm` and
    `I18n.Provider`.
  - Their methods change fields in place.
  - Each method's postcondition ties the new state to the pure function.
- **External calls are parameters.** HTTP requests, provider replies, the Stripe signature check
  and the subscription retrieval are given to the operations as inputs. Where the source lets
  such a call throw into a catch, the input can be that exception too: the retrieved
  subscription is a `Result`, an image download is a `Download` that may be `FetchThrew`, and a
  Gemini reply may be `RequestThrew`. The model then returns the catch's response.

## Model

| member | source | states |
|---|---|---|
| CreditTypes.ParseOperationType | lib/services/credits/types.ts:9-20 | an operation-type string is accepted exactly when it is the name of one of the eleven operation types, and it then maps to that type |
| CreditTypes.OperationNameRoundTrip | lib/services/credits/types.ts:9-20 | parsing the name of any operation type gives back that type |
| CreditTypes.AllOperationTypesComplete | lib/services/credits/types.ts:9-20 | there are exactly eleven operation types and their names are pairwise distinct |
| CreditTypes.DefaultCost | lib/services/credits/types.ts:85-97 | a default price is never negative; it is positive exactly for the billable operations; chat and API calls cost 1 |
| CreditTypes.DefaultPrices | lib/services/credits/types.ts:85-97 | the price list: generation 10, chat 1, image 15, video 50, document 5, API call 1, and 0 for every non-billable operation |
| CreditTypes.CostOf | lib/services/credits/credit-service.ts:43 | a custom cost wins when given; otherwise the cost is the non-negative default price |
| Ledger.Insert | lib/services/credits/credit-service.ts:279-310 | createTransaction leaves the balances alone; it appends exactly the given row and returns its id, or it appends nothing and returns no id when the insert fails |
| Ledger.Check | lib/services/credits/credit-service.ts:23-54 | an unknown user cannot pay and is reported with zero cost and balance; otherwise available holds exactly when the balance covers the cost, and the balance and cost are reported |
| Ledger.ErrorResult | lib/services/credits/credit-service.ts:275-277 | a failed result carries the message and the cost, a zero balance and no transaction id |
| Ledger.Deduct | lib/services/credits/credit-service.ts:59-117 | success exactly when the user exists, the balance covers the cost and the update succeeds; on success the balance drops by the cost and one row with the before and after balances is logged; on failure nothing changes and the error is 'User not found', 'Insufficient credits', or the failed update's own message |
| Ledger.Add | lib/services/credits/credit-service.ts:122-176 | success exactly when the user exists and the update succeeds; on success the amount is added without any sign check and one row is logged; on failure nothing changes and the error is 'User not found' or the failed update's own message |
| Ledger.MatchingRows | lib/services/credits/credit-service.ts:190-195 | the rows whose id and user both match, and only those |
| Ledger.FindTx | lib/services/credits/credit-service.ts:190-198 | a found transaction is a logged row with that id belonging to that user |
| Ledger.Abs | lib/services/credits/credit-service.ts:201 | the refund amount is the magnitude of the original amount |
| Ledger.RefundMetadata | lib/services/credits/credit-service.ts:203-207 | the caller's metadata, plus the original transaction id and the original operation type; both of these override any caller value |
| Ledger.RefundTx | lib/services/credits/credit-service.ts:181-217 | an unmatched id gives 'Transaction not found' and changes nothing; otherwise it is an addition of the original amount's magnitude, typed refund, with the original id as reference |
| Ledger.NewestFirst | lib/services/credits/credit-service.ts:242-272 | the user's history holds exactly that user's logged rows |
| Ledger.History | lib/services/credits/credit-service.ts:242-272 | the history has min(count, limit) rows and is the newest-first list cut to its first rows: the newest rows are the ones kept |
| Ledger.CreditLedger.CheckCredits | lib/services/credits/credit-service.ts:23-54 | the in-place check returns Check of the current state, so it reports availability exactly when the balance covers the cost |
| Ledger.CreditLedger.GetUserCredits | lib/services/credits/credit-service.ts:222-237 | the balance of a known user, 0 for an unknown one |
| Ledger.CreditLedger.GetTransactionHistory | lib/services/credits/credit-service.ts:242-272 | the user's rows, newest first, cut to the limit |
| Ledger.CreditLedger.CreateTransaction | lib/services/credits/credit-service.ts:279-310 | the object's new state and returned id are those of Insert |
| Ledger.CreditLedger.DeductCredits | lib/services/credits/credit-service.ts:59-117 | the object's new state and result are those of Deduct |
| Ledger.CreditLedger.AddCredits | lib/services/credits/credit-service.ts:122-176 | the object's new state and result are those of Add |
| Ledger.CreditLedger.RefundCredits | lib/services/credits/credit-service.ts:181-217 | the object's new state and result are those of RefundTx |
| LedgerProperties.NoRowHasFreshKey | lib/services/credits/credit-service.ts:279-310 | no logged row carries the id of a transaction number not yet issued |
| LedgerProperties.AppendKeepsWellFormed | lib/services/credits/credit-service.ts:279-310 | appending a row with the next number, for a known user and with a consistent before and after balance, keeps the log well formed |
| LedgerProperties.DeductKeepsWellFormed | lib/services/credits/credit-service.ts:59-117 | a deduction keeps the log well formed: increasing numbers, known users, after = before + amount |
| LedgerProperties.AddKeepsWellFormed | lib/services/credits/credit-service.ts:122-176 | an addition keeps the log well formed |
| LedgerProperties.RefundKeepsWellFormed | lib/services/credits/credit-service.ts:181-217 | a refund keeps the log well formed |
| LedgerProperties.AppendKeepsBalanced | lib/services/credits/credit-service.ts:279-310 | moving a balance by a row's amount while logging that row keeps every balance equal to its opening value plus the user's logged amounts |
| LedgerProperties.DeductKeepsBalanced | lib/services/credits/credit-service.ts:59-117 | while inserts succeed, a deduction keeps balance = opening + sum of the user's logged amounts |
| LedgerProperties.AddKeepsBalanced | lib/services/credits/credit-service.ts:122-176 | while inserts succeed, an addition keeps the same invariant |
| LedgerProperties.RefundKeepsBalanced | lib/services/credits/credit-service.ts:181-217 | while inserts succeed, a refund keeps the same invariant |
| LedgerProperties.FailedInsertUnbalances | lib/services/credits/credit-service.ts:156-166 | when the log insert fails, the addition still reports success with no transaction id, and the balance no longer equals the opening balance plus the log |
| LedgerProperties.DeductKeepsNonNegative | lib/services/credits/credit-service.ts:81-86 | the insufficient-credits guard keeps every balance non-negative across a deduction |
| LedgerProperties.AddHasNoSignCheck | lib/services/credits/credit-service.ts:122-176 | an addition with a negative amount larger than the balance succeeds and leaves the balance negative |
| LedgerProperties.DeductThenRefundRestores | lib/services/credits/credit-service.ts:59-217 | deducting and then refunding by the returned id restores every balance and logs exactly two rows, the deduction and a refund of the same size referring to it |
| LedgerProperties.RefundFindsDeduction | lib/services/credits/credit-service.ts:181-217 | after a fresh deduction, refunding its id is the addition of its cost with the refund metadata built from that row |
| LedgerProperties.AddLogsRow | lib/services/credits/credit-service.ts:122-176 | a fault-free addition for a known user logs exactly the row with the next number, the before and after balances, and returns its id |
| LedgerProperties.DeductLogsRow | lib/services/credits/credit-service.ts:59-117 | a covered fault-free deduction logs exactly its row, returns its id, and that id then finds the row |
| LedgerProperties.FreshRowFound | lib/services/credits/credit-service.ts:190-195 | the newest row is found again by its own id and user |
| LedgerProperties.RefundNotGuarded | lib/services/credits/credit-service.ts:181-217 | nothing stops a second refund of the same transaction: refunding twice credits twice the original amount |
| LedgerProperties.ConsDescending | lib/services/credits/credit-service.ts:253 | putting a row with a larger number in front of a newest-first list keeps it newest first |
| LedgerProperties.HistoryBelow | lib/services/credits/credit-service.ts:242-272 | the history contains no row number beyond those logged |
| LedgerProperties.NewestFirstOrdered | lib/services/credits/credit-service.ts:253 | when numbers increase along the log, the history is in strictly decreasing order of number |
| LedgerProperties.HistoryProperties | lib/services/credits/credit-service.ts:242-272 | the history has min(count, limit) rows, all logged and of that user, newest first; it is the first rows of the full newest-first list, every row kept is newer than every row cut, and it holds all rows when the limit is not reached |
| Plans.PriceIdOf | lib/config/plans.ts:17 | a plan's price id is the environment variable, or the empty string when it is unset |
| Plans.FindById | lib/config/plans.ts:62-64 | the first plan with that id, and none exactly when no plan has it |
| Plans.FindByPriceId | lib/config/plans.ts:69-71 | the first plan with that price id, and none exactly when no plan has it |
| Plans.GetCreditsForPriceId | lib/config/plans.ts:76-79 | the matched plan's credits, or 0 |
| Plans.GetPlanNameForPriceId | lib/config/plans.ts:84-87 | the matched plan's name, or 'Unknown' |
| Plans.PlanTable | lib/config/plans.ts:10-57 | three plans, starter, pro and business, with 50, 200 and 1000 credits and distinct ids |
| Plans.PlanByIdResolves | lib/config/plans.ts:62-64 | a plan id resolves exactly for starter, pro and business, and to the plan with that id |
| Plans.CreditsIffPlanMatches | lib/config/plans.ts:76-79 | a price id yields credits exactly when some plan carries it |
| Plans.UnsetPricesResolveToStarter | lib/config/plans.ts:17-79 | with unset price variables every price id is '', and an empty price id resolves to the starter plan, its name and its 50 credits |
| RpcCredits.UUIDIgnoresCase | lib/services/credits.ts:130-131 | the id check ignores letter case |
| RpcCredits.UUIDShape | lib/services/credits.ts:130-131 | an accepted id has dashes at 8, 13, 18 and 23, a version digit 1-5 and a variant digit 8, 9, a or b |
| RpcCredits.OrNull | lib/services/credits.ts:66 | `referenceId or null`: an empty reference is sent as null |
| RpcCredits.Unwrap | lib/services/credits.ts:79 | the RPC row is the first element of an array reply or the reply itself; nothing for null or an empty array |
| RpcCredits.Interpret | lib/services/credits.ts:69-110 | success exactly when the reply is a row with success; an RPC error or an exception gives its message; a failed row gives its own message or the fallback; a failure never carries a transaction id |
| RpcCredits.Relocate | lib/services/credits.ts:130-136 | a non-empty reference that is not a UUID is moved into the metadata and not sent; a UUID is sent as is; every other metadata entry is kept |
| RpcCredits.DeductCredits | lib/services/credits.ts:51-111 | the deduct RPC receives the caller's arguments, an empty reference as null, and its reply is interpreted with the fallback 'Deduction failed' |
| RpcCredits.AddCredits | lib/services/credits.ts:116-188 | the add RPC receives the caller's arguments with the reference relocated, and its reply is interpreted with the fallback 'Addition failed' |
| RpcCredits.Respond | lib/services/credits.ts:79-110 | the result built from a reply is its interpretation |
| RpcCredits.CheckCreditsAvailable | lib/services/credits.ts:19-46 | no profile gives (false, 0); otherwise the balance and whether it covers the cost |
| RpcCredits.GetBalance | lib/services/credits.ts:193-213 | the profile's credits, or 0 |
| RpcCredits.RelocationKeepsUUIDs | lib/services/credits.ts:130-136 | a non-empty reference is sent exactly when it is a UUID, and is kept under original_reference_id exactly when it is not |
| RpcCredits.FailureHasNoTransaction | lib/services/credits.ts:79-88 | a failed row reads the same alone or in an array, and it yields no transaction id |
| CreditDisplay.FormatCredits | lib/services/credits/credit-display.ts:12-25 | low exactly at or below the threshold (default 10); a warning exactly when low, naming the count; the display text is the count followed by ' Credits' |
| CreditDisplay.LowFlagAgrees | lib/services/credits/credit-display.ts:90-92 | formatCredits' low flag agrees with isLowCredits for every count and threshold |
| CreditDisplay.IsLowCredits | lib/services/credits/credit-display.ts:90-92 | low exactly at or below the given threshold, or at or below 10 without one |
| CreditDisplay.ShortFormReadsBack | lib/services/credits/credit-display.ts:12-25 | the short form is the decimal count: a sign for negatives and its digits read back as the magnitude |
| CreditDisplay.PluralLabel | lib/services/credits/credit-display.ts:34-41 | the operation labels cover exactly the billable operations |
| CreditDisplay.FormatCreditsForOperation | lib/services/credits/credit-display.ts:30-45 | the count with the operation's plural label, or with 'Credits' for an operation without one |
| CreditDisplay.FallbackOnlyOutsideMap | lib/services/credits/credit-display.ts:43 | the 'Credits' fallback is used exactly for the operations outside the label map |
| CreditDisplay.OperationLabel | lib/services/credits/credit-display.ts:61-77 | every operation has a non-empty label |
| CreditDisplay.LabelsDistinct | lib/services/credits/credit-display.ts:61-77 | two operations have the same label exactly when they are the same operation |
| CreditDisplay.FormatTransactionAmount | lib/services/credits/credit-display.ts:82-85 | the text starts with '+' exactly for non-negative amounts and with '-' exactly for negative ones, continues with the magnitude's decimal digits and ends in ' Credits' |
| CreditDisplay.AmountSign | lib/services/credits/credit-display.ts:82-85 | the text begins with '+' exactly for non-negative amounts, with '-' exactly for negative ones, and its digits read back as the magnitude |
| CreditDisplay.ZeroShowsPlus | lib/services/credits/credit-display.ts:83 | zero is shown as '+0 Credits' |
| CreditsRoute.DigitPrefix | app/api/credits/route.ts:28 | the longest run of leading digits |
| CreditsRoute.DigitPrefixOfDigits | app/api/credits/route.ts:28 | a string of digits is its own digit prefix |
| CreditsRoute.ParseInt | app/api/credits/route.ts:28 | parseInt yields a number exactly when a digit follows the leading blanks and an optional sign; without a minus sign the number is non-negative |
| CreditsRoute.ParseIntOfNat | app/api/credits/route.ts:28 | parseInt reads back the decimal form of any natural number |
| CreditsRoute.HistoryLimit | app/api/credits/route.ts:28 | an absent or empty limit means 50; any other value is what parseInt reads |
| CreditsRoute.HistoryLimits | app/api/credits/route.ts:28 | an absent or empty limit gives 50, and the decimal form of n gives n |
| CreditsRoute.Get | app/api/credits/route.ts:11-46 | 401 exactly without a user; the history action returns the user's history cut to the limit; anything else returns the balance, 0 for an unknown user |
| CreditsRoute.Post | app/api/credits/route.ts:48-122 | no user gives 401 and no change; a check answers 200 with the caller's Check, priced by the custom cost when given and otherwise by the type; a deduction answers 200 with the new state and result of Deduct on the caller; an admin's addition answers 200 with those of Add on the target; the ledger changes only for a deduction or an admin's addition |
| CreditsRoute.HandleGet | app/api/credits/route.ts:11-46 | the handler over the in-place ledger answers what Get answers |
| CreditsRoute.HandlePost | app/api/credits/route.ts:48-122 | the handler's new ledger state and response are those of Post |
| CreditsRoute.OwnAccountOnly | app/api/credits/route.ts:64-82 | check and deduct ignore targetUserId and act on the caller's own account |
| CreditsRoute.AddNeedsAdmin | app/api/credits/route.ts:92-97 | an addition is refused with 403 and no change exactly when the caller is not an admin |
| CreditsRoute.AddDefaults | app/api/credits/route.ts:99-102 | an admin's addition without target or type credits the admin's own account as an admin adjustment |
| CreditsRoute.UnknownActionRejected | app/api/credits/route.ts:109-113 | any other action gives 400 'Invalid action' and changes nothing |
| CreditsRoute.CustomCostIgnoresType | lib/services/credits/credit-service.ts:43 | with a custom cost a check gives the same answer for every operation type |
| CreditsRoute.NegativeCustomCostCredits | app/api/credits/route.ts:73-80 | a deduction with a negative custom cost succeeds and raises the caller's balance by its magnitude; refunding that row raises it by the magnitude again |
| CreditsRoute.GuardedPost | app/api/credits/route.ts:48-122 | the endpoint with a cost check: a negative custom cost on check or deduct gives 400 and no change; every other request is answered as before |
| CreditsRoute.GuardedDeductNeverCredits | app/api/credits/route.ts:73-80 | through the guarded endpoint a deduction keeps the set of users, never raises a balance and changes only the caller's |
| StripeWebhook.Checkout | app/api/webhooks/stripe/route.ts:71-130 | a session that stops at an early return changes nothing; an exception exactly when the retrieval of line 93 fails, with its message; otherwise the set of users and of balances is kept |
| StripeWebhook.InitialGrant | app/api/webhooks/stripe/route.ts:110-126 | no grant for a plan without credits or for a session already granted once; it keeps the set of balances, changes no other user and never lowers the user's balance |
| StripeWebhook.InvoicePaid | app/api/webhooks/stripe/route.ts:132-195 | an invoice that stops at an early return changes nothing; an exception exactly when the retrieval of line 164 fails, with its message; otherwise the set of users and of balances is kept |
| StripeWebhook.RenewalGrant | app/api/webhooks/stripe/route.ts:169-183 | no grant for a plan without credits, an invoice that paid nothing or one already granted once; it keeps the set of balances, changes no other user and never lowers the user's balance |
| StripeWebhook.Updated | app/api/webhooks/stripe/route.ts:197-212 | the ledger and the set of users are kept; the subscription's holders get its status, plan name and period end, and every other user is unchanged |
| StripeWebhook.Deleted | app/api/webhooks/stripe/route.ts:214-223 | the ledger and the set of users are kept; the subscription's holders become 'canceled' and every other user is unchanged |
| StripeWebhook.HandleEvent | app/api/webhooks/stripe/route.ts:47-62 | only the checkout and invoice handlers can throw; an unhandled type changes nothing; the sets of users and balances are kept |
| StripeWebhook.WebhookPost | app/api/webhooks/stripe/route.ts:20-69 | 200 exactly when the signature and the secret are present, the event verifies and its handler does not throw; every other response changes nothing |
| StripeWebhook.UpdateById | app/api/webhooks/stripe/route.ts:99-108 | the update by user id sets that user's subscription fields and leaves every other user as it was |
| StripeWebhook.FindSubscriber | app/api/webhooks/stripe/route.ts:146-155 | the lookup by subscription or customer id finds a user exactly when one user matches, and the user found does match |
| StripeWebhook.LookUpSubscriber | app/api/webhooks/stripe/route.ts:146-155 | the lookup over the in-place user table returns what FindSubscriber returns, a user of the table |
| StripeWebhook.UpdateBySubscription | app/api/webhooks/stripe/route.ts:197-223 | the update by subscription id changes exactly the users holding that subscription and keeps the set of users |
| StripeWebhook.UserDirectory.constructor | app/api/webhooks/stripe/route.ts:99-108 | the user table starts with the given rows |
| StripeWebhook.HandleCheckoutCompleted | app/api/webhooks/stripe/route.ts:71-130 | the in-place handler ends in the state Checkout describes, or reports the exception Checkout gives and leaves both tables as they were |
| StripeWebhook.GrantInitial | app/api/webhooks/stripe/route.ts:111-126 | the in-place grant ends in the state InitialGrant describes: a subscription credit grant unless credits are 0 or the session was already granted once |
| StripeWebhook.HandleInvoicePaymentSucceeded | app/api/webhooks/stripe/route.ts:132-195 | the in-place handler ends in the state InvoicePaid describes, or reports the exception InvoicePaid gives and leaves both tables as they were |
| StripeWebhook.GrantRenewal | app/api/webhooks/stripe/route.ts:169-183 | the in-place grant ends in the state RenewalGrant describes: a grant unless the invoice paid nothing, gives no credits or was already granted once |
| StripeWebhook.HandleSubscriptionUpdated | app/api/webhooks/stripe/route.ts:197-212 | the users holding the subscription get its status, plan name and period end; nobody else changes |
| StripeWebhook.HandleSubscriptionDeleted | app/api/webhooks/stripe/route.ts:214-223 | the users holding the subscription become 'canceled'; nobody else changes |
| StripeWebhook.Dispatch | app/api/webhooks/stripe/route.ts:47-62 | each event type goes to its handler and other types change nothing; a handler's exception is reported with both tables unchanged |
| StripeWebhook.Post | app/api/webhooks/stripe/route.ts:20-69 | the in-place endpoint's state and response are those of WebhookPost: 400 without a signature or with a bad one, 500 without a secret, 500 'Webhook failed' with no change when a handler throws, otherwise the event is handled and acknowledged |
| StripeWebhookProperties.SessionGrantsAppend | app/api/webhooks/stripe/route.ts:111-119 | the count of the session's grants grows by one exactly when the appended row is a grant for it |
| StripeWebhookProperties.InvoiceGrantsAppend | app/api/webhooks/stripe/route.ts:169-176 | the count of an invoice's grants grows by one exactly when the appended row is a grant for it |
| StripeWebhookProperties.CheckoutGrantCounted | app/api/webhooks/stripe/route.ts:111-126 | a successful checkout grant adds exactly one grant row for the session; a failed one adds none |
| StripeWebhookProperties.RenewalGrantCounted | app/api/webhooks/stripe/route.ts:169-183 | a successful renewal grant adds exactly one grant row for the invoice; a failed one adds none |
| StripeWebhookProperties.CheckoutReplayIdempotent | app/api/webhooks/stripe/route.ts:71-130 | a checkout event handled without an exception, delivered again, has the effect of one delivery, as long as the session had at most one grant before |
| StripeWebhookProperties.UpdateByIdTwice | app/api/webhooks/stripe/route.ts:99-108 | writing the same subscription fields twice is writing them once |
| StripeWebhookProperties.CheckoutLedgerReplay | app/api/webhooks/stripe/route.ts:110-126 | the checkout grant applied a second time changes nothing |
| StripeWebhookProperties.CheckoutGrantsOnce | app/api/webhooks/stripe/route.ts:71-130 | a fresh checkout credits the plan's credits once, logs one grant for the session, and its replay changes nothing |
| StripeWebhookProperties.SubscribersKeptByRenewal | app/api/webhooks/stripe/route.ts:186-192 | the renewal's period and status update does not change who matches a subscription or customer lookup |
| StripeWebhookProperties.InvoiceReplayIdempotent | app/api/webhooks/stripe/route.ts:132-195 | an invoice event handled without an exception, delivered again, has the effect of one delivery, as long as the invoice had at most one grant before |
| StripeWebhookProperties.InvoiceLedgerReplay | app/api/webhooks/stripe/route.ts:169-183 | the renewal grant applied a second time changes nothing |
| StripeWebhookProperties.UpdatedTwice | app/api/webhooks/stripe/route.ts:197-212 | a subscription update delivered twice has the effect of one |
| StripeWebhookProperties.DeletedTwice | app/api/webhooks/stripe/route.ts:214-223 | a subscription deletion delivered twice has the effect of one |
| StripeWebhookProperties.WebhookReplayIdempotent | app/api/webhooks/stripe/route.ts:20-69 | a request delivered twice gives the same response and state as once, when inserts succeed and no grant for it was duplicated |
| StripeWebhookProperties.HandleEventReplay | app/api/webhooks/stripe/route.ts:47-62 | handling an event again after it was handled without an exception is handling it once |
| StripeWebhookProperties.UnhandledEventsAcknowledged | app/api/webhooks/stripe/route.ts:60-64 | a signed event of an unhandled type is acknowledged with 200 and changes nothing |
| StripeWebhookProperties.CheckoutIgnored | app/api/webhooks/stripe/route.ts:72-91 | a session without user, subscription mode, subscription or customer changes nothing |
| StripeWebhookProperties.CheckoutActivates | app/api/webhooks/stripe/route.ts:99-108 | a subscription checkout stores the customer, the subscription, 'active', the plan name and the period end on the user |
| StripeWebhookProperties.InvoiceNotGranted | app/api/webhooks/stripe/route.ts:133-167 | no credits move for an invoice without subscription or customer, without a unique subscriber, from the initial subscription, paying nothing or for a plan without credits |
| StripeWebhookProperties.LookupsDiffer | app/api/webhooks/stripe/route.ts:112-174 | the checkout check counts only subscription rows, while the invoice check counts any row with the invoice id |
| StripeWebhookProperties.DuplicateRowsDefeatTheCheck | app/api/webhooks/stripe/route.ts:112-119 | when a session already has two grants, the single-row check finds none and a third grant is logged |
| StripeWebhookProperties.StatusEventsKeepCredits | app/api/webhooks/stripe/route.ts:197-223 | update and delete events never touch the ledger; deletion cancels exactly the subscription's holders |
| StripeWebhookProperties.FailedRetrievalRejected | app/api/webhooks/stripe/route.ts:65-68 | a signed checkout or invoice event whose subscription retrieval fails gives 500 'Webhook failed' and changes nothing, so Stripe can deliver it again |
| StripeWebhookProperties.EarlyReturnSkipsRetrieval | app/api/webhooks/stripe/route.ts:72-91 | an event that stops at an early return is never affected by the retrieval, even a failing one |
| ChatRoute.ChatPost | app/api/chat/route.ts:25-148 | a request without a user never changes the ledger; a 400 or 402 response never changes it either |
| ChatRoute.GetApiKey | app/api/chat/route.ts:150-161 | each known provider reads its own key; an unknown provider has none |
| ChatRoute.StreamEvents | app/api/chat/route.ts:84-107 | an exception while streaming ends the stream with an error event carrying its message |
| ChatRoute.Forwarded | app/api/chat/route.ts:90-100 | each provider chunk gives at most one event |
| ChatRoute.DeductMetadata | app/api/chat/route.ts:58-63 | the deduction's metadata records the provider, and the model exactly when one was requested |
| ChatRoute.Post | app/api/chat/route.ts:25-148 | the in-place endpoint's ledger state and response are those of ChatPost |
| ChatRouteProperties.MissingMessagesRefused | app/api/chat/route.ts:30-35 | no messages gives 400 and no change |
| ChatRouteProperties.MissingKeyRefused | app/api/chat/route.ts:38-44 | a provider without a key gives 500 and no change |
| ChatRouteProperties.AnonymousNotBilled | app/api/chat/route.ts:47-72 | a request without a user never touches the ledger and carries no transaction id |
| ChatRouteProperties.CheckFailureRefused | app/api/chat/route.ts:48-56 | too few credits give 402 with the current balance and no change |
| ChatRouteProperties.DeductionFailureSkipsProvider | app/api/chat/route.ts:58-70 | a failed deduction gives 402, changes nothing and does not depend on the provider |
| ChatRouteProperties.FailedCallRefunded | app/api/chat/route.ts:120-140 | a failed non-streaming call charges one credit and refunds it: balances are restored, two opposite rows are logged, the second a refund for 'generation_failed', and the response is 500 with the error |
| ChatRouteProperties.SuccessfulCallCharged | app/api/chat/route.ts:58-130 | a successful non-streaming call costs one credit, logs one chat row and returns 200 with that row's id |
| ChatRouteProperties.StreamingNeverRefunds | app/api/chat/route.ts:79-117 | a streaming call keeps the deduction whatever the stream does |
| ChatRouteProperties.LostRowNotRefunded | app/api/chat/route.ts:72-138 | when the deduction's row is not logged, the route has no id to refund and the credit stays charged |
| AiService.ParseProvider | lib/services/ai/types.ts:8 | the provider names are exactly openai, anthropic and google, and each maps to its own provider |
| AiService.DefaultModel | lib/services/ai/types.ts:60-64 | every provider has a non-empty default model, so the fallback always names a model |
| AiService.ChooseModel | lib/services/ai/ai-service.ts:32 | a non-empty requested model wins; otherwise the provider's default model; never empty |
| AiService.NonSystem | lib/services/ai/ai-service.ts:175 | the non-system messages, and no others |
| AiService.NonSystemAppend | lib/services/ai/ai-service.ts:175 | the filter keeps the message order |
| AiService.FirstSystem | lib/services/ai/ai-service.ts:174 | the content of the first system message, and none exactly when there is none |
| AiService.AnthropicBody | lib/services/ai/ai-service.ts:174-191 | Anthropic receives the non-system messages, the first system message apart, and 4096 tokens when none or 0 is given |
| AiService.GoogleContents | lib/services/ai/ai-service.ts:281-283 | Google receives the non-system messages in order, 'assistant' as 'model' and every other role as 'user' |
| AiService.AnthropicTokens | lib/services/ai/ai-service.ts:202-204 | missing token counts are 0 and the total is their sum |
| AiService.OpenAIStep | lib/services/ai/ai-service.ts:146-163 | lines without 'data: ' are skipped; '[DONE]' and only it stops the stream; text is emitted exactly from payloads that carry some |
| AiService.AnthropicStep | lib/services/ai/ai-service.ts:257-265 | only content_block_delta payloads with text are emitted; nothing stops the stream |
| AiService.GoogleStep | lib/services/ai/ai-service.ts:359-370 | every data payload with text is emitted; nothing stops the stream |
| AiService.Step | lib/services/ai/ai-service.ts:146-166 | only an OpenAI '[DONE]' line stops a stream; an emitted chunk is the text of a 'data: ' payload |
| AiService.Run | lib/services/ai/ai-service.ts:146-163 | at most one output per line, and the line handling stops exactly when some line is a stop line |
| AiService.StreamOutput | lib/services/ai/ai-service.ts:136-166 | the stream is never empty and has at most one output per ended line plus the final done chunk |
| AiService.CompleteLines | lib/services/ai/ai-service.ts:141-144 | the last piece of the buffer, the line not yet ended, is held back |
| AiService.RunSingle | lib/services/ai/ai-service.ts:146-163 | one line yields nothing, its text, or the final done chunk |
| AiService.RunAppend | lib/services/ai/ai-service.ts:146-163 | line handling over two batches is handling over their concatenation, and nothing after a stop counts |
| AiService.ConcatSplitAt | lib/services/ai/ai-service.ts:136-144 | the received text is the text of a prefix of chunks followed by the rest |
| AiService.CompleteLinesAppend | lib/services/ai/ai-service.ts:136-144 | buffering identifies the ended lines of x + y as those of x, then those completed by the carried piece and y |
| AiService.BufferStep | lib/services/ai/ai-service.ts:136-144 | one read chunk adds the lines its carried buffer and text complete, and leaves the new last piece in the buffer |
| AiService.ReadStream | lib/services/ai/ai-service.ts:105-167 | reading with a line buffer yields exactly StreamOutput: the outputs of the whole text's ended lines, with one done chunk at the end |
| AiService.HandleLines | lib/services/ai/ai-service.ts:146-163 | handling a batch of lines continues the line handling of the lines before it |
| AiService.StopIsFinal | lib/services/ai/ai-service.ts:149-151 | once a line has stopped the stream, the chunks still to come change nothing |
| AiService.CreateStreamingCompletion | lib/services/ai/ai-service.ts:49-167 | an HTTP error yields one error chunk with the status; a missing body yields 'No response body'; otherwise the decoded stream |
| AiService.RunEmitsText | lib/services/ai/ai-service.ts:146-166 | line handling emits only text chunks, ending in the done chunk exactly when it stopped |
| AiService.StreamEndsWithOneDone | lib/services/ai/ai-service.ts:146-166 | every stream is text chunks followed by exactly one done chunk |
| AiService.OpenAIStopsAtDone | lib/services/ai/ai-service.ts:149-151 | nothing received after an OpenAI '[DONE]' line changes the output |
| AiService.StopAtLine | lib/services/ai/ai-service.ts:149-151 | an OpenAI line handling that reaches '[DONE]' stops there |
| GeminiImage.DetectMimeType | lib/services/gemini/gemini-image-service.ts:222-229 | always png, jpeg or webp; the png, jpeg or jpg and webp data-URL prefixes give their type, in that order; every other string, including other data URLs such as data:image/gif, is read by extension, '.png' before '.webp', jpeg otherwise |
| GeminiImage.DataPrefixes | lib/services/gemini/gemini-image-service.ts:222-229 | each of the four typed prefixes starts a data URL |
| GeminiImage.PrefixBeatsExtension | lib/services/gemini/gemini-image-service.ts:222-229 | a data URL's type wins over an extension inside it, and '.png' anywhere in an ordinary URL wins over '.webp' |
| GeminiImage.UrlToBase64 | lib/services/gemini/gemini-image-service.ts:203-217 | a data URL never needs a download and never throws; any other URL yields the downloaded data, throws 'Failed to fetch image: ' and the URL for a response that is not OK, or throws the fetch's own exception |
| GeminiImage.DataUrlPayload | lib/services/gemini/gemini-image-service.ts:205-207 | a data URL yields the text after its comma |
| GeminiImage.DataUrlWithoutComma | lib/services/gemini/gemini-image-service.ts:205-207 | a data URL without a comma yields undefined |
| GeminiImage.OrdinalFollowsEnglishRule | lib/services/gemini/gemini-image-service.ts:383-387 | the suffix is 'th' for 11 to 13 after any hundreds, otherwise 'st', 'nd', 'rd' after 1, 2, 3 and 'th' after other last digits |
| GeminiImage.OrdinalSuffix | lib/services/gemini/gemini-image-service.ts:383-387 | the suffix is always one of th, st, nd and rd |
| GeminiImage.Ordinal | lib/services/gemini/gemini-image-service.ts:383-387 | an ordinal is the number's decimal text followed by one of the four suffixes |
| GeminiImage.Horizontal | lib/services/gemini/gemini-image-service.ts:398-400 | left below 33 percent, right above 66, center in between, and each word exactly for its band |
| GeminiImage.Vertical | lib/services/gemini/gemini-image-service.ts:402-404 | top below 33 percent, bottom above 66, middle in between, and each word exactly for its band |
| GeminiImage.PositionDescription | lib/services/gemini/gemini-image-service.ts:392-407 | the full template: the vertical and horizontal words, then ' (X: ' x '%, Y: ' y '%, Size: ' width '% × ' height '%)' |
| GeminiImage.ValidationError | lib/services/gemini/gemini-image-service.ts:418-428 | the checks for API key, background and markers, in that order, each with its message; none exactly when all three pass |
| GeminiImage.Imaged | lib/services/gemini/gemini-image-service.ts:463-466 | the positions of exactly the markers that have an image, in increasing order |
| GeminiImage.PersonParts | lib/services/gemini/gemini-image-service.ts:463-477 | one part per marker that has an image, so never more parts than markers |
| GeminiImage.PersonPartsInOrder | lib/services/gemini/gemini-image-service.ts:463-477 | the k-th part is the k-th imaged marker's part: its detected type and the base64 data its download gave, in marker order |
| GeminiImage.PersonPartsPrefix | lib/services/gemini/gemini-image-service.ts:463-477 | the parts of all markers but the last are the first parts, in the same order |
| GeminiImage.PersonPartsStep | lib/services/gemini/gemini-image-service.ts:463-477 | one more marker adds its part exactly when it has an image |
| GeminiImage.FirstFailedFetch | lib/services/gemini/gemini-image-service.ts:211-213 | the first marker whose image download throws, and none exactly when no download throws |
| GeminiImage.FirstFailedAt | lib/services/gemini/gemini-image-service.ts:211-213 | a throwing download preceded only by good ones is the first failure |
| GeminiImage.PartsFetchError | lib/services/gemini/gemini-image-service.ts:452-477 | building the parts throws exactly when the background or some person download throws; the background's exception comes first |
| GeminiImage.AddPersonParts | lib/services/gemini/gemini-image-service.ts:463-477 | the loop over markers throws exactly at the first failing download, with its message; otherwise it yields the person parts |
| GeminiImage.BuildParts | lib/services/gemini/gemini-image-service.ts:439-477 | it throws exactly when a download does, with the first exception; otherwise the request is the prompt, the background's type and data, then the person parts |
| GeminiImage.FindImagePart | lib/services/gemini/gemini-image-service.ts:519-534 | the first part carrying inline data, and none exactly when no part does |
| GeminiImage.OrElse | lib/services/gemini/gemini-image-service.ts:537-543 | a non-empty first choice wins; a non-empty second choice guarantees a non-empty result |
| GeminiImage.PartImage | lib/services/gemini/gemini-image-service.ts:537-543 | the snake-case inline data is preferred over the camel-case one, and the type falls back to png |
| GeminiImage.ExtractImage | lib/services/gemini/gemini-image-service.ts:480-543 | an HTTP error reports its status and text; a Gemini error its message; a thrown request its exception; no image part gives 'No image in response'; otherwise the first part with inline data decides: empty data gives 'Empty image data in response', else its data and type |
| GeminiImage.LastApplied | lib/services/gemini/gemini-image-service.ts:550-587 | the last marker whose face swap succeeded, and none exactly when none did |
| GeminiImage.SwapFoldIsLastSuccess | lib/services/gemini/gemini-image-service.ts:550-587 | the face-swap loop ends on the image of the last successful swap, or on its starting image |
| GeminiImage.SwapStep | lib/services/gemini/gemini-image-service.ts:553-586 | a swap that was not applied keeps the current image; an applied one takes its data and its type, or keeps the current type when it gives none |
| GeminiImage.SwapFold | lib/services/gemini/gemini-image-service.ts:550-587 | when no swap is applied the loop ends on its starting image |
| GeminiImage.SwapRun | lib/services/gemini/gemini-image-service.ts:550-587 | the loop throws exactly at the first failing face download, with its message; otherwise it ends on the swap fold |
| GeminiImage.FaceSwapLoop | lib/services/gemini/gemini-image-service.ts:550-587 | the loop over markers computes SwapRun: each successful swap replaces the current image, and a face download that throws ends it |
| GeminiImage.GenerateWithPersons | lib/services/gemini/gemini-image-service.ts:412-645 | success exactly when validation passes, no download throws, and the reply holds an image; its image is then the swap fold over the step-one image; every exception becomes a failure with its message |
| GeminiImage.ValidationFirst | lib/services/gemini/gemini-image-service.ts:418-428 | a validation failure is returned whatever the downloads, the API and the swaps would have done |
| GeminiImage.FailedSwapsKeepStepOne | lib/services/gemini/gemini-image-service.ts:579-585 | when every swap fails the first step's image is kept |
| GeminiImage.FaceFetchFailureAborts | lib/services/gemini/gemini-image-service.ts:566-638 | a face download that throws fails the whole generation with its message, and does not keep the previous image |
| GeminiImage.BackgroundNotFound | lib/services/gemini/gemini-image-service.ts:412-645 | a background URL whose response is not OK fails the generation with 'Failed to fetch image: ' and the URL |
| I18n.Find | lib/i18n/I18nProvider.tsx:57-68 | the empty key path is the node itself; a path into a string or through a missing key finds nothing |
| I18n.WordRun | lib/i18n/I18nProvider.tsx:77 | the longest run of leading word characters |
| I18n.Placeholder | lib/i18n/I18nProvider.tsx:77 | a placeholder is a brace, a non-empty run of word characters and a closing brace |
| I18n.Interpolate | lib/i18n/I18nProvider.tsx:76-80 | a text without '{' has no placeholder and is returned unchanged; how each placeholder is replaced is stated by PlaceholderInText |
| I18n.MissingParamsLeftLiterally | lib/i18n/I18nProvider.tsx:78 | with no parameters every placeholder stays as written |
| I18n.SinglePlaceholder | lib/i18n/I18nProvider.tsx:76-80 | a placeholder with a parameter becomes its value |
| I18n.PlaceholderInText | lib/i18n/I18nProvider.tsx:76-80 | after brace-free text, a `{word}` placeholder becomes its parameter when the key is given and stays as written when it is not, and interpolation continues after it; by repetition this covers every placeholder of a text |
| I18n.WordRunOfWord | lib/i18n/I18nProvider.tsx:77 | the word run stops at the first non-word character |
| I18n.Translate | lib/i18n/I18nProvider.tsx:56-83 | a key that does not lead to a string is returned as the text; a key that leads to a string gives that string, interpolated with the params when they are given |
| I18n.StoredStringReturned | lib/i18n/I18nProvider.tsx:56-83 | a key that leads to a string returns that string when there are no parameters |
| I18n.TopLevelKey | lib/i18n/I18nProvider.tsx:57-68 | a key without dots is looked up directly in the top-level table |
| I18n.MountedLocale | lib/i18n/I18nProvider.tsx:33-45 | a stored supported locale wins; otherwise a supported browser language before the region wins; otherwise the current locale |
| I18n.RegionIgnored | lib/i18n/I18nProvider.tsx:33-45 | 'de-AT' gives 'de'; an unsupported stored value falls through to the browser; an unsupported browser language keeps the locale |
| I18n.Provider.constructor | lib/i18n/I18nProvider.tsx:25-30 | the provider starts unmounted with the given locale or 'en', and the given storage key or 'saas-locale' |
| I18n.Provider.Mount | lib/i18n/I18nProvider.tsx:33-45 | mounting picks the mounted locale, marks the provider mounted and sets the document language |
| I18n.Provider.SetLocale | lib/i18n/I18nProvider.tsx:47-53 | a supported locale is set, stored and written to the document; any other value changes nothing |
| I18n.Provider.T | lib/i18n/I18nProvider.tsx:56-83 | t translates against the current locale's dictionary |
| Schemas.MinLength | lib/validation/schemas.ts:13-25 | no issue exactly when the text is long enough |
| Schemas.MaxLength | lib/validation/schemas.ts:21 | no issue exactly when the text is short enough |
| Schemas.EmailIssues | lib/validation/schemas.ts:13-16 | no issue exactly for a non-empty valid address; an empty one gets both issues |
| Schemas.PasswordIssues | lib/validation/schemas.ts:18-21 | no issue exactly for 8 to 100 characters, at most one issue otherwise |
| Schemas.MatchIssues | lib/validation/schemas.ts:32-35 | no issue exactly when the confirmation matches |
| Schemas.LoginIssues | lib/validation/schemas.ts:23-26 | valid exactly for a valid address and a non-empty password |
| Schemas.RegisterIssues | lib/validation/schemas.ts:28-35 | valid exactly for a valid address, a password of 8 to 100 characters and a matching confirmation |
| Schemas.ResetPasswordIssues | lib/validation/schemas.ts:37-39 | valid exactly for a valid address |
| Schemas.UpdatePasswordIssues | lib/validation/schemas.ts:41-47 | valid exactly for a password of 8 to 100 characters and a matching confirmation |
| Schemas.CheckoutIssues | lib/validation/schemas.ts:53-55 | valid exactly for starter, pro and business |
| Schemas.CreditPurchaseIssues | lib/validation/schemas.ts:57-60 | valid exactly for a non-empty package and a positive number of credits |
| Schemas.UpdateProfileIssues | lib/validation/schemas.ts:66-69 | valid exactly when a name given has 1 to 100 characters and an avatar given is a URL |
| Schemas.MismatchOnConfirm | lib/validation/schemas.ts:31-35 | the mismatch issue is reported exactly when the passwords differ, and always on confirmPassword |
| Schemas.CheckoutAcceptsPlans | lib/validation/schemas.ts:53-55 | the checkout schema accepts exactly the plan ids of the plan table |
| Middleware.AnyPrefix | middleware.ts:26-33 | a path matches a route list exactly when it starts with one of the routes |
| Middleware.Decide | middleware.ts:17-51 | a protected path without a session goes to login with the path as redirect; an auth path with a session goes to the dashboard; otherwise the request passes |
| Middleware.ProtectedAuthDisjoint | middleware.ts:12-15 | no path is both protected and an auth route |
| Middleware.PrefixNotSegment | middleware.ts:26-29 | a plain prefix test: '/dashboardx' counts as protected and '/dash' does not |
| Middleware.SecurityHeaders | middleware.ts:56-74 | five security headers |
| Middleware.Secured | middleware.ts:56-74 | the response keeps its other headers and gets the five security headers, which override |
| Middleware.ResponseHeaders.constructor | middleware.ts:48 | a response starts with the given headers |
| Middleware.ResponseHeaders.ApplySecurityHeaders | middleware.ts:56-74 | the headers become the secured headers |
| Middleware.Handle | middleware.ts:17-51 | the decision is Decide's, and only a passed request gets the security headers |
| ChatService.CleanTitle | lib/services/chat/chat-service.ts:251 | the cleaned text has no newline and is no longer than the content |
| ChatService.Substring | lib/services/chat/chat-service.ts:253 | substring(0, n) is the prefix of length n, clamped to 0 and the text's length |
| ChatService.GenerateTitle | lib/services/chat/chat-service.ts:250-254 | a short cleaned text is the title; a long one is cut to maxLength - 3 with '...', maxLength long for maxLength at least 3; no newline |
| ChatService.TitleFits | lib/services/chat/chat-service.ts:250-254 | for maxLength at least 3 the title fits, and it is the cleaned text unless that was too long |
| ChatService.UpdateData | lib/services/chat/chat-service.ts:93-95 | the update writes exactly the fields given, title and is_pinned |
| ChatService.NewConversation | lib/services/chat/chat-service.ts:56-60 | a new conversation belongs to the user, is not pinned, and has the given title or the default one |
| Utils.SliceTo | lib/utils.ts:72 | slice(0, n) is a prefix; a negative n counts back from the end |
| Utils.Truncate | lib/utils.ts:70-73 | a short text is kept; a longer one is its sliced prefix and '...' |
| Utils.Capitalize | lib/utils.ts:138-140 | the first character is upper-cased and the rest kept |
| Utils.GetInitials | lib/utils.ts:114-121 | at most two initials |
| Utils.InitialsFromParts | lib/utils.ts:114-121 | each initial is the upper-cased first character of a space-separated part of the name |
| Utils.InitialsOfTwoWords | lib/utils.ts:114-121 | two words give their two upper-cased first letters |
| Utils.IsEmpty | lib/utils.ts:92-98 | numbers and booleans are never empty, and null and undefined always are |
| Utils.IsEmptyCases | lib/utils.ts:92-98 | null and undefined are empty; a string exactly when blank; an array exactly when it has no length or no keys, so a dense one exactly when it has no elements; an object exactly when it has no keys; numbers and booleans never are |
| Utils.RelativeTime | lib/utils.ts:50-65 | under a minute, including any future time, gives 'gerade eben'; the date is used exactly from seven days on |
| Utils.RelativeTimeBuckets | lib/utils.ts:50-65 | between a minute and a week: whole minutes, hours and days with German plurals |
| DataTable.Filter | components/admin/DataTable.tsx:44-49 | the filter keeps only matching rows and every matching row, everything when all match, and a single row exactly when it matches |
| DataTable.FilterAppend | components/admin/DataTable.tsx:44-49 | filtering a concatenation is the concatenation of the filtered parts, so the kept rows keep their order |
| DataTable.FilterCounts | components/admin/DataTable.tsx:44-49 | a matching value keeps all its copies and a non-matching one keeps none |
| DataTable.FilteredData | components/admin/DataTable.tsx:44-49 | without a search function every row is shown; with one, it is Filter by whether the row's text contains the search, ignoring case, so FilterAppend and FilterCounts give its order and copies |
| DataTable.EmptySearchKeepsAll | components/admin/DataTable.tsx:44-49 | an empty search shows every row |
| DataTable.TotalPages | components/admin/DataTable.tsx:52 | the page count is the ceiling: enough pages for all rows, a last page that is not empty, zero pages exactly for no rows |
| DataTable.JsSlice | components/admin/DataTable.tsx:54 | slice clamps its bounds to the length |
| DataTable.PageRows | components/admin/DataTable.tsx:53-54 | a page holds at most pageSize rows, those from its start index |
| DataTable.PagesUpToPrefix | components/admin/DataTable.tsx:52-54 | the first k pages together are the first k times pageSize rows |
| DataTable.AllPagesCoverData | components/admin/DataTable.tsx:52-54 | all pages together are the filtered rows, in order, each once |
| DataTable.ShowingMatchesPage | components/admin/DataTable.tsx:146 | the 'showing from to' numbers are exactly the rows of the page |
| DataTable.ControlsIffOverflow | components/admin/DataTable.tsx:143 | the paging controls appear exactly when there are more rows than a page holds |
| DataTable.PreviousPage | components/admin/DataTable.tsx:152-153 | back one page, never below 1 |
| DataTable.NextPage | components/admin/DataTable.tsx:163-164 | forward one page, never beyond the last |
| DataTable.Step | components/admin/DataTable.tsx:71-74 | typing a search sets it and returns to page 1; the buttons keep the search |
| DataTable.StepKeepsRange | components/admin/DataTable.tsx:71-164 | each action keeps the page between 1 and the page count when there are rows |
| DataTable.RunKeepsRange | components/admin/DataTable.tsx:71-164 | any sequence of actions keeps the page in range |
| DataTable.Table.constructor | components/admin/DataTable.tsx:29-41 | the table starts on page 1 with an empty search and page size 10 unless given |
| DataTable.Table.Visible | components/admin/DataTable.tsx:44-54 | the rows shown are the current page of the filtered rows |
| DataTable.Table.OnSearchChange | components/admin/DataTable.tsx:71-74 | the in-place search change is Step for a search input |
| DataTable.Table.OnPrevious | components/admin/DataTable.tsx:152-153 | the in-place previous click is Step for that click |
| DataTable.Table.OnNext | components/admin/DataTable.tsx:163-164 | the in-place next click is Step for that click |
| MarkerTypes.GetMarkerColor | components/editor/types.ts:44-46 | index i gets colour i mod 8 from the palette; a negative index outside a multiple of 8 gets undefined |
| MarkerTypes.ColorsDistinct | components/editor/types.ts:33-42 | the eight palette colours are distinct |
| MarkerTypes.FirstMarkersDistinct | components/editor/types.ts:44-46 | the first eight markers get eight different colours |
| MarkerTypes.ColorPeriodic | components/editor/types.ts:44-46 | the colours repeat every eight markers |
| PersonaEditor.Patched | components/editor/PersonaEditor.tsx:68-70 | an update patch overrides the fields it gives and keeps the others |
| PersonaEditor.BackgroundLoaded | components/editor/PersonaEditor.tsx:43-54 | a loaded background replaces the image, clears markers and result, and nothing else changes |
| PersonaEditor.NewMarker | components/editor/PersonaEditor.tsx:57-66 | a new marker keeps the drawn geometry, image and prompt, and gets the palette colour of its position |
| PersonaEditor.MarkerAdded | components/editor/PersonaEditor.tsx:57-66 | adding appends one marker, keeps the others and selects the new one |
| PersonaEditor.AddedMarkerNamedAndColoured | components/editor/PersonaEditor.tsx:57-66 | the n-th marker is named 'Person n', gets palette colour n mod 8, an id from the time, and the drawn geometry |
| PersonaEditor.UpdateMarkers | components/editor/PersonaEditor.tsx:68-70 | exactly the markers with that id are patched, in place |
| PersonaEditor.MarkerUpdated | components/editor/PersonaEditor.tsx:68-70 | an update changes only the markers |
| PersonaEditor.UpdateTouchesOnlyId | components/editor/PersonaEditor.tsx:68-70 | every other marker is kept as it was |
| PersonaEditor.UpdateUnknownId | components/editor/PersonaEditor.tsx:68-70 | updating an id no marker has changes nothing |
| PersonaEditor.Without | components/editor/PersonaEditor.tsx:72-75 | the deletion keeps only markers with another id and every such marker, and a single marker exactly when its id differs |
| PersonaEditor.WithoutAppend | components/editor/PersonaEditor.tsx:72-75 | removal distributes over concatenation, so the kept markers keep their order |
| PersonaEditor.WithoutCounts | components/editor/PersonaEditor.tsx:72-75 | a marker with another id keeps all its copies and one with the id keeps none |
| PersonaEditor.MarkerDeleted | components/editor/PersonaEditor.tsx:72-75 | the new markers are Without of the old ones; deletion clears the selection exactly when the deleted marker was selected; nothing else changes |
| PersonaEditor.DeleteIdempotent | components/editor/PersonaEditor.tsx:72-75 | after a deletion no marker has the id, and deleting again changes nothing |
| PersonaEditor.PersonAssigned | components/editor/PersonaEditor.tsx:77-79 | the markers with that id get the image, every other marker and every other field is kept |
| PersonaEditor.PersonRemoved | components/editor/PersonaEditor.tsx:81-83 | the markers with that id lose their image, every other marker and every other field is kept |
| PersonaEditor.AssignThenRemove | components/editor/PersonaEditor.tsx:77-83 | assigning and then removing a person is removing it, and the marker has no person |
| PersonaEditor.ClearedAll | components/editor/PersonaEditor.tsx:86-92 | clearing removes image, markers, selection, result and error, and keeps the rest |
| PersonaEditor.Unassigned | components/editor/PersonaEditor.tsx:99-103 | zero unassigned markers exactly when every marker has a person image |
| PersonaEditor.CanGenerate | components/editor/PersonaEditor.tsx:147 | the button is enabled exactly with a background, at least one marker and no unassigned marker |
| PersonaEditor.RequestMarkers | components/editor/PersonaEditor.tsx:110-126 | the request carries each marker's id, geometry, image and name, in order |
| PersonaEditor.GenerateStarted | components/editor/PersonaEditor.tsx:95-126 | a started generation requests the background, the markers and the quality |
| PersonaEditor.GenerateIffCanGenerate | components/editor/PersonaEditor.tsx:95-147 | generation starts exactly when the button is enabled; without background or markers nothing changes; unassigned markers give an error; a start clears the error and sets the busy flags |
| PersonaEditor.GenerateFinished | components/editor/PersonaEditor.tsx:128-144 | the busy flag always ends; a success sets the result to the returned base64 data with the returned type, or 'image/png' when that is empty; a failure keeps the old result, hides it and sets 'Generierung fehlgeschlagen: ' plus the error text, or 'Generation failed' |
| PersonaEditor.FailureKeepsResult | components/editor/PersonaEditor.tsx:138-144 | an exception gives 'Generierung fehlgeschlagen: ' with its message or 'Unbekannter Fehler', and keeps markers and result |
| PersonaEditor.Editor.constructor | components/editor/PersonaEditor.tsx:33-40 | the editor starts with no background, markers, selection, result or error, not generating, at quality '2K' |
| PersonaEditor.Editor.OnBackgroundLoaded | components/editor/PersonaEditor.tsx:48-51 | the in-place load is BackgroundLoaded |
| PersonaEditor.Editor.AddMarker | components/editor/PersonaEditor.tsx:57-66 | the in-place addition is MarkerAdded |
| PersonaEditor.Editor.UpdateMarker | components/editor/PersonaEditor.tsx:68-70 | the in-place update is MarkerUpdated |
| PersonaEditor.Editor.DeleteMarker | components/editor/PersonaEditor.tsx:72-75 | the in-place deletion is MarkerDeleted |
| PersonaEditor.Editor.AssignPerson | components/editor/PersonaEditor.tsx:77-79 | the in-place assignment is PersonAssigned |
| PersonaEditor.Editor.RemovePersonImage | components/editor/PersonaEditor.tsx:81-83 | the in-place removal is PersonRemoved |
| PersonaEditor.Editor.SelectMarker | components/editor/PersonaEditor.tsx:262 | selecting changes only the selection |
| PersonaEditor.Editor.ClearAll | components/editor/PersonaEditor.tsx:86-92 | the in-place clear is ClearedAll |
| PersonaEditor.Editor.StartGenerate | components/editor/PersonaEditor.tsx:95-126 | the in-place start and its request are GenerateStarted |
| PersonaEditor.Editor.FinishGenerate | components/editor/PersonaEditor.tsx:128-144 | the in-place finish is GenerateFinished |
| ChatInput.Send | components/chat/ChatInput.tsx:31-42 | a message is sent exactly when there is text or an attachment and the composer is not busy or disabled; it sends the trimmed text and the attachments (undefined when none) and empties the composer; otherwise nothing changes |
| ChatInput.BlankMessageNotSent | components/chat/ChatInput.tsx:32 | blanks without attachments are never sent |
| ChatInput.SecondSendDoesNothing | components/chat/ChatInput.tsx:31-42 | right after a send, a second send finds nothing to send |
| ChatInput.KeyDown | components/chat/ChatInput.tsx:44-49 | Enter without Shift sends; every other key leaves the composer as it is |
| ChatInput.NewAttachment | components/chat/ChatInput.tsx:67-74 | an attachment is an image exactly for 'image/' types, never a pdf, and carries the data URL as url and base64 |
| ChatInput.FileLoaded | components/chat/ChatInput.tsx:67-75 | a loaded file appends its attachment and keeps the message |
| ChatInput.DropIndex | components/chat/ChatInput.tsx:82-84 | the filter drops one element for an index in range and none otherwise |
| ChatInput.DropIndexSpec | components/chat/ChatInput.tsx:82-84 | removing index i takes out exactly that element and keeps the others in order |
| ChatInput.AttachmentRemoved | components/chat/ChatInput.tsx:82-84 | removing keeps the message and drops one attachment for an index in range |
| ChatInput.LoadThenRemoveLast | components/chat/ChatInput.tsx:61-84 | loading a file and removing the last attachment gives back the composer |
| ChatInput.TextChanged | components/chat/ChatInput.tsx:51-53 | typing replaces the message and keeps the attachments |
| ChatInput.Composer.constructor | components/chat/ChatInput.tsx:26-27 | the composer starts empty |
| ChatInput.Composer.HandleSend | components/chat/ChatInput.tsx:31-42 | the in-place send and what it sends are Send |
| ChatInput.Composer.HandleKeyDown | components/chat/ChatInput.tsx:44-49 | the in-place key press is KeyDown |
| ChatInput.Composer.HandleTextareaChange | components/chat/ChatInput.tsx:51-53 | typing replaces the message |
| ChatInput.Composer.OnFileLoaded | components/chat/ChatInput.tsx:67-75 | the in-place load is FileLoaded |
| ChatInput.Composer.RemoveAttachment | components/chat/ChatInput.tsx:82-84 | the in-place removal is AttachmentRemoved |
| Onboarding.Next | components/onboarding/OnboardingForm.tsx:33-37 | forward one step, never beyond step 4 |
| Onboarding.Back | components/onboarding/OnboardingForm.tsx:39-43 | back one step, never below step 1 |
| Onboarding.BackUndoesNext | components/onboarding/OnboardingForm.tsx:33-43 | below the last step, back undoes next |
| Onboarding.Skip | components/onboarding/OnboardingForm.tsx:63-65 | skipping the welcome step leaves for the redirect; skipping steps 2 or 3 is next; the last step has no skip |
| Onboarding.WithField | components/onboarding/OnboardingForm.tsx:123-176 | an input sets its own field |
| Onboarding.Edited | components/onboarding/OnboardingForm.tsx:123-176 | typing changes only the form data |
| Onboarding.EditChangesOnlyField | components/onboarding/OnboardingForm.tsx:123-176 | an edit sets its field and leaves the other three fields alone |
| Onboarding.CompleteStarted | components/onboarding/OnboardingForm.tsx:45-52 | completing on the last step starts loading; otherwise nothing happens |
| Onboarding.CompleteFinished | components/onboarding/OnboardingForm.tsx:54-60 | after the wait, onComplete runs once, the redirect is pushed and loading ends; step and data are kept |
| Onboarding.Act | components/onboarding/OnboardingForm.tsx:30-185 | while loading nothing changes; a step in range stays in range; an action alone never calls onComplete |
| Onboarding.StepStaysInRange | components/onboarding/OnboardingForm.tsx:30-65 | whatever the user clicks, the step stays between 1 and 4 |
| Onboarding.ClicksDoNotComplete | components/onboarding/OnboardingForm.tsx:45-61 | clicks alone never call onComplete |
| Onboarding.OnboardingForm.constructor | components/onboarding/OnboardingForm.tsx:21-28 | the form starts at step 1, idle and empty, with the given redirect or '/dashboard' |
| Onboarding.OnboardingForm.HandleNext | components/onboarding/OnboardingForm.tsx:33-37 | the in-place next is Next |
| Onboarding.OnboardingForm.HandleBack | components/onboarding/OnboardingForm.tsx:39-43 | the in-place back is Back |
| Onboarding.OnboardingForm.HandleSkip | components/onboarding/OnboardingForm.tsx:63-65 | the in-place skip is Skip |
| Onboarding.OnboardingForm.HandleEdit | components/onboarding/OnboardingForm.tsx:123-176 | the in-place edit is Edited |
| Onboarding.OnboardingForm.StartComplete | components/onboarding/OnboardingForm.tsx:45-52 | the in-place start is CompleteStarted |
| Onboarding.OnboardingForm.FinishComplete | components/onboarding/OnboardingForm.tsx:54-60 | the in-place finish is CompleteFinished |

## Left out

- Network, database and browser I/O are parameters of the model. This covers Supabase queries,
  provider HTTP calls, Stripe's signature check and subscription retrieval, localStorage,
  FileReader and image loading. The failures the model covers are inputs: `StoreFaults`,
  `RpcReply`, provider outcomes, the retrieved subscription, `Download` and `Reply`. Other
  exceptions are not modelled, such as a throwing database client or a throwing
  `performFaceSwap`. Concurrency between requests is not modelled. Each request runs to
  completion on its own.
- JSON parsing of request bodies and stream payloads is not modelled. A payload decoder is a
  function parameter, and a request body is already split into its fields.
- The chat route's raw stream plumbing is not modelled: TextEncoder, the ReadableStream
  controller and the writing of SSE bytes. The route's event sequence is modelled instead.
- formatCreditCost and the Gemini image resizing use floating point and canvas APIs, and are not
  modelled. performFaceSwap's internals and the prompt texts are left out too. The face-swap
  step's outcome is an input.
- Dates and clocks are not modelled. The current time is an input: a millisecond difference for
  formatRelativeTime and `now` for marker ids. That is also why marker ids made within the same
  millisecond can collide.
- The remaining chat-service database calls are not modelled: loading, listing and deleting
  conversations, and saving messages. Only the pieces that compute something are modelled:
  the title, the update object and the new row.
- The credits route's operationType strings outside the enum are not accepted by the model.
  Its body arrives as an `Option<OperationType>`.
- CreditsRoute.Post: requires an operation type for a deduction, and for a check without a
  custom cost. A check with a custom cost is modelled without a type, since the custom cost
  alone prices it. A deduction without a type would log a row whose type is undefined, which
  the typed log cannot hold. A check with neither a type nor a cost prices an undefined
  operation, which the model cannot look up.
- CreditsRoute.Post: the body's `amount` and `customCost` are taken to be integers, with
  `amount` always present. The source reads them from untyped JSON. An admin addition without
  an amount computes `currentBalance + undefined`, which is NaN. A fractional custom cost is
  subtracted as given. Neither case is modelled.
- CreditsRoute.ParseInt: reads decimal digits only; parseInt's '0x' prefix is not modelled.
  A NaN or negative limit is modelled as an empty history. The model takes it that the store
  refuses such a limit and getTransactionHistory then returns an empty list.
- I18n.Find: only the translation tables' own keys are found. Keys inherited by JavaScript
  objects, such as 'toString', are not modelled.
- I18n.Interpolate: a parameter is found only when it is a key of the given map. The source's
  `params[paramKey] !== undefined` also finds inherited object keys such as 'constructor', so
  `{constructor}` is replaced there and kept as written here.
- Schemas.MinLength, Schemas.MaxLength, Schemas.PasswordIssues, ChatService.GenerateTitle,
  ChatService.Substring, Utils.Truncate, Utils.SliceTo, Utils.Capitalize, Utils.GetInitials and
  DataTable.Filter: lengths and positions count Unicode scalar values, as Dafny strings do.
  JavaScript's `.length`, `.slice` and `.substring` count UTF-16 code units, so a character
  outside the Basic Multilingual Plane, such as an emoji, counts once here and twice there. A
  password of four emoji is 8 code units and passes `min(8)` in the source, while the model
  reports it too short.
- Upper-casing and lower-casing cover ASCII letters only. This affects Capitalize, GetInitials,
  the table search and the UUID check.
- Schemas.EmailIssues and Schemas.UpdateProfileIssues: the email and URL syntax checks are
  function parameters. Numbers given to the credit purchase schema are integers.
- DataTable.Table.constructor: requires a positive page size. The data and searchValue props are
  fixed for the lifetime of a table.
- ChatInput.Composer.OnFileLoaded: each file's onload is one call, so files may finish in any
  order. The textarea's height adjustment and preventDefault are presentation, and not
  modelled.
- Onboarding.OnboardingForm.FinishComplete: models onComplete returning normally. If onComplete
  throws, loading still ends but no redirect happens, and that path is left out. The step
  components' rendering is left out.
- RpcCredits.Interpret: a successful row without balance_after reads as 0. The source passes the
  missing value through as undefined, which an integer result cannot hold.
- Middleware.Secured: header names are compared as written. `Headers.set` ignores their case, so
  a response header spelled in another case would be replaced rather than kept beside the
  security header.
- GeminiImage.GenerateWithPersons: each face is downloaded twice, at line 467 and at line 566,
  and the model takes the two downloads as separate inputs. Every exception carries a message;
  the 'Unknown error' text for a thrown value that is not an Error is not modelled.
- Utils.GetInitials: its own ensures states only the bound of two characters.
  Utils.InitialsFromParts and Utils.InitialsOfTwoWords state where the initials come from.

## Findings

| source | as written | input that shows it | evidently intended | confidence | as-written member | corrected member |
|---|---|---|---|---|---|---|
| app/api/credits/route.ts:73-80 | the body's customCost is passed to deductCredits without a check, and the credit service subtracts it as given | action 'deduct' with customCost -5, as any signed-in user | a negative custom cost is refused, so a deduction can never raise a balance | not executed | CreditsRoute.NegativeCustomCostCredits | CreditsRoute.GuardedDeductNeverCredits |

CreditsRoute.Post and CreditsRoute.HandlePost model the endpoint as written. CreditsRoute.GuardedPost
is the endpoint with the check, answering 400 'Invalid custom cost'. The same input passes a
check request, where it only makes the reported cost negative.
