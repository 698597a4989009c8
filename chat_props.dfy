/** The billing protocol of the chat endpoint: what each exit leaves in the ledger. */
module ChatRouteProperties {
  import opened Wrappers
  import opened CreditTypes
  import opened Ledger
  import opened AiService
  import opened ChatRoute
  import LedgerProperties

  /** A request that passes validation and belongs to a known user who can pay for one chat
      message, against a ledger whose store does not fail. */
  ghost predicate BillableRequest(s: LedgerState, req: ChatRequest, keys: ApiKeys) {
    HasMessages(req) && HasKey(req, keys) && HasUser(req)
    && req.userId.value in s.balances && s.balances[req.userId.value] >= 1
  }

  const Healthy: ChatFaults := ChatFaults(NoFaults, NoFaults)

  /** Missing or empty messages are refused before any credit operation. */
  lemma MissingMessagesRefused(s: LedgerState, req: ChatRequest, keys: ApiKeys, provider: ProviderBehaviour, faults: ChatFaults)
    requires !HasMessages(req)
    ensures ChatPost(s, req, keys, provider, faults) == Outcome(s, JsonResponse(400, ErrorBody("Messages are required")))
  {
  }

  /** A provider without a configured key is refused before any credit operation. */
  lemma MissingKeyRefused(s: LedgerState, req: ChatRequest, keys: ApiKeys, provider: ProviderBehaviour, faults: ChatFaults)
    requires HasMessages(req) && !HasKey(req, keys)
    ensures var out := ChatPost(s, req, keys, provider, faults);
      out.state == s && out.response.JsonResponse? && out.response.status == 500
  {
  }

  /** Anonymous requests are never billed, whatever the provider does. */
  lemma AnonymousNotBilled(s: LedgerState, req: ChatRequest, keys: ApiKeys, provider: ProviderBehaviour, faults: ChatFaults)
    requires !HasUser(req)
    ensures ChatPost(s, req, keys, provider, faults).state == s
    ensures var r := ChatPost(s, req, keys, provider, faults).response;
      r.JsonResponse? && r.body.CompletionBody? ==> r.body.transactionId.None?
  {
  }

  /** A user who cannot pay gets 402 with the balance, and nothing is deducted. */
  lemma CheckFailureRefused(s: LedgerState, req: ChatRequest, keys: ApiKeys, provider: ProviderBehaviour, faults: ChatFaults)
    requires HasMessages(req) && HasKey(req, keys) && HasUser(req)
    requires !Check(s, req.userId.value, AiChat, None).available
    ensures ChatPost(s, req, keys, provider, faults) ==
      Outcome(s, JsonResponse(402, InsufficientBody("Insufficient credits", Check(s, req.userId.value, AiChat, None).currentBalance)))
  {
  }

  /** A failed deduction answers 402 without calling the provider: the outcome does not
      depend on what the provider would have done. */
  lemma DeductionFailureSkipsProvider(s: LedgerState, req: ChatRequest, keys: ApiKeys,
                                      p1: ProviderBehaviour, p2: ProviderBehaviour, faults: ChatFaults)
    requires HasMessages(req) && HasKey(req, keys) && HasUser(req)
    requires Check(s, req.userId.value, AiChat, None).available
    requires !Deduct(s, req.userId.value, AiChat, DeductMetadata(req.model, ProviderName(req)), None, None, faults.deduct).result.success
    ensures ChatPost(s, req, keys, p1, faults) == ChatPost(s, req, keys, p2, faults)
    ensures var out := ChatPost(s, req, keys, p1, faults);
      out.state == s && out.response.JsonResponse? && out.response.status == 402
  {
  }

  /** Failure path: a failed non-streaming call is refunded. The balance is back where it
      was and the log holds two new rows that cancel. */
  lemma FailedCallRefunded(s: LedgerState, req: ChatRequest, keys: ApiKeys, provider: ProviderBehaviour)
    requires WellFormed(s) && BillableRequest(s, req, keys)
    requires req.stream == Some(false) && provider.completion.Failed?
    ensures var out := ChatPost(s, req, keys, provider, Healthy);
      && out.state.balances == s.balances
      && |out.state.log| == |s.log| + 2 && out.state.log[..|s.log|] == s.log
      && out.state.log[|s.log|].amount == -1
      && out.state.log[|s.log|].amount + out.state.log[|s.log| + 1].amount == 0
      && out.state.log[|s.log| + 1].operationType == Refund
      && out.state.log[|s.log| + 1].metadata["reason"] == "generation_failed"
      && out.response == JsonResponse(500, ErrorBody(provider.completion.message))
  {
    var user := req.userId.value;
    var md := DeductMetadata(req.model, ProviderName(req));
    LedgerProperties.DeductThenRefundRestores(s, user, AiChat, md, None, RefundReason);
  }

  /** Success path: a successful non-streaming call leaves exactly one new row, of −1 credit,
      and the response carries that row's key. */
  lemma SuccessfulCallCharged(s: LedgerState, req: ChatRequest, keys: ApiKeys, provider: ProviderBehaviour)
    requires BillableRequest(s, req, keys)
    requires req.stream == Some(false) && provider.completion.Completed?
    ensures var out := ChatPost(s, req, keys, provider, Healthy);
      var user, before := req.userId.value, s.balances[req.userId.value];
      && out.state.balances == s.balances[user := before - 1]
      && out.state.log == s.log + [Tx(s.nextId, user, AiChat, -1, before, before - 1, DeductMetadata(req.model, ProviderName(req)), None)]
      && out.response.JsonResponse? && out.response.status == 200
      && out.response.body.transactionId == Some(TxKey(s.nextId))
  {
  }

  /** In streaming mode the deduction stands whatever the stream does: provider errors and
      exceptions become events and nothing is refunded. */
  lemma StreamingNeverRefunds(s: LedgerState, req: ChatRequest, keys: ApiKeys, provider: ProviderBehaviour, faults: ChatFaults)
    requires HasMessages(req) && HasKey(req, keys) && HasUser(req) && req.stream != Some(false)
    requires Check(s, req.userId.value, AiChat, None).available
    ensures var d := Deduct(s, req.userId.value, AiChat, DeductMetadata(req.model, ProviderName(req)), None, None, faults.deduct);
      d.result.success ==>
        ChatPost(s, req, keys, provider, faults) == Outcome(d.state, EventStream(StreamEvents(provider.stream)))
  {
  }

  /** When the deduction's log row was not written, its key is null and a failed call is
      not refunded: the credit is gone and no row records it. */
  lemma LostRowNotRefunded(s: LedgerState, req: ChatRequest, keys: ApiKeys, provider: ProviderBehaviour)
    requires BillableRequest(s, req, keys)
    requires req.stream == Some(false) && provider.completion.Failed?
    ensures var out := ChatPost(s, req, keys, provider, ChatFaults(StoreFaults(None, true), NoFaults));
      && out.state.log == s.log
      && out.state.balances == s.balances[req.userId.value := s.balances[req.userId.value] - 1]
  {
  }
}
