/** The chat endpoint (app/api/chat/route.ts): validate, check credits, deduct, call the
    provider, and refund when a non-streaming call fails. The provider call is an input:
    what the non-streaming call returns or throws, and the chunks the streaming call yields
    (with the message of an exception that may end it). */
module ChatRoute {
  import opened Wrappers
  import opened CreditTypes
  import opened Ledger
  import opened AiService

  /** The fields of the request body the route reads; absent fields are None. */
  datatype ChatRequest = ChatRequest(
    messages: Option<seq<Message>>,
    model: Option<string>,
    provider: Option<string>,
    stream: Option<bool>,
    userId: Option<string>)

  /** The three provider keys of the environment. */
  datatype ApiKeys = ApiKeys(openai: Option<string>, anthropic: Option<string>, google: Option<string>)

  /** getApiKey (lines 150-161): unknown providers have no key. */
  function GetApiKey(provider: string, keys: ApiKeys): (key: Option<string>)
    ensures ParseProvider(provider).None? ==> key.None?
    ensures ParseProvider(provider) == Some(OpenAI) ==> key == keys.openai
    ensures ParseProvider(provider) == Some(Anthropic) ==> key == keys.anthropic
    ensures ParseProvider(provider) == Some(Google) ==> key == keys.google
  {
    if provider == "openai" then keys.openai
    else if provider == "anthropic" then keys.anthropic
    else if provider == "google" then keys.google
    else None
  }

  datatype CompletionOutcome = Completed(content: string, model: string, usage: Option<TokenUsage>) | Failed(message: string)

  /** What the streaming generator yields, and the message of an exception ending it, if any. */
  datatype StreamRun = StreamRun(chunks: seq<StreamChunk>, thrown: Option<string>)

  datatype ProviderBehaviour = ProviderBehaviour(completion: CompletionOutcome, stream: StreamRun)

  /** The `data:` events the route writes to its own stream. */
  datatype SseEvent = ContentEvent(content: string) | ErrorEvent(error: string) | DoneEvent

  datatype Body =
    | ErrorBody(error: string)
    | InsufficientBody(error: string, credits: int)
    | CompletionBody(content: string, model: string, usage: Option<TokenUsage>, transactionId: Option<string>)

  datatype Response = JsonResponse(status: int, body: Body) | EventStream(events: seq<SseEvent>)

  datatype ChatFaults = ChatFaults(deduct: StoreFaults, refund: StoreFaults)

  datatype Outcome = Outcome(state: LedgerState, response: Response)

  /** One generator chunk as the route forwards it; empty text is dropped. */
  function ChunkEvent(c: StreamChunk): seq<SseEvent> {
    match c
    case TextChunk(t) => if t != "" then [ContentEvent(t)] else []
    case ErrorChunk(e) => [ErrorEvent(e)]
    case DoneChunk => [DoneEvent]
  }

  /** The events of the route's stream (lines 84-107): provider errors and an exception
      thrown while streaming both become error events. */
  function StreamEvents(run: StreamRun): (events: seq<SseEvent>)
    ensures run.thrown.Some? ==> |events| > 0 && events[|events| - 1] == ErrorEvent(run.thrown.value)
  {
    Forwarded(run.chunks) + (if run.thrown.Some? then [ErrorEvent(run.thrown.value)] else [])
  }

  function Forwarded(chunks: seq<StreamChunk>): (events: seq<SseEvent>)
    ensures |events| <= |chunks|
  {
    if chunks == [] then [] else ChunkEvent(chunks[0]) + Forwarded(chunks[1..])
  }

  /** `{ model, provider }`: an absent model is not written. */
  function DeductMetadata(model: Option<string>, provider: string): (m: Metadata)
    ensures "provider" in m && m["provider"] == provider
    ensures "model" in m <==> model.Some?
    ensures model.Some? ==> m["model"] == model.value
  {
    var base := map["provider" := provider];
    if model.Some? then base["model" := model.value] else base
  }

  const RefundReason: Metadata := map["reason" := "generation_failed"]

  /** `if (userId)`: a missing or empty id means an anonymous request. */
  predicate HasUser(req: ChatRequest) {
    req.userId.Some? && req.userId.value != ""
  }

  predicate HasMessages(req: ChatRequest) {
    req.messages.Some? && |req.messages.value| > 0
  }

  function ProviderName(req: ChatRequest): string {
    req.provider.GetOr("openai")
  }

  predicate HasKey(req: ChatRequest, keys: ApiKeys) {
    var key := GetApiKey(ProviderName(req), keys);
    key.Some? && key.value != ""
  }

  /** An early response, or the ledger and transaction id the provider call starts from. */
  datatype Billing = Left(early: Outcome) | Right(state: LedgerState, transactionId: Option<string>)

  /** POST (lines 25-148). */
  function ChatPost(s: LedgerState, req: ChatRequest, keys: ApiKeys, provider: ProviderBehaviour, faults: ChatFaults): (o: Outcome)
    ensures !HasUser(req) ==> o.state == s
    ensures o.response.JsonResponse? && (o.response.status == 400 || o.response.status == 402) ==> o.state == s
  {
    if !HasMessages(req) then Outcome(s, JsonResponse(400, ErrorBody("Messages are required")))
    else if !HasKey(req, keys) then
      Outcome(s, JsonResponse(500, ErrorBody("API key not configured for " + ProviderName(req))))
    else
      var billed :=
        if HasUser(req) then
          var user := req.userId.value;
          var check := Check(s, user, AiChat, None);
          if !check.available then
            Left(Outcome(s, JsonResponse(402, InsufficientBody("Insufficient credits", check.currentBalance))))
          else
            var d := Deduct(s, user, AiChat, DeductMetadata(req.model, ProviderName(req)), None, None, faults.deduct);
            if !d.result.success then Left(Outcome(s, JsonResponse(402, ErrorBody(d.result.errorMessage.GetOr("")))))
            else Right(d.state, d.result.transactionId)
        else Right(s, None);
      match billed
      case Left(response) => response
      case Right(s1, transactionId) =>
        if req.stream.GetOr(true) then Outcome(s1, EventStream(StreamEvents(provider.stream)))
        else match provider.completion
          case Completed(content, model, usage) =>
            Outcome(s1, JsonResponse(200, CompletionBody(content, model, usage, transactionId)))
          case Failed(message) =>
            var s2 := if HasUser(req) && transactionId.Some? then RefundTx(s1, req.userId.value, transactionId.value, RefundReason, faults.refund).state else s1;
            Outcome(s2, JsonResponse(500, ErrorBody(message)))
  }

  /** POST, step by step against the in-place ledger. */
  method Post(ledger: CreditLedger, req: ChatRequest, keys: ApiKeys, provider: ProviderBehaviour, faults: ChatFaults)
    returns (response: Response)
    modifies ledger
    ensures Outcome(ledger.State(), response) == ChatPost(old(ledger.State()), req, keys, provider, faults)
  {
    if req.messages.None? || |req.messages.value| == 0 {
      return JsonResponse(400, ErrorBody("Messages are required"));
    }
    var providerName := req.provider.GetOr("openai");
    var apiKey := GetApiKey(providerName, keys);
    if apiKey.None? || apiKey.value == "" {
      return JsonResponse(500, ErrorBody("API key not configured for " + providerName));
    }
    var transactionId: Option<string> := None;
    if req.userId.Some? && req.userId.value != "" {
      var user := req.userId.value;
      var creditCheck := ledger.CheckCredits(user, AiChat, None);
      if !creditCheck.available {
        return JsonResponse(402, InsufficientBody("Insufficient credits", creditCheck.currentBalance));
      }
      var deduction := ledger.DeductCredits(user, AiChat, DeductMetadata(req.model, providerName), None, None, faults.deduct);
      if !deduction.success {
        return JsonResponse(402, ErrorBody(deduction.errorMessage.GetOr("")));
      }
      transactionId := deduction.transactionId;
    }
    if req.stream.GetOr(true) {
      return EventStream(StreamEvents(provider.stream));
    }
    match provider.completion {
      case Completed(content, model, usage) =>
        response := JsonResponse(200, CompletionBody(content, model, usage, transactionId));
      case Failed(message) =>
        if req.userId.Some? && req.userId.value != "" && transactionId.Some? {
          var _ := ledger.RefundCredits(req.userId.value, transactionId.value, RefundReason, faults.refund);
        }
        response := JsonResponse(500, ErrorBody(message));
    }
  }
}
