/** The credit system's vocabulary: the operation types, their default prices, the records
    the ledger stores and the results its operations return (lib/services/credits/types.ts). */
module CreditTypes {
  import opened Wrappers
  import Text

  type UserId = string

  /** Free-form transaction metadata; every value the services write is a string. */
  type Metadata = map<string, string>

  datatype OperationType =
    | AiGeneration | AiChat | ImageGeneration | VideoGeneration | DocumentProcessing | ApiCall
    | Purchase | Refund | Bonus | Subscription | AdminAdjustment

  /** Every operation type, in declaration order. */
  const AllOperationTypes: seq<OperationType> := [
    AiGeneration, AiChat, ImageGeneration, VideoGeneration, DocumentProcessing, ApiCall,
    Purchase, Refund, Bonus, Subscription, AdminAdjustment
  ]

  /** The string stored in the `operation_type` column. */
  function OperationName(op: OperationType): string {
    match op
    case AiGeneration => "ai_generation"
    case AiChat => "ai_chat"
    case ImageGeneration => "image_generation"
    case VideoGeneration => "video_generation"
    case DocumentProcessing => "document_processing"
    case ApiCall => "api_call"
    case Purchase => "purchase"
    case Refund => "refund"
    case Bonus => "bonus"
    case Subscription => "subscription"
    case AdminAdjustment => "admin_adjustment"
  }

  /** Reads an `operation_type` string back; strings outside the enumeration give None. */
  function ParseOperationType(s: string): (r: Option<OperationType>)
    ensures r.Some? ==> OperationName(r.value) == s
    ensures forall op :: OperationName(op) == s ==> r == Some(op)
  {
    if s == "ai_generation" then Some(AiGeneration)
    else if s == "ai_chat" then Some(AiChat)
    else if s == "image_generation" then Some(ImageGeneration)
    else if s == "video_generation" then Some(VideoGeneration)
    else if s == "document_processing" then Some(DocumentProcessing)
    else if s == "api_call" then Some(ApiCall)
    else if s == "purchase" then Some(Purchase)
    else if s == "refund" then Some(Refund)
    else if s == "bonus" then Some(Bonus)
    else if s == "subscription" then Some(Subscription)
    else if s == "admin_adjustment" then Some(AdminAdjustment)
    else None
  }

  /** The six operation types that are paid for with credits. */
  predicate IsBillable(op: OperationType) {
    op in {AiGeneration, AiChat, ImageGeneration, VideoGeneration, DocumentProcessing, ApiCall}
  }

  /** DEFAULT_CREDIT_PRICING: a total table, free for the crediting operations. */
  function DefaultCost(op: OperationType): (cost: int)
    ensures cost >= 0
    ensures cost > 0 <==> IsBillable(op)
    ensures op == AiChat || op == ApiCall ==> cost == 1
  {
    match op
    case AiGeneration => 10
    case AiChat => 1
    case ImageGeneration => 15
    case VideoGeneration => 50
    case DocumentProcessing => 5
    case ApiCall => 1
    case Purchase => 0
    case Refund => 0
    case Bonus => 0
    case Subscription => 0
    case AdminAdjustment => 0
  }

  /** `customCost ?? DEFAULT_CREDIT_PRICING[operationType]`: a custom cost wins, even a negative one. */
  function CostOf(op: OperationType, customCost: Option<int>): (cost: int)
    ensures customCost.Some? ==> cost == customCost.value
    ensures customCost.None? ==> cost == DefaultCost(op) && cost >= 0
  {
    customCost.GetOr(DefaultCost(op))
  }

  /** The enumeration has exactly eleven members, all listed once, with distinct column names. */
  lemma AllOperationTypesComplete()
    ensures |AllOperationTypes| == 11
    ensures forall op: OperationType :: op in AllOperationTypes
    ensures forall i, j :: 0 <= i < j < |AllOperationTypes| ==>
      OperationName(AllOperationTypes[i]) != OperationName(AllOperationTypes[j])
  {
    forall op: OperationType ensures op in AllOperationTypes {
      match op
      case AiGeneration => assert AllOperationTypes[0] == op;
      case AiChat => assert AllOperationTypes[1] == op;
      case ImageGeneration => assert AllOperationTypes[2] == op;
      case VideoGeneration => assert AllOperationTypes[3] == op;
      case DocumentProcessing => assert AllOperationTypes[4] == op;
      case ApiCall => assert AllOperationTypes[5] == op;
      case Purchase => assert AllOperationTypes[6] == op;
      case Refund => assert AllOperationTypes[7] == op;
      case Bonus => assert AllOperationTypes[8] == op;
      case Subscription => assert AllOperationTypes[9] == op;
      case AdminAdjustment => assert AllOperationTypes[10] == op;
    }
  }

  /** Column names identify operation types: parsing a stored name gives back its type. */
  lemma OperationNameRoundTrip(op: OperationType)
    ensures ParseOperationType(OperationName(op)) == Some(op)
  {
  }

  /** The default prices the rest of the system relies on. */
  lemma DefaultPrices()
    ensures DefaultCost(AiGeneration) == 10 && DefaultCost(AiChat) == 1
    ensures DefaultCost(ImageGeneration) == 15 && DefaultCost(VideoGeneration) == 50
    ensures DefaultCost(DocumentProcessing) == 5 && DefaultCost(ApiCall) == 1
    ensures forall op :: !IsBillable(op) ==> DefaultCost(op) == 0
  {
  }

  /** One row of `credit_transactions`. The id is the row's key; its string form is
      `TxKey(id)`. A transaction carries its amount and the balance before and after it. */
  datatype Tx = Tx(
    id: nat,
    userId: UserId,
    operationType: OperationType,
    amount: int,
    balanceBefore: int,
    balanceAfter: int,
    metadata: Metadata,
    referenceId: Option<string>)

  /** The row key as the services hand it out: the decimal digits of the id. */
  function TxKey(id: nat): string {
    Text.IntToString(id)
  }

  lemma TxKeyInjective(a: nat, b: nat)
    ensures TxKey(a) == TxKey(b) <==> a == b
  {
    if TxKey(a) == TxKey(b) {
      Text.IntToStringInjective(a, b);
    }
  }

  datatype CheckResult = CheckResult(available: bool, cost: int, currentBalance: int)

  datatype DeductionResult = DeductionResult(
    success: bool,
    balanceAfter: int,
    transactionId: Option<string>,
    errorMessage: Option<string>,
    cost: int)

  /** CreditAdditionResult; CreditRefundResult has the same fields. */
  datatype AdditionResult = AdditionResult(
    success: bool,
    balanceAfter: int,
    transactionId: Option<string>,
    errorMessage: Option<string>)

  type RefundResult = AdditionResult
}
