/** The second credit service, which delegates to the store's `deduct_credits` and `add_credits`
    functions: reference-id normalisation before the call and the unwrapping of its reply. The
    store functions themselves are not visible, so their reply is an input. */
module RpcCredits {
  import opened Wrappers
  import opened Text
  import opened CreditTypes

  predicate IsHex(c: char) {
    '0' <= c <= '9' || 'a' <= c <= 'f' || 'A' <= c <= 'F'
  }

  predicate IsHyphenAt(k: int) {
    k == 8 || k == 13 || k == 18 || k == 23
  }

  /** `/^[0-9a-f]{8}-[0-9a-f]{4}-[1-5][0-9a-f]{3}-[89ab][0-9a-f]{3}-[0-9a-f]{12}$/i`. */
  predicate IsUUID(s: string) {
    && |s| == 36
    && (forall k :: 0 <= k < 36 ==> (if IsHyphenAt(k) then s[k] == '-' else IsHex(s[k])))
    && '1' <= s[14] <= '5'
    && s[19] in "89abAB"
  }

  /** The `i` flag: case does not matter. */
  lemma UUIDIgnoresCase(s: string)
    ensures IsUUID(s) <==> IsUUID(Lower(s))
    ensures IsUUID(s) <==> IsUUID(Upper(s))
  {
  }

  /** The version nibble is 1-5 and the variant nibble one of 8, 9, a, b. */
  lemma UUIDShape(s: string)
    requires IsUUID(s)
    ensures s[8] == '-' && s[13] == '-' && s[18] == '-' && s[23] == '-'
    ensures s[14] in "12345" && LowerChar(s[19]) in "89ab"
  {
  }

  /** The arguments the store function receives. */
  datatype RpcArgs = RpcArgs(userId: UserId, operationType: OperationType, amount: int,
                             metadata: Metadata, referenceId: Option<string>)

  /** `x || null` on an optional string: absent and empty both become null. */
  function OrNull(s: Option<string>): (r: Option<string>)
    ensures r.Some? <==> s.Some? && s.value != ""
    ensures r.Some? ==> r == s
  {
    if s.Some? && s.value != "" then s else None
  }

  /** The row a store function returns. */
  datatype RpcRow = RpcRow(success: bool, balanceAfter: Option<int>, transactionId: Option<string>,
                           errorMessage: Option<string>)

  /** `data`: null, one row, or an array of rows. */
  datatype RpcData = Null | One(row: RpcRow) | Many(rows: seq<RpcRow>)

  /** What the call gives back: an error object, a thrown exception (with its message when it is
      an `Error`), or data. */
  datatype RpcReply = RpcError(message: string) | Thrown(thrown: Option<string>) | Data(data: RpcData)

  datatype CreditResult = CreditResult(success: bool, balanceAfter: int, transactionId: Option<string>,
                                       errorMessage: Option<string>)

  /** `Array.isArray(data) ? data[0] : data`, with an empty array giving undefined. */
  function Unwrap(data: RpcData): (r: Option<RpcRow>)
    ensures data.Many? && |data.rows| > 0 ==> r == Some(data.rows[0])
    ensures data.One? ==> r == Some(data.row)
    ensures r.None? <==> data.Null? || (data.Many? && |data.rows| == 0)
  {
    match data
    case Null => None
    case One(row) => Some(row)
    case Many(rows) => if |rows| > 0 then Some(rows[0]) else None
  }

  /** `n || 0` on an optional number. */
  function OrZero(n: Option<int>): int {
    if n.Some? then n.value else 0
  }

  /** The result built from the reply; `fallback` is 'Deduction failed' or 'Addition failed'. */
  function Interpret(reply: RpcReply, fallback: string): (r: CreditResult)
    ensures !r.success ==> r.transactionId.None? && r.errorMessage.Some?
    ensures r.success <==> reply.Data? && Unwrap(reply.data).Some? && Unwrap(reply.data).value.success
    ensures reply.RpcError? ==> r == CreditResult(false, 0, None, Some(reply.message))
    ensures reply.Thrown? ==> r == CreditResult(false, 0, None, Some(reply.thrown.GetOr("Unknown error")))
    ensures reply.Data? ==> var row := Unwrap(reply.data);
      if row.Some? && row.value.success then
        r == CreditResult(true, OrZero(row.value.balanceAfter), row.value.transactionId, None)
      else
        && r.balanceAfter == (if row.Some? then OrZero(row.value.balanceAfter) else 0)
        && r.errorMessage == Some(if row.Some? then OrNull(row.value.errorMessage).GetOr(fallback) else fallback)
  {
    match reply
    case RpcError(message) => CreditResult(false, 0, None, Some(message))
    case Thrown(thrown) => CreditResult(false, 0, None, Some(thrown.GetOr("Unknown error")))
    case Data(data) =>
      match Unwrap(data)
      case None => CreditResult(false, 0, None, Some(fallback))
      case Some(row) =>
        if !row.success then
          CreditResult(false, OrZero(row.balanceAfter), None, Some(OrNull(row.errorMessage).GetOr(fallback)))
        else CreditResult(true, OrZero(row.balanceAfter), row.transactionId, None)
  }

  /** The reference id and metadata `addCredits` sends: a non-UUID reference id is dropped and
      kept in `metadata.original_reference_id`. */
  function Relocate(referenceId: Option<string>, metadata: Metadata): (r: (Option<string>, Metadata))
    ensures referenceId.Some? && referenceId.value != "" && !IsUUID(referenceId.value) ==>
      r.0.None? && r.1 == metadata["original_reference_id" := referenceId.value]
    ensures referenceId.Some? && IsUUID(referenceId.value) ==> r == (referenceId, metadata)
    ensures referenceId.None? || referenceId == Some("") ==> r == (None, metadata)
    ensures forall k :: k in metadata && k != "original_reference_id" ==> k in r.1 && r.1[k] == metadata[k]
  {
    if referenceId.Some? && referenceId.value != "" && !IsUUID(referenceId.value) then
      (None, metadata["original_reference_id" := referenceId.value])
    else (OrNull(referenceId), metadata)
  }

  /** deductCredits (lines 51-111): the arguments of the call and the result built from its reply. */
  method DeductCredits(userId: UserId, operationType: OperationType, amount: int, metadata: Metadata,
                       referenceId: Option<string>, reply: RpcReply)
    returns (args: RpcArgs, result: CreditResult)
    ensures args == RpcArgs(userId, operationType, amount, metadata, OrNull(referenceId))
    ensures result == Interpret(reply, "Deduction failed")
  {
    args := RpcArgs(userId, operationType, amount, metadata, OrNull(referenceId));
    result := Respond(reply, "Deduction failed");
  }

  /** addCredits (lines 116-188): the reference id is relocated step by step before the call. */
  method AddCredits(userId: UserId, operationType: OperationType, amount: int, metadata: Metadata,
                    referenceId: Option<string>, reply: RpcReply)
    returns (args: RpcArgs, result: CreditResult)
    ensures (args.referenceId, args.metadata) == Relocate(referenceId, metadata)
    ensures args.userId == userId && args.operationType == operationType && args.amount == amount
    ensures result == Interpret(reply, "Addition failed")
  {
    var finalReferenceId := referenceId;
    var finalMetadata := metadata;
    if referenceId.Some? && referenceId.value != "" && !IsUUID(referenceId.value) {
      finalReferenceId := None;
      finalMetadata := finalMetadata["original_reference_id" := referenceId.value];
    }
    args := RpcArgs(userId, operationType, amount, finalMetadata, OrNull(finalReferenceId));
    result := Respond(reply, "Addition failed");
  }

  /** The shared tail of both calls: error, exception, unwrapping, failure defaults. */
  method Respond(reply: RpcReply, fallback: string) returns (result: CreditResult)
    ensures result == Interpret(reply, fallback)
  {
    if reply.RpcError? {
      return CreditResult(false, 0, None, Some(reply.message));
    }
    if reply.Thrown? {
      return CreditResult(false, 0, None, Some(reply.thrown.GetOr("Unknown error")));
    }
    var data := reply.data;
    var row: Option<RpcRow> := None;
    match data {
      case Null =>
      case One(r) => row := Some(r);
      case Many(rows) =>
        if |rows| > 0 {
          row := Some(rows[0]);
        }
    }
    if row.None? || !row.value.success {
      var balanceAfter := if row.Some? then OrZero(row.value.balanceAfter) else 0;
      var message := if row.Some? then OrNull(row.value.errorMessage).GetOr(fallback) else fallback;
      return CreditResult(false, balanceAfter, None, Some(message));
    }
    result := CreditResult(true, OrZero(row.value.balanceAfter), row.value.transactionId, None);
  }

  datatype Availability = Availability(available: bool, currentBalance: int)

  /** checkCreditsAvailable (lines 19-46): a failed lookup answers `{false, 0}`. */
  function CheckCreditsAvailable(balances: map<UserId, int>, userId: UserId, cost: int): (r: Availability)
    ensures userId !in balances ==> r == Availability(false, 0)
    ensures userId in balances ==> r.currentBalance == balances[userId] && (r.available <==> balances[userId] >= cost)
  {
    if userId !in balances then Availability(false, 0)
    else Availability(balances[userId] >= cost, balances[userId])
  }

  /** getBalance (lines 193-213): 0 on any failure. */
  function GetBalance(balances: map<UserId, int>, userId: UserId): (credits: int)
    ensures userId in balances ==> credits == balances[userId]
    ensures userId !in balances ==> credits == 0
  {
    if userId in balances then balances[userId] else 0
  }

  /** Relocation keeps every other metadata key and drops only malformed reference ids. */
  lemma RelocationKeepsUUIDs(referenceId: string, metadata: Metadata)
    requires referenceId != ""
    ensures var r := Relocate(Some(referenceId), metadata);
      (r.0 == Some(referenceId) <==> IsUUID(referenceId))
      && (r.0.None? <==> ("original_reference_id" in r.1 && r.1["original_reference_id"] == referenceId && !IsUUID(referenceId)))
  {
  }

  /** A failed reply never carries a transaction id, whatever the store put in its row. */
  lemma FailureHasNoTransaction(row: RpcRow, fallback: string)
    requires !row.success
    ensures Interpret(Data(Many([row])), fallback) == Interpret(Data(One(row)), fallback)
    ensures Interpret(Data(One(row)), fallback).transactionId.None?
  {
  }
}
