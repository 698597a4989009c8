/** The credits API route: GET reads the caller's balance or history, POST checks, deducts
    or (for administrators only) adds credits. */
module CreditsRoute {
  import opened Wrappers
  import opened Text
  import opened CreditTypes
  import opened Ledger
  import opened LedgerProperties

  /** The authenticated user and the `role` column `.single()` finds for them (None when no row). */
  datatype Caller = Caller(id: UserId, role: Option<string>)

  datatype RouteBody =
    | ErrorBody(error: string)
    | TransactionsBody(transactions: seq<Tx>)
    | CreditsBody(credits: int)
    | CheckBody(check: CheckResult)
    | DeductionBody(deduction: DeductionResult)
    | AdditionBody(addition: AdditionResult)

  datatype RouteResponse = RouteResponse(status: int, body: RouteBody)

  datatype Routed = Routed(state: LedgerState, response: RouteResponse)

  /** The JSON fields the POST handler destructures. `operationType` is None when absent. */
  datatype PostBody = PostBody(action: Option<string>, operationType: Option<OperationType>, amount: int,
                               metadata: Metadata, customCost: Option<int>, targetUserId: Option<string>)

  const Unauthorized := RouteResponse(401, ErrorBody("Unauthorized"))

  /** The longest run of decimal digits at the front of `s`. */
  function DigitPrefix(s: string): (p: string)
    ensures p <= s
    ensures forall i :: 0 <= i < |p| ==> IsDigit(p[i])
    ensures |p| < |s| ==> !IsDigit(s[|p|])
  {
    if |s| > 0 && IsDigit(s[0]) then [s[0]] + DigitPrefix(s[1..]) else ""
  }

  lemma {:induction false} DigitPrefixOfDigits(s: string)
    requires forall i :: 0 <= i < |s| ==> IsDigit(s[i])
    ensures DigitPrefix(s) == s
  {
    if |s| > 0 {
      DigitPrefixOfDigits(s[1..]);
    }
  }

  /** `parseInt(s)` in base ten: leading white space, an optional sign, then the leading digits;
      None stands for NaN (no digit after the sign). */
  function ParseInt(s: string): (r: Option<int>)
    ensures var t := TrimStart(s);
      var rest := if |t| > 0 && (t[0] == '-' || t[0] == '+') then t[1..] else t;
      (r.Some? <==> DigitPrefix(rest) != "")
      && (r.Some? && !(|t| > 0 && t[0] == '-') ==> r.value >= 0)
  {
    var t := TrimStart(s);
    var negative := |t| > 0 && t[0] == '-';
    var rest := if |t| > 0 && (t[0] == '-' || t[0] == '+') then t[1..] else t;
    var digits := DigitPrefix(rest);
    var magnitude: int := ParseNat(digits);
    if digits == "" then None
    else if negative then Some(-magnitude)
    else Some(magnitude)
  }

  /** Reading back a non-negative number written in decimal. */
  lemma ParseIntOfNat(n: nat)
    ensures ParseInt(NatToString(n)) == Some(n)
  {
    var s := NatToString(n);
    assert IsDigit(s[0]) && !IsSpace(s[0]);
    assert TrimStart(s) == s;
    assert s[0] != '-' && s[0] != '+';
    DigitPrefixOfDigits(s);
    ParseNatToString(n);
  }

  /** The `limit` the history query receives: `parseInt(param || '50')`. A NaN or negative limit
      is refused by the store, which `getTransactionHistory` turns into an empty list. */
  function HistoryLimit(param: Option<string>): (limit: Option<nat>)
    ensures param.None? || param == Some("") ==> limit == Some(50)
    ensures limit.Some? ==> param.Some? && param.value != "" ==> ParseInt(param.value) == Some(limit.value)
  {
    var text := if param.None? || param.value == "" then "50" else param.value;
    assert "50" == NatToString(50);
    ParseIntOfNat(50);
    match ParseInt(text)
    case Some(n) => if n >= 0 then Some(n) else None
    case None => None
  }

  /** GET (lines 11-46). */
  function Get(s: LedgerState, user: Option<UserId>, action: Option<string>, limit: Option<string>): (r: RouteResponse)
    ensures user.None? <==> r == Unauthorized
    ensures user.Some? && action == Some("history") ==>
      r == RouteResponse(200, TransactionsBody(
        match HistoryLimit(limit) case Some(n) => History(s.log, user.value, n) case None => []))
    ensures user.Some? && action != Some("history") ==>
      r == RouteResponse(200, CreditsBody(if user.value in s.balances then s.balances[user.value] else 0))
  {
    if user.None? then Unauthorized
    else if action == Some("history") then
      var rows := match HistoryLimit(limit) case Some(n) => History(s.log, user.value, n) case None => [];
      RouteResponse(200, TransactionsBody(rows))
    else RouteResponse(200, CreditsBody(if user.value in s.balances then s.balances[user.value] else 0))
  }

  /** A deduction is given an operation type (an absent one leaves the logged type undefined);
      a check is given one or a custom cost, which then makes the type irrelevant
      (`customCost ?? DEFAULT_CREDIT_PRICING[operationType]`). */
  predicate Typed(body: PostBody) {
    && (body.action == Some("check") ==> body.operationType.Some? || body.customCost.Some?)
    && (body.action == Some("deduct") ==> body.operationType.Some?)
  }

  /** The operation type a check prices with; without one the custom cost decides alone. */
  function CheckedType(body: PostBody): OperationType {
    body.operationType.GetOr(AiChat)
  }

  /** With a custom cost the operation type does not affect a check. */
  lemma CustomCostIgnoresType(s: LedgerState, user: UserId, op: OperationType, op': OperationType, cost: int)
    ensures Check(s, user, op, Some(cost)) == Check(s, user, op', Some(cost))
  {
  }

  predicate IsAdmin(caller: Caller) {
    caller.role == Some("admin")
  }

  /** `body.targetUserId || user.id`. */
  function TargetOf(caller: Caller, body: PostBody): UserId {
    if body.targetUserId.Some? && body.targetUserId.value != "" then body.targetUserId.value else caller.id
  }

  /** POST (lines 48-122). */
  function Post(s: LedgerState, caller: Option<Caller>, body: PostBody, faults: StoreFaults): (r: Routed)
    requires Typed(body)
    ensures caller.None? ==> r == Routed(s, Unauthorized)
    ensures r.state != s ==> body.action == Some("deduct") || (body.action == Some("add") && IsAdmin(caller.value))
    ensures caller.Some? && body.action == Some("check") ==>
      r == Routed(s, RouteResponse(200, CheckBody(Check(s, caller.value.id, CheckedType(body), body.customCost))))
    ensures caller.Some? && body.action == Some("deduct") ==>
      var d := Deduct(s, caller.value.id, body.operationType.value, body.metadata, None, body.customCost, faults);
      r == Routed(d.state, RouteResponse(200, DeductionBody(d.result)))
    ensures caller.Some? && body.action == Some("add") && IsAdmin(caller.value) ==>
      var a := Add(s, TargetOf(caller.value, body), body.operationType.GetOr(AdminAdjustment), body.amount,
                   body.metadata, None, faults);
      r == Routed(a.state, RouteResponse(200, AdditionBody(a.result)))
  {
    if caller.None? then Routed(s, Unauthorized)
    else
      var user := caller.value;
      if body.action == Some("check") then
        Routed(s, RouteResponse(200, CheckBody(Check(s, user.id, CheckedType(body), body.customCost))))
      else if body.action == Some("deduct") then
        var d := Deduct(s, user.id, body.operationType.value, body.metadata, None, body.customCost, faults);
        Routed(d.state, RouteResponse(200, DeductionBody(d.result)))
      else if body.action == Some("add") then
        if !IsAdmin(user) then Routed(s, RouteResponse(403, ErrorBody("Forbidden")))
        else
          var a := Add(s, TargetOf(user, body), body.operationType.GetOr(AdminAdjustment), body.amount, body.metadata, None, faults);
          Routed(a.state, RouteResponse(200, AdditionBody(a.result)))
      else Routed(s, RouteResponse(400, ErrorBody("Invalid action")))
  }

  /** As written, a deduction's custom cost is passed on unchecked: a negative one clears the
      balance check, raises the caller's balance, and refunding that transaction raises it by
      the same amount again. */
  lemma NegativeCustomCostCredits(s: LedgerState, caller: Caller, body: PostBody, c: int, refundMetadata: Metadata)
    requires WellFormed(s) && caller.id in s.balances && s.balances[caller.id] >= 0
    requires body.action == Some("deduct") && body.operationType.Some? && body.customCost == Some(c) && c < 0
    ensures var r := Post(s, Some(caller), body, NoFaults);
      && r.response.status == 200 && r.response.body.DeductionBody? && r.response.body.deduction.success
      && r.state.balances[caller.id] == s.balances[caller.id] - c > s.balances[caller.id]
      && RefundTx(r.state, caller.id, TxKey(s.nextId), refundMetadata, NoFaults).state.balances[caller.id]
         == s.balances[caller.id] - 2 * c
  {
    var row := DeductLogsRow(s, caller.id, body.operationType.value, body.metadata, body.customCost);
    assert Abs(row.amount) == -c;
  }

  /** A custom cost below zero, refused before the ledger is touched. */
  predicate NegativeCost(body: PostBody) {
    (body.action == Some("check") || body.action == Some("deduct")) && body.customCost.Some? && body.customCost.value < 0
  }

  /** POST with the cost validation the endpoint evidently intends: a negative custom cost is
      answered with 400 and changes nothing. */
  function GuardedPost(s: LedgerState, caller: Option<Caller>, body: PostBody, faults: StoreFaults): (r: Routed)
    requires Typed(body)
    ensures caller.Some? && NegativeCost(body) ==> r == Routed(s, RouteResponse(400, ErrorBody("Invalid custom cost")))
    ensures !(caller.Some? && NegativeCost(body)) ==> r == Post(s, caller, body, faults)
  {
    if caller.Some? && NegativeCost(body) then Routed(s, RouteResponse(400, ErrorBody("Invalid custom cost")))
    else Post(s, caller, body, faults)
  }

  /** Through the guarded endpoint a deduction never raises any balance, and it lowers at most
      the caller's. */
  lemma GuardedDeductNeverCredits(s: LedgerState, caller: Caller, body: PostBody, faults: StoreFaults)
    requires Typed(body) && body.action == Some("deduct")
    ensures var r := GuardedPost(s, Some(caller), body, faults);
      && r.state.balances.Keys == s.balances.Keys
      && (forall u :: u in s.balances ==> r.state.balances[u] <= s.balances[u])
      && (forall u :: u in s.balances && u != caller.id ==> r.state.balances[u] == s.balances[u])
  {
    if !NegativeCost(body) {
      assert CostOf(body.operationType.value, body.customCost) >= 0;
    }
  }

  /** GET against the in-place ledger; it only reads. */
  method HandleGet(ledger: CreditLedger, user: Option<UserId>, action: Option<string>, limit: Option<string>)
    returns (response: RouteResponse)
    ensures response == Get(ledger.State(), user, action, limit)
  {
    if user.None? {
      return Unauthorized;
    }
    if action == Some("history") {
      var parsed := HistoryLimit(limit);
      var rows: seq<Tx> := [];
      if parsed.Some? {
        rows := ledger.GetTransactionHistory(user.value, parsed.value);
      }
      return RouteResponse(200, TransactionsBody(rows));
    }
    var balance := ledger.GetUserCredits(user.value);
    response := RouteResponse(200, CreditsBody(balance));
  }

  /** POST against the in-place ledger. */
  method HandlePost(ledger: CreditLedger, caller: Option<Caller>, body: PostBody, faults: StoreFaults)
    returns (response: RouteResponse)
    requires Typed(body)
    modifies ledger
    ensures Routed(ledger.State(), response) == Post(old(ledger.State()), caller, body, faults)
  {
    if caller.None? {
      return Unauthorized;
    }
    var user := caller.value;
    if body.action == Some("check") {
      var result := ledger.CheckCredits(user.id, CheckedType(body), body.customCost);
      response := RouteResponse(200, CheckBody(result));
    } else if body.action == Some("deduct") {
      var result := ledger.DeductCredits(user.id, body.operationType.value, body.metadata, None, body.customCost, faults);
      response := RouteResponse(200, DeductionBody(result));
    } else if body.action == Some("add") {
      if user.role != Some("admin") {
        return RouteResponse(403, ErrorBody("Forbidden"));
      }
      var targetUserId := TargetOf(user, body);
      var result := ledger.AddCredits(targetUserId, body.operationType.GetOr(AdminAdjustment), body.amount, body.metadata, None, faults);
      response := RouteResponse(200, AdditionBody(result));
    } else {
      response := RouteResponse(400, ErrorBody("Invalid action"));
    }
  }

  // Properties of the route.

  /** Check and deduct always act on the caller, whatever target the body names. */
  lemma OwnAccountOnly(s: LedgerState, caller: Caller, body: PostBody, other: Option<string>, faults: StoreFaults)
    requires Typed(body) && (body.action == Some("check") || body.action == Some("deduct"))
    ensures Post(s, Some(caller), body, faults) == Post(s, Some(caller), body.(targetUserId := other), faults)
    ensures body.action == Some("deduct") ==>
      Post(s, Some(caller), body, faults).state ==
      Deduct(s, caller.id, body.operationType.value, body.metadata, None, body.customCost, faults).state
  {
  }

  /** Adding is refused with 403, and nothing changes, unless the caller's role is 'admin'. */
  lemma AddNeedsAdmin(s: LedgerState, caller: Caller, body: PostBody, faults: StoreFaults)
    requires body.action == Some("add")
    ensures var r := Post(s, Some(caller), body, faults);
      !IsAdmin(caller) <==> r == Routed(s, RouteResponse(403, ErrorBody("Forbidden")))
  {
  }

  /** An administrator's add without target or type credits the administrator as 'admin_adjustment'. */
  lemma AddDefaults(s: LedgerState, caller: Caller, body: PostBody, faults: StoreFaults)
    requires body.action == Some("add") && IsAdmin(caller)
    requires body.targetUserId.None? || body.targetUserId == Some("")
    requires body.operationType.None?
    ensures Post(s, Some(caller), body, faults).state ==
      Add(s, caller.id, AdminAdjustment, body.amount, body.metadata, None, faults).state
  {
  }

  /** Any other action is a 400 with no change. */
  lemma UnknownActionRejected(s: LedgerState, caller: Caller, body: PostBody, faults: StoreFaults)
    requires body.action !in {Some("check"), Some("deduct"), Some("add")}
    ensures Post(s, Some(caller), body, faults) == Routed(s, RouteResponse(400, ErrorBody("Invalid action")))
  {
  }

  /** A history request without a limit gets at most fifty of the caller's rows; one with a
      decimal limit `n` gets at most `n`. */
  lemma HistoryLimits(n: nat)
    ensures HistoryLimit(None) == Some(50) && HistoryLimit(Some("")) == Some(50)
    ensures HistoryLimit(Some(NatToString(n))) == Some(n)
  {
    ParseIntOfNat(n);
  }
}
