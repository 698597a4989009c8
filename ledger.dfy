/** The credit ledger of CreditService (lib/services/credits/credit-service.ts): one integer
    balance per user and an append-only transaction log.

    `LedgerState` and the functions over it are the specification; the class `CreditLedger`
    performs the same operations step by step (read the balance, write the new balance, insert
    one log row) and each of its methods is proved to agree with its specification function.
    The store's failures are the parameter `StoreFaults`: the balance update may report an
    error, and the log insert may fail silently. */
module Ledger {
  import opened Wrappers
  import opened CreditTypes
  import Text

  datatype StoreFaults = StoreFaults(updateError: Option<string>, insertFails: bool)

  const NoFaults: StoreFaults := StoreFaults(None, false)

  /** The `users.credits` column and the `credit_transactions` table; `nextId` is the key
      the next inserted row receives. */
  datatype LedgerState = LedgerState(balances: map<UserId, int>, log: seq<Tx>, nextId: nat)

  /** Rows have keys below the counter, in increasing order, belong to known users, and each
      row's balance after equals its balance before plus its amount. */
  ghost predicate WellFormed(s: LedgerState) {
    && (forall i :: 0 <= i < |s.log| ==>
          s.log[i].id < s.nextId && s.log[i].userId in s.balances
          && s.log[i].balanceAfter == s.log[i].balanceBefore + s.log[i].amount)
    && (forall i, j :: 0 <= i < j < |s.log| ==> s.log[i].id < s.log[j].id)
  }

  /** The result of createTransaction: the row is appended and its key returned, or, when the
      insert fails, nothing is appended and the key is None. */
  ghost predicate LoggedOnce(s: LedgerState, s': LedgerState, key: Option<string>, row: Tx, insertFails: bool) {
    if insertFails then s'.log == s.log && s'.nextId == s.nextId && key.None?
    else s'.log == s.log + [row] && row.id == s.nextId && s'.nextId == s.nextId + 1 && key == Some(TxKey(row.id))
  }

  /** createTransaction (lines 279-310). */
  function Insert(s: LedgerState, row: Tx, insertFails: bool): (r: (LedgerState, Option<string>))
    requires row.id == s.nextId
    ensures r.0.balances == s.balances
    ensures LoggedOnce(s, r.0, r.1, row, insertFails)
  {
    if insertFails then (s, None)
    else (s.(log := s.log + [row], nextId := s.nextId + 1), Some(TxKey(row.id)))
  }

  /** checkCredits (lines 23-54): an unknown user can afford nothing and is reported with
      zero cost and balance. */
  function Check(s: LedgerState, user: UserId, op: OperationType, customCost: Option<int>): (r: CheckResult)
    ensures user !in s.balances ==> r == CheckResult(false, 0, 0)
    ensures user in s.balances ==>
      r.cost == CostOf(op, customCost) && r.currentBalance == s.balances[user]
      && (r.available <==> s.balances[user] >= CostOf(op, customCost))
  {
    if user !in s.balances then CheckResult(false, 0, 0)
    else
      var currentBalance := s.balances[user];
      var cost := CostOf(op, customCost);
      CheckResult(currentBalance >= cost, cost, currentBalance)
  }

  /** createErrorResult (lines 275-277). */
  function ErrorResult(message: string, cost: int): (r: DeductionResult)
    ensures !r.success && r.balanceAfter == 0 && r.transactionId.None?
    ensures r.errorMessage == Some(message) && r.cost == cost
  {
    DeductionResult(false, 0, None, Some(message), cost)
  }

  datatype Deducted = Deducted(state: LedgerState, result: DeductionResult)
  datatype Added = Added(state: LedgerState, result: AdditionResult)

  /** deductCredits (lines 59-117). */
  function Deduct(s: LedgerState, user: UserId, op: OperationType, metadata: Metadata,
                  referenceId: Option<string>, customCost: Option<int>, faults: StoreFaults): (d: Deducted)
    ensures d.result.cost == CostOf(op, customCost)
    ensures d.result.success <==>
      user in s.balances && s.balances[user] >= CostOf(op, customCost) && faults.updateError.None?
    ensures !d.result.success ==>
      d.state == s && d.result.balanceAfter == 0 && d.result.transactionId.None? && d.result.errorMessage.Some?
    ensures user !in s.balances ==> d.result.errorMessage == Some("User not found")
    ensures user in s.balances && s.balances[user] < CostOf(op, customCost) ==>
      d.result.errorMessage == Some("Insufficient credits")
    ensures user in s.balances && s.balances[user] >= CostOf(op, customCost) && faults.updateError.Some? ==>
      d.result.errorMessage == faults.updateError
    ensures d.result.success ==>
      var before, cost := s.balances[user], CostOf(op, customCost);
      && d.state.balances == s.balances[user := before - cost]
      && d.result.balanceAfter == before - cost >= 0
      && d.result.errorMessage.None?
      && LoggedOnce(s, d.state, d.result.transactionId,
                    Tx(s.nextId, user, op, -cost, before, before - cost, metadata, referenceId), faults.insertFails)
  {
    var cost := CostOf(op, customCost);
    if user !in s.balances then Deducted(s, ErrorResult("User not found", cost))
    else
      var current := s.balances[user];
      if current < cost then Deducted(s, ErrorResult("Insufficient credits", cost))
      else
        var newBalance := current - cost;
        if faults.updateError.Some? then Deducted(s, ErrorResult(faults.updateError.value, cost))
        else
          var updated := s.(balances := s.balances[user := newBalance]);
          var (s', key) := Insert(updated, Tx(s.nextId, user, op, -cost, current, newBalance, metadata, referenceId), faults.insertFails);
          Deducted(s', DeductionResult(true, newBalance, key, None, cost))
  }

  /** addCredits (lines 122-176): no check of the amount's sign. */
  function Add(s: LedgerState, user: UserId, op: OperationType, amount: int, metadata: Metadata,
               referenceId: Option<string>, faults: StoreFaults): (a: Added)
    ensures a.result.success <==> user in s.balances && faults.updateError.None?
    ensures !a.result.success ==>
      a.state == s && a.result.balanceAfter == 0 && a.result.transactionId.None? && a.result.errorMessage.Some?
    ensures user !in s.balances ==> a.result.errorMessage == Some("User not found")
    ensures user in s.balances && faults.updateError.Some? ==> a.result.errorMessage == faults.updateError
    ensures a.result.success ==>
      var before := s.balances[user];
      && a.state.balances == s.balances[user := before + amount]
      && a.result.balanceAfter == before + amount
      && a.result.errorMessage.None?
      && LoggedOnce(s, a.state, a.result.transactionId,
                    Tx(s.nextId, user, op, amount, before, before + amount, metadata, referenceId), faults.insertFails)
  {
    if user !in s.balances then Added(s, AdditionResult(false, 0, None, Some("User not found")))
    else
      var current := s.balances[user];
      var newBalance := current + amount;
      if faults.updateError.Some? then Added(s, AdditionResult(false, 0, None, faults.updateError))
      else
        var updated := s.(balances := s.balances[user := newBalance]);
        var (s', key) := Insert(updated, Tx(s.nextId, user, op, amount, current, newBalance, metadata, referenceId), faults.insertFails);
        Added(s', AdditionResult(true, newBalance, key, None))
  }

  /** The rows `.eq('id', key).eq('user_id', user)` selects, in log order. */
  function MatchingRows(log: seq<Tx>, key: string, user: UserId): (rows: seq<Tx>)
    ensures forall t :: t in rows <==> t in log && TxKey(t.id) == key && t.userId == user
    ensures |rows| <= |log|
  {
    if log == [] then []
    else
      var last := log[|log| - 1];
      MatchingRows(log[..|log| - 1], key, user) + (if TxKey(last.id) == key && last.userId == user then [last] else [])
  }

  /** `.single()`: a row is found exactly when one row matches. */
  function FindTx(log: seq<Tx>, key: string, user: UserId): (r: Option<Tx>)
    ensures r.Some? ==> r.value in log && TxKey(r.value.id) == key && r.value.userId == user
  {
    var rows := MatchingRows(log, key, user);
    if |rows| == 1 then Some(rows[0]) else None
  }

  function Abs(n: int): (r: nat)
    ensures r == n || r == -n
  {
    if n < 0 then -n else n
  }

  /** The metadata of a refund row: the caller's keys, overridden by the two provenance keys. */
  function RefundMetadata(metadata: Metadata, key: string, original: Tx): (m: Metadata)
    ensures m.Keys == metadata.Keys + {"original_transaction_id", "original_operation_type"}
    ensures m["original_transaction_id"] == key
    ensures m["original_operation_type"] == OperationName(original.operationType)
    ensures forall k :: k in metadata && k != "original_transaction_id" && k != "original_operation_type" ==>
      k in m && m[k] == metadata[k]
  {
    metadata["original_transaction_id" := key]["original_operation_type" := OperationName(original.operationType)]
  }

  /** refundCredits (lines 181-217): nothing records that a transaction was refunded. */
  function RefundTx(s: LedgerState, user: UserId, key: string, metadata: Metadata, faults: StoreFaults): (a: Added)
    ensures FindTx(s.log, key, user).None? ==>
      a == Added(s, AdditionResult(false, 0, None, Some("Transaction not found")))
    ensures FindTx(s.log, key, user).Some? ==>
      var t := FindTx(s.log, key, user).value;
      a == Add(s, user, Refund, Abs(t.amount), RefundMetadata(metadata, key, t), Some(key), faults)
  {
    match FindTx(s.log, key, user)
    case None => Added(s, AdditionResult(false, 0, None, Some("Transaction not found")))
    case Some(t) => Add(s, user, Refund, Abs(t.amount), RefundMetadata(metadata, key, t), Some(key), faults)
  }

  /** A user's rows, newest first (`.order('created_at', { ascending: false })`). */
  function NewestFirst(log: seq<Tx>, user: UserId): (rows: seq<Tx>)
    ensures forall t :: t in rows <==> t in log && t.userId == user
    ensures |rows| <= |log|
  {
    if log == [] then []
    else
      var last := log[|log| - 1];
      (if last.userId == user then [last] else []) + NewestFirst(log[..|log| - 1], user)
  }

  /** getTransactionHistory (lines 242-272): the first `limit` rows of the newest-first list. */
  function History(log: seq<Tx>, user: UserId, limit: nat): (h: seq<Tx>)
    ensures |h| == if |NewestFirst(log, user)| <= limit then |NewestFirst(log, user)| else limit
    ensures h == NewestFirst(log, user)[..|h|]
  {
    var rows := NewestFirst(log, user);
    if |rows| <= limit then rows else rows[..limit]
  }

  /** The sum of a user's logged amounts. */
  ghost function SumFor(log: seq<Tx>, user: UserId): int {
    if log == [] then 0
    else SumFor(log[..|log| - 1], user) + (if log[|log| - 1].userId == user then log[|log| - 1].amount else 0)
  }

  /** Every balance equals its opening balance plus the sum of the user's logged amounts. */
  ghost predicate Balanced(s: LedgerState, opening: map<UserId, int>) {
    s.balances.Keys == opening.Keys &&
    forall u :: u in s.balances ==> s.balances[u] == opening[u] + SumFor(s.log, u)
  }

  ghost predicate NonNegative(s: LedgerState) {
    forall u :: u in s.balances ==> s.balances[u] >= 0
  }

  /** The in-place ledger. */
  class CreditLedger {
    var balances: map<UserId, int>
    var log: seq<Tx>
    var nextId: nat

    function State(): LedgerState
      reads this
    {
      LedgerState(balances, log, nextId)
    }

    constructor (opening: map<UserId, int>)
      ensures State() == LedgerState(opening, [], 0)
    {
      balances := opening;
      log := [];
      nextId := 0;
    }

    /** checkCredits (lines 23-54): reads only. */
    method CheckCredits(user: UserId, op: OperationType, customCost: Option<int>) returns (r: CheckResult)
      ensures r == Check(State(), user, op, customCost)
      ensures user in balances ==> (r.available <==> balances[user] >= CostOf(op, customCost))
    {
      if user !in balances {
        return CheckResult(false, 0, 0);
      }
      var currentBalance := balances[user];
      var cost := CostOf(op, customCost);
      r := CheckResult(currentBalance >= cost, cost, currentBalance);
    }

    /** getUserCredits (lines 222-237). */
    method GetUserCredits(user: UserId) returns (credits: int)
      ensures credits == if user in balances then balances[user] else 0
    {
      if user !in balances {
        return 0;
      }
      credits := balances[user];
    }

    /** getTransactionHistory (lines 242-272). */
    method GetTransactionHistory(user: UserId, limit: nat) returns (rows: seq<Tx>)
      ensures rows == History(log, user, limit)
    {
      rows := NewestFirst(log, user);
      if |rows| > limit {
        rows := rows[..limit];
      }
    }

    /** createTransaction (lines 279-310). */
    method CreateTransaction(user: UserId, op: OperationType, amount: int, before: int, after: int,
                             metadata: Metadata, referenceId: Option<string>, insertFails: bool)
      returns (key: Option<string>)
      modifies this
      ensures (State(), key) == Insert(old(State()), Tx(old(nextId), user, op, amount, before, after, metadata, referenceId), insertFails)
    {
      if insertFails {
        return None;
      }
      log := log + [Tx(nextId, user, op, amount, before, after, metadata, referenceId)];
      key := Some(TxKey(nextId));
      nextId := nextId + 1;
    }

    /** deductCredits (lines 59-117). */
    method DeductCredits(user: UserId, op: OperationType, metadata: Metadata, referenceId: Option<string>,
                         customCost: Option<int>, faults: StoreFaults)
      returns (r: DeductionResult)
      modifies this
      ensures Deducted(State(), r) == Deduct(old(State()), user, op, metadata, referenceId, customCost, faults)
    {
      var cost := CostOf(op, customCost);
      if user !in balances {
        return ErrorResult("User not found", cost);
      }
      var currentBalance := balances[user];
      if currentBalance < cost {
        return ErrorResult("Insufficient credits", cost);
      }
      var newBalance := currentBalance - cost;
      if faults.updateError.Some? {
        return ErrorResult(faults.updateError.value, cost);
      }
      balances := balances[user := newBalance];
      var transactionId := CreateTransaction(user, op, -cost, currentBalance, newBalance, metadata, referenceId, faults.insertFails);
      r := DeductionResult(true, newBalance, transactionId, None, cost);
    }

    /** addCredits (lines 122-176). */
    method AddCredits(user: UserId, op: OperationType, amount: int, metadata: Metadata,
                      referenceId: Option<string>, faults: StoreFaults)
      returns (r: AdditionResult)
      modifies this
      ensures Added(State(), r) == Add(old(State()), user, op, amount, metadata, referenceId, faults)
    {
      if user !in balances {
        return AdditionResult(false, 0, None, Some("User not found"));
      }
      var currentBalance := balances[user];
      var newBalance := currentBalance + amount;
      if faults.updateError.Some? {
        return AdditionResult(false, 0, None, faults.updateError);
      }
      balances := balances[user := newBalance];
      var transactionId := CreateTransaction(user, op, amount, currentBalance, newBalance, metadata, referenceId, faults.insertFails);
      r := AdditionResult(true, newBalance, transactionId, None);
    }

    /** refundCredits (lines 181-217). */
    method RefundCredits(user: UserId, originalTransactionId: string, metadata: Metadata, faults: StoreFaults)
      returns (r: RefundResult)
      modifies this
      ensures Added(State(), r) == RefundTx(old(State()), user, originalTransactionId, metadata, faults)
    {
      var found := FindTx(log, originalTransactionId, user);
      if found.None? {
        return AdditionResult(false, 0, None, Some("Transaction not found"));
      }
      var transaction := found.value;
      var refundAmount := Abs(transaction.amount);
      r := AddCredits(user, Refund, refundAmount, RefundMetadata(metadata, originalTransactionId, transaction),
                      Some(originalTransactionId), faults);
    }
  }
}
