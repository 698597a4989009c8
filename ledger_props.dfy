/** What the ledger's operations keep and what combinations of them do. */
module LedgerProperties {
  import opened Wrappers
  import opened CreditTypes
  import opened Ledger

  lemma SumForAppend(log: seq<Tx>, t: Tx, u: UserId)
    ensures SumFor(log + [t], u) == SumFor(log, u) + (if t.userId == u then t.amount else 0)
  {
    assert (log + [t])[..|log|] == log;
  }

  lemma MatchingRowsAppend(log: seq<Tx>, t: Tx, key: string, user: UserId)
    ensures MatchingRows(log + [t], key, user) ==
      MatchingRows(log, key, user) + (if TxKey(t.id) == key && t.userId == user then [t] else [])
  {
    assert (log + [t])[..|log|] == log;
  }

  /** No logged row answers to the key the counter hands out next. */
  lemma {:induction false} NoRowHasFreshKey(log: seq<Tx>, n: nat, user: UserId)
    requires forall i :: 0 <= i < |log| ==> log[i].id < n
    ensures MatchingRows(log, TxKey(n), user) == []
  {
    if log != [] {
      var last := log[|log| - 1];
      NoRowHasFreshKey(log[..|log| - 1], n, user);
      TxKeyInjective(last.id, n);
    }
  }

  /** Appending one row with the counter's key to a well-formed ledger keeps it well formed. */
  lemma AppendKeepsWellFormed(s: LedgerState, s': LedgerState, row: Tx)
    requires WellFormed(s)
    requires row.id == s.nextId && row.userId in s.balances && row.balanceAfter == row.balanceBefore + row.amount
    requires s'.log == s.log + [row] && s'.nextId == s.nextId + 1 && s'.balances.Keys == s.balances.Keys
    ensures WellFormed(s')
  {
    assert forall i :: 0 <= i < |s.log| ==> s'.log[i] == s.log[i];
  }

  lemma DeductKeepsWellFormed(s: LedgerState, user: UserId, op: OperationType, metadata: Metadata,
                              referenceId: Option<string>, customCost: Option<int>, faults: StoreFaults)
    requires WellFormed(s)
    ensures WellFormed(Deduct(s, user, op, metadata, referenceId, customCost, faults).state)
  {
    var d := Deduct(s, user, op, metadata, referenceId, customCost, faults);
    if d.result.success && !faults.insertFails {
      var before, cost := s.balances[user], CostOf(op, customCost);
      AppendKeepsWellFormed(s, d.state, Tx(s.nextId, user, op, -cost, before, before - cost, metadata, referenceId));
    }
  }

  lemma AddKeepsWellFormed(s: LedgerState, user: UserId, op: OperationType, amount: int, metadata: Metadata,
                           referenceId: Option<string>, faults: StoreFaults)
    requires WellFormed(s)
    ensures WellFormed(Add(s, user, op, amount, metadata, referenceId, faults).state)
  {
    var a := Add(s, user, op, amount, metadata, referenceId, faults);
    if a.result.success && !faults.insertFails {
      var before := s.balances[user];
      AppendKeepsWellFormed(s, a.state, Tx(s.nextId, user, op, amount, before, before + amount, metadata, referenceId));
    }
  }

  lemma RefundKeepsWellFormed(s: LedgerState, user: UserId, key: string, metadata: Metadata, faults: StoreFaults)
    requires WellFormed(s)
    ensures WellFormed(RefundTx(s, user, key, metadata, faults).state)
  {
    var found := FindTx(s.log, key, user);
    if found.Some? {
      var t := found.value;
      AddKeepsWellFormed(s, user, Refund, Abs(t.amount), RefundMetadata(metadata, key, t), Some(key), faults);
    }
  }

  /** Adding one row for `user` and moving that user's balance by the row's amount keeps
      the ledger balanced. */
  lemma AppendKeepsBalanced(s: LedgerState, s': LedgerState, opening: map<UserId, int>, row: Tx)
    requires Balanced(s, opening) && row.userId in s.balances
    requires s'.log == s.log + [row]
    requires s'.balances == s.balances[row.userId := s.balances[row.userId] + row.amount]
    ensures Balanced(s', opening)
  {
    forall u | u in s'.balances
      ensures s'.balances[u] == opening[u] + SumFor(s'.log, u)
    {
      SumForAppend(s.log, row, u);
    }
  }

  /** With a successful log insert, a deduction keeps every balance equal to its opening
      balance plus the user's logged amounts. */
  lemma DeductKeepsBalanced(s: LedgerState, opening: map<UserId, int>, user: UserId, op: OperationType,
                            metadata: Metadata, referenceId: Option<string>, customCost: Option<int>, faults: StoreFaults)
    requires Balanced(s, opening) && !faults.insertFails
    ensures Balanced(Deduct(s, user, op, metadata, referenceId, customCost, faults).state, opening)
  {
    var d := Deduct(s, user, op, metadata, referenceId, customCost, faults);
    if d.result.success {
      var before, cost := s.balances[user], CostOf(op, customCost);
      AppendKeepsBalanced(s, d.state, opening, Tx(s.nextId, user, op, -cost, before, before - cost, metadata, referenceId));
    }
  }

  lemma AddKeepsBalanced(s: LedgerState, opening: map<UserId, int>, user: UserId, op: OperationType, amount: int,
                         metadata: Metadata, referenceId: Option<string>, faults: StoreFaults)
    requires Balanced(s, opening) && !faults.insertFails
    ensures Balanced(Add(s, user, op, amount, metadata, referenceId, faults).state, opening)
  {
    var a := Add(s, user, op, amount, metadata, referenceId, faults);
    if a.result.success {
      var before := s.balances[user];
      AppendKeepsBalanced(s, a.state, opening, Tx(s.nextId, user, op, amount, before, before + amount, metadata, referenceId));
    }
  }

  lemma RefundKeepsBalanced(s: LedgerState, opening: map<UserId, int>, user: UserId, key: string,
                            metadata: Metadata, faults: StoreFaults)
    requires Balanced(s, opening) && !faults.insertFails
    ensures Balanced(RefundTx(s, user, key, metadata, faults).state, opening)
  {
    var found := FindTx(s.log, key, user);
    if found.Some? {
      var t := found.value;
      AddKeepsBalanced(s, opening, user, Refund, Abs(t.amount), RefundMetadata(metadata, key, t), Some(key), faults);
    }
  }

  /** A failed log insert is reported as a success, yet the balance moved without a row:
      the ledger is no longer balanced. */
  lemma FailedInsertUnbalances(s: LedgerState, opening: map<UserId, int>, user: UserId, op: OperationType,
                               amount: int, metadata: Metadata, referenceId: Option<string>)
    requires Balanced(s, opening) && user in s.balances && amount != 0
    ensures var a := Add(s, user, op, amount, metadata, referenceId, StoreFaults(None, true));
      a.result.success && a.result.transactionId.None? && !Balanced(a.state, opening)
  {
  }

  /** A deduction never drives a balance below zero. */
  lemma DeductKeepsNonNegative(s: LedgerState, user: UserId, op: OperationType, metadata: Metadata,
                               referenceId: Option<string>, customCost: Option<int>, faults: StoreFaults)
    requires NonNegative(s)
    ensures NonNegative(Deduct(s, user, op, metadata, referenceId, customCost, faults).state)
  {
  }

  /** addCredits checks no sign: a large enough negative amount makes the balance negative. */
  lemma AddHasNoSignCheck(s: LedgerState, user: UserId, op: OperationType, amount: int,
                          metadata: Metadata, referenceId: Option<string>)
    requires user in s.balances && amount < -s.balances[user]
    ensures var a := Add(s, user, op, amount, metadata, referenceId, NoFaults);
      a.result.success && !NonNegative(a.state)
  {
    var a := Add(s, user, op, amount, metadata, referenceId, NoFaults);
    assert a.state.balances[user] < 0;
  }

  /** A deduction followed by a refund of its transaction restores the balance exactly and
      leaves two rows whose amounts cancel. */
  lemma DeductThenRefundRestores(s: LedgerState, user: UserId, op: OperationType, metadata: Metadata,
                                 customCost: Option<int>, refundMetadata: Metadata)
    requires WellFormed(s) && user in s.balances
    requires 0 <= CostOf(op, customCost) <= s.balances[user]
    ensures var d := Deduct(s, user, op, metadata, None, customCost, NoFaults);
      && d.result.success && d.result.transactionId == Some(TxKey(s.nextId))
      && var r := RefundTx(d.state, user, TxKey(s.nextId), refundMetadata, NoFaults);
      && r.result.success
      && r.state.balances == s.balances
      && |r.state.log| == |s.log| + 2 && r.state.log[..|s.log|] == s.log
      && r.state.log[|s.log|].amount == -CostOf(op, customCost)
      && r.state.log[|s.log| + 1].amount + r.state.log[|s.log|].amount == 0
      && r.state.log[|s.log| + 1].operationType == Refund
      && r.state.log[|s.log| + 1].referenceId == Some(TxKey(s.nextId))
  {
    var cost := CostOf(op, customCost);
    var before := s.balances[user];
    var row := RefundFindsDeduction(s, user, op, metadata, customCost, refundMetadata);
    var d := Deduct(s, user, op, metadata, None, customCost, NoFaults);
    var r := RefundTx(d.state, user, TxKey(s.nextId), refundMetadata, NoFaults);
    var refundRow := AddLogsRow(d.state, user, Refund, cost, RefundMetadata(refundMetadata, TxKey(s.nextId), row),
                                Some(TxKey(s.nextId)));
    assert r.state.log == s.log + [row] + [refundRow];
    assert r.state.balances == s.balances[user := before - cost][user := before];
    RestoredEntry(s.balances, user, before - cost);
  }

  /** The refund of a fresh deduction adds back exactly the deducted cost. */
  lemma RefundFindsDeduction(s: LedgerState, user: UserId, op: OperationType, metadata: Metadata,
                             customCost: Option<int>, refundMetadata: Metadata) returns (row: Tx)
    requires WellFormed(s) && user in s.balances
    requires 0 <= CostOf(op, customCost) <= s.balances[user]
    ensures var cost, before := CostOf(op, customCost), s.balances[user];
      var d := Deduct(s, user, op, metadata, None, customCost, NoFaults);
      && row.amount == -cost
      && d.result.success && d.result.transactionId == Some(TxKey(s.nextId))
      && d.state == LedgerState(s.balances[user := before - cost], s.log + [row], s.nextId + 1)
      && RefundTx(d.state, user, TxKey(s.nextId), refundMetadata, NoFaults)
         == Add(d.state, user, Refund, cost, RefundMetadata(refundMetadata, TxKey(s.nextId), row),
                Some(TxKey(s.nextId)), NoFaults)
  {
    row := DeductLogsRow(s, user, op, metadata, customCost);
    assert Abs(row.amount) == CostOf(op, customCost);
  }

  /** Writing an entry and then writing back its old value leaves the map as it was. */
  lemma RestoredEntry(m: map<UserId, int>, k: UserId, v: int)
    requires k in m
    ensures m[k := v][k := m[k]] == m
  {
  }

  /** An addition without store faults: its new state, and the row it logs. */
  lemma AddLogsRow(s: LedgerState, user: UserId, op: OperationType, amount: int, metadata: Metadata,
                   referenceId: Option<string>) returns (row: Tx)
    requires user in s.balances
    ensures var before := s.balances[user];
      var a := Add(s, user, op, amount, metadata, referenceId, NoFaults);
      && row == Tx(s.nextId, user, op, amount, before, before + amount, metadata, referenceId)
      && a.result.success && a.result.transactionId == Some(TxKey(s.nextId))
      && a.state == LedgerState(s.balances[user := before + amount], s.log + [row], s.nextId + 1)
  {
    var before := s.balances[user];
    row := Tx(s.nextId, user, op, amount, before, before + amount, metadata, referenceId);
  }

  /** The deduction's row, and that the refund's lookup of its key finds exactly that row. */
  lemma DeductLogsRow(s: LedgerState, user: UserId, op: OperationType, metadata: Metadata,
                      customCost: Option<int>) returns (row: Tx)
    requires WellFormed(s) && user in s.balances
    requires CostOf(op, customCost) <= s.balances[user]
    ensures var cost, before := CostOf(op, customCost), s.balances[user];
      var d := Deduct(s, user, op, metadata, None, customCost, NoFaults);
      && row == Tx(s.nextId, user, op, -cost, before, before - cost, metadata, None)
      && d.result.success && d.result.transactionId == Some(TxKey(s.nextId))
      && d.state == LedgerState(s.balances[user := before - cost], s.log + [row], s.nextId + 1)
      && FindTx(d.state.log, TxKey(s.nextId), user) == Some(row)
  {
    var cost := CostOf(op, customCost);
    var before := s.balances[user];
    row := Tx(s.nextId, user, op, -cost, before, before - cost, metadata, None);
    var d := Deduct(s, user, op, metadata, None, customCost, NoFaults);
    assert d.state.log == s.log + [row];
    FreshRowFound(s.log, row, user);
  }

  /** A row logged under a fresh id is the only one its key finds. */
  lemma FreshRowFound(log: seq<Tx>, row: Tx, user: UserId)
    requires forall i :: 0 <= i < |log| ==> log[i].id < row.id
    requires row.userId == user
    ensures FindTx(log + [row], TxKey(row.id), user) == Some(row)
  {
    NoRowHasFreshKey(log, row.id, user);
    MatchingRowsAppend(log, row, TxKey(row.id), user);
  }

  /** Nothing marks a transaction as refunded: refunding the same transaction again succeeds
      again and adds its amount a second time. */
  lemma RefundNotGuarded(s: LedgerState, user: UserId, key: string, metadata: Metadata)
    requires WellFormed(s) && FindTx(s.log, key, user).Some?
    ensures var t := FindTx(s.log, key, user).value;
      var r1 := RefundTx(s, user, key, metadata, NoFaults);
      var r2 := RefundTx(r1.state, user, key, metadata, NoFaults);
      && r1.result.success && r2.result.success
      && r2.state.balances[user] == s.balances[user] + 2 * Abs(t.amount)
  {
    var t := FindTx(s.log, key, user).value;
    var r1 := RefundTx(s, user, key, metadata, NoFaults);
    var i :| 0 <= i < |s.log| && s.log[i] == t;
    assert t.id < s.nextId;
    var row := r1.state.log[|s.log|];
    assert r1.state.log == s.log + [row] && row.id == s.nextId;
    TxKeyInjective(t.id, s.nextId);
    MatchingRowsAppend(s.log, row, key, user);
  }

  ghost predicate Descending(rows: seq<Tx>) {
    forall i, j :: 0 <= i < j < |rows| ==> rows[i].id > rows[j].id
  }

  lemma ConsDescending(first: Tx, rows: seq<Tx>)
    requires Descending(rows) && forall k :: 0 <= k < |rows| ==> rows[k].id < first.id
    ensures Descending([first] + rows)
  {
    var all := [first] + rows;
    forall i, j | 0 <= i < j < |all| ensures all[i].id > all[j].id {
      assert all[j] == rows[j - 1];
      if i > 0 {
        assert all[i] == rows[i - 1];
      }
    }
  }

  /** Every row the history picks has an id below any bound all of the log's ids are below. */
  lemma {:induction false} HistoryBelow(log: seq<Tx>, user: UserId, bound: nat)
    requires forall i :: 0 <= i < |log| ==> log[i].id < bound
    ensures forall k :: 0 <= k < |NewestFirst(log, user)| ==> NewestFirst(log, user)[k].id < bound
  {
    if log != [] {
      var init := log[..|log| - 1];
      assert forall i :: 0 <= i < |init| ==> init[i] == log[i];
      HistoryBelow(init, user, bound);
    }
  }

  /** Over a log whose ids rise, the history lists its rows newest first. */
  lemma {:induction false} NewestFirstOrdered(log: seq<Tx>, user: UserId)
    requires forall i, j :: 0 <= i < j < |log| ==> log[i].id < log[j].id
    ensures Descending(NewestFirst(log, user))
  {
    if log != [] {
      var init := log[..|log| - 1];
      var last := log[|log| - 1];
      assert forall i :: 0 <= i < |init| ==> init[i] == log[i];
      NewestFirstOrdered(init, user);
      var rest := NewestFirst(init, user);
      if last.userId == user {
        HistoryBelow(init, user, last.id);
        ConsDescending(last, rest);
      }
    }
  }

  /** The history holds only the user's rows, as many as the limit allows, and when the limit
      cuts the list it keeps the newest ones: every row kept is newer than every row left out. */
  lemma HistoryProperties(s: LedgerState, user: UserId, limit: nat)
    requires WellFormed(s)
    ensures var h, all := History(s.log, user, limit), NewestFirst(s.log, user);
      && |h| == (if |all| <= limit then |all| else limit)
      && h == all[..|h|]
      && (forall t :: t in h ==> t in s.log && t.userId == user)
      && Descending(h)
      && (|all| <= limit ==> forall t :: t in s.log && t.userId == user ==> t in h)
      && (forall k, j :: 0 <= k < |h| <= j < |all| ==> h[k].id > all[j].id)
  {
    NewestFirstOrdered(s.log, user);
    var h, all := History(s.log, user, limit), NewestFirst(s.log, user);
    assert h == all[..|h|];
    forall t | t in h ensures t in all {
      var k :| 0 <= k < |h| && h[k] == t;
      assert all[k] == t;
    }
    forall i, j | 0 <= i < j < |h| ensures h[i].id > h[j].id {
      assert h[i] == all[i] && h[j] == all[j];
    }
    forall k, j | 0 <= k < |h| <= j < |all| ensures h[k].id > all[j].id {
      assert h[k] == all[k];
    }
  }
}
