/**
 * The transaction endpoints: the filtered, paginated history with an
 * incoming/outgoing direction per row, the details of one transaction, and
 * the cancellation of a pending transaction, which reverses a transfer's
 * balance changes.
 */
module TransactionController {
  import opened Common
  import opened Records
  import opened Pagination
  import TransferController

  datatype Direction = Outgoing | Incoming

  /** `isOutgoing`: the row leaves one of the caller's accounts. */
  function DirectionOf(t: Transaction, accountIds: set<string>): (d: Direction)
    ensures d == Outgoing <==> Truthy(t.fromAccountId) && t.fromAccountId.value in accountIds
    ensures d == Incoming && OwnScope(t, accountIds) && "" !in accountIds ==> t.toAccountId in accountIds
  {
    if Truthy(t.fromAccountId) && t.fromAccountId.value in accountIds then Outgoing else Incoming
  }

  /** The default `OR` scope: the row leaves or reaches one of the caller's accounts. */
  predicate OwnScope(t: Transaction, accountIds: set<string>) {
    (t.fromAccountId.Some? && t.fromAccountId.value in accountIds) || t.toAccountId in accountIds
  }

  /** The access rule of `getTransactionDetails`. */
  predicate Visible(t: Transaction, accountIds: set<string>) {
    (Truthy(t.fromAccountId) && t.fromAccountId.value in accountIds) || t.toAccountId in accountIds
  }

  /**
   * Seen from the caller, a row in the default scope either leaves one of
   * the caller's accounts or reaches one, and a row between two of the
   * caller's own accounts is outgoing.
   */
  lemma DirectionWithinScope(t: Transaction, accountIds: set<string>)
    requires OwnScope(t, accountIds) && "" !in accountIds
    ensures DirectionOf(t, accountIds) == Outgoing <==> t.fromAccountId.Some? && t.fromAccountId.value in accountIds
    ensures DirectionOf(t, accountIds) == Incoming ==> t.toAccountId in accountIds
    ensures Visible(t, accountIds)
  {
  }

  /** The query string of `getTransactionHistory`, with each present value already parsed. */
  datatype HistoryQuery = HistoryQuery(
    accountId: Option<string>,
    txType: Option<TxType>,
    status: Option<TxStatus>,
    startDate: Option<int>,
    endDate: Option<int>,
    minAmount: Option<Money>,
    maxAmount: Option<Money>,
    page: Option<int>,
    limit: Option<int>)

  function IntOrElse(o: Option<int>, d: int): int {
    if o.Some? then o.value else d
  }

  /** The `where` clause: an explicit account filter replaces the caller's scope. */
  predicate HistoryMatches(t: Transaction, q: HistoryQuery, accountIds: set<string>) {
    && (if Truthy(q.accountId)
        then t.fromAccountId == Some(q.accountId.value) || t.toAccountId == q.accountId.value
        else OwnScope(t, accountIds))
    && (q.txType.Some? ==> t.txType == q.txType.value)
    && (q.status.Some? ==> t.status == q.status.value)
    && (q.startDate.Some? ==> t.createdAt >= q.startDate.value)
    && (q.endDate.Some? ==> t.createdAt <= q.endDate.value)
    && (q.minAmount.Some? ==> t.amount >= q.minAmount.value)
    && (q.maxAmount.Some? ==> t.amount <= q.maxAmount.value)
  }

  function HistoryFilter(q: HistoryQuery, accountIds: set<string>): (f: Transaction -> bool)
    ensures forall t :: f(t) == HistoryMatches(t, q, accountIds)
    ensures !Truthy(q.accountId) ==> forall t :: f(t) ==> OwnScope(t, accountIds)
  {
    t => HistoryMatches(t, q, accountIds)
  }

  /** The same clause intersected with the caller's own scope. */
  function ScopedHistoryFilter(q: HistoryQuery, accountIds: set<string>): (f: Transaction -> bool)
    ensures forall t :: f(t) <==> OwnScope(t, accountIds) && HistoryFilter(q, accountIds)(t)
    ensures forall t :: f(t) ==> OwnScope(t, accountIds)
  {
    t => OwnScope(t, accountIds) && HistoryMatches(t, q, accountIds)
  }

  datatype HistoryEntry = HistoryEntry(transaction: Transaction, direction: Direction)

  datatype HistoryResponse =
    | HistoryPage(transactions: seq<HistoryEntry>, page: int, limit: int, total: nat, totalPages: Option<int>)
    | HistoryFailure(status: int, error: string)

  function Entries(rows: seq<Transaction>, accountIds: set<string>): (r: seq<HistoryEntry>)
    ensures |r| == |rows|
    ensures forall k :: 0 <= k < |r| ==> r[k] == HistoryEntry(rows[k], DirectionOf(rows[k], accountIds))
  {
    seq(|rows|, k requires 0 <= k < |rows| => HistoryEntry(rows[k], DirectionOf(rows[k], accountIds)))
  }

  /** The rows of a history page, without their directions. */
  function RowsOf(es: seq<HistoryEntry>): (r: seq<Transaction>)
    ensures |r| == |es| && forall k :: 0 <= k < |es| ==> r[k] == es[k].transaction
  {
    seq(|es|, k requires 0 <= k < |es| => es[k].transaction)
  }

  /**
   * One page of the rows `matches` selects, newest `createdAt` first, each
   * with its direction, with the count of all matching rows and the page
   * count; a negative skip fails, a negative limit counts from the end.
   */
  function ListHistory(q: HistoryQuery, accountIds: set<string>, txs: seq<Transaction>,
                       matches: Transaction -> bool): (r: HistoryResponse)
    ensures var page, limit := IntOrElse(q.page, 1), IntOrElse(q.limit, 50);
      && (r.HistoryFailure? <==> Skip(page, limit) < 0)
      && (r.HistoryFailure? ==> r == HistoryFailure(500, "Internal server error"))
      && (r.HistoryPage? ==>
            && r.page == page && r.limit == limit
            && r.total == |Filter(txs, matches)|
            && r.totalPages == TotalPages(r.total, limit)
            && IsWindow(ByNewest(Filter(txs, matches), TxCreatedAt), Skip(page, limit), limit, RowsOf(r.transactions))
            && (forall k :: 0 <= k < |r.transactions| ==>
                  r.transactions[k].direction == DirectionOf(r.transactions[k].transaction, accountIds)))
  {
    var page, limit := IntOrElse(q.page, 1), IntOrElse(q.limit, 50);
    var rows := Filter(txs, matches);
    match Window(ByNewest(rows, TxCreatedAt), Skip(page, limit), limit)
    case None => HistoryFailure(500, "Internal server error")
    case Some(w) =>
      HistoryPage(Entries(w, accountIds), page, limit, |rows|, TotalPages(|rows|, limit))
  }

  /** Every listed row is a stored row that the filter selects, with its direction. */
  lemma ListedRowsMatch(q: HistoryQuery, accountIds: set<string>, txs: seq<Transaction>, matches: Transaction -> bool)
    ensures var r := ListHistory(q, accountIds, txs, matches);
      r.HistoryPage? ==> forall k :: 0 <= k < |r.transactions| ==>
        var t := r.transactions[k].transaction;
        t in txs && matches(t) && r.transactions[k].direction == DirectionOf(t, accountIds)
  {
    var page, limit := IntOrElse(q.page, 1), IntOrElse(q.limit, 50);
    var rows := Filter(txs, matches);
    var w := Window(ByNewest(rows, TxCreatedAt), Skip(page, limit), limit);
    PagedRowsIn(rows, TxCreatedAt, Skip(page, limit), limit);
    if w.Some? {
      assert ListHistory(q, accountIds, txs, matches).transactions == Entries(w.value, accountIds);
    }
  }

  /** `getTransactionHistory` as written. */
  function TransactionHistory(userId: Option<string>, q: HistoryQuery, accounts: seq<Account>,
                              txs: seq<Transaction>): (r: HistoryResponse)
    ensures !Truthy(userId) ==> r == HistoryFailure(401, "Unauthorized")
    ensures r.HistoryPage? ==> Truthy(userId) && forall k :: 0 <= k < |r.transactions| ==>
      r.transactions[k].transaction in txs
      && HistoryMatches(r.transactions[k].transaction, q, AccountIdsOf(accounts, userId.value))
      && r.transactions[k].direction == DirectionOf(r.transactions[k].transaction, AccountIdsOf(accounts, userId.value))
  {
    if !Truthy(userId) then HistoryFailure(401, "Unauthorized")
    else
      var ids := AccountIdsOf(accounts, userId.value);
      ListedRowsMatch(q, ids, txs, HistoryFilter(q, ids));
      ListHistory(q, ids, txs, HistoryFilter(q, ids))
  }

  /** The history restricted to the caller's accounts even under an explicit account filter. */
  function ScopedTransactionHistory(userId: Option<string>, q: HistoryQuery, accounts: seq<Account>,
                                    txs: seq<Transaction>): (r: HistoryResponse)
    ensures !Truthy(userId) ==> r == HistoryFailure(401, "Unauthorized")
    ensures r.HistoryPage? ==> Truthy(userId) && forall k :: 0 <= k < |r.transactions| ==>
      r.transactions[k].transaction in txs
      && OwnScope(r.transactions[k].transaction, AccountIdsOf(accounts, userId.value))
      && HistoryMatches(r.transactions[k].transaction, q, AccountIdsOf(accounts, userId.value))
  {
    if !Truthy(userId) then HistoryFailure(401, "Unauthorized")
    else
      var ids := AccountIdsOf(accounts, userId.value);
      ListedRowsMatch(q, ids, txs, ScopedHistoryFilter(q, ids));
      ListHistory(q, ids, txs, ScopedHistoryFilter(q, ids))
  }

  /**
   * Without an account filter the history shows only rows the caller may
   * open, and each incoming row reaches one of the caller's accounts.
   */
  lemma DefaultHistoryOnlyVisible(userId: Option<string>, q: HistoryQuery, accounts: seq<Account>,
                                  txs: seq<Transaction>)
    requires Truthy(userId) && !Truthy(q.accountId)
    requires forall a :: a in accounts ==> a.id != ""
    ensures var r := TransactionHistory(userId, q, accounts, txs);
      var ids := AccountIdsOf(accounts, userId.value);
      r.HistoryPage? ==> forall k :: 0 <= k < |r.transactions| ==>
        var e := r.transactions[k];
        Visible(e.transaction, ids) && (e.direction == Incoming ==> e.transaction.toAccountId in ids)
  {
    var ids := AccountIdsOf(accounts, userId.value);
    var r := TransactionHistory(userId, q, accounts, txs);
    if r.HistoryPage? {
      forall k | 0 <= k < |r.transactions|
        ensures Visible(r.transactions[k].transaction, ids)
        ensures r.transactions[k].direction == Incoming ==> r.transactions[k].transaction.toAccountId in ids
      {
        DirectionWithinScope(r.transactions[k].transaction, ids);
      }
    }
  }

  /**
   * An explicit account filter bypasses ownership: a caller with no
   * accounts lists another customer's deposit, which the details endpoint
   * would refuse to show.
   */
  lemma ForeignAccountHistoryLeaks()
    ensures var victim := Account("acc-v", "victim", "TR01", "CHECKING", 100.0, "TRY", true, false, None, None, 0);
      var t := Transaction("tx-1", None, "acc-v", 50.0, Deposit, Completed, "Deposit", "REF1", 0);
      var q := HistoryQuery(Some("acc-v"), None, None, None, None, None, None, None, None);
      var r := TransactionHistory(Some("intruder"), q, [victim], [t]);
      && r.HistoryPage? && |r.transactions| == 1 && r.transactions[0].transaction == t
      && !Visible(t, AccountIdsOf([victim], "intruder"))
  {
    var victim := Account("acc-v", "victim", "TR01", "CHECKING", 100.0, "TRY", true, false, None, None, 0);
    var t := Transaction("tx-1", None, "acc-v", 50.0, Deposit, Completed, "Deposit", "REF1", 0);
    var q := HistoryQuery(Some("acc-v"), None, None, None, None, None, None, None, None);
    var ids := AccountIdsOf([victim], "intruder");
    assert ids == {};
    var rows := Filter([t], HistoryFilter(q, ids));
    assert t in rows;
    assert |rows| == 1 && rows[0] == t;
  }

  /** The scoped history only ever lists rows the caller may open. */
  lemma ScopedHistoryOnlyVisible(userId: Option<string>, q: HistoryQuery, accounts: seq<Account>,
                                 txs: seq<Transaction>)
    requires forall a :: a in accounts ==> a.id != ""
    ensures var r := ScopedTransactionHistory(userId, q, accounts, txs);
      r.HistoryPage? ==> forall k :: 0 <= k < |r.transactions| ==>
        Visible(r.transactions[k].transaction, AccountIdsOf(accounts, userId.value))
  {
  }

  /** On the caller's own accounts, and without an account filter, the scoped history is the written one. */
  lemma ScopedAgreesOnOwnAccounts(userId: Option<string>, q: HistoryQuery, accounts: seq<Account>,
                                  txs: seq<Transaction>)
    requires Truthy(userId)
    requires Truthy(q.accountId) ==> q.accountId.value in AccountIdsOf(accounts, userId.value)
    ensures ScopedTransactionHistory(userId, q, accounts, txs) == TransactionHistory(userId, q, accounts, txs)
  {
    var ids := AccountIdsOf(accounts, userId.value);
    assert forall t :: t in txs ==> ScopedHistoryFilter(q, ids)(t) == HistoryFilter(q, ids)(t);
    FilterAgree(txs, ScopedHistoryFilter(q, ids), HistoryFilter(q, ids));
  }

  datatype DetailsResponse = Details(transaction: Transaction) | DetailsFailure(status: int, error: string)

  /** `getTransactionDetails`. */
  function TransactionDetails(userId: Option<string>, transactionId: string, accounts: seq<Account>,
                              txs: seq<Transaction>): (r: DetailsResponse)
    ensures !Truthy(userId) ==> r == DetailsFailure(401, "Unauthorized")
    ensures Truthy(userId) ==>
      (r == DetailsFailure(404, "Transaction not found") <==> forall t :: t in txs ==> t.id != transactionId)
    ensures r.Details? ==>
      Truthy(userId) && r.transaction in txs && r.transaction.id == transactionId
      && Visible(r.transaction, AccountIdsOf(accounts, userId.value))
    ensures r == DetailsFailure(403, "Forbidden") ==>
      Truthy(userId) && exists t :: t in txs && t.id == transactionId && !Visible(t, AccountIdsOf(accounts, userId.value))
    ensures r.DetailsFailure? ==> r.status in {401, 403, 404}
  {
    if !Truthy(userId) then DetailsFailure(401, "Unauthorized")
    else match FindTransaction(txs, transactionId)
      case None => DetailsFailure(404, "Transaction not found")
      case Some(k) =>
        assert txs[k] in txs;
        if Visible(txs[k], AccountIdsOf(accounts, userId.value)) then Details(txs[k])
        else DetailsFailure(403, "Forbidden")
  }

  /** With unique transaction ids, details are shown exactly for a visible row with that id. */
  lemma DetailsIff(userId: Option<string>, transactionId: string, accounts: seq<Account>, txs: seq<Transaction>)
    requires TransactionIdsUnique(txs)
    ensures TransactionDetails(userId, transactionId, accounts, txs).Details? <==>
      Truthy(userId) && exists t :: t in txs && t.id == transactionId && Visible(t, AccountIdsOf(accounts, userId.value))
  {
    if Truthy(userId) && exists t :: t in txs && t.id == transactionId && Visible(t, AccountIdsOf(accounts, userId.value)) {
      var t :| t in txs && t.id == transactionId && Visible(t, AccountIdsOf(accounts, userId.value));
      var k :| 0 <= k < |txs| && txs[k] == t;
      FindTransactionUnique(txs, k);
    }
  }

  /** The decision of `cancelTransaction` before anything is written. */
  datatype CancelDecision = CancelRefused(status: int, error: string) | CancelAt(index: nat)

  function CancelDecisionOf(userId: Option<string>, transactionId: string, accounts: seq<Account>,
                            txs: seq<Transaction>): (r: CancelDecision)
    ensures !Truthy(userId) ==> r == CancelRefused(401, "Unauthorized")
    ensures Truthy(userId) ==>
      (r == CancelRefused(404, "Transaction not found") <==> forall t :: t in txs ==> t.id != transactionId)
    ensures r.CancelAt? ==>
      && Truthy(userId) && r.index < |txs| && txs[r.index].id == transactionId
      && txs[r.index].status == Pending
      && txs[r.index].toAccountId in AccountIdsOf(accounts, userId.value)
  {
    if !Truthy(userId) then CancelRefused(401, "Unauthorized")
    else match FindTransaction(txs, transactionId)
      case None => CancelRefused(404, "Transaction not found")
      case Some(k) =>
        if txs[k].toAccountId !in AccountIdsOf(accounts, userId.value) then CancelRefused(403, "Forbidden")
        else if txs[k].status != Pending then CancelRefused(400, "Only pending transactions can be cancelled")
        else CancelAt(k)
  }

  /**
   * For an existing row the decision depends on the destination only: a
   * caller who does not own the destination is refused even when the
   * source is theirs; an owned destination with a non-pending row is a 400;
   * otherwise the row is cancelled.
   */
  lemma CancelOutcomeOfRow(userId: Option<string>, accounts: seq<Account>, txs: seq<Transaction>, k: nat)
    requires TransactionIdsUnique(txs) && k < |txs| && Truthy(userId)
    ensures var d := CancelDecisionOf(userId, txs[k].id, accounts, txs);
      var ids := AccountIdsOf(accounts, userId.value);
      && (txs[k].toAccountId !in ids ==> d == CancelRefused(403, "Forbidden"))
      && (txs[k].toAccountId in ids && txs[k].status != Pending ==>
            d == CancelRefused(400, "Only pending transactions can be cancelled"))
      && (txs[k].toAccountId in ids && txs[k].status == Pending ==> d == CancelAt(k))
  {
    FindTransactionUnique(txs, k);
  }

  /**
   * The balance reversal: a cancelled TRANSFER with a source moves its
   * amount back from the destination to the source; any other row leaves
   * the balances alone.
   */
  function Reversal(accounts: seq<Account>, t: Transaction): (r: seq<Account>)
    requires TransactionWellFormed(accounts, t)
    ensures |r| == |accounts|
  {
    if t.txType == Transfer && Truthy(t.fromAccountId) then
      TransferController.ApplyTransfer(accounts, FindAccount(accounts, t.toAccountId).value,
                                       FindAccount(accounts, t.fromAccountId.value).value, t.amount)
    else accounts
  }

  /**
   * The reversal credits the source and debits the destination by the
   * amount, touches no other account and no key, and conserves the total.
   */
  lemma ReversalEffect(accounts: seq<Account>, t: Transaction)
    requires TransactionWellFormed(accounts, t)
    ensures var r := Reversal(accounts, t);
      && TotalBalance(r) == TotalBalance(accounts)
      && (forall k :: 0 <= k < |r| ==> r[k] == accounts[k].(balance := r[k].balance))
      && (t.txType != Transfer || !Truthy(t.fromAccountId) ==> r == accounts)
      && (t.txType == Transfer && Truthy(t.fromAccountId) && t.fromAccountId.value != t.toAccountId ==>
            var i, j := FindAccount(accounts, t.fromAccountId.value).value, FindAccount(accounts, t.toAccountId).value;
            r[i].balance == accounts[i].balance + t.amount && r[j].balance == accounts[j].balance - t.amount
            && forall k :: 0 <= k < |r| && k != i && k != j ==> r[k] == accounts[k])
  {
    if t.txType == Transfer && Truthy(t.fromAccountId) {
      TransferController.ApplyTransferEffect(accounts, FindAccount(accounts, t.toAccountId).value,
                                             FindAccount(accounts, t.fromAccountId.value).value, t.amount);
    }
  }

  /** Cancelling the row a transfer wrote restores the balances from before the transfer. */
  lemma ReversalUndoesTransfer(accounts: seq<Account>, i: nat, j: nat, row: Transaction)
    requires AccountKeysUnique(accounts) && i < |accounts| && j < |accounts|
    requires row.txType == Transfer && row.amount > 0.0 && accounts[i].id != ""
    requires row.fromAccountId == Some(accounts[i].id) && row.toAccountId == accounts[j].id
    ensures var after := TransferController.ApplyTransfer(accounts, i, j, row.amount);
      TransactionWellFormed(after, row) && Reversal(after, row) == accounts
  {
    var after := TransferController.ApplyTransfer(accounts, i, j, row.amount);
    TransferController.ApplyTransferEffect(accounts, i, j, row.amount);
    SameKeysPreserve(accounts, after);
    assert after[i].id == accounts[i].id && after[j].id == accounts[j].id;
    assert after[i] in after && after[j] in after;
    FindAccountUnique(after, i);
    FindAccountUnique(after, j);
    ApplyBackRestores(accounts, i, j, row.amount);
  }

  /** Moving an amount from `i` to `j` and back changes nothing. */
  lemma ApplyBackRestores(accounts: seq<Account>, i: nat, j: nat, amount: Money)
    requires i < |accounts| && j < |accounts|
    ensures var after := TransferController.ApplyTransfer(accounts, i, j, amount);
      TransferController.ApplyTransfer(after, j, i, amount) == accounts
  {
    var after := TransferController.ApplyTransfer(accounts, i, j, amount);
    var back := TransferController.ApplyTransfer(after, j, i, amount);
    if i == j {
      TransferController.ApplyTransferEffect(accounts, i, j, amount);
      TransferController.ApplyTransferEffect(after, j, i, amount);
    } else {
      assert after[i] == accounts[i].(balance := accounts[i].balance - amount);
      assert after[j] == accounts[j].(balance := accounts[j].balance + amount);
      assert back[i] == accounts[i] && back[j] == accounts[j];
      assert forall k :: 0 <= k < |accounts| && k != i && k != j ==> back[k] == accounts[k];
      assert back == accounts;
    }
  }

  /** Crediting `i` then debiting `j` ends where debiting `j` then crediting `i` does. */
  lemma CreditThenDebit(accounts: seq<Account>, i: nat, j: nat, amount: Money)
    requires i < |accounts| && j < |accounts|
    ensures var credited := accounts[i := accounts[i].(balance := accounts[i].balance + amount)];
      credited[j := credited[j].(balance := credited[j].balance - amount)]
        == TransferController.ApplyTransfer(accounts, j, i, amount)
  {
    var credited := accounts[i := accounts[i].(balance := accounts[i].balance + amount)];
    var r := credited[j := credited[j].(balance := credited[j].balance - amount)];
    if i == j {
      assert r[i] == accounts[i];
      assert r == accounts;
      TransferController.ApplyTransferEffect(accounts, j, i, amount);
    }
  }

  /** Writes the CANCELLED row and reverses a transfer's balance changes. */
  method MarkCancelled(ledger: Ledger, k: nat, updated: Transaction)
    requires ledger.Valid() && k < |ledger.transactions|
    requires updated == ledger.transactions[k].(status := Cancelled)
    modifies ledger
    ensures ledger.Valid()
    ensures TransactionWellFormed(old(ledger.accounts), old(ledger.transactions)[k])
    ensures ledger.transactions == old(ledger.transactions)[k := updated]
    ensures ledger.accounts == Reversal(old(ledger.accounts), old(ledger.transactions)[k])
    ensures TotalBalance(ledger.accounts) == TotalBalance(old(ledger.accounts))
  {
    var t := ledger.transactions[k];
    assert t in ledger.transactions;
    var before := ledger.accounts;
    ghost var txsBefore := ledger.transactions;
    ledger.transactions := ledger.transactions[k := updated];

    // Credit the source, then debit the destination.
    if t.txType == Transfer && Truthy(t.fromAccountId) {
      var i := FindAccount(ledger.accounts, t.fromAccountId.value).value;
      var j := FindAccount(ledger.accounts, t.toAccountId).value;
      ledger.accounts := ledger.accounts[i := ledger.accounts[i].(balance := ledger.accounts[i].balance + t.amount)];
      ledger.accounts := ledger.accounts[j := ledger.accounts[j].(balance := ledger.accounts[j].balance - t.amount)];
      CreditThenDebit(before, i, j, t.amount);
    }
    assert ledger.accounts == Reversal(before, t);
    CancelKeepsWellFormed(before, txsBefore, k, updated);
  }

  /** Cancelling row `k` keeps the ledger well formed and the total balance. */
  lemma CancelKeepsWellFormed(accounts: seq<Account>, txs: seq<Transaction>, k: nat, updated: Transaction)
    requires LedgerWellFormed(accounts, txs) && k < |txs|
    requires updated == txs[k].(status := Cancelled)
    ensures TransactionWellFormed(accounts, txs[k])
    ensures LedgerWellFormed(Reversal(accounts, txs[k]), txs[k := updated])
    ensures TotalBalance(Reversal(accounts, txs[k])) == TotalBalance(accounts)
  {
    assert txs[k] in txs;
    ReversalEffect(accounts, txs[k]);
    ReplaceKeepsWellFormed(accounts, txs, Reversal(accounts, txs[k]), k, updated);
  }

  datatype CancelResponse = CancelDone(transaction: Transaction) | CancelFailure(status: int, error: string)

  /** `cancelTransaction`. */
  method CancelTransaction(userId: Option<string>, transactionId: string, ledger: Ledger) returns (resp: CancelResponse)
    requires ledger.Valid()
    modifies ledger
    ensures ledger.Valid()
    ensures TotalBalance(ledger.accounts) == TotalBalance(old(ledger.accounts))
    ensures var d := CancelDecisionOf(userId, transactionId, old(ledger.accounts), old(ledger.transactions));
      d.CancelRefused? ==>
        resp == CancelFailure(d.status, d.error)
        && ledger.accounts == old(ledger.accounts) && ledger.transactions == old(ledger.transactions)
    ensures var d := CancelDecisionOf(userId, transactionId, old(ledger.accounts), old(ledger.transactions));
      d.CancelAt? ==>
        var t := old(ledger.transactions)[d.index];
        && resp == CancelDone(t.(status := Cancelled))
        && ledger.transactions == old(ledger.transactions)[d.index := t.(status := Cancelled)]
        && TransactionWellFormed(old(ledger.accounts), t)
        && ledger.accounts == Reversal(old(ledger.accounts), t)
  {
    if !Truthy(userId) {
      return CancelFailure(401, "Unauthorized");
    }
    var accountIds := AccountIdsOf(ledger.accounts, userId.value);
    var found := FindTransaction(ledger.transactions, transactionId);
    if found.None? {
      return CancelFailure(404, "Transaction not found");
    }
    var k := found.value;
    var t := ledger.transactions[k];
    if t.toAccountId !in accountIds {
      return CancelFailure(403, "Forbidden");
    }
    if t.status != Pending {
      return CancelFailure(400, "Only pending transactions can be cancelled");
    }
    var updated := t.(status := Cancelled);
    assert t in ledger.transactions;
    MarkCancelled(ledger, k, updated);
    resp := CancelDone(updated);
  }
}
