/**
 * The balance endpoints: one account's balance, the account summary
 * (balance, ten most recent transactions, today's incoming / outgoing
 * figures and the transfer-limit usage) and the caller's active accounts
 * with their total.
 */
module BalanceController {
  import opened Common
  import opened Records
  import opened Pagination
  import opened TransferLimits
  import opened AccountController
  import opened TransferController

  /** The account fields the balance endpoints return. */
  datatype BalanceView = BalanceView(
    id: string,
    accountNumber: string,
    accountType: string,
    balance: Money,
    currency: string,
    isActive: bool)

  function ViewOf(a: Account): BalanceView {
    BalanceView(a.id, a.accountNumber, a.accountType, a.balance, a.currency, a.isActive)
  }

  datatype BalanceResponse = BalanceOf(account: BalanceView) | BalanceFailure(status: int, error: string)

  /** `getAccountBalance`: the 401 / 404 / 403 guards, then the account's fields. */
  function GetAccountBalance(userId: Option<string>, accountId: string, accounts: seq<Account>): (r: BalanceResponse)
    ensures !Truthy(userId) ==> r == BalanceFailure(401, "Unauthorized")
    ensures Truthy(userId) ==> (r == BalanceFailure(404, "Account not found") <==> !HasAccount(accounts, accountId))
    ensures r.BalanceOf? ==>
      exists k :: 0 <= k < |accounts| && accounts[k].id == accountId && accounts[k].userId == userId.value
        && r.account == ViewOf(accounts[k])
  {
    match OwnedAccountAt(userId, accountId, accounts)
    case LookupRefused(status, error) => BalanceFailure(status, error)
    case OwnedAt(k) => BalanceOf(ViewOf(accounts[k]))
  }

  /**
   * With unique account keys, the balance is shown exactly when the caller
   * is signed in and owns the account, and a signed-in caller who does not
   * own a stored account is refused with 403.
   */
  lemma BalanceOnlyForOwner(userId: Option<string>, accountId: string, accounts: seq<Account>)
    requires AccountKeysUnique(accounts)
    ensures GetAccountBalance(userId, accountId, accounts).BalanceOf? <==>
      Truthy(userId) && exists a :: a in accounts && a.id == accountId && a.userId == userId.value
    ensures (Truthy(userId) && HasAccount(accounts, accountId)
             && !(exists a :: a in accounts && a.id == accountId && a.userId == userId.value)) ==>
      GetAccountBalance(userId, accountId, accounts) == BalanceFailure(403, "Forbidden")
  {
    OwnedLookupIff(userId, accountId, accounts);
  }

  /** `OR: [{ fromAccountId: accountId }, { toAccountId: accountId }]`. */
  predicate Touches(t: Transaction, accountId: string) {
    t.fromAccountId == Some(accountId) || t.toAccountId == accountId
  }

  function TouchesAccount(accountId: string): Transaction -> bool {
    (t: Transaction) => Touches(t, accountId)
  }

  /** The `todayTransactions` query: rows touching the account, created at or after midnight. */
  function TouchesToday(accountId: string, todayStart: int): Transaction -> bool {
    (t: Transaction) => Touches(t, accountId) && t.createdAt >= todayStart
  }

  function IncomingTo(accountId: string): Transaction -> bool {
    (t: Transaction) => t.toAccountId == accountId
  }

  function OutgoingFrom(accountId: string): Transaction -> bool {
    (t: Transaction) => t.fromAccountId == Some(accountId)
  }

  /** What the account receives from one row. */
  function Received(t: Transaction, accountId: string): real {
    if t.toAccountId == accountId then t.amount else 0.0
  }

  /** What the account sends in one row. */
  function Sent(t: Transaction, accountId: string): real {
    if t.fromAccountId == Some(accountId) then t.amount else 0.0
  }

  function ReceivedBy(accountId: string): Transaction -> real {
    (t: Transaction) => Received(t, accountId)
  }

  function SentBy(accountId: string): Transaction -> real {
    (t: Transaction) => Sent(t, accountId)
  }

  /** What one row does to the account's balance: plus what it receives, minus what it sends. */
  function NetEffect(t: Transaction, accountId: string): real {
    Received(t, accountId) - Sent(t, accountId)
  }

  function NetEffectOn(accountId: string): Transaction -> real {
    (t: Transaction) => NetEffect(t, accountId)
  }

  /** The fields of a recent transaction that the summary lists. */
  datatype RecentView = RecentView(
    id: string,
    txType: TxType,
    amount: Money,
    status: TxStatus,
    description: string,
    referenceNumber: string,
    createdAt: int)

  function RecentOf(t: Transaction): RecentView {
    RecentView(t.id, t.txType, t.amount, t.status, t.description, t.referenceNumber, t.createdAt)
  }

  function RecentViews(s: seq<Transaction>): (r: seq<RecentView>)
    ensures |r| == |s|
    ensures forall k :: 0 <= k < |s| ==> r[k] == RecentOf(s[k])
  {
    if |s| == 0 then [] else [RecentOf(s[0])] + RecentViews(s[1..])
  }

  datatype DayStats = DayStats(incoming: Money, outgoing: Money, net: Money, transactionCount: nat)

  /**
   * The `today` block of the summary over the rows of `todayTransactions`:
   * what the rows bring into the account, what they take out of it, the
   * difference, and the number of rows.
   */
  function TodayStats(today: seq<Transaction>, accountId: string): (r: DayStats)
    ensures r.transactionCount == |today|
    ensures r.incoming == SumOf(today, ReceivedBy(accountId))
    ensures r.outgoing == SumOf(today, SentBy(accountId))
    ensures r.net == r.incoming - r.outgoing
    ensures r.net == SumOf(today, NetEffectOn(accountId))
  {
    var incoming := SumAmounts(Filter(today, IncomingTo(accountId)));
    var outgoing := SumAmounts(Filter(today, OutgoingFrom(accountId)));
    IncomingIsSumReceived(today, accountId);
    OutgoingIsSumSent(today, accountId);
    NetIsSumOfEffects(today, accountId);
    DayStats(incoming, outgoing, incoming - outgoing, |today|)
  }

  /** Summing the rows paid into the account is summing what each row brings it. */
  lemma {:induction false} IncomingIsSumReceived(today: seq<Transaction>, accountId: string)
    ensures SumAmounts(Filter(today, IncomingTo(accountId))) == SumOf(today, ReceivedBy(accountId))
  {
    if |today| > 0 {
      IncomingIsSumReceived(today[1..], accountId);
    }
  }

  /** Summing the rows paid out of the account is summing what each row takes from it. */
  lemma {:induction false} OutgoingIsSumSent(today: seq<Transaction>, accountId: string)
    ensures SumAmounts(Filter(today, OutgoingFrom(accountId))) == SumOf(today, SentBy(accountId))
  {
    if |today| > 0 {
      OutgoingIsSumSent(today[1..], accountId);
    }
  }

  /** The net figure is the sum over today's rows of what each does to the account. */
  lemma {:induction false} NetIsSumOfEffects(today: seq<Transaction>, accountId: string)
    ensures SumOf(today, ReceivedBy(accountId)) - SumOf(today, SentBy(accountId))
      == SumOf(today, NetEffectOn(accountId))
  {
    if |today| > 0 {
      NetIsSumOfEffects(today[1..], accountId);
    }
  }

  /**
   * Both figures are non-negative when the amounts are, and a row sent from
   * the account to itself adds its amount to both, so it leaves `net`
   * unchanged and adds one to the count.
   */
  lemma TodayFiguresNonNegative(today: seq<Transaction>, accountId: string)
    requires forall t :: t in today ==> t.amount > 0.0
    ensures TodayStats(today, accountId).incoming >= 0.0
    ensures TodayStats(today, accountId).outgoing >= 0.0
  {
    SumAmountsNonNegative(Filter(today, IncomingTo(accountId)));
    SumAmountsNonNegative(Filter(today, OutgoingFrom(accountId)));
  }

  lemma SelfTransferNetsZero(today: seq<Transaction>, t: Transaction, accountId: string)
    requires t.fromAccountId == Some(accountId) && t.toAccountId == accountId
    ensures var before, after := TodayStats(today, accountId), TodayStats(today + [t], accountId);
      && after.incoming == before.incoming + t.amount
      && after.outgoing == before.outgoing + t.amount
      && after.net == before.net
      && after.transactionCount == before.transactionCount + 1
  {
    FilterAppend(today, [t], IncomingTo(accountId));
    FilterAppend(today, [t], OutgoingFrom(accountId));
    assert Filter([t], IncomingTo(accountId)) == [t];
    assert Filter([t], OutgoingFrom(accountId)) == [t];
    SumAmountsAppend(Filter(today, IncomingTo(accountId)), [t]);
    SumAmountsAppend(Filter(today, OutgoingFrom(accountId)), [t]);
  }

  /**
   * `NetEffect` is what a posted transfer does to every account: after
   * `createTransfer` debits the source and credits the destination, each
   * account's balance has moved by exactly the row's net effect on it.
   */
  lemma TransferMovesBalanceByNetEffect(accounts: seq<Account>, i: nat, j: nat, row: Transaction, k: nat)
    requires AccountKeysUnique(accounts)
    requires i < |accounts| && j < |accounts| && k < |accounts|
    requires row.fromAccountId == Some(accounts[i].id) && row.toAccountId == accounts[j].id
    ensures ApplyTransfer(accounts, i, j, row.amount)[k].balance
      == accounts[k].balance + NetEffect(row, accounts[k].id)
  {
    assert accounts[k].id == accounts[i].id <==> k == i;
    assert accounts[k].id == accounts[j].id <==> k == j;
  }

  datatype SummaryResponse =
    | Summary(account: BalanceView, recentTransactions: seq<RecentView>, today: DayStats, transferLimits: LimitUsage)
    | SummaryFailure(status: int, error: string)

  /**
   * `getAccountSummary`: after the same guards as `getAccountBalance`, the
   * ten most recent rows touching the account (newest first), today's
   * statistics for the account, and the caller's transfer-limit usage.
   */
  function GetAccountSummary(userId: Option<string>, accountId: string, accounts: seq<Account>,
                             txs: seq<Transaction>, todayStart: int, monthStart: int): (r: SummaryResponse)
    ensures !Truthy(userId) ==> r == SummaryFailure(401, "Unauthorized")
    ensures Truthy(userId) ==> (r == SummaryFailure(404, "Account not found") <==> !HasAccount(accounts, accountId))
    ensures (r.Summary? <==> GetAccountBalance(userId, accountId, accounts).BalanceOf?)
    ensures r.Summary? ==> r.account == GetAccountBalance(userId, accountId, accounts).account
    ensures r.SummaryFailure? ==>
      GetAccountBalance(userId, accountId, accounts) == BalanceFailure(r.status, r.error)
    ensures r.Summary? ==>
      r.recentTransactions == RecentViews(Newest(Filter(txs, TouchesAccount(accountId)), TxCreatedAt, 10))
    ensures r.Summary? ==>
      var today := Filter(txs, TouchesToday(accountId, todayStart));
      && r.today.transactionCount == |today|
      && r.today.incoming == SumOf(today, ReceivedBy(accountId))
      && r.today.outgoing == SumOf(today, SentBy(accountId))
      && r.today.net == r.today.incoming - r.today.outgoing
    ensures r.Summary? ==>
      r.transferLimits == GetTransferLimitUsage(accounts, txs, userId.value, todayStart, monthStart)
  {
    match OwnedAccountAt(userId, accountId, accounts)
    case LookupRefused(status, error) => SummaryFailure(status, error)
    case OwnedAt(k) =>
      var touching := Filter(txs, TouchesAccount(accountId));
      var recent := Newest(touching, TxCreatedAt, 10);
      var today := Filter(txs, TouchesToday(accountId, todayStart));
      Summary(ViewOf(accounts[k]), RecentViews(recent), TodayStats(today, accountId),
              GetTransferLimitUsage(accounts, txs, userId.value, todayStart, monthStart))
  }

  /** The `getAllBalances` query: the caller's accounts that are active. */
  function ActiveOwnedBy(userId: string): Account -> bool {
    (a: Account) => a.userId == userId && a.isActive
  }

  datatype AllBalancesResponse =
    | AllBalances(accounts: seq<BalanceView>, totalBalance: Money, accountCount: nat)
    | AllBalancesFailure(status: int, error: string)

  function Views(s: seq<Account>): (r: seq<BalanceView>)
    ensures |r| == |s|
    ensures forall k :: 0 <= k < |s| ==> r[k] == ViewOf(s[k])
  {
    if |s| == 0 then [] else [ViewOf(s[0])] + Views(s[1..])
  }

  /**
   * `getAllBalances`: the caller's active accounts, newest `createdAt`
   * first, with the sum of their balances and their number.
   */
  function GetAllBalances(userId: Option<string>, accounts: seq<Account>): (r: AllBalancesResponse)
    ensures !Truthy(userId) <==> r == AllBalancesFailure(401, "Unauthorized")
    ensures r.AllBalances? ==>
      var active := Filter(accounts, ActiveOwnedBy(userId.value));
      && r.accountCount == |active| == |r.accounts|
      && r.accounts == Views(ByNewest(active, AccountCreatedAt))
      && r.totalBalance == TotalBalance(active)
  {
    if !Truthy(userId) then AllBalancesFailure(401, "Unauthorized")
    else
      var active := Filter(accounts, ActiveOwnedBy(userId.value));
      var listed := ByNewest(active, AccountCreatedAt);
      TotalBalanceByNewest(active);
      AllBalances(Views(listed), TotalBalance(listed), |listed|)
  }

  /** Putting a row into the list adds its balance to the total. */
  lemma {:induction false} TotalBalanceInsert(x: Account, s: seq<Account>)
    ensures TotalBalance(InsertNewest(x, s, AccountCreatedAt)) == TotalBalance(s) + x.balance
    decreases |s|
  {
    if |s| > 0 && AccountCreatedAt(s[0]) > AccountCreatedAt(x) {
      TotalBalanceInsert(x, s[1..]);
      assert InsertNewest(x, s, AccountCreatedAt)[1..] == InsertNewest(x, s[1..], AccountCreatedAt);
    }
  }

  /** Summing newest first gives the same total as summing in table order. */
  lemma {:induction false} TotalBalanceByNewest(s: seq<Account>)
    ensures TotalBalance(ByNewest(s, AccountCreatedAt)) == TotalBalance(s)
  {
    if |s| > 0 {
      var init, last := s[..|s| - 1], s[|s| - 1];
      assert s == init + [last];
      TotalBalanceByNewest(init);
      TotalBalanceInsert(last, ByNewest(init, AccountCreatedAt));
      TotalBalanceAppend(init, last);
    }
  }

  /**
   * The reported total only counts active accounts: deactivating account
   * `k` (which `deactivateAccount` allows only at a balance of zero or
   * less) removes exactly its balance from the owner's total, so the total
   * never goes down.
   */
  lemma {:induction false} DeactivationDropsBalanceFromTotal(accounts: seq<Account>, k: nat, userId: string)
    requires k < |accounts| && accounts[k].userId == userId && accounts[k].isActive
    ensures TotalBalance(Filter(accounts[k := accounts[k].(isActive := false)], ActiveOwnedBy(userId)))
      == TotalBalance(Filter(accounts, ActiveOwnedBy(userId))) - accounts[k].balance
  {
    var p := ActiveOwnedBy(userId);
    var after := accounts[k := accounts[k].(isActive := false)];
    if k == 0 {
      assert after[1..] == accounts[1..];
    } else {
      assert after[1..] == accounts[1..][k - 1 := accounts[k].(isActive := false)];
      DeactivationDropsBalanceFromTotal(accounts[1..], k - 1, userId);
    }
  }

  lemma DeactivationNeverLowersTotal(accounts: seq<Account>, k: nat, userId: string)
    requires k < |accounts| && accounts[k].userId == userId && accounts[k].isActive
    requires accounts[k].balance <= 0.0
    ensures TotalBalance(Filter(accounts[k := accounts[k].(isActive := false)], ActiveOwnedBy(userId)))
      >= TotalBalance(Filter(accounts, ActiveOwnedBy(userId)))
  {
    DeactivationDropsBalanceFromTotal(accounts, k, userId);
  }
}
