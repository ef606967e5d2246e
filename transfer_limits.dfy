/**
 * Per-user transfer ceilings: a single-transaction limit, a daily and a
 * monthly sum over the user's outgoing COMPLETED/PENDING transfers, and a
 * per-day count. `todayStart` and `monthStart` are the clock truncated to
 * midnight and to the first of the month.
 */
module TransferLimits {
  import opened Common
  import opened Records

  datatype TransferLimit = TransferLimit(
    dailyLimit: Money,
    monthlyLimit: Money,
    singleTransactionLimit: Money,
    maxTransactionsPerDay: nat)

  const DEFAULT_LIMITS: TransferLimit := TransferLimit(50000.0, 500000.0, 100000.0, 20)

  /** Which ceiling refused the transfer; the used amounts are the ones the message reports. */
  datatype LimitViolation =
    | SingleExceeded
    | DailyExceeded(used: Money)
    | MonthlyExceeded(used: Money)
    | TooManyToday

  datatype LimitCheck = LimitCheck(allowed: bool, reason: Option<LimitViolation>, limits: TransferLimit)

  /** The query filter: an outgoing TRANSFER from one of `ids`, COMPLETED or PENDING, since `since`. */
  predicate CountsToward(t: Transaction, ids: set<string>, since: int) {
    && t.fromAccountId.Some? && t.fromAccountId.value in ids
    && t.txType == Transfer
    && (t.status == Completed || t.status == Pending)
    && t.createdAt >= since
  }

  function WindowTransfers(accounts: seq<Account>, txs: seq<Transaction>, userId: string, since: int): seq<Transaction> {
    var ids := AccountIdsOf(accounts, userId);
    Filter(txs, (t: Transaction) => CountsToward(t, ids, since))
  }

  function WindowTotal(accounts: seq<Account>, txs: seq<Transaction>, userId: string, since: int): Money {
    SumAmounts(WindowTransfers(accounts, txs, userId, since))
  }

  /** `checkTransferLimits`: the first failing ceiling, in the order single, daily, monthly, count. */
  function CheckTransferLimits(accounts: seq<Account>, txs: seq<Transaction>, userId: string, amount: Money,
                               todayStart: int, monthStart: int): (r: LimitCheck)
    ensures r.limits == DEFAULT_LIMITS
    ensures r.allowed <==> r.reason.None?
    ensures r.reason == Some(SingleExceeded) <==> amount > DEFAULT_LIMITS.singleTransactionLimit
    ensures var today := WindowTotal(accounts, txs, userId, todayStart);
      r.reason.Some? && r.reason.value.DailyExceeded? <==>
        amount <= DEFAULT_LIMITS.singleTransactionLimit && today + amount > DEFAULT_LIMITS.dailyLimit
    ensures r.reason.Some? && r.reason.value.DailyExceeded? ==>
      r.reason.value.used == WindowTotal(accounts, txs, userId, todayStart)
    ensures var today := WindowTotal(accounts, txs, userId, todayStart);
      var month := WindowTotal(accounts, txs, userId, monthStart);
      r.reason.Some? && r.reason.value.MonthlyExceeded? <==>
        amount <= DEFAULT_LIMITS.singleTransactionLimit && today + amount <= DEFAULT_LIMITS.dailyLimit
        && month + amount > DEFAULT_LIMITS.monthlyLimit
    ensures r.reason.Some? && r.reason.value.MonthlyExceeded? ==>
      r.reason.value.used == WindowTotal(accounts, txs, userId, monthStart)
    ensures r.allowed <==>
      && amount <= DEFAULT_LIMITS.singleTransactionLimit
      && WindowTotal(accounts, txs, userId, todayStart) + amount <= DEFAULT_LIMITS.dailyLimit
      && WindowTotal(accounts, txs, userId, monthStart) + amount <= DEFAULT_LIMITS.monthlyLimit
      && |WindowTransfers(accounts, txs, userId, todayStart)| < DEFAULT_LIMITS.maxTransactionsPerDay
  {
    var limits := DEFAULT_LIMITS;
    if amount > limits.singleTransactionLimit then
      LimitCheck(false, Some(SingleExceeded), limits)
    else
      var todayTransactions := WindowTransfers(accounts, txs, userId, todayStart);
      var todayTotal := SumAmounts(todayTransactions);
      if todayTotal + amount > limits.dailyLimit then
        LimitCheck(false, Some(DailyExceeded(todayTotal)), limits)
      else
        var monthTotal := WindowTotal(accounts, txs, userId, monthStart);
        if monthTotal + amount > limits.monthlyLimit then
          LimitCheck(false, Some(MonthlyExceeded(monthTotal)), limits)
        else if |todayTransactions| >= limits.maxTransactionsPerDay then
          LimitCheck(false, Some(TooManyToday), limits)
        else
          LimitCheck(true, None, limits)
  }

  /** Transaction amounts are never negative (the ledger's well-formedness gives them positive). */
  ghost predicate AmountsNonNegative(txs: seq<Transaction>) {
    forall t :: t in txs ==> t.amount >= 0.0
  }

  /** A non-negative history has a non-negative windowed total. */
  lemma WindowTotalNonNegative(accounts: seq<Account>, txs: seq<Transaction>, userId: string, since: int)
    requires AmountsNonNegative(txs)
    ensures WindowTotal(accounts, txs, userId, since) >= 0.0
  {
    SumAmountsNonNegative(WindowTransfers(accounts, txs, userId, since));
  }

  /**
   * The daily limit lies below the single-transaction limit, so any amount
   * above 50,000 is refused even by a user with no prior transfers.
   */
  lemma OverDailyLimitAlwaysRefused(accounts: seq<Account>, txs: seq<Transaction>, userId: string, amount: Money,
                                    todayStart: int, monthStart: int)
    requires AmountsNonNegative(txs)
    requires amount > DEFAULT_LIMITS.dailyLimit
    ensures !CheckTransferLimits(accounts, txs, userId, amount, todayStart, monthStart).allowed
  {
    WindowTotalNonNegative(accounts, txs, userId, todayStart);
  }

  /** Twenty qualifying transfers today refuse even the smallest amount. */
  lemma CountLimitRefusesAnyAmount(accounts: seq<Account>, txs: seq<Transaction>, userId: string, amount: Money,
                                   todayStart: int, monthStart: int)
    requires |WindowTransfers(accounts, txs, userId, todayStart)| >= 20
    ensures !CheckTransferLimits(accounts, txs, userId, amount, todayStart, monthStart).allowed
  {
  }

  /** The month window contains today's, so the monthly total is at least the daily one. */
  lemma {:induction false} MonthlyCoversDaily(accounts: seq<Account>, txs: seq<Transaction>, userId: string,
                                              todayStart: int, monthStart: int)
    requires AmountsNonNegative(txs)
    requires monthStart <= todayStart
    ensures WindowTotal(accounts, txs, userId, monthStart) >= WindowTotal(accounts, txs, userId, todayStart)
  {
    var ids := AccountIdsOf(accounts, userId);
    var p := (t: Transaction) => CountsToward(t, ids, todayStart);
    var q := (t: Transaction) => CountsToward(t, ids, monthStart);
    SumAmountsFilterLe(txs, p, q);
  }

  datatype Window = Window(used: Money, limit: Money, remaining: Money)

  datatype LimitUsage = LimitUsage(
    daily: Window,
    monthly: Window,
    singleTransactionLimit: Money,
    transactionsToday: nat,
    maxTransactionsPerDay: nat)

  /** `getTransferLimitUsage`: the same windows as the check, reported with what remains. */
  function GetTransferLimitUsage(accounts: seq<Account>, txs: seq<Transaction>, userId: string,
                                 todayStart: int, monthStart: int): (u: LimitUsage)
    ensures u.daily.used + u.daily.remaining == DEFAULT_LIMITS.dailyLimit == u.daily.limit
    ensures u.monthly.used + u.monthly.remaining == DEFAULT_LIMITS.monthlyLimit == u.monthly.limit
    ensures u.daily.used == WindowTotal(accounts, txs, userId, todayStart)
    ensures u.monthly.used == WindowTotal(accounts, txs, userId, monthStart)
    ensures u.transactionsToday == |WindowTransfers(accounts, txs, userId, todayStart)|
  {
    var limits := DEFAULT_LIMITS;
    var todayTransactions := WindowTransfers(accounts, txs, userId, todayStart);
    var todayTotal := SumAmounts(todayTransactions);
    var monthTotal := WindowTotal(accounts, txs, userId, monthStart);
    LimitUsage(
      Window(todayTotal, limits.dailyLimit, limits.dailyLimit - todayTotal),
      Window(monthTotal, limits.monthlyLimit, limits.monthlyLimit - monthTotal),
      limits.singleTransactionLimit,
      |todayTransactions|,
      limits.maxTransactionsPerDay)
  }

  /**
   * The usage report and the check agree: an amount is allowed exactly when
   * it fits the single limit and both remaining allowances, and fewer than
   * the maximum transfers were made today.
   */
  lemma UsageAgreesWithCheck(accounts: seq<Account>, txs: seq<Transaction>, userId: string, amount: Money,
                             todayStart: int, monthStart: int)
    ensures var u := GetTransferLimitUsage(accounts, txs, userId, todayStart, monthStart);
      CheckTransferLimits(accounts, txs, userId, amount, todayStart, monthStart).allowed <==>
        && amount <= u.singleTransactionLimit
        && amount <= u.daily.remaining
        && amount <= u.monthly.remaining
        && u.transactionsToday < u.maxTransactionsPerDay
  {
  }

  /** With a non-negative history the monthly allowance left never exceeds the daily one plus 450,000. */
  lemma RemainingOrdered(accounts: seq<Account>, txs: seq<Transaction>, userId: string,
                         todayStart: int, monthStart: int)
    requires AmountsNonNegative(txs)
    requires monthStart <= todayStart
    ensures var u := GetTransferLimitUsage(accounts, txs, userId, todayStart, monthStart);
      u.monthly.remaining <= u.daily.remaining + 450000.0
  {
    MonthlyCoversDaily(accounts, txs, userId, todayStart, monthStart);
  }
}
