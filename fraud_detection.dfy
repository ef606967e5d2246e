/**
 * The transfer fraud rules: six rules raise a risk level LOW < MEDIUM < HIGH
 * and push a reason each; the recommendation and the fraud flag are read off
 * the final level. Beside it, the 24-hour suspicious-activity check.
 *
 * The transaction and account tables are passed in; `now` is the clock in
 * milliseconds and `hour` the local hour of day.
 */
module FraudDetection {
  import opened Common
  import opened Records

  const FIVE_MINUTES_MS: int := 5 * 60 * 1000
  const HOUR_MS: int := 60 * 60 * 1000
  const DAY_MS: int := 24 * 60 * 60 * 1000

  datatype RiskLevel = Low | Medium | High | Critical

  function LevelRank(l: RiskLevel): nat {
    match l
    case Low => 0
    case Medium => 1
    case High => 2
    case Critical => 3
  }

  /** The reasons, one per rule (rule 1 has two). */
  datatype Reason =
    | LargeAmount
    | VeryLargeAmount
    | RapidTransfers
    | NewRecipient
    | LowBalanceAfter
    | MostOfBalance
    | RecentFailures
    | OffHoursLarge

  function ReasonText(r: Reason): string {
    match r
    case LargeAmount => "Unusually large transfer amount"
    case VeryLargeAmount => "Very large transfer amount"
    case RapidTransfers => "Rapid successive transfers detected"
    case NewRecipient => "First-time transfer to new recipient with significant amount"
    case LowBalanceAfter => "Transfer would leave account with very low balance"
    case MostOfBalance => "Transfer exceeds 90% of account balance"
    case RecentFailures => "Multiple failed transactions in the last hour"
    case OffHoursLarge => "Large transfer outside business hours"
  }

  datatype FraudCheckResult = FraudCheckResult(
    isFraud: bool,
    riskLevel: RiskLevel,
    reasons: seq<Reason>,
    recommendation: Recommendation)

  /** `riskLevel === 'LOW' ? 'MEDIUM' : 'HIGH'`. */
  function Escalate(l: RiskLevel): (r: RiskLevel)
    ensures l != Critical ==> LevelRank(r) >= LevelRank(l)
    ensures r == Medium || r == High
  {
    if l == Low then Medium else High
  }

  /** `riskLevel === 'LOW' ? 'MEDIUM' : riskLevel`. */
  function Lift(l: RiskLevel): (r: RiskLevel)
    ensures LevelRank(r) >= LevelRank(l) && (l != Critical ==> r != Critical)
    ensures r != Low
  {
    if l == Low then Medium else l
  }

  /** What the six rules' tests found for one transfer. */
  datatype FraudSignals = FraudSignals(
    large: bool,
    veryLarge: bool,
    rapid: bool,
    newRecipient: bool,
    lowBalance: bool,
    mostOfBalance: bool,
    failures: bool,
    offHoursLarge: bool)

  predicate RecentTransferFrom(t: Transaction, fromAccountId: string, now: int) {
    t.fromAccountId == Some(fromAccountId) && t.txType == Transfer && t.createdAt >= now - FIVE_MINUTES_MS
  }

  predicate EarlierTransfer(t: Transaction, fromAccountId: string, toAccountId: string) {
    t.fromAccountId == Some(fromAccountId) && t.toAccountId == toAccountId && t.txType == Transfer
  }

  predicate RecentFailureFrom(t: Transaction, fromAccountId: string, now: int) {
    t.fromAccountId == Some(fromAccountId) && t.status == TxFailed && t.createdAt >= now - HOUR_MS
  }

  /** The store queries of `checkFraud` and the tests on their answers. */
  function FraudSignalsOf(amount: Money, toAccountId: string, fromAccountId: string,
                          accounts: seq<Account>, txs: seq<Transaction>, now: int, hour: int): FraudSignals
  {
    var recentTransfers := Filter(txs, (t: Transaction) => RecentTransferFrom(t, fromAccountId, now));
    var previousTransfers := Filter(txs, (t: Transaction) => EarlierTransfer(t, fromAccountId, toAccountId));
    var recentFailed := Filter(txs, (t: Transaction) => RecentFailureFrom(t, fromAccountId, now));
    var from := FindAccount(accounts, fromAccountId);
    var balance := if from.Some? then accounts[from.value].balance else 0.0;
    FraudSignals(
      amount > 100000.0,
      amount > 500000.0,
      |recentTransfers| >= 5,
      |previousTransfers| == 0 && amount > 10000.0,
      from.Some? && balance - amount < 100.0 && balance > 1000.0,
      from.Some? && amount > balance * 0.9,
      |recentFailed| >= 3,
      (hour < 6 || hour > 22) && amount > 50000.0)
  }

  /** One `if (test) reasons.push(...)` step. */
  function PushReason(acc: seq<Reason>, c: bool, r: Reason): (out: seq<Reason>)
    ensures forall x :: x in out <==> x in acc || (c && x == r)
    ensures |out| == |acc| + (if c then 1 else 0)
  {
    if c then acc + [r] else acc
  }

  /** The reasons pushed by rules 1-3. */
  function VelocityReasons(g: FraudSignals): seq<Reason> {
    var r1 := PushReason([], g.large, LargeAmount);
    var r1b := PushReason(r1, g.veryLarge, VeryLargeAmount);
    var r2 := PushReason(r1b, g.rapid, RapidTransfers);
    PushReason(r2, g.newRecipient, NewRecipient)
  }

  /** The reasons pushed, in rule order. */
  function ReasonsOf(g: FraudSignals): seq<Reason> {
    var r4a := PushReason(VelocityReasons(g), g.lowBalance, LowBalanceAfter);
    var r4b := PushReason(r4a, g.mostOfBalance, MostOfBalance);
    var r5 := PushReason(r4b, g.failures, RecentFailures);
    PushReason(r5, g.offHoursLarge, OffHoursLarge)
  }

  function B2N(b: bool): nat {
    if b then 1 else 0
  }

  /**
   * The final level, stated without the rule sequence: HIGH when the amount
   * is very large, when failures force it, when two of the escalating tests
   * (large amount, rapid, new recipient, most of balance) fire, or when the
   * low-balance lift is followed by the 90% escalation; LOW when no rule
   * fires; MEDIUM otherwise.
   */
  function LevelSpec(g: FraudSignals): RiskLevel {
    if g.veryLarge || g.failures
       || B2N(g.large) + B2N(g.rapid) + B2N(g.newRecipient) + B2N(g.mostOfBalance) >= 2
       || (g.lowBalance && g.mostOfBalance)
    then High
    else if g.large || g.veryLarge || g.rapid || g.newRecipient || g.lowBalance || g.mostOfBalance
            || g.failures || g.offHoursLarge
    then Medium
    else Low
  }

  /** HIGH and CRITICAL block, MEDIUM asks for review, LOW allows. */
  function RecommendationFor(l: RiskLevel): (r: Recommendation)
    ensures r == Block <==> l == High || l == Critical
    ensures r == Allow <==> l == Low
  {
    match l
    case Critical => Block
    case High => Block
    case Medium => Review
    case Low => Allow
  }

  /**
   * `checkFraud`: evaluates the rules' tests against the store, then applies
   * the rules in order.
   */
  method CheckFraud(userId: string, amount: Money, toAccountId: string, fromAccountId: string,
                    accounts: seq<Account>, txs: seq<Transaction>, now: int, hour: int)
    returns (r: FraudCheckResult)
    ensures var g := FraudSignalsOf(amount, toAccountId, fromAccountId, accounts, txs, now, hour);
      r.riskLevel == LevelSpec(g) && r.reasons == ReasonsOf(g)
    ensures r.riskLevel != Critical
    ensures r.recommendation == RecommendationFor(r.riskLevel)
    ensures r.riskLevel == Low <==> r.reasons == []
    ensures r.isFraud == IsFraud(FraudSignalsOf(amount, toAccountId, fromAccountId, accounts, txs, now, hour))
    ensures r.isFraud <==> r.riskLevel == High && |r.reasons| >= 3
  {
    var g := FraudSignalsOf(amount, toAccountId, fromAccountId, accounts, txs, now, hour);
    var riskLevel, reasons := ApplyRules(g);
    NoReasonsIff(g);

    var recommendation := Allow;
    if riskLevel == Critical || riskLevel == High {
      recommendation := Block;
    } else if riskLevel == Medium {
      recommendation := Review;
    }
    r := FraudCheckResult(riskLevel == Critical || (riskLevel == High && |reasons| >= 3),
                          riskLevel, reasons, recommendation);
  }

  /** The level after rule 1. */
  function AmountLevel(g: FraudSignals): RiskLevel {
    if g.veryLarge then High else if g.large then Medium else Low
  }

  /** The level after rules 1-3: every escalating test that fired counts one step. */
  function VelocityLevel(g: FraudSignals): RiskLevel {
    if g.veryLarge || B2N(g.large) + B2N(g.rapid) + B2N(g.newRecipient) >= 2 then High
    else if g.large || g.rapid || g.newRecipient then Medium
    else Low
  }

  /**
   * The rule sequence: each rule either sets the level, escalates it or lifts
   * it; the level only moves upward and never reaches CRITICAL.
   */
  method ApplyRules(g: FraudSignals) returns (riskLevel: RiskLevel, reasons: seq<Reason>)
    requires g.veryLarge ==> g.large
    ensures riskLevel == LevelSpec(g)
    ensures reasons == ReasonsOf(g)
    ensures riskLevel != Critical
  {
    riskLevel, reasons := AmountAndVelocityRules(g);
    ghost var previous := riskLevel;

    // Rule 4: balance checks (only when the source account exists; the tests say so).
    if g.lowBalance {
      reasons := reasons + [LowBalanceAfter];
      riskLevel := Lift(riskLevel);
    }
    if g.mostOfBalance {
      reasons := reasons + [MostOfBalance];
      riskLevel := Escalate(riskLevel);
    }
    assert LevelRank(riskLevel) >= LevelRank(previous);
    ghost var r4b := PushReason(PushReason(VelocityReasons(g), g.lowBalance, LowBalanceAfter),
                                g.mostOfBalance, MostOfBalance);
    assert reasons == r4b;
    previous := riskLevel;

    // Rule 5: multiple failed transactions in the last hour.
    if g.failures {
      reasons := reasons + [RecentFailures];
      riskLevel := High;
    }
    // Rule 6: large amount outside business hours.
    if g.offHoursLarge {
      reasons := reasons + [OffHoursLarge];
      riskLevel := Lift(riskLevel);
    }
    assert LevelRank(riskLevel) >= LevelRank(previous);
  }

  /** Rules 1-3 of the sequence, from the initial LOW level and no reasons. */
  method AmountAndVelocityRules(g: FraudSignals) returns (riskLevel: RiskLevel, reasons: seq<Reason>)
    requires g.veryLarge ==> g.large
    ensures riskLevel == VelocityLevel(g)
    ensures reasons == VelocityReasons(g)
  {
    reasons := [];
    riskLevel := Low;

    // Rule 1: unusually large amount.
    if g.large {
      reasons := reasons + [LargeAmount];
      riskLevel := Medium;
    }
    if g.veryLarge {
      reasons := reasons + [VeryLargeAmount];
      riskLevel := High;
    }
    assert riskLevel == AmountLevel(g);
    ghost var previous := riskLevel;

    // Rule 2: rapid successive transfers.
    if g.rapid {
      reasons := reasons + [RapidTransfers];
      riskLevel := Escalate(riskLevel);
    }
    // Rule 3: new recipient with a significant amount.
    if g.newRecipient {
      reasons := reasons + [NewRecipient];
      riskLevel := Escalate(riskLevel);
    }
    assert LevelRank(riskLevel) >= LevelRank(previous);
  }

  /** The amount tests of rule 1 nest: a very large amount is also large. */
  lemma VeryLargeIsLarge(amount: Money, toAccountId: string, fromAccountId: string,
                         accounts: seq<Account>, txs: seq<Transaction>, now: int, hour: int)
    ensures var g := FraudSignalsOf(amount, toAccountId, fromAccountId, accounts, txs, now, hour);
      g.veryLarge ==> g.large
  {
  }

  /** No reason is pushed exactly when the level stays LOW. */
  lemma NoReasonsIff(g: FraudSignals)
    ensures ReasonsOf(g) == [] <==> LevelSpec(g) == Low
  {
    var r1 := PushReason([], g.large, LargeAmount);
    var r1b := PushReason(r1, g.veryLarge, VeryLargeAmount);
    var r2 := PushReason(r1b, g.rapid, RapidTransfers);
    var r3 := PushReason(r2, g.newRecipient, NewRecipient);
    assert r3 == VelocityReasons(g);
    var r4a := PushReason(r3, g.lowBalance, LowBalanceAfter);
    var r4b := PushReason(r4a, g.mostOfBalance, MostOfBalance);
    var r5 := PushReason(r4b, g.failures, RecentFailures);
    assert |ReasonsOf(g)| == B2N(g.large) + B2N(g.veryLarge) + B2N(g.rapid) + B2N(g.newRecipient)
      + B2N(g.lowBalance) + B2N(g.mostOfBalance) + B2N(g.failures) + B2N(g.offHoursLarge);
  }

  /** LOW iff no reasons iff ALLOW, for every outcome of the rules. */
  lemma LowIffAllow(g: FraudSignals)
    ensures LevelSpec(g) == Low <==> ReasonsOf(g) == []
    ensures LevelSpec(g) == Low <==> RecommendationFor(LevelSpec(g)) == Allow
  {
    NoReasonsIff(g);
  }

  /** Rule 1 alone: 100,000 < amount <= 500,000 gives MEDIUM and amount > 500,000 gives HIGH. */
  lemma AmountRule(g: FraudSignals)
    requires !g.rapid && !g.newRecipient && !g.lowBalance && !g.mostOfBalance && !g.failures && !g.offHoursLarge
    ensures g.veryLarge ==> LevelSpec(g) == High
    ensures g.large && !g.veryLarge ==> LevelSpec(g) == Medium
  {
  }

  /**
   * The level never exceeds MEDIUM when only lifting rules fire (low balance,
   * off-hours), and failures alone force HIGH.
   */
  lemma LiftsNeverReachHigh(g: FraudSignals)
    ensures !g.large && !g.veryLarge && !g.rapid && !g.newRecipient && !g.mostOfBalance && !g.failures ==>
      LevelRank(LevelSpec(g)) <= LevelRank(Medium)
    ensures g.failures ==> LevelSpec(g) == High
  {
  }

  /** A missing source account switches off both balance rules. */
  lemma MissingSourceSkipsBalanceRules(amount: Money, toAccountId: string, fromAccountId: string,
                                       accounts: seq<Account>, txs: seq<Transaction>, now: int, hour: int)
    requires !HasAccount(accounts, fromAccountId)
    ensures var g := FraudSignalsOf(amount, toAccountId, fromAccountId, accounts, txs, now, hour);
      !g.lowBalance && !g.mostOfBalance
  {
  }

  /** `isFraud`: CRITICAL, or HIGH with at least three reasons. */
  predicate IsFraud(g: FraudSignals)
    ensures IsFraud(g) ==> RecommendationFor(LevelSpec(g)) == Block && |ReasonsOf(g)| >= 3
  {
    LevelSpec(g) == Critical || (LevelSpec(g) == High && |ReasonsOf(g)| >= 3)
  }

  /**
   * The fraud flag needs at least three reasons, since CRITICAL never occurs;
   * a very large amount to a new recipient is always flagged, while a very
   * large amount alone (two reasons) only blocks.
   */
  lemma FraudFlag(g: FraudSignals)
    requires g.veryLarge ==> g.large
    ensures IsFraud(g) ==> |ReasonsOf(g)| >= 3
    ensures g.veryLarge && g.newRecipient ==> IsFraud(g)
    ensures g.veryLarge && !g.rapid && !g.newRecipient && !g.lowBalance && !g.mostOfBalance
            && !g.failures && !g.offHoursLarge ==>
      !IsFraud(g) && RecommendationFor(LevelSpec(g)) == Block
  {
    var r3 := VelocityReasons(g);
    var r4a := PushReason(r3, g.lowBalance, LowBalanceAfter);
    var r4b := PushReason(r4a, g.mostOfBalance, MostOfBalance);
    var r5 := PushReason(r4b, g.failures, RecentFailures);
    assert |ReasonsOf(g)| >= |r3|;
    assert |r3| == B2N(g.large) + B2N(g.veryLarge) + B2N(g.rapid) + B2N(g.newRecipient);
  }

  /** A transfer to a recipient never paid before, over 10,000, is at least MEDIUM. */
  lemma NewRecipientAtLeastMedium(amount: Money, toAccountId: string, fromAccountId: string,
                                  accounts: seq<Account>, txs: seq<Transaction>, now: int, hour: int)
    requires amount > 10000.0
    requires forall t :: t in txs ==> !EarlierTransfer(t, fromAccountId, toAccountId)
    ensures var g := FraudSignalsOf(amount, toAccountId, fromAccountId, accounts, txs, now, hour);
      g.newRecipient && LevelRank(LevelSpec(g)) >= LevelRank(Medium)
  {
    FilterEmpty(txs, (t: Transaction) => EarlierTransfer(t, fromAccountId, toAccountId));
  }

  /** The answer of `checkSuspiciousActivity`. */
  datatype SuspiciousActivity = SuspiciousActivity(isSuspicious: bool, indicators: seq<string>)

  predicate TouchesWithinDay(t: Transaction, accountId: string, now: int) {
    (t.fromAccountId == Some(accountId) || t.toAccountId == accountId) && t.createdAt >= now - DAY_MS
  }

  predicate LargeWithdrawal(t: Transaction, accountId: string) {
    t.fromAccountId == Some(accountId) && t.amount > 50000.0
  }

  /** The account's transactions of the last 24 hours, either direction. */
  function RecentActivity(accountId: string, txs: seq<Transaction>, now: int): seq<Transaction> {
    Filter(txs, (t: Transaction) => TouchesWithinDay(t, accountId, now))
  }

  function LargeWithdrawals(accountId: string, recent: seq<Transaction>): seq<Transaction> {
    Filter(recent, (t: Transaction) => LargeWithdrawal(t, accountId))
  }

  /** `checkSuspiciousActivity`: more than 50 transactions, or at least three large withdrawals, in 24 hours. */
  method CheckSuspiciousActivity(accountId: string, txs: seq<Transaction>, now: int) returns (r: SuspiciousActivity)
    ensures var recent := RecentActivity(accountId, txs, now);
      r.indicators ==
        (if |recent| > 50 then ["Unusually high number of transactions in 24 hours"] else [])
        + (if |LargeWithdrawals(accountId, recent)| >= 3 then ["Multiple large withdrawals in 24 hours"] else [])
    ensures r.isSuspicious <==>
      |RecentActivity(accountId, txs, now)| > 50
      || |LargeWithdrawals(accountId, RecentActivity(accountId, txs, now))| >= 3
    ensures r.isSuspicious <==> |r.indicators| > 0
  {
    var indicators: seq<string> := [];
    var recentTransactions := RecentActivity(accountId, txs, now);
    if |recentTransactions| > 50 {
      indicators := indicators + ["Unusually high number of transactions in 24 hours"];
    }
    var largeWithdrawals := LargeWithdrawals(accountId, recentTransactions);
    if |largeWithdrawals| >= 3 {
      indicators := indicators + ["Multiple large withdrawals in 24 hours"];
    }
    r := SuspiciousActivity(|indicators| > 0, indicators);
  }

  /** Every large withdrawal counted is an outgoing transaction of the account from the last day. */
  lemma LargeWithdrawalsAreRecentOutgoing(accountId: string, txs: seq<Transaction>, now: int)
    ensures forall t :: t in LargeWithdrawals(accountId, RecentActivity(accountId, txs, now)) ==>
      t in txs && t.fromAccountId == Some(accountId) && t.amount > 50000.0 && t.createdAt >= now - DAY_MS
  {
  }
}
