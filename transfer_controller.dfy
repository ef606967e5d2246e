/**
 * `createTransfer`: validates the request, applies the transfer limits and
 * the fraud rules, checks the source and destination accounts, then writes
 * one COMPLETED TRANSFER row, debits the source, credits the destination
 * and audits the transfer.
 *
 * The clock (`now`, the day and month starts, the hour), the new row's id
 * and the random reference number are parameters.
 */
module TransferController {
  import opened Common
  import opened Records
  import opened Requests
  import Jwt
  import opened TransferLimits
  import opened FraudDetection
  import opened AuditLogService
  import opened RiskScoring

  /** The fields of the request body. */
  datatype TransferBody = TransferBody(
    fromAccountId: Option<string>,
    toAccountId: Option<string>,
    toAccountIdentifier: Option<string>,
    amount: Option<real>,
    description: Option<string>)

  datatype TransferResponse =
    | Created(transactionId: string, referenceNumber: string, amount: Money)
    | Failure(status: nat, error: string)

  /** `toAccountIdentifier || toAccountId`. */
  function Destination(body: TransferBody): (r: Option<string>)
    ensures Truthy(body.toAccountIdentifier) ==> r == body.toAccountIdentifier
    ensures !Truthy(body.toAccountIdentifier) ==> r == body.toAccountId
  {
    if Truthy(body.toAccountIdentifier) then body.toAccountIdentifier else body.toAccountId
  }

  /** The destination, by account id first and then by account number. */
  function ResolveDestination(accounts: seq<Account>, destination: string): (r: Option<nat>)
    ensures r.Some? ==> r.value < |accounts|
    ensures r.Some? && HasAccount(accounts, destination) ==> accounts[r.value].id == destination
    ensures r.Some? && !HasAccount(accounts, destination) ==> accounts[r.value].accountNumber == destination
    ensures r.None? <==> !HasAccount(accounts, destination)
                         && forall a :: a in accounts ==> a.accountNumber != destination
  {
    match FindAccount(accounts, destination)
    case Some(i) => Some(i)
    case None =>
      match FindAccountByNumber(accounts, destination)
      case Some(i) => Some(i)
      case None => None
  }

  /** What the guards decide: an error answer, or the accounts to debit and credit. */
  datatype Decision = Reject(status: nat, error: string) | Accept(fromIndex: nat, toIndex: nat, amount: Money)

  /**
   * The guards in the order the controller runs them. The fraud result does
   * not appear: its only refusal needs a CRITICAL level, which the rules
   * never produce.
   */
  function TransferDecision(userId: Option<string>, body: TransferBody, accounts: seq<Account>,
                            txs: seq<Transaction>, todayStart: int, monthStart: int): (d: Decision)
    ensures d.Accept? ==> d.fromIndex < |accounts| && d.toIndex < |accounts|
  {
    if !Truthy(userId) then Reject(401, "Unauthorized")
    else if !Truthy(body.fromAccountId) || !Truthy(Destination(body))
            || !(body.amount.Some? && body.amount.value != 0.0)
    then Reject(400, "Missing required fields")
    else if body.amount.value <= 0.0 then Reject(400, "Amount must be greater than 0")
    else if !CheckTransferLimits(accounts, txs, userId.value, body.amount.value, todayStart, monthStart).allowed
    then Reject(400, "Transfer limit exceeded")
    else AccountChecks(accounts, userId.value, body.fromAccountId.value, Destination(body).value, body.amount.value)
  }

  /** The source account guards, then the destination lookup. */
  function AccountChecks(accounts: seq<Account>, userId: string, fromAccountId: string, destination: string,
                         amount: Money): (d: Decision)
    ensures d.Accept? ==> d.fromIndex < |accounts| && d.toIndex < |accounts| && d.amount == amount
    ensures d.Accept? ==> accounts[d.fromIndex].id == fromAccountId
  {
    match FindAccount(accounts, fromAccountId)
    case None => Reject(404, "Source account not found")
    case Some(i) =>
      if accounts[i].userId != userId then Reject(403, "Forbidden")
      else if !accounts[i].isActive then Reject(400, "Account is not active")
      else if accounts[i].isFrozen then Reject(400, "Account is frozen. You cannot transfer from a frozen account")
      else if accounts[i].balance < amount then Reject(400, "Insufficient balance")
      else match ResolveDestination(accounts, destination)
        case None => Reject(404, "Destination account not found. Please check the account number or ID.")
        case Some(j) => Accept(i, j, amount)
  }

  /** Debit `i`, then credit `j` (the same row when `i == j`). */
  function ApplyTransfer(accounts: seq<Account>, i: nat, j: nat, amount: Money): (r: seq<Account>)
    requires i < |accounts| && j < |accounts|
    ensures |r| == |accounts|
  {
    var debited := accounts[i := accounts[i].(balance := accounts[i].balance - amount)];
    debited[j := debited[j].(balance := debited[j].balance + amount)]
  }

  /**
   * A transfer moves `amount` from source to destination: the source loses
   * it, the destination gains it, no other account changes, keys and flags
   * stay, and the total balance is conserved. A self-transfer changes nothing.
   */
  lemma ApplyTransferEffect(accounts: seq<Account>, i: nat, j: nat, amount: Money)
    requires i < |accounts| && j < |accounts|
    ensures var r := ApplyTransfer(accounts, i, j, amount);
      && (forall k :: 0 <= k < |r| && k != i && k != j ==> r[k] == accounts[k])
      && (i != j ==> r[i].balance == accounts[i].balance - amount && r[j].balance == accounts[j].balance + amount)
      && (i == j ==> r == accounts)
      && (forall k :: 0 <= k < |r| ==> r[k] == accounts[k].(balance := r[k].balance))
      && TotalBalance(r) == TotalBalance(accounts)
  {
    var debited := accounts[i := accounts[i].(balance := accounts[i].balance - amount)];
    TotalBalanceUpdate(accounts, i, accounts[i].(balance := accounts[i].balance - amount));
    TotalBalanceUpdate(debited, j, debited[j].(balance := debited[j].balance + amount));
    if i == j {
      assert ApplyTransfer(accounts, i, j, amount)[i] == accounts[i];
      assert ApplyTransfer(accounts, i, j, amount) == accounts;
    }
  }

  /** The row `createTransfer` writes. */
  function TransferRow(id: string, fromAccountId: string, toAccountId: string, amount: Money,
                       description: Option<string>, referenceNumber: string, now: int): (t: Transaction)
    ensures t.fromAccountId == Some(fromAccountId) && t.toAccountId == toAccountId && t.amount == amount
    ensures t.txType == Transfer && t.status == Completed && t.createdAt == now
    ensures t.description == (if Truthy(description) then description.value else "Money transfer")
  {
    Transaction(id, Some(fromAccountId), toAccountId, amount, Transfer, Completed,
                OrElse(description, "Money transfer"), referenceNumber, now)
  }

  /** The success audit metadata: the reference number, and the risk score when the middleware attached one. */
  function SuccessMetadata(referenceNumber: string, riskScore: Option<RiskScore>): Metadata {
    map["referenceNumber" := MStr(referenceNumber)]
      + (if riskScore.Some? then map["riskScore" := MInt(riskScore.value.score)] else map[])
  }

  function SuccessRecord(req: Request, body: TransferBody, accounts: seq<Account>, d: Decision, id: string,
                         referenceNumber: string, riskScore: Option<RiskScore>, now: int): (r: AuditRecord)
    requires d.Accept? && d.toIndex < |accounts| && req.userId.Some? && body.fromAccountId.Some?
    ensures r.userId == req.userId && r.action == "TRANSFER" && r.status == Success && r.resourceId == Some(id)
    ensures "amount" in r.metadata && r.metadata["amount"] == MNum(d.amount)
    ensures "referenceNumber" in r.metadata && r.metadata["referenceNumber"] == MStr(referenceNumber)
    ensures "toAccountId" in r.metadata && r.metadata["toAccountId"] == MStr(accounts[d.toIndex].id)
    ensures "riskScore" in r.metadata <==> riskScore.Some?
    ensures riskScore.Some? ==> r.metadata["riskScore"] == MInt(riskScore.value.score)
  {
    RecordOf(TransferData(req.userId.value, id, d.amount, body.fromAccountId.value, accounts[d.toIndex].id, Success,
                          Jwt.GetIpAddress(req), OrElse(Header(req, "user-agent"), ""), Jwt.GetDeviceInfo(req),
                          Some(SuccessMetadata(referenceNumber, riskScore))), now)
  }

  /** `createTransfer`. */
  method CreateTransfer(req: Request, body: TransferBody, ledger: Ledger, audit: AuditStore,
                        riskScore: Option<RiskScore>, todayStart: int, monthStart: int, now: int, hour: int,
                        newId: string, referenceNumber: string, writeSucceeds: bool)
    returns (resp: TransferResponse)
    requires ledger.Valid()
    requires forall t :: t in ledger.transactions ==> t.id != newId
    requires riskScore.Some? ==> riskScore.value.score <= MAX_SCORE
    modifies ledger, audit
    ensures ledger.Valid()
    ensures TotalBalance(ledger.accounts) == TotalBalance(old(ledger.accounts))
    ensures var d := TransferDecision(req.userId, body, old(ledger.accounts), old(ledger.transactions),
                                      todayStart, monthStart);
      d.Reject? ==>
        && resp == Failure(d.status, d.error)
        && ledger.accounts == old(ledger.accounts) && ledger.transactions == old(ledger.transactions)
        && audit.records == old(audit.records)
    ensures var d := TransferDecision(req.userId, body, old(ledger.accounts), old(ledger.transactions),
                                      todayStart, monthStart);
      d.Accept? ==>
        && resp == Created(newId, referenceNumber, d.amount)
        && ledger.transactions == old(ledger.transactions)
           + [TransferRow(newId, body.fromAccountId.value, old(ledger.accounts)[d.toIndex].id, d.amount,
                          body.description, referenceNumber, now)]
        && ledger.accounts == ApplyTransfer(old(ledger.accounts), d.fromIndex, d.toIndex, d.amount)
        && audit.records == old(audit.records)
           + (if writeSucceeds
              then [SuccessRecord(req, body, old(ledger.accounts), d, newId, referenceNumber, riskScore, now)]
              else [])
  {
    if !Truthy(req.userId) {
      return Failure(401, "Unauthorized");
    }
    var userId := req.userId.value;
    var destinationAccount := Destination(body);
    if !Truthy(body.fromAccountId) || !Truthy(destinationAccount) || !(body.amount.Some? && body.amount.value != 0.0) {
      return Failure(400, "Missing required fields");
    }
    var fromAccountId := body.fromAccountId.value;
    var transferAmount := body.amount.value;
    if transferAmount <= 0.0 {
      return Failure(400, "Amount must be greater than 0");
    }

    var limitCheck := CheckTransferLimits(ledger.accounts, ledger.transactions, userId, transferAmount,
                                          todayStart, monthStart);
    if !limitCheck.allowed {
      return Failure(400, "Transfer limit exceeded");
    }
    // Within the limits, so at most the daily limit.
    WindowTotalNonNegative(ledger.accounts, ledger.transactions, userId, todayStart);

    var fraudCheck := CheckFraud(userId, transferAmount, destinationAccount.value, fromAccountId,
                                 ledger.accounts, ledger.transactions, now, hour);
    if fraudCheck.recommendation == Block && fraudCheck.riskLevel == Critical {
      // Unreachable: the fraud rules stop at HIGH.
      assert false;
    }

    // Source account guards, then the destination by id or number.
    var d := AccountChecks(ledger.accounts, userId, fromAccountId, destinationAccount.value, transferAmount);
    if d.Reject? {
      return Failure(d.status, d.error);
    }

    if riskScore.Some? && riskScore.value.recommendation == Review && transferAmount > 50000.0 {
      // Unreachable: the daily limit already refused every amount above 50,000.
      assert false;
    }

    CommitTransfer(req, body, ledger, audit, d, riskScore, now, newId, referenceNumber, writeSucceeds);
    resp := Created(newId, referenceNumber, transferAmount);
  }

  /** Appends the transfer row, debits account `i` and credits account `j`. */
  method PostTransfer(ledger: Ledger, i: nat, j: nat, amount: Money, row: Transaction)
    requires ledger.Valid()
    requires i < |ledger.accounts| && j < |ledger.accounts| && amount > 0.0
    requires forall t :: t in ledger.transactions ==> t.id != row.id
    requires row.toAccountId == ledger.accounts[j].id && row.fromAccountId == Some(ledger.accounts[i].id)
    requires row.amount > 0.0
    modifies ledger
    ensures ledger.Valid()
    ensures TotalBalance(ledger.accounts) == TotalBalance(old(ledger.accounts))
    ensures ledger.transactions == old(ledger.transactions) + [row]
    ensures ledger.accounts == ApplyTransfer(old(ledger.accounts), i, j, amount)
  {
    assert ledger.accounts[j] in ledger.accounts && ledger.accounts[i] in ledger.accounts;
    assert TransactionWellFormed(ledger.accounts, row);
    var before := ledger.accounts;
    ghost var txsBefore := ledger.transactions;
    ledger.transactions := ledger.transactions + [row];

    // Debit the source, then credit the destination.
    ledger.accounts := ledger.accounts[i := ledger.accounts[i].(balance := ledger.accounts[i].balance - amount)];
    ledger.accounts := ledger.accounts[j := ledger.accounts[j].(balance := ledger.accounts[j].balance + amount)];
    assert ledger.accounts == ApplyTransfer(before, i, j, amount);
    ApplyTransferEffect(before, i, j, amount);
    AppendKeepsWellFormed(before, txsBefore, ledger.accounts, row);
  }

  /** The writes of an accepted transfer: the row, the debit and credit, the audit record. */
  method CommitTransfer(req: Request, body: TransferBody, ledger: Ledger, audit: AuditStore, d: Decision,
                        riskScore: Option<RiskScore>, now: int, newId: string, referenceNumber: string,
                        writeSucceeds: bool)
    requires ledger.Valid()
    requires forall t :: t in ledger.transactions ==> t.id != newId
    requires d.Accept? && d.fromIndex < |ledger.accounts| && d.toIndex < |ledger.accounts| && d.amount > 0.0
    requires req.userId.Some? && body.fromAccountId.Some?
    requires ledger.accounts[d.fromIndex].id == body.fromAccountId.value
    modifies ledger, audit
    ensures ledger.Valid()
    ensures TotalBalance(ledger.accounts) == TotalBalance(old(ledger.accounts))
    ensures ledger.transactions == old(ledger.transactions)
      + [TransferRow(newId, body.fromAccountId.value, old(ledger.accounts)[d.toIndex].id, d.amount,
                     body.description, referenceNumber, now)]
    ensures ledger.accounts == ApplyTransfer(old(ledger.accounts), d.fromIndex, d.toIndex, d.amount)
    ensures audit.records == old(audit.records)
      + (if writeSucceeds
         then [SuccessRecord(req, body, old(ledger.accounts), d, newId, referenceNumber, riskScore, now)]
         else [])
  {
    var toId := ledger.accounts[d.toIndex].id;
    var row := TransferRow(newId, body.fromAccountId.value, toId, d.amount, body.description, referenceNumber, now);
    PostTransfer(ledger, d.fromIndex, d.toIndex, d.amount, row);
    LogTransfer(audit, req.userId.value, newId, d.amount, body.fromAccountId.value, toId, Success,
                Jwt.GetIpAddress(req), OrElse(Header(req, "user-agent"), ""), Jwt.GetDeviceInfo(req),
                Some(SuccessMetadata(referenceNumber, riskScore)), now, writeSucceeds);
  }

  /**
   * An accepted transfer meets every condition: a positive amount within the
   * limits, an existing, owned, active, unfrozen source holding at least the
   * amount, and a destination found by id or number; and conversely.
   */
  lemma AcceptedIff(userId: Option<string>, body: TransferBody, accounts: seq<Account>, txs: seq<Transaction>,
                    todayStart: int, monthStart: int)
    requires AccountKeysUnique(accounts)
    ensures TransferDecision(userId, body, accounts, txs, todayStart, monthStart).Accept? <==>
      && Truthy(userId) && Truthy(body.fromAccountId) && Truthy(Destination(body))
      && body.amount.Some? && body.amount.value > 0.0
      && CheckTransferLimits(accounts, txs, userId.value, body.amount.value, todayStart, monthStart).allowed
      && SourceUsable(accounts, userId.value, body.fromAccountId.value, body.amount.value)
      && (HasAccount(accounts, Destination(body).value)
          || exists a :: a in accounts && a.accountNumber == Destination(body).value)
  {
    if Truthy(userId) && Truthy(body.fromAccountId) && Truthy(Destination(body))
       && body.amount.Some? && body.amount.value > 0.0 {
      SourceChecksIff(accounts, userId.value, body.fromAccountId.value, Destination(body).value, body.amount.value);
    }
  }

  /** The source exists, belongs to the user, is active and unfrozen and covers the amount. */
  predicate SourceUsable(accounts: seq<Account>, userId: string, fromAccountId: string, amount: Money) {
    exists i :: 0 <= i < |accounts| && accounts[i].id == fromAccountId && accounts[i].userId == userId
      && accounts[i].isActive && !accounts[i].isFrozen && accounts[i].balance >= amount
  }

  lemma SourceChecksIff(accounts: seq<Account>, userId: string, fromAccountId: string, destination: string,
                        amount: Money)
    requires AccountKeysUnique(accounts)
    ensures AccountChecks(accounts, userId, fromAccountId, destination, amount).Accept? <==>
      SourceUsable(accounts, userId, fromAccountId, amount)
      && (HasAccount(accounts, destination) || exists a :: a in accounts && a.accountNumber == destination)
  {
    var f := FindAccount(accounts, fromAccountId);
    if f.None? {
      forall i | 0 <= i < |accounts|
        ensures accounts[i].id != fromAccountId
      {
        assert accounts[i] in accounts;
      }
    } else {
      forall i | 0 <= i < |accounts| && accounts[i].id == fromAccountId
        ensures i == f.value
      {
      }
    }
  }

  /** Missing fields are refused before the limits or any account is looked at. */
  lemma ValidationFirst(userId: Option<string>, body: TransferBody, accounts: seq<Account>, txs: seq<Transaction>,
                        todayStart: int, monthStart: int)
    requires Truthy(userId)
    requires !Truthy(body.fromAccountId) || !Truthy(Destination(body)) || body.amount.None? || body.amount.value == 0.0
    ensures TransferDecision(userId, body, accounts, txs, todayStart, monthStart) == Reject(400, "Missing required fields")
  {
  }

  /** A transfer the limits refuse is answered so whatever the source account's state. */
  lemma LimitsBeforeAccounts(userId: Option<string>, body: TransferBody, accounts: seq<Account>,
                             txs: seq<Transaction>, todayStart: int, monthStart: int)
    requires Truthy(userId) && Truthy(body.fromAccountId) && Truthy(Destination(body))
    requires body.amount.Some? && body.amount.value > 0.0
    requires !CheckTransferLimits(accounts, txs, userId.value, body.amount.value, todayStart, monthStart).allowed
    ensures TransferDecision(userId, body, accounts, txs, todayStart, monthStart) == Reject(400, "Transfer limit exceeded")
  {
  }

  /** With a well-formed ledger, no transfer above 50,000 is ever accepted. */
  lemma AcceptedAtMostDailyLimit(userId: Option<string>, body: TransferBody, accounts: seq<Account>,
                                 txs: seq<Transaction>, todayStart: int, monthStart: int)
    requires forall t :: t in txs ==> t.amount >= 0.0
    ensures var d := TransferDecision(userId, body, accounts, txs, todayStart, monthStart);
      d.Accept? ==> 0.0 < d.amount <= DEFAULT_LIMITS.dailyLimit
  {
    var d := TransferDecision(userId, body, accounts, txs, todayStart, monthStart);
    if d.Accept? {
      WindowTotalNonNegative(accounts, txs, userId.value, todayStart);
    }
  }
}
