/**
 * The entities the backend keeps in its relational store, held here in
 * memory: accounts, transactions, sessions and the append-only audit log.
 * Every table is a sequence in insertion order. Rows carry their own
 * `createdAt` stamp, and a query ordered by it sorts on that stamp, not on
 * the position in the table (seeded rows are not inserted in date order).
 * Money is `real`.
 */
module Records {
  import opened Common

  type Money = real

  /** One value of an audit record's JSON metadata; `MObj` is a nested JSON object. */
  datatype Meta =
    | MStr(str: string)
    | MNum(num: real)
    | MInt(whole: int)
    | MBool(flag: bool)
    | MList(items: seq<string>)
    | MObj(fields: map<string, Meta>)

  type Metadata = map<string, Meta>

  datatype Status = Success | Failed | Blocked | Revoked

  datatype Recommendation = Allow | Review | Block

  /** The order ALLOW < REVIEW < BLOCK. */
  function Rank(r: Recommendation): nat {
    match r
    case Allow => 0
    case Review => 1
    case Block => 2
  }

  /** The stored spelling of a recommendation. */
  function RecommendationName(r: Recommendation): string {
    match r
    case Allow => "ALLOW"
    case Review => "REVIEW"
    case Block => "BLOCK"
  }

  datatype AuditRecord = AuditRecord(
    userId: Option<string>,
    action: string,
    resource: Option<string>,
    resourceId: Option<string>,
    status: Status,
    ipAddress: Option<string>,
    userAgent: Option<string>,
    deviceInfo: Option<string>,
    metadata: Metadata,
    createdAt: int)

  datatype TxType = Transfer | Deposit | Withdrawal | Payment

  datatype TxStatus = Pending | Completed | TxFailed | Cancelled

  datatype Transaction = Transaction(
    id: string,
    fromAccountId: Option<string>,
    toAccountId: string,
    amount: Money,
    txType: TxType,
    status: TxStatus,
    description: string,
    referenceNumber: string,
    createdAt: int)

  datatype Account = Account(
    id: string,
    userId: string,
    accountNumber: string,
    accountType: string,
    balance: Money,
    currency: string,
    isActive: bool,
    isFrozen: bool,
    branchCode: Option<string>,
    branchName: Option<string>,
    createdAt: int)

  datatype Session = Session(
    id: string,
    userId: string,
    token: string,
    deviceInfo: Option<string>,
    ipAddress: Option<string>,
    expiresAt: int,
    lastActivity: int,
    createdAt: int)

  /** The `createdAt` stamps the list queries order by. */
  function RecordCreatedAt(r: AuditRecord): int { r.createdAt }

  function TxCreatedAt(t: Transaction): int { t.createdAt }

  function AccountCreatedAt(a: Account): int { a.createdAt }

  function SessionCreatedAt(s: Session): int { s.createdAt }

  /** A role with the names of the permissions it grants. */
  datatype Role = Role(name: string, permissions: seq<string>)

  /** A user as loaded with its roles and their permissions. */
  datatype User = User(id: string, isActive: bool, roles: seq<Role>)

  /** `user.roles.map((ur) => ur.role.name)`. */
  function RoleNames(u: User): (r: seq<string>)
    ensures |r| == |u.roles|
    ensures forall i :: 0 <= i < |r| ==> r[i] == u.roles[i].name
  {
    seq(|u.roles|, i requires 0 <= i < |u.roles| => u.roles[i].name)
  }

  /** `user.roles.flatMap((ur) => ur.role.permissions.map((rp) => rp.permission.name))`. */
  function PermissionNames(roles: seq<Role>): (r: seq<string>)
    ensures forall p :: p in r <==> exists role :: role in roles && p in role.permissions
  {
    if |roles| == 0 then []
    else
      var rest := PermissionNames(roles[1..]);
      assert forall role :: role in roles <==> role == roles[0] || role in roles[1..];
      roles[0].permissions + rest
  }

  /** The audit log table. Rows are only appended; JIT revocation patches a status. */
  class AuditStore {
    var records: seq<AuditRecord>

    constructor ()
      ensures records == []
    {
      records := [];
    }
  }

  /** The session table. */
  class SessionStore {
    var sessions: seq<Session>

    constructor ()
      ensures sessions == []
    {
      sessions := [];
    }
  }

  /** The account and transaction tables with the store's key constraints. */
  class Ledger {
    var accounts: seq<Account>
    var transactions: seq<Transaction>

    /**
     * Account ids and account numbers are unique, transaction ids are unique,
     * every transaction refers to existing accounts (foreign keys), and every
     * transaction amount is positive (the only writer, createTransfer, refuses
     * amounts <= 0).
     */
    ghost predicate Valid()
      reads this
      ensures Valid() ==> forall t :: t in transactions ==> t.amount > 0.0
      ensures Valid() ==> forall i, j :: 0 <= i < j < |accounts| ==> accounts[i].id != accounts[j].id
    {
      LedgerWellFormed(accounts, transactions)
    }

    constructor ()
      ensures Valid() && accounts == [] && transactions == []
    {
      accounts := [];
      transactions := [];
    }
  }

  ghost predicate LedgerWellFormed(accounts: seq<Account>, transactions: seq<Transaction>) {
    && AccountKeysUnique(accounts)
    && TransactionIdsUnique(transactions)
    && (forall t :: t in transactions ==> TransactionWellFormed(accounts, t))
  }

  /** Keeping every account's keys and appending a fresh, well-formed row keeps the ledger well formed. */
  lemma AppendKeepsWellFormed(accounts: seq<Account>, txs: seq<Transaction>, updated: seq<Account>, row: Transaction)
    requires LedgerWellFormed(accounts, txs)
    requires |updated| == |accounts|
    requires forall k :: 0 <= k < |accounts| ==>
      updated[k].id == accounts[k].id && updated[k].accountNumber == accounts[k].accountNumber
    requires forall t :: t in txs ==> t.id != row.id
    requires TransactionWellFormed(accounts, row)
    ensures LedgerWellFormed(updated, txs + [row])
  {
    SameKeysPreserve(accounts, updated);
    var txs' := txs + [row];
    forall i, j | 0 <= i < j < |txs'|
      ensures txs'[i].id != txs'[j].id
    {
      if j == |txs| {
        assert txs'[i] in txs;
      }
    }
  }

  /** Changing accounts without touching their keys keeps the ledger well formed. */
  lemma SameKeysKeepWellFormed(accounts: seq<Account>, txs: seq<Transaction>, updated: seq<Account>)
    requires LedgerWellFormed(accounts, txs)
    requires |updated| == |accounts|
    requires forall n :: 0 <= n < |accounts| ==>
      updated[n].id == accounts[n].id && updated[n].accountNumber == accounts[n].accountNumber
    ensures LedgerWellFormed(updated, txs)
  {
    SameKeysPreserve(accounts, updated);
  }

  /** Appending an account with a fresh id and a fresh account number keeps the ledger well formed. */
  lemma AppendAccountKeepsWellFormed(accounts: seq<Account>, txs: seq<Transaction>, a: Account)
    requires LedgerWellFormed(accounts, txs)
    requires forall b :: b in accounts ==> b.id != a.id && b.accountNumber != a.accountNumber
    ensures LedgerWellFormed(accounts + [a], txs)
  {
    var updated := accounts + [a];
    forall i, j | 0 <= i < j < |updated|
      ensures updated[i].id != updated[j].id && updated[i].accountNumber != updated[j].accountNumber
    {
      if j == |accounts| {
        assert updated[i] in accounts;
      }
    }
    forall t | t in txs
      ensures TransactionWellFormed(updated, t)
    {
      assert TransactionWellFormed(accounts, t);
      assert forall b :: b in accounts ==> b in updated;
    }
  }

  /** Keeping every account's keys and replacing a row by one with the same id and references keeps the ledger well formed. */
  lemma ReplaceKeepsWellFormed(accounts: seq<Account>, txs: seq<Transaction>, updated: seq<Account>, k: nat, row: Transaction)
    requires LedgerWellFormed(accounts, txs)
    requires |updated| == |accounts|
    requires forall n :: 0 <= n < |accounts| ==>
      updated[n].id == accounts[n].id && updated[n].accountNumber == accounts[n].accountNumber
    requires k < |txs| && row.id == txs[k].id
    requires TransactionWellFormed(accounts, row)
    ensures LedgerWellFormed(updated, txs[k := row])
  {
    SameKeysPreserve(accounts, updated);
    var txs' := txs[k := row];
    assert forall n :: 0 <= n < |txs| ==> txs'[n].id == txs[n].id;
    forall t | t in txs'
      ensures TransactionWellFormed(updated, t)
    {
      var n :| 0 <= n < |txs'| && txs'[n] == t;
      if n != k {
        assert txs[n] in txs;
      }
    }
  }

  ghost predicate AccountKeysUnique(accounts: seq<Account>) {
    forall i, j :: 0 <= i < j < |accounts| ==>
      accounts[i].id != accounts[j].id && accounts[i].accountNumber != accounts[j].accountNumber
  }

  ghost predicate TransactionWellFormed(accounts: seq<Account>, t: Transaction) {
    && t.amount > 0.0
    && HasAccount(accounts, t.toAccountId)
    && (t.fromAccountId.Some? ==> HasAccount(accounts, t.fromAccountId.value))
  }

  predicate HasAccount(accounts: seq<Account>, id: string) {
    exists a :: a in accounts && a.id == id
  }

  /** Rows that keep every id and account number keep key uniqueness and the set of existing ids. */
  lemma SameKeysPreserve(a: seq<Account>, b: seq<Account>)
    requires |a| == |b|
    requires forall k :: 0 <= k < |a| ==> a[k].id == b[k].id && a[k].accountNumber == b[k].accountNumber
    ensures AccountKeysUnique(a) ==> AccountKeysUnique(b)
    ensures forall id :: HasAccount(a, id) <==> HasAccount(b, id)
  {
    forall id
      ensures HasAccount(a, id) <==> HasAccount(b, id)
    {
      if HasAccount(a, id) {
        var x :| x in a && x.id == id;
        var k :| 0 <= k < |a| && a[k] == x;
        assert b[k] in b;
      }
      if HasAccount(b, id) {
        var x :| x in b && x.id == id;
        var k :| 0 <= k < |b| && b[k] == x;
        assert a[k] in a;
      }
    }
  }

  /** `findUnique({ where: { id } })` on the account table. */
  function FindAccount(accounts: seq<Account>, id: string): (r: Option<nat>)
    ensures r.Some? ==> r.value < |accounts| && accounts[r.value].id == id
    ensures r.None? <==> !HasAccount(accounts, id)
  {
    if |accounts| == 0 then None
    else if accounts[0].id == id then Some(0)
    else match FindAccount(accounts[1..], id)
      case None => None
      case Some(k) => Some(k + 1)
  }

  /** With unique ids, looking an account up by its own id finds its row. */
  lemma {:induction false} FindAccountUnique(accounts: seq<Account>, k: nat)
    requires AccountKeysUnique(accounts) && k < |accounts|
    ensures FindAccount(accounts, accounts[k].id) == Some(k)
  {
    if k > 0 {
      assert accounts[0].id != accounts[k].id;
      assert accounts[1..][k - 1] == accounts[k];
      FindAccountUnique(accounts[1..], k - 1);
    }
  }

  /** `findUnique({ where: { accountNumber } })` on the account table. */
  function FindAccountByNumber(accounts: seq<Account>, accountNumber: string): (r: Option<nat>)
    ensures r.Some? ==> r.value < |accounts| && accounts[r.value].accountNumber == accountNumber
    ensures r.None? ==> forall a :: a in accounts ==> a.accountNumber != accountNumber
  {
    if |accounts| == 0 then None
    else if accounts[0].accountNumber == accountNumber then Some(0)
    else match FindAccountByNumber(accounts[1..], accountNumber)
      case None => None
      case Some(k) => Some(k + 1)
  }

  /** `findUnique({ where: { id } })` on the transaction table. */
  function FindTransaction(txs: seq<Transaction>, id: string): (r: Option<nat>)
    ensures r.Some? ==> r.value < |txs| && txs[r.value].id == id
    ensures r.None? ==> forall t :: t in txs ==> t.id != id
  {
    if |txs| == 0 then None
    else if txs[0].id == id then Some(0)
    else match FindTransaction(txs[1..], id)
      case None => None
      case Some(k) => Some(k + 1)
  }

  ghost predicate TransactionIdsUnique(txs: seq<Transaction>) {
    forall i, j :: 0 <= i < j < |txs| ==> txs[i].id != txs[j].id
  }

  /** With unique ids, looking a transaction up by its own id finds its row. */
  lemma {:induction false} FindTransactionUnique(txs: seq<Transaction>, k: nat)
    requires TransactionIdsUnique(txs) && k < |txs|
    ensures FindTransaction(txs, txs[k].id) == Some(k)
  {
    if k > 0 {
      assert txs[0].id != txs[k].id;
      assert txs[1..][k - 1] == txs[k];
      FindTransactionUnique(txs[1..], k - 1);
    }
  }

  /** Ids of the accounts owned by a user (`account.findMany({ where: { userId } })`). */
  function AccountIdsOf(accounts: seq<Account>, userId: string): (r: set<string>)
    ensures forall id :: id in r <==> exists a :: a in accounts && a.userId == userId && a.id == id
  {
    set a | a in accounts && a.userId == userId :: a.id
  }

  /** The sum of all account balances: the quantity every transfer conserves. */
  function TotalBalance(accounts: seq<Account>): Money {
    if |accounts| == 0 then 0.0 else accounts[0].balance + TotalBalance(accounts[1..])
  }

  lemma {:induction false} TotalBalanceUpdate(s: seq<Account>, i: nat, a: Account)
    requires i < |s|
    ensures TotalBalance(s[i := a]) == TotalBalance(s) - s[i].balance + a.balance
  {
    if i > 0 {
      assert s[i := a][1..] == s[1..][i - 1 := a];
      TotalBalanceUpdate(s[1..], i - 1, a);
    }
  }

  lemma {:induction false} TotalBalanceAppend(s: seq<Account>, a: Account)
    ensures TotalBalance(s + [a]) == TotalBalance(s) + a.balance
  {
    if |s| > 0 {
      assert (s + [a])[1..] == s[1..] + [a];
      TotalBalanceAppend(s[1..], a);
    }
  }

  /** Sum of transaction amounts (`reduce((sum, tx) => sum + Number(tx.amount), 0)`). */
  function SumAmounts(txs: seq<Transaction>): Money {
    if |txs| == 0 then 0.0 else txs[0].amount + SumAmounts(txs[1..])
  }

  lemma {:induction false} SumAmountsAppend(a: seq<Transaction>, b: seq<Transaction>)
    ensures SumAmounts(a + b) == SumAmounts(a) + SumAmounts(b)
  {
    if |a| == 0 {
      assert a + b == b;
    } else {
      assert (a + b)[1..] == a[1..] + b;
      SumAmountsAppend(a[1..], b);
    }
  }

  lemma {:induction false} SumAmountsNonNegative(txs: seq<Transaction>)
    requires forall t :: t in txs ==> t.amount >= 0.0
    ensures SumAmounts(txs) >= 0.0
  {
    if |txs| > 0 {
      assert forall t :: t in txs[1..] ==> t in txs;
      SumAmountsNonNegative(txs[1..]);
    }
  }

  /** Filtering can only lower a sum of non-negative amounts. */
  lemma {:induction false} SumAmountsFilterLe(txs: seq<Transaction>, p: Transaction -> bool, q: Transaction -> bool)
    requires forall t :: t in txs ==> t.amount >= 0.0
    requires forall t :: t in txs && p(t) ==> q(t)
    ensures SumAmounts(Filter(txs, p)) <= SumAmounts(Filter(txs, q))
  {
    if |txs| > 0 {
      assert forall t :: t in txs[1..] ==> t in txs;
      SumAmountsFilterLe(txs[1..], p, q);
    }
  }
}
