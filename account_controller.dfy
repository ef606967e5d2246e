/**
 * The account endpoints: view one account, list the caller's accounts,
 * change the active/frozen flags, deactivate an empty account, and open a
 * new account with its branch, number and audit record.
 *
 * The clock, the random parts of the account number, the random branch
 * pick and the random branch-code draws are parameters.
 */
module AccountController {
  import opened Common
  import opened Records
  import opened Requests
  import Jwt
  import opened Pagination
  import TransferController

  datatype AccountResponse = AccountFound(account: Account) | AccountFailure(status: int, error: string)

  /**
   * `getAccount`. When the access-control middleware attached a context it
   * has already decided; otherwise only the owner may view the account.
   */
  function GetAccount(userId: Option<string>, accountId: string, accounts: seq<Account>,
                      hasAbacContext: bool): (r: AccountResponse)
    ensures !Truthy(userId) ==> r == AccountFailure(401, "Unauthorized")
    ensures Truthy(userId) ==> (r == AccountFailure(404, "Account not found") <==> !HasAccount(accounts, accountId))
    ensures r.AccountFound? ==>
      r.account in accounts && r.account.id == accountId && (hasAbacContext || r.account.userId == userId.value)
    ensures r.AccountFailure? ==> r.status in {401, 403, 404}
  {
    if !Truthy(userId) then AccountFailure(401, "Unauthorized")
    else match FindAccount(accounts, accountId)
      case None => AccountFailure(404, "Account not found")
      case Some(k) =>
        assert accounts[k] in accounts;
        if !hasAbacContext && accounts[k].userId != userId.value
        then AccountFailure(403, "Forbidden - You can only view your own accounts")
        else AccountFound(accounts[k])
  }

  /**
   * Without an access-control context a stored account is shown to its
   * owner and refused to everyone else; with a context it is shown to any
   * signed-in caller.
   */
  lemma GetAccountAccess(userId: string, accounts: seq<Account>, k: nat)
    requires AccountKeysUnique(accounts) && k < |accounts| && userId != ""
    ensures accounts[k].userId == userId ==> GetAccount(Some(userId), accounts[k].id, accounts, false) == AccountFound(accounts[k])
    ensures accounts[k].userId != userId ==>
      GetAccount(Some(userId), accounts[k].id, accounts, false) == AccountFailure(403, "Forbidden - You can only view your own accounts")
    ensures GetAccount(Some(userId), accounts[k].id, accounts, true) == AccountFound(accounts[k])
  {
    FindAccountUnique(accounts, k);
  }

  datatype AccountList = AccountsListed(accounts: seq<Account>) | ListFailure(status: int, error: string)

  /** `listAccounts`: each of the caller's accounts once, newest `createdAt` first. */
  function ListAccounts(userId: Option<string>, accounts: seq<Account>): (r: AccountList)
    ensures !Truthy(userId) <==> r == ListFailure(401, "Unauthorized")
    ensures r.AccountsListed? ==> forall a :: a in r.accounts <==> a in accounts && a.userId == userId.value
    ensures r.AccountsListed? ==>
      && multiset(r.accounts) == multiset(Filter(accounts, (a: Account) => a.userId == userId.value))
      && SortedDesc(r.accounts, AccountCreatedAt)
  {
    if !Truthy(userId) then ListFailure(401, "Unauthorized")
    else
      var own := Filter(accounts, (a: Account) => a.userId == userId.value);
      var r := ByNewest(own, AccountCreatedAt);
      assert forall a :: a in r <==> a in own by {
        forall a
          ensures a in r <==> a in own
        {
          assert a in r <==> a in multiset(r);
        }
      }
      AccountsListed(r)
  }

  /** The result of the shared lookup: refused, or the caller's account at an index. */
  datatype OwnedLookup = LookupRefused(status: int, error: string) | OwnedAt(index: nat)

  /** The 401 / 404 / 403 guards shared by `updateAccount` and `deactivateAccount`. */
  function OwnedAccountAt(userId: Option<string>, accountId: string, accounts: seq<Account>): (r: OwnedLookup)
    ensures !Truthy(userId) ==> r == LookupRefused(401, "Unauthorized")
    ensures Truthy(userId) ==> (r == LookupRefused(404, "Account not found") <==> !HasAccount(accounts, accountId))
    ensures r.OwnedAt? ==>
      Truthy(userId) && r.index < |accounts| && accounts[r.index].id == accountId
      && accounts[r.index].userId == userId.value
  {
    if !Truthy(userId) then LookupRefused(401, "Unauthorized")
    else match FindAccount(accounts, accountId)
      case None => LookupRefused(404, "Account not found")
      case Some(k) =>
        if accounts[k].userId != userId.value then LookupRefused(403, "Forbidden") else OwnedAt(k)
  }

  /** With unique ids the lookup succeeds exactly for one of the caller's own accounts. */
  lemma OwnedLookupIff(userId: Option<string>, accountId: string, accounts: seq<Account>)
    requires AccountKeysUnique(accounts)
    ensures OwnedAccountAt(userId, accountId, accounts).OwnedAt? <==>
      Truthy(userId) && exists a :: a in accounts && a.id == accountId && a.userId == userId.value
  {
    if Truthy(userId) && exists a :: a in accounts && a.id == accountId && a.userId == userId.value {
      var a :| a in accounts && a.id == accountId && a.userId == userId.value;
      var k :| 0 <= k < |accounts| && accounts[k] == a;
      FindAccountUnique(accounts, k);
    }
  }

  /** The update of `updateAccount`: each flag that was supplied is set, nothing else changes. */
  function UpdateFlags(a: Account, isActive: Option<bool>, isFrozen: Option<bool>): (r: Account)
    ensures r.isActive == (if isActive.Some? then isActive.value else a.isActive)
    ensures r.isFrozen == (if isFrozen.Some? then isFrozen.value else a.isFrozen)
    ensures r.(isActive := a.isActive, isFrozen := a.isFrozen) == a
  {
    var withActive := if isActive.Some? then a.(isActive := isActive.value) else a;
    if isFrozen.Some? then withActive.(isFrozen := isFrozen.value) else withActive
  }

  /** Sending the same update twice has the effect of sending it once. */
  lemma UpdateFlagsIdempotent(a: Account, isActive: Option<bool>, isFrozen: Option<bool>)
    ensures UpdateFlags(UpdateFlags(a, isActive, isFrozen), isActive, isFrozen) == UpdateFlags(a, isActive, isFrozen)
  {
  }

  /** `updateAccount`. */
  method UpdateAccount(userId: Option<string>, accountId: string, isActive: Option<bool>, isFrozen: Option<bool>,
                       ledger: Ledger) returns (resp: AccountResponse)
    requires ledger.Valid()
    modifies ledger
    ensures ledger.Valid()
    ensures ledger.transactions == old(ledger.transactions)
    ensures TotalBalance(ledger.accounts) == TotalBalance(old(ledger.accounts))
    ensures var d := OwnedAccountAt(userId, accountId, old(ledger.accounts));
      d.LookupRefused? ==> resp == AccountFailure(d.status, d.error) && ledger.accounts == old(ledger.accounts)
    ensures var d := OwnedAccountAt(userId, accountId, old(ledger.accounts));
      d.OwnedAt? ==>
        var updated := UpdateFlags(old(ledger.accounts)[d.index], isActive, isFrozen);
        resp == AccountFound(updated) && ledger.accounts == old(ledger.accounts)[d.index := updated]
  {
    var d := OwnedAccountAt(userId, accountId, ledger.accounts);
    if d.LookupRefused? {
      return AccountFailure(d.status, d.error);
    }
    var k := d.index;
    var before := ledger.accounts;
    var updated := UpdateFlags(ledger.accounts[k], isActive, isFrozen);
    ledger.accounts := ledger.accounts[k := updated];
    TotalBalanceUpdate(before, k, updated);
    SameKeysKeepWellFormed(before, ledger.transactions, ledger.accounts);
    resp := AccountFound(updated);
  }

  /** The guards of `deactivateAccount`: the shared lookup, then a positive balance refuses. */
  function DeactivateDecision(userId: Option<string>, accountId: string, accounts: seq<Account>): (r: OwnedLookup)
    ensures r.OwnedAt? ==> OwnedAccountAt(userId, accountId, accounts) == r && accounts[r.index].balance <= 0.0
    ensures OwnedAccountAt(userId, accountId, accounts).LookupRefused? ==> r == OwnedAccountAt(userId, accountId, accounts)
    ensures var o := OwnedAccountAt(userId, accountId, accounts);
      o.OwnedAt? && accounts[o.index].balance > 0.0 ==> r == LookupRefused(400, "Cannot deactivate account with balance")
  {
    match OwnedAccountAt(userId, accountId, accounts)
    case LookupRefused(status, error) => LookupRefused(status, error)
    case OwnedAt(k) =>
      if accounts[k].balance > 0.0 then LookupRefused(400, "Cannot deactivate account with balance") else OwnedAt(k)
  }

  /** For one of the caller's accounts, deactivation is refused exactly when its balance is positive. */
  lemma DeactivationRefusedIffBalance(userId: string, accounts: seq<Account>, k: nat)
    requires AccountKeysUnique(accounts) && k < |accounts| && userId != "" && accounts[k].userId == userId
    ensures DeactivateDecision(Some(userId), accounts[k].id, accounts).LookupRefused? <==> accounts[k].balance > 0.0
    ensures DeactivateDecision(Some(userId), accounts[k].id, accounts).OwnedAt? ==>
      DeactivateDecision(Some(userId), accounts[k].id, accounts).index == k
  {
    FindAccountUnique(accounts, k);
  }

  /** `deactivateAccount`. */
  method DeactivateAccount(userId: Option<string>, accountId: string, ledger: Ledger) returns (resp: AccountResponse)
    requires ledger.Valid()
    modifies ledger
    ensures ledger.Valid()
    ensures ledger.transactions == old(ledger.transactions)
    ensures TotalBalance(ledger.accounts) == TotalBalance(old(ledger.accounts))
    ensures var d := DeactivateDecision(userId, accountId, old(ledger.accounts));
      d.LookupRefused? ==> resp == AccountFailure(d.status, d.error) && ledger.accounts == old(ledger.accounts)
    ensures var d := DeactivateDecision(userId, accountId, old(ledger.accounts));
      d.OwnedAt? ==>
        var updated := old(ledger.accounts)[d.index].(isActive := false);
        resp == AccountFound(updated) && ledger.accounts == old(ledger.accounts)[d.index := updated]
  {
    var d := DeactivateDecision(userId, accountId, ledger.accounts);
    if d.LookupRefused? {
      return AccountFailure(d.status, d.error);
    }
    var k := d.index;
    var before := ledger.accounts;
    var updated := ledger.accounts[k].(isActive := false);
    ledger.accounts := ledger.accounts[k := updated];
    TotalBalanceUpdate(before, k, updated);
    SameKeysKeepWellFormed(before, ledger.transactions, ledger.accounts);
    resp := AccountFound(updated);
  }

  /** An inactive or frozen account can never be the source of an accepted transfer. */
  lemma InactiveOrFrozenCannotSend(userId: Option<string>, body: TransferController.TransferBody,
                                   accounts: seq<Account>, txs: seq<Transaction>, todayStart: int, monthStart: int,
                                   k: nat)
    requires AccountKeysUnique(accounts) && k < |accounts|
    requires body.fromAccountId == Some(accounts[k].id)
    requires !accounts[k].isActive || accounts[k].isFrozen
    ensures TransferController.TransferDecision(userId, body, accounts, txs, todayStart, monthStart).Reject?
  {
    TransferController.AcceptedIff(userId, body, accounts, txs, todayStart, monthStart);
    assert forall i :: 0 <= i < |accounts| && accounts[i].id == accounts[k].id ==> i == k;
  }

  // ---- Branch assignment ----

  /** The branch names a new account may be given at random. */
  const BRANCH_NAMES: seq<string> := [
    "Kadıköy Şubesi", "Beşiktaş Şubesi", "Şişli Şubesi", "Beyoğlu Şubesi",
    "Üsküdar Şubesi", "Bakırköy Şubesi", "Maltepe Şubesi", "Kartal Şubesi"]

  /** `padStart(3, '0')`. */
  function PadStart3(s: string): (r: string)
    ensures |s| >= 3 ==> r == s
    ensures |s| < 3 ==> |r| == 3 && r[3 - |s|..] == s && forall i :: 0 <= i < 3 - |s| ==> r[i] == '0'
  {
    if |s| >= 3 then s else seq(3 - |s|, _ => '0') + s
  }

  lemma NatToStringShort(n: nat)
    requires n < 1000
    ensures 1 <= |NatToString(n)| <= 3
  {
    if n >= 10 {
      if n >= 100 {
        assert NatToString(n / 10 / 10) == [DigitChar(n / 10 / 10)];
      }
    }
  }

  /** `String(n).padStart(3, '0')` for a draw in 1..999: a three-character code. */
  function DrawCode(n: nat): (r: string)
    requires 1 <= n <= 999
    ensures |r| == 3
  {
    NatToStringShort(n);
    PadStart3(NatToString(n))
  }

  /** Some stored account already has this branch code (`findFirst({ where: { branchCode } })`). */
  predicate CodeInUse(accounts: seq<Account>, code: string) {
    exists a :: a in accounts && a.branchCode == Some(code)
  }

  predicate ValidDraws(draws: seq<nat>) {
    |draws| > 100 && forall n :: 0 <= n < |draws| ==> 1 <= draws[n] <= 999
  }

  /** The index of the draw the retry loop stops at, from draw `n` on: the first free code, or draw 100. */
  function StopDraw(accounts: seq<Account>, draws: seq<nat>, n: nat): (r: nat)
    requires ValidDraws(draws) && n <= 100
    ensures n <= r <= 100
    ensures r < 100 ==> !CodeInUse(accounts, DrawCode(draws[r]))
    decreases 100 - n
  {
    if n == 100 || !CodeInUse(accounts, DrawCode(draws[n])) then n else StopDraw(accounts, draws, n + 1)
  }

  /** Every draw the loop passes over is taken. */
  lemma {:induction false} StopDrawSkipsTaken(accounts: seq<Account>, draws: seq<nat>, n: nat, m: nat)
    requires ValidDraws(draws) && n <= 100 && n <= m < StopDraw(accounts, draws, n)
    ensures CodeInUse(accounts, DrawCode(draws[m]))
    decreases 100 - n
  {
    if m > n {
      StopDrawSkipsTaken(accounts, draws, n + 1, m);
    }
  }

  /** If the code the loop stops at from draw `n` on is taken, so is every draw from `n` to 100. */
  lemma {:induction false} StopDrawExhausted(accounts: seq<Account>, draws: seq<nat>, n: nat)
    requires ValidDraws(draws) && n <= 100
    requires CodeInUse(accounts, DrawCode(draws[StopDraw(accounts, draws, n)]))
    ensures forall m :: n <= m <= 100 ==> CodeInUse(accounts, DrawCode(draws[m]))
    decreases 100 - n
  {
    if n < 100 {
      StopDrawExhausted(accounts, draws, n + 1);
    }
  }

  /** The code the loop stops at is free unless all of the first 101 draws were taken. */
  lemma StoppedCodeFreeUnlessExhausted(accounts: seq<Account>, draws: seq<nat>)
    requires ValidDraws(draws)
    ensures var code := DrawCode(draws[StopDraw(accounts, draws, 0)]);
      CodeInUse(accounts, code) ==> forall n :: 0 <= n <= 100 ==> CodeInUse(accounts, DrawCode(draws[n]))
  {
    if CodeInUse(accounts, DrawCode(draws[StopDraw(accounts, draws, 0)])) {
      StopDrawExhausted(accounts, draws, 0);
    }
  }

  /**
   * The code generator: draw, and redraw while the code is taken, at most
   * 100 times.
   */
  method GenerateBranchCode(accounts: seq<Account>, draws: seq<nat>) returns (code: string)
    requires ValidDraws(draws)
    ensures code == DrawCode(draws[StopDraw(accounts, draws, 0)])
  {
    var newCode := DrawCode(draws[0]);
    var attempts := 0;
    while CodeInUse(accounts, newCode) && attempts < 100
      invariant 0 <= attempts <= 100
      invariant newCode == DrawCode(draws[attempts])
      invariant StopDraw(accounts, draws, attempts) == StopDraw(accounts, draws, 0)
      decreases 100 - attempts
    {
      newCode := DrawCode(draws[attempts + 1]);
      attempts := attempts + 1;
    }
    code := newCode;
  }

  /** The first stored account with this branch code, when it has a branch name. */
  function NameByCode(accounts: seq<Account>, code: string): (r: Option<string>)
    ensures r.Some? ==> Truthy(r) && exists a :: a in accounts && a.branchCode == Some(code) && a.branchName == r
  {
    if |accounts| == 0 then None
    else if accounts[0].branchCode == Some(code) then
      (if Truthy(accounts[0].branchName) then accounts[0].branchName else None)
    else NameByCode(accounts[1..], code)
  }

  /** The first stored account with this branch name, when it has a branch code. */
  function CodeByName(accounts: seq<Account>, name: string): (r: Option<string>)
    ensures r.Some? ==> Truthy(r) && exists a :: a in accounts && a.branchName == Some(name) && a.branchCode == r
  {
    if |accounts| == 0 then None
    else if accounts[0].branchName == Some(name) then
      (if Truthy(accounts[0].branchCode) then accounts[0].branchCode else None)
    else CodeByName(accounts[1..], name)
  }

  datatype Branch = Branch(code: Option<string>, name: Option<string>)

  /**
   * The branch a new account gets, starting from a requested code and a
   * requested name. A code keeps the name of a stored branch with that code;
   * with neither, a random name is used with its stored code or a generated
   * one; with a code only, the stored name or a random one; with a name
   * only, its stored code or a generated one.
   */
  function ChooseBranch(accounts: seq<Account>, branchCode: Option<string>, branchName: Option<string>,
                        namePick: nat, draws: seq<nat>): (r: Branch)
    requires namePick < |BRANCH_NAMES| && ValidDraws(draws)
    ensures Truthy(branchCode) ==> r.code == branchCode
    ensures Truthy(branchCode) && NameByCode(accounts, branchCode.value).None? && Truthy(branchName) ==>
      r.name == branchName
    ensures !Truthy(branchCode) && Truthy(branchName) ==> r.name == branchName
    ensures !Truthy(branchCode) && !Truthy(branchName) ==> r.name == Some(BRANCH_NAMES[namePick])
    ensures !Truthy(branchCode) && r.code != CodeByName(accounts, r.name.value) ==>
      r.code == Some(DrawCode(draws[StopDraw(accounts, draws, 0)]))
  {
    var name0 := if Truthy(branchCode) && NameByCode(accounts, branchCode.value).Some?
                 then NameByCode(accounts, branchCode.value) else branchName;
    var generated := DrawCode(draws[StopDraw(accounts, draws, 0)]);
    if !Truthy(branchCode) && !Truthy(name0) then
      var randomName := BRANCH_NAMES[namePick];
      Branch(if CodeByName(accounts, randomName).Some? then CodeByName(accounts, randomName) else Some(generated),
             Some(randomName))
    else if !Truthy(name0) then
      // a stored name for this code would already be `name0`, so the random name is taken
      Branch(branchCode, Some(BRANCH_NAMES[namePick]))
    else if !Truthy(branchCode) then
      Branch(if CodeByName(accounts, name0.value).Some? then CodeByName(accounts, name0.value) else Some(generated), name0)
    else Branch(branchCode, name0)
  }

  /**
   * Every new account gets a branch code and a branch name; a requested code
   * is kept, and when a stored account carries that code with a name, the
   * new account gets that name.
   */
  lemma BranchAlwaysResolved(accounts: seq<Account>, branchCode: Option<string>, branchName: Option<string>,
                             namePick: nat, draws: seq<nat>)
    requires namePick < |BRANCH_NAMES| && ValidDraws(draws)
    ensures var b := ChooseBranch(accounts, branchCode, branchName, namePick, draws);
      && Truthy(b.code) && Truthy(b.name)
      && (Truthy(branchCode) ==> b.code == branchCode)
      && (Truthy(branchCode) && NameByCode(accounts, branchCode.value).Some? ==>
            b.name == NameByCode(accounts, branchCode.value))
  {
    assert forall i :: 0 <= i < |BRANCH_NAMES| ==> BRANCH_NAMES[i] != "";
  }

  /** The branch assignment of `createAccount` as written: the requested name never reaches it. */
  function BranchAsWritten(accounts: seq<Account>, branchCode: Option<string>, namePick: nat,
                           draws: seq<nat>): (r: Branch)
    requires namePick < |BRANCH_NAMES| && ValidDraws(draws)
    ensures !Truthy(branchCode) ==> r.name == Some(BRANCH_NAMES[namePick])
    ensures Truthy(branchCode) ==>
      && r.code == branchCode
      && r.name == (if NameByCode(accounts, branchCode.value).Some? then NameByCode(accounts, branchCode.value)
                    else Some(BRANCH_NAMES[namePick]))
  {
    ChooseBranch(accounts, branchCode, None, namePick, draws)
  }

  /**
   * As written, a request without a code always gets the random branch
   * name: asking for a stored branch by its name is ignored.
   */
  lemma RequestedBranchNameIgnored(draws: seq<nat>)
    requires ValidDraws(draws)
    ensures var stored := Account("acc-1", "u1", "TR1", "CHECKING", 0.0, "TRY", true, false,
                                  Some("042"), Some("Kartal Şubesi"), 0);
      var b := BranchAsWritten([stored], None, 0, draws);
      b.name == Some("Kadıköy Şubesi") && b.name != stored.branchName
      && ChooseBranch([stored], None, Some("Kartal Şubesi"), 0, draws) == Branch(Some("042"), Some("Kartal Şubesi"))
  {
    var stored := Account("acc-1", "u1", "TR1", "CHECKING", 0.0, "TRY", true, false,
                          Some("042"), Some("Kartal Şubesi"), 0);
    assert CodeByName([stored], "Kadıköy Şubesi") == None by {
      assert [stored][1..] == [];
    }
    assert CodeByName([stored], "Kartal Şubesi") == Some("042");
  }

  /** With the requested name passed in, a name without a code is kept and gets its stored or a generated code. */
  lemma RequestedBranchNameKept(accounts: seq<Account>, branchName: Option<string>, namePick: nat, draws: seq<nat>)
    requires namePick < |BRANCH_NAMES| && ValidDraws(draws) && Truthy(branchName)
    ensures var b := ChooseBranch(accounts, None, branchName, namePick, draws);
      && b.name == branchName
      && (CodeByName(accounts, branchName.value).Some? ==> b.code == CodeByName(accounts, branchName.value))
      && (CodeByName(accounts, branchName.value).None? ==> b.code == Some(DrawCode(draws[StopDraw(accounts, draws, 0)])))
  {
  }

  /** The branch-assignment steps of `createAccount`, with the requested name as its starting value. */
  method ResolveBranch(accounts: seq<Account>, branchCode: Option<string>, branchName: Option<string>,
                       namePick: nat, draws: seq<nat>) returns (b: Branch)
    requires namePick < |BRANCH_NAMES| && ValidDraws(draws)
    ensures b == ChooseBranch(accounts, branchCode, branchName, namePick, draws)
  {
    var finalCode := branchCode;
    var finalName := branchName;
    if Truthy(finalCode) {
      var existing := NameByCode(accounts, finalCode.value);
      if existing.Some? {
        finalName := existing;
      }
    }
    if !Truthy(finalCode) && !Truthy(finalName) {
      var randomName := BRANCH_NAMES[namePick];
      var existing := CodeByName(accounts, randomName);
      if existing.Some? {
        finalCode := existing;
      } else {
        var newCode := GenerateBranchCode(accounts, draws);
        finalCode := Some(newCode);
      }
      finalName := Some(randomName);
    } else if !Truthy(finalName) {
      var existing := NameByCode(accounts, finalCode.value);
      if existing.Some? {
        finalName := existing;
      } else {
        finalName := Some(BRANCH_NAMES[namePick]);
      }
    } else if !Truthy(finalCode) {
      var existing := CodeByName(accounts, finalName.value);
      if existing.Some? {
        finalCode := existing;
      } else {
        var newCode := GenerateBranchCode(accounts, draws);
        finalCode := Some(newCode);
      }
    }
    b := Branch(finalCode, finalName);
  }

  // ---- Account creation ----

  /** The fields of the request body. */
  datatype AccountBody = AccountBody(
    accountType: Option<string>,
    initialBalance: Option<Money>,
    currency: Option<string>,
    branchCode: Option<string>,
    branchName: Option<string>)

  /** `TR${Date.now()}${Math.floor(Math.random() * 10000)}`. */
  function AccountNumber(now: nat, randomPart: nat): (r: string)
    ensures StartsWith(r, "TR")
  {
    var r := "TR" + NatToString(now) + NatToString(randomPart);
    assert r[..2] == "TR";
    r
  }

  /** The row `createAccount` writes. */
  function NewAccount(id: string, userId: string, accountNumber: string, body: AccountBody, branch: Branch,
                      now: int): (a: Account)
    ensures a.isActive && !a.isFrozen
    ensures a.branchCode == branch.code && a.branchName == branch.name
    ensures a.createdAt == now
  {
    Account(id, userId, accountNumber, OrElse(body.accountType, "CHECKING"), NumOrElse(body.initialBalance, 0.0),
            OrElse(body.currency, "TRY"), true, false, branch.code, branch.name, now)
  }

  /** The ACCOUNT_CREATE audit record: a success for the new account, with its number and type. */
  function AccountCreateRecord(req: Request, userId: string, a: Account, now: int): (r: AuditRecord)
    ensures r.userId == Some(userId) && r.action == "ACCOUNT_CREATE" && r.status == Success
    ensures r.resource == Some("account") && r.resourceId == Some(a.id) && r.createdAt == now
    ensures r.metadata.Keys == {"accountNumber", "accountType"}
      && r.metadata["accountNumber"] == MStr(a.accountNumber) && r.metadata["accountType"] == MStr(a.accountType)
  {
    AuditRecord(Some(userId), "ACCOUNT_CREATE", Some("account"), Some(a.id), Success,
                Some(Jwt.GetIpAddress(req)), Header(req, "user-agent"), Some(Jwt.GetDeviceInfo(req)),
                map["accountNumber" := MStr(a.accountNumber), "accountType" := MStr(a.accountType)], now)
  }

  /**
   * The defaults of a new account: active, unfrozen, the requested type,
   * currency TRY and balance 0 unless given.
   */
  lemma NewAccountDefaults(id: string, userId: string, accountNumber: string, body: AccountBody, branch: Branch,
                           now: int)
    requires Truthy(body.accountType)
    ensures var a := NewAccount(id, userId, accountNumber, body, branch, now);
      && a.accountType == body.accountType.value
      && (!Truthy(body.currency) ==> a.currency == "TRY")
      && (body.initialBalance.None? ==> a.balance == 0.0)
      && (body.initialBalance.Some? ==> a.balance == body.initialBalance.value)
  {
  }

  datatype CreateResponse = AccountCreated(account: Account) | CreateFailure(status: int, error: string)

  /**
   * `createAccount`. A taken account number violates the store's unique
   * key and fails before anything is written; a failed audit write fails
   * the request after the account was stored.
   */
  method CreateAccount(req: Request, body: AccountBody, ledger: Ledger, audit: AuditStore, newId: string,
                       now: nat, randomPart: nat, namePick: nat, draws: seq<nat>, auditWriteSucceeds: bool)
    returns (resp: CreateResponse)
    requires ledger.Valid()
    requires forall a :: a in ledger.accounts ==> a.id != newId
    requires randomPart < 10000 && namePick < |BRANCH_NAMES| && ValidDraws(draws)
    modifies ledger, audit
    ensures ledger.Valid()
    ensures ledger.transactions == old(ledger.transactions)
    ensures !Truthy(req.userId) ==>
      resp == CreateFailure(401, "Unauthorized") && unchanged(ledger, audit)
    ensures Truthy(req.userId) && !Truthy(body.accountType) ==>
      resp == CreateFailure(400, "Account type is required") && unchanged(ledger, audit)
    ensures Truthy(req.userId) && Truthy(body.accountType) ==>
      var number := AccountNumber(now, randomPart);
      var a := NewAccount(newId, req.userId.value, number, body,
                          BranchAsWritten(old(ledger.accounts), body.branchCode, namePick, draws), now);
      if exists b :: b in old(ledger.accounts) && b.accountNumber == number then
        resp == CreateFailure(500, "Internal server error") && unchanged(ledger, audit)
      else
        && ledger.accounts == old(ledger.accounts) + [a]
        && TotalBalance(ledger.accounts) == TotalBalance(old(ledger.accounts)) + a.balance
        && audit.records == old(audit.records)
             + (if auditWriteSucceeds then [AccountCreateRecord(req, req.userId.value, a, now)] else [])
        && resp == (if auditWriteSucceeds then AccountCreated(a) else CreateFailure(500, "Internal server error"))
  {
    if !Truthy(req.userId) {
      return CreateFailure(401, "Unauthorized");
    }
    if !Truthy(body.accountType) {
      return CreateFailure(400, "Account type is required");
    }
    var number := AccountNumber(now, randomPart);
    // `finalBranchName` starts out null: the requested name is not consulted.
    var branch := ResolveBranch(ledger.accounts, body.branchCode, None, namePick, draws);
    if exists b :: b in ledger.accounts && b.accountNumber == number {
      return CreateFailure(500, "Internal server error");
    }
    var a := NewAccount(newId, req.userId.value, number, body, branch, now);
    AppendAccountKeepsWellFormed(ledger.accounts, ledger.transactions, a);
    TotalBalanceAppend(ledger.accounts, a);
    ledger.accounts := ledger.accounts + [a];
    if auditWriteSucceeds {
      audit.records := audit.records + [AccountCreateRecord(req, req.userId.value, a, now)];
      resp := AccountCreated(a);
    } else {
      resp := CreateFailure(500, "Internal server error");
    }
  }
}
