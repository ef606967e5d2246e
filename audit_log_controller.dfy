/**
 * The audit-log endpoints: the filtered, paginated log list, the summary
 * counts, the caller's own log, the customer-access log, and the transfer
 * log with its fraud indicators.
 */
module AuditLogController {
  import opened Common
  import opened Records
  import opened Pagination
  import opened AuditLogService
  import RiskScoring
  import TransferLimits
  import TransferController
  import Requests

  /** `createdAt: { gte: startDate, lte: endDate }`, each bound only when supplied. */
  predicate InDateRange(r: AuditRecord, startDate: Option<int>, endDate: Option<int>) {
    && (startDate.Some? ==> r.createdAt >= startDate.value)
    && (endDate.Some? ==> r.createdAt <= endDate.value)
  }

  /** ASCII case folding (the model's reading of `mode: 'insensitive'`). */
  function LowerChar(c: char): char {
    if 'A' <= c <= 'Z' then (c as int - 'A' as int + 'a' as int) as char else c
  }

  function Lower(s: string): (r: string)
    ensures |r| == |s|
    ensures forall k :: 0 <= k < |s| ==> r[k] == LowerChar(s[k])
  {
    if |s| == 0 then [] else [LowerChar(s[0])] + Lower(s[1..])
  }

  /** `{ contains: action, mode: 'insensitive' }`. */
  predicate ContainsInsensitive(s: string, sub: string) {
    Contains(Lower(s), Lower(sub))
  }

  /** The query string of `getAuditLogs`; dates are already parsed. */
  datatype AuditQuery = AuditQuery(
    userId: Option<string>,
    action: Option<string>,
    resource: Option<string>,
    status: Option<Status>,
    startDate: Option<int>,
    endDate: Option<int>,
    page: Option<int>,
    limit: Option<int>)

  /** The `where` clause of `getAuditLogs`: each filter applies only when its parameter is truthy. */
  predicate AuditMatches(r: AuditRecord, q: AuditQuery) {
    && (Truthy(q.userId) ==> r.userId == q.userId)
    && (Truthy(q.action) ==> ContainsInsensitive(r.action, q.action.value))
    && (Truthy(q.resource) ==> r.resource == q.resource)
    && (q.status.Some? ==> r.status == q.status.value)
    && InDateRange(r, q.startDate, q.endDate)
  }

  datatype LogPage =
    | LogPage(logs: seq<AuditRecord>, page: int, limit: int, total: nat, totalPages: Option<int>)
    | LogFailure(status: int, error: string)

  /**
   * One page of the records `matches` selects, newest `createdAt` first,
   * with the number of matching records and `Math.ceil(total / limit)`. A
   * negative skip is refused by the query and answered with 500; a
   * negative limit takes that many rows from the end.
   */
  function PageOf(records: seq<AuditRecord>, matches: AuditRecord -> bool, page: int, limit: int): (r: LogPage)
    ensures r.LogFailure? <==> Skip(page, limit) < 0
    ensures r.LogFailure? ==> r == LogFailure(500, "Internal server error")
    ensures r.LogPage? ==>
      && r.page == page && r.limit == limit
      && r.total == |Filter(records, matches)|
      && r.totalPages == TotalPages(r.total, limit)
      && IsWindow(ByNewest(Filter(records, matches), RecordCreatedAt), Skip(page, limit), limit, r.logs)
  {
    var rows := Filter(records, matches);
    match Window(ByNewest(rows, RecordCreatedAt), Skip(page, limit), limit)
    case None => LogFailure(500, "Internal server error")
    case Some(w) => LogPage(w, page, limit, |rows|, TotalPages(|rows|, limit))
  }

  /** Every record a page lists is a stored record the filter selects. */
  lemma PagedRecordsMatch(records: seq<AuditRecord>, matches: AuditRecord -> bool, page: int, limit: int)
    ensures var r := PageOf(records, matches, page, limit);
      r.LogPage? ==> forall k :: 0 <= k < |r.logs| ==> r.logs[k] in records && matches(r.logs[k])
  {
    var rows := Filter(records, matches);
    var w := Window(ByNewest(rows, RecordCreatedAt), Skip(page, limit), limit);
    PagedRowsIn(rows, RecordCreatedAt, Skip(page, limit), limit);
    if w.Some? {
      assert PageOf(records, matches, page, limit).logs == w.value;
    }
  }

  /** `getAuditLogs`: 401 without a caller, then the page of matching records (defaults page 1, limit 50). */
  function GetAuditLogs(caller: Option<string>, q: AuditQuery, records: seq<AuditRecord>): (r: LogPage)
    ensures !Truthy(caller) ==> r == LogFailure(401, "Unauthorized")
    ensures Truthy(caller) ==>
      r == PageOf(records, (x: AuditRecord) => AuditMatches(x, q), IntOrElse(q.page, 1), IntOrElse(q.limit, 50))
    ensures Truthy(caller) && r.LogPage? ==>
      r.total == |Filter(records, (x: AuditRecord) => AuditMatches(x, q))|
      && forall k :: 0 <= k < |r.logs| ==> r.logs[k] in records && AuditMatches(r.logs[k], q)
  {
    if !Truthy(caller) then LogFailure(401, "Unauthorized")
    else
      PagedRecordsMatch(records, (x: AuditRecord) => AuditMatches(x, q), IntOrElse(q.page, 1), IntOrElse(q.limit, 50));
      PageOf(records, (x: AuditRecord) => AuditMatches(x, q), IntOrElse(q.page, 1), IntOrElse(q.limit, 50))
  }

  function IntOrElse(o: Option<int>, d: int): int {
    if o.Some? then o.value else d
  }

  /**
   * The action filter ignores case: any spelling that folds to the record's
   * action finds it, so `transfer` finds the `TRANSFER` records.
   */
  lemma ActionFoundInAnyCase(r: AuditRecord, a: string)
    requires Lower(a) == Lower(r.action)
    ensures ContainsInsensitive(r.action, a)
  {
    assert Lower(r.action)[0..|Lower(a)|] == Lower(r.action);
    assert OccursAt(Lower(r.action), Lower(a), 0);
  }

  /** The `summary` and `actions` blocks of `getAuditStats`. */
  datatype AuditStats = AuditStats(
    total: nat, success: nat, failed: nat, blocked: nat,
    loginAttempts: nat, transfers: nat, customerAccess: nat)

  datatype StatsResponse = Stats(stats: AuditStats) | StatsFailure(status: int, error: string)

  function CountWhere(records: seq<AuditRecord>, p: AuditRecord -> bool): nat {
    |Filter(records, p)|
  }

  function InRange(startDate: Option<int>, endDate: Option<int>): AuditRecord -> bool {
    (r: AuditRecord) => InDateRange(r, startDate, endDate)
  }

  function InRangeWithStatus(startDate: Option<int>, endDate: Option<int>, s: Status): AuditRecord -> bool {
    (r: AuditRecord) => InDateRange(r, startDate, endDate) && r.status == s
  }

  function InRangeWithAction(startDate: Option<int>, endDate: Option<int>, a: string): AuditRecord -> bool {
    (r: AuditRecord) => InDateRange(r, startDate, endDate) && r.action == a
  }

  function InRangeCustomerAccess(startDate: Option<int>, endDate: Option<int>): AuditRecord -> bool {
    (r: AuditRecord) => InDateRange(r, startDate, endDate) && StartsWith(r.action, "CUSTOMER_")
  }

  /** `getAuditStats`: the seven counts over the records in the date range. */
  function GetAuditStats(caller: Option<string>, startDate: Option<int>, endDate: Option<int>,
                         records: seq<AuditRecord>): (r: StatsResponse)
    ensures !Truthy(caller) <==> r == StatsFailure(401, "Unauthorized")
    ensures r.Stats? ==>
      && r.stats.total == CountWhere(records, InRange(startDate, endDate))
      && r.stats.success == CountWhere(records, InRangeWithStatus(startDate, endDate, Success))
      && r.stats.failed == CountWhere(records, InRangeWithStatus(startDate, endDate, Failed))
      && r.stats.blocked == CountWhere(records, InRangeWithStatus(startDate, endDate, Blocked))
      && r.stats.loginAttempts == CountWhere(records, InRangeWithAction(startDate, endDate, "LOGIN"))
      && r.stats.transfers == CountWhere(records, InRangeWithAction(startDate, endDate, "TRANSFER"))
      && r.stats.customerAccess == CountWhere(records, InRangeCustomerAccess(startDate, endDate))
  {
    if !Truthy(caller) then StatsFailure(401, "Unauthorized")
    else Stats(AuditStats(
      CountWhere(records, InRange(startDate, endDate)),
      CountWhere(records, InRangeWithStatus(startDate, endDate, Success)),
      CountWhere(records, InRangeWithStatus(startDate, endDate, Failed)),
      CountWhere(records, InRangeWithStatus(startDate, endDate, Blocked)),
      CountWhere(records, InRangeWithAction(startDate, endDate, "LOGIN")),
      CountWhere(records, InRangeWithAction(startDate, endDate, "TRANSFER")),
      CountWhere(records, InRangeCustomerAccess(startDate, endDate))))
  }

  /**
   * The status counts split the total: success, failed and blocked add up
   * to the total less the REVOKED records in range.
   */
  lemma {:induction false} StatusCountsSplitTotal(records: seq<AuditRecord>, startDate: Option<int>, endDate: Option<int>)
    ensures CountWhere(records, InRangeWithStatus(startDate, endDate, Success))
      + CountWhere(records, InRangeWithStatus(startDate, endDate, Failed))
      + CountWhere(records, InRangeWithStatus(startDate, endDate, Blocked))
      + CountWhere(records, InRangeWithStatus(startDate, endDate, Revoked))
      == CountWhere(records, InRange(startDate, endDate))
  {
    if |records| > 0 {
      StatusCountsSplitTotal(records[1..], startDate, endDate);
    }
  }

  /** The three action counts are disjoint, so together they never exceed the total. */
  lemma {:induction false} ActionCountsWithinTotal(records: seq<AuditRecord>, startDate: Option<int>, endDate: Option<int>)
    ensures CountWhere(records, InRangeWithAction(startDate, endDate, "LOGIN"))
      + CountWhere(records, InRangeWithAction(startDate, endDate, "TRANSFER"))
      + CountWhere(records, InRangeCustomerAccess(startDate, endDate))
      <= CountWhere(records, InRange(startDate, endDate))
  {
    if |records| > 0 {
      var r := records[0];
      assert !(r.action == "LOGIN" && StartsWith(r.action, "CUSTOMER_")) by {
        if r.action == "LOGIN" { assert r.action[0] != "CUSTOMER_"[0]; }
      }
      assert !(r.action == "TRANSFER" && StartsWith(r.action, "CUSTOMER_")) by {
        if r.action == "TRANSFER" { assert r.action[0] != "CUSTOMER_"[0]; }
      }
      ActionCountsWithinTotal(records[1..], startDate, endDate);
    }
  }

  /** The `where` clause of `getMyAuditLogs`: the caller's records, the action matched exactly. */
  predicate MyLogMatches(r: AuditRecord, caller: string, action: Option<string>, startDate: Option<int>,
                         endDate: Option<int>) {
    && r.userId == Some(caller)
    && (Truthy(action) ==> r.action == action.value)
    && InDateRange(r, startDate, endDate)
  }

  datatype MyLogsResponse = MyLogs(logs: seq<AuditRecord>) | MyLogsFailure(status: int, error: string)

  /**
   * `getMyAuditLogs`: the caller's newest matching records, at most `limit`
   * (default 20) of them; a negative limit takes the oldest ones instead.
   */
  function GetMyAuditLogs(caller: Option<string>, action: Option<string>, startDate: Option<int>,
                          endDate: Option<int>, limit: Option<int>, records: seq<AuditRecord>): (r: MyLogsResponse)
    ensures !Truthy(caller) <==> r == MyLogsFailure(401, "Unauthorized")
    ensures r.MyLogs? ==>
      var rows := ByNewest(Filter(records, (x: AuditRecord) => MyLogMatches(x, caller.value, action, startDate, endDate)),
                           RecordCreatedAt);
      IsWindow(rows, 0, IntOrElse(limit, 20), r.logs)
  {
    if !Truthy(caller) then MyLogsFailure(401, "Unauthorized")
    else
      var rows := ByNewest(Filter(records, (x: AuditRecord) => MyLogMatches(x, caller.value, action, startDate, endDate)),
                           RecordCreatedAt);
      match Window(rows, 0, IntOrElse(limit, 20))
      case None => MyLogsFailure(500, "Internal server error")
      case Some(w) => MyLogs(w)
  }

  /** A caller only ever sees records of their own. */
  lemma MyLogsAreOwn(caller: Option<string>, action: Option<string>, startDate: Option<int>,
                     endDate: Option<int>, limit: Option<int>, records: seq<AuditRecord>)
    ensures var r := GetMyAuditLogs(caller, action, startDate, endDate, limit, records);
      r.MyLogs? ==> forall k :: 0 <= k < |r.logs| ==> r.logs[k] in records && r.logs[k].userId == caller
  {
    var r := GetMyAuditLogs(caller, action, startDate, endDate, limit, records);
    if r.MyLogs? {
      var rows := Filter(records, (x: AuditRecord) => MyLogMatches(x, caller.value, action, startDate, endDate));
      PagedRowsIn(rows, RecordCreatedAt, 0, IntOrElse(limit, 20));
    }
  }

  /** The `where` clause of `getCustomerAccessLogs`. */
  predicate CustomerAccessMatches(r: AuditRecord, customerId: Option<string>, employeeId: Option<string>,
                                  startDate: Option<int>, endDate: Option<int>) {
    && StartsWith(r.action, "CUSTOMER_")
    && (Truthy(customerId) ==> r.resourceId == customerId)
    && (Truthy(employeeId) ==> r.userId == employeeId)
    && InDateRange(r, startDate, endDate)
  }

  /** `getCustomerAccessLogs`: a page of customer-access records (defaults page 1, limit 50). */
  function GetCustomerAccessLogs(caller: Option<string>, customerId: Option<string>, employeeId: Option<string>,
                                 startDate: Option<int>, endDate: Option<int>, page: Option<int>,
                                 limit: Option<int>, records: seq<AuditRecord>): (r: LogPage)
    ensures !Truthy(caller) ==> r == LogFailure(401, "Unauthorized")
    ensures Truthy(caller) ==>
      r == PageOf(records, (x: AuditRecord) => CustomerAccessMatches(x, customerId, employeeId, startDate, endDate),
                  IntOrElse(page, 1), IntOrElse(limit, 50))
    ensures Truthy(caller) && r.LogPage? ==> forall k :: 0 <= k < |r.logs| ==>
      r.logs[k] in records && CustomerAccessMatches(r.logs[k], customerId, employeeId, startDate, endDate)
  {
    if !Truthy(caller) then LogFailure(401, "Unauthorized")
    else
      var m := (x: AuditRecord) => CustomerAccessMatches(x, customerId, employeeId, startDate, endDate);
      PagedRecordsMatch(records, m, IntOrElse(page, 1), IntOrElse(limit, 50));
      PageOf(records, m, IntOrElse(page, 1), IntOrElse(limit, 50))
  }

  /**
   * What `logCustomerAccess` writes is what this endpoint looks for: the
   * record is found by its customer id and its employee id.
   */
  lemma CustomerAccessRecordFound(employeeId: string, customerId: string, action: CustomerAction, ipAddress: string,
                                  userAgent: string, deviceInfo: string, metadata: Option<Metadata>, now: int,
                                  startDate: Option<int>, endDate: Option<int>)
    requires (startDate.Some? ==> startDate.value <= now) && (endDate.Some? ==> now <= endDate.value)
    ensures CustomerAccessMatches(
      RecordOf(CustomerAccessData(employeeId, customerId, action, ipAddress, userAgent, deviceInfo, metadata), now),
      Some(customerId), Some(employeeId), startDate, endDate)
  {
    var r := RecordOf(CustomerAccessData(employeeId, customerId, action, ipAddress, userAgent, deviceInfo, metadata), now);
    assert r.action == "CUSTOMER_" + CustomerActionName(action);
    assert r.action[..|"CUSTOMER_"|] == "CUSTOMER_";
  }

  // ---- Fraud indicators of the transfer log ----

  const HIGH_VALUE: string := "High-value transfer"
  const HIGH_RISK: string := "High risk score"
  const BLOCKED_BY_SECURITY: string := "Blocked by security"
  const PRIVATE_IP: string := "Private IP (possible VPN)"

  /** The indicators in the order they are pushed. */
  const INDICATORS: seq<string> := [HIGH_VALUE, HIGH_RISK, BLOCKED_BY_SECURITY, PRIVATE_IP]

  /** `metadata?.[key] || 0` read as a number: a missing or non-numeric value counts as 0. */
  function MetaNumber(m: Metadata, key: string): (r: real)
    ensures key !in m ==> r == 0.0
    ensures key in m && m[key].MNum? ==> r == m[key].num
    ensures key in m && m[key].MInt? ==> r == m[key].whole as real
    ensures key in m && !m[key].MNum? && !m[key].MInt? ==> r == 0.0
  {
    if key !in m then 0.0
    else match m[key]
      case MNum(x) => x
      case MInt(i) => i as real
      case _ => 0.0
  }

  /** `log.ipAddress && log.ipAddress.includes('192.168.')`. */
  predicate PrivateIp(r: AuditRecord) {
    r.ipAddress.Some? && r.ipAddress.value != "" && Contains(r.ipAddress.value, "192.168.")
  }

  function Tag(fires: bool, tag: string): seq<string> {
    if fires then [tag] else []
  }

  /** Whether indicator `tag` applies to record `r`. */
  predicate Fires(r: AuditRecord, tag: string) {
    || (tag == HIGH_VALUE && MetaNumber(r.metadata, "amount") > 100000.0)
    || (tag == HIGH_RISK && MetaNumber(r.metadata, "riskScore") > 70.0)
    || (tag == BLOCKED_BY_SECURITY && r.status == Blocked)
    || (tag == PRIVATE_IP && PrivateIp(r))
  }

  /** The four indicator texts are different strings. */
  lemma IndicatorsDistinct()
    ensures HIGH_VALUE != HIGH_RISK && HIGH_VALUE != BLOCKED_BY_SECURITY && HIGH_VALUE != PRIVATE_IP
    ensures HIGH_RISK != BLOCKED_BY_SECURITY && HIGH_RISK != PRIVATE_IP && BLOCKED_BY_SECURITY != PRIVATE_IP
  {
    assert HIGH_VALUE[0] != BLOCKED_BY_SECURITY[0] && HIGH_VALUE[0] != PRIVATE_IP[0];
    assert HIGH_RISK[0] != BLOCKED_BY_SECURITY[0] && HIGH_RISK[0] != PRIVATE_IP[0];
    assert BLOCKED_BY_SECURITY[0] != PRIVATE_IP[0];
    assert |HIGH_VALUE| != |HIGH_RISK|;
  }

  /** The `fraudIndicators` of one transfer record: one text per indicator that applies. */
  function FraudIndicators(r: AuditRecord): (tags: seq<string>)
    ensures HIGH_VALUE in tags <==> MetaNumber(r.metadata, "amount") > 100000.0
    ensures HIGH_RISK in tags <==> MetaNumber(r.metadata, "riskScore") > 70.0
    ensures BLOCKED_BY_SECURITY in tags <==> r.status == Blocked
    ensures PRIVATE_IP in tags <==> PrivateIp(r)
  {
    IndicatorsDistinct();
    Tag(MetaNumber(r.metadata, "amount") > 100000.0, HIGH_VALUE)
    + Tag(MetaNumber(r.metadata, "riskScore") > 70.0, HIGH_RISK)
    + Tag(r.status == Blocked, BLOCKED_BY_SECURITY)
    + Tag(PrivateIp(r), PRIVATE_IP)
  }

  /**
   * The indicators a record gets are those of the fixed list that apply to
   * it, in the list's order (high value, high risk, blocked, private IP).
   */
  lemma IndicatorsInFixedOrder(r: AuditRecord)
    ensures FraudIndicators(r) == Filter(INDICATORS, (t: string) => Fires(r, t))
  {
    IndicatorsDistinct();
    var f := (t: string) => Fires(r, t);
    FilterOfFour(HIGH_VALUE, HIGH_RISK, BLOCKED_BY_SECURITY, PRIVATE_IP, f);
    assert f(HIGH_VALUE) == (MetaNumber(r.metadata, "amount") > 100000.0);
    assert f(HIGH_RISK) == (MetaNumber(r.metadata, "riskScore") > 70.0);
    assert f(BLOCKED_BY_SECURITY) == (r.status == Blocked);
    assert f(PRIVATE_IP) == PrivateIp(r);
  }

  lemma FilterOfFour<T>(a: T, b: T, c: T, d: T, f: T -> bool)
    ensures Filter([a, b, c, d], f)
      == (if f(a) then [a] else []) + (if f(b) then [b] else []) + (if f(c) then [c] else [])
         + (if f(d) then [d] else [])
  {
    assert [a, b, c, d] == [a] + [b] + [c] + [d];
    FilterAppend([a] + [b] + [c], [d], f);
    FilterAppend([a] + [b], [c], f);
    FilterAppend([a], [b], f);
    FilterOne(a, f);
    FilterOne(b, f);
    FilterOne(c, f);
    FilterOne(d, f);
  }

  lemma FilterOne<T>(x: T, f: T -> bool)
    ensures Filter([x], f) == if f(x) then [x] else []
  {
    assert [x][1..] == [];
  }

  /**
   * The record `createTransfer` writes for an accepted transfer is never
   * tagged high-value, high-risk or blocked: an accepted amount is within
   * the daily limit of 50 000, a score that did not block is below 70, and
   * the record's status is SUCCESS. Only the private-IP indicator can fire.
   */
  lemma CreatedTransferOnlyFlagsPrivateIp(req: Requests.Request, body: TransferController.TransferBody,
                                          accounts: seq<Account>, txs: seq<Transaction>, todayStart: int,
                                          monthStart: int, id: string, referenceNumber: string,
                                          riskScore: Option<RiskScoring.RiskScore>, raw: nat, now: int)
    requires forall t :: t in txs ==> t.amount >= 0.0
    requires TransferController.TransferDecision(req.userId, body, accounts, txs, todayStart, monthStart).Accept?
    requires req.userId.Some? && body.fromAccountId.Some?
    requires riskScore.Some? ==>
      riskScore.value.score == Min(raw, RiskScoring.MAX_SCORE)
      && riskScore.value.recommendation == RiskScoring.Recommend(raw) && RiskScoring.Recommend(raw) != Block
    ensures var d := TransferController.TransferDecision(req.userId, body, accounts, txs, todayStart, monthStart);
      var r := TransferController.SuccessRecord(req, body, accounts, d, id, referenceNumber, riskScore, now);
      FraudIndicators(r) == Tag(PrivateIp(r), PRIVATE_IP)
  {
    var d := TransferController.TransferDecision(req.userId, body, accounts, txs, todayStart, monthStart);
    TransferController.AcceptedAtMostDailyLimit(req.userId, body, accounts, txs, todayStart, monthStart);
    SuccessRecordFlagsPrivateIp(req, body, accounts, d, id, referenceNumber, riskScore, raw, now);
  }

  /** The SUCCESS record of an accepted transfer of at most 100 000 with a score that did not block. */
  lemma SuccessRecordFlagsPrivateIp(req: Requests.Request, body: TransferController.TransferBody,
                                    accounts: seq<Account>, d: TransferController.Decision, id: string,
                                    referenceNumber: string, riskScore: Option<RiskScoring.RiskScore>, raw: nat,
                                    now: int)
    requires d.Accept? && d.toIndex < |accounts| && req.userId.Some? && body.fromAccountId.Some?
    requires d.amount <= 100000.0
    requires riskScore.Some? ==>
      riskScore.value.score == Min(raw, RiskScoring.MAX_SCORE)
      && riskScore.value.recommendation == RiskScoring.Recommend(raw) && RiskScoring.Recommend(raw) != Block
    ensures var r := TransferController.SuccessRecord(req, body, accounts, d, id, referenceNumber, riskScore, now);
      FraudIndicators(r) == Tag(PrivateIp(r), PRIVATE_IP)
  {
    var r := TransferController.SuccessRecord(req, body, accounts, d, id, referenceNumber, riskScore, now);
    var extra := TransferController.SuccessMetadata(referenceNumber, riskScore);
    assert "amount" !in extra;
    var m := map["amount" := MNum(d.amount), "fromAccountId" := MStr(body.fromAccountId.value),
                 "toAccountId" := MStr(accounts[d.toIndex].id)] + extra;
    assert r.metadata == m && r.status == Success;
    assert MetaNumber(m, "amount") == d.amount;
    if riskScore.Some? {
      RiskScoring.RecommendationBands(raw);
      assert m["riskScore"] == MInt(riskScore.value.score);
    } else {
      assert "riskScore" !in m;
    }
    OnlyPrivateIpFires(r);
  }

  /** A record below both thresholds that was not blocked can only carry the private-IP indicator. */
  lemma OnlyPrivateIpFires(r: AuditRecord)
    requires MetaNumber(r.metadata, "amount") <= 100000.0 && MetaNumber(r.metadata, "riskScore") <= 70.0
    requires r.status != Blocked
    ensures FraudIndicators(r) == Tag(PrivateIp(r), PRIVATE_IP)
  {
  }

  /** The `where` clause of `getTransferLogs`; `minAmount` is read from the query but never applied. */
  predicate TransferLogMatches(r: AuditRecord, userId: Option<string>, status: Option<Status>,
                               startDate: Option<int>, endDate: Option<int>) {
    && r.action == "TRANSFER"
    && (Truthy(userId) ==> r.userId == userId)
    && (status.Some? ==> r.status == status.value)
    && InDateRange(r, startDate, endDate)
  }

  datatype TaggedLog = TaggedLog(log: AuditRecord, fraudIndicators: seq<string>)

  function Tagged(logs: seq<AuditRecord>): (r: seq<TaggedLog>)
    ensures |r| == |logs|
    ensures forall k :: 0 <= k < |logs| ==> r[k] == TaggedLog(logs[k], FraudIndicators(logs[k]))
  {
    if |logs| == 0 then [] else [TaggedLog(logs[0], FraudIndicators(logs[0]))] + Tagged(logs[1..])
  }

  datatype TransferLogPage =
    | TransferLogPage(logs: seq<TaggedLog>, page: int, limit: int, total: nat, totalPages: Option<int>)
    | TransferLogFailure(status: int, error: string)

  function WithIndicators(p: LogPage): (r: TransferLogPage)
    ensures p.LogFailure? ==> r == TransferLogFailure(p.status, p.error)
    ensures p.LogPage? ==>
      r.TransferLogPage? && r.page == p.page && r.limit == p.limit && r.total == p.total
      && r.totalPages == p.totalPages && r.logs == Tagged(p.logs)
  {
    match p
    case LogFailure(s, e) => TransferLogFailure(s, e)
    case LogPage(logs, page, limit, total, tp) => TransferLogPage(Tagged(logs), page, limit, total, tp)
  }

  /** `getTransferLogs` as written: the `minAmount` parameter has no effect. */
  function GetTransferLogs(caller: Option<string>, userId: Option<string>, startDate: Option<int>,
                           endDate: Option<int>, minAmount: Option<real>, status: Option<Status>,
                           page: Option<int>, limit: Option<int>, records: seq<AuditRecord>): (r: TransferLogPage)
    ensures !Truthy(caller) ==> r == TransferLogFailure(401, "Unauthorized")
    ensures Truthy(caller) ==>
      r == WithIndicators(PageOf(records, (x: AuditRecord) => TransferLogMatches(x, userId, status, startDate, endDate),
                                 IntOrElse(page, 1), IntOrElse(limit, 50)))
    ensures Truthy(caller) && r.TransferLogPage? ==> forall k :: 0 <= k < |r.logs| ==>
      r.logs[k].log in records && TransferLogMatches(r.logs[k].log, userId, status, startDate, endDate)
      && r.logs[k].fraudIndicators == FraudIndicators(r.logs[k].log)
  {
    if !Truthy(caller) then TransferLogFailure(401, "Unauthorized")
    else
      var m := (x: AuditRecord) => TransferLogMatches(x, userId, status, startDate, endDate);
      PagedRecordsMatch(records, m, IntOrElse(page, 1), IntOrElse(limit, 50));
      WithIndicators(PageOf(records, m, IntOrElse(page, 1), IntOrElse(limit, 50)))
  }

  /** A transfer of 10 is listed although the caller asked for at least 1000. */
  lemma MinAmountIgnored(r: AuditRecord)
    requires r.action == "TRANSFER" && r.metadata == map["amount" := MNum(10.0)]
    ensures var p := GetTransferLogs(Some("auditor"), None, None, None, Some(1000.0), None, None, None, [r]);
      p.TransferLogPage? && |p.logs| == 1 && p.logs[0].log == r
      && MetaNumber(p.logs[0].log.metadata, "amount") < 1000.0
  {
    var m := (x: AuditRecord) => TransferLogMatches(x, None, None, None, None);
    var rows := Filter([r], m);
    assert r in rows;
    assert |rows| == 1 && rows[0] == r;
    assert MetaNumber(r.metadata, "amount") == 10.0;
  }

  /** The `where` clause with the minimum applied to the logged amount. */
  predicate TransferLogMatchesMin(r: AuditRecord, userId: Option<string>, minAmount: Option<real>,
                                  status: Option<Status>, startDate: Option<int>, endDate: Option<int>) {
    && TransferLogMatches(r, userId, status, startDate, endDate)
    && (minAmount.Some? ==> MetaNumber(r.metadata, "amount") >= minAmount.value)
  }

  /** `getTransferLogs` with `minAmount` applied: every listed transfer has at least that amount. */
  function GetTransferLogsAtLeast(caller: Option<string>, userId: Option<string>, startDate: Option<int>,
                                  endDate: Option<int>, minAmount: Option<real>, status: Option<Status>,
                                  page: Option<int>, limit: Option<int>, records: seq<AuditRecord>): (r: TransferLogPage)
    ensures !Truthy(caller) ==> r == TransferLogFailure(401, "Unauthorized")
    ensures Truthy(caller) && r.TransferLogPage? ==> forall k :: 0 <= k < |r.logs| ==>
      r.logs[k].log in records && TransferLogMatches(r.logs[k].log, userId, status, startDate, endDate)
      && (minAmount.Some? ==> MetaNumber(r.logs[k].log.metadata, "amount") >= minAmount.value)
      && r.logs[k].fraudIndicators == FraudIndicators(r.logs[k].log)
    ensures Truthy(caller) && r.TransferLogPage? ==>
      r.total == |Filter(records, (x: AuditRecord) => TransferLogMatchesMin(x, userId, minAmount, status, startDate, endDate))|
  {
    if !Truthy(caller) then TransferLogFailure(401, "Unauthorized")
    else
      var m := (x: AuditRecord) => TransferLogMatchesMin(x, userId, minAmount, status, startDate, endDate);
      PagedRecordsMatch(records, m, IntOrElse(page, 1), IntOrElse(limit, 50));
      WithIndicators(PageOf(records, m, IntOrElse(page, 1), IntOrElse(limit, 50)))
  }

  /** Without a minimum the corrected endpoint answers exactly as the one as written. */
  lemma AtLeastAgreesWithoutMinimum(caller: Option<string>, userId: Option<string>, startDate: Option<int>,
                                    endDate: Option<int>, status: Option<Status>, page: Option<int>,
                                    limit: Option<int>, records: seq<AuditRecord>)
    ensures GetTransferLogsAtLeast(caller, userId, startDate, endDate, None, status, page, limit, records)
      == GetTransferLogs(caller, userId, startDate, endDate, None, status, page, limit, records)
  {
    FilterAgree(records, (x: AuditRecord) => TransferLogMatchesMin(x, userId, None, status, startDate, endDate),
                (x: AuditRecord) => TransferLogMatches(x, userId, status, startDate, endDate));
  }
}
