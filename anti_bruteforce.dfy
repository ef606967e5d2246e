/**
 * Anti-bruteforce protection for the login endpoints: the lockout gate that
 * counts recent failed logins and recent BRUTEFORCE_BLOCK records in the
 * audit log, and the progressive delay formula. Times are milliseconds.
 */
module AntiBruteforce {
  import opened Common
  import opened Records
  import opened Requests
  import Jwt

  const MINUTE: int := 60000
  const DEFAULT_MAX_ATTEMPTS: nat := 5
  const DEFAULT_BLOCK_MINUTES: nat := 15
  const DEFAULT_WINDOW_MINUTES: nat := 15
  const BLOCK_ACTION: string := "BRUTEFORCE_BLOCK"

  /** `req.body.email || req.body.userId || ipAddress`. */
  function Identifier(bodyEmail: Option<string>, bodyUserId: Option<string>, ip: string): (r: string)
    ensures Truthy(bodyEmail) ==> r == bodyEmail.value
    ensures !Truthy(bodyEmail) && Truthy(bodyUserId) ==> r == bodyUserId.value
    ensures !Truthy(bodyEmail) && !Truthy(bodyUserId) ==> r == ip
  {
    OrElse(bodyEmail, OrElse(bodyUserId, ip))
  }

  /** The `OR: [{ ipAddress }, { userId: identifier }]` part of both queries. */
  predicate Concerns(r: AuditRecord, ip: string, identifier: string) {
    r.ipAddress == Some(ip) || r.userId == Some(identifier)
  }

  function IsFailedLogin(ip: string, identifier: string, windowStart: int): AuditRecord -> bool {
    (r: AuditRecord) => Concerns(r, ip, identifier) && r.action == "LOGIN" && r.status == Failed
      && r.createdAt >= windowStart
  }

  function IsBlock(ip: string, identifier: string, windowStart: int): AuditRecord -> bool {
    (r: AuditRecord) => Concerns(r, ip, identifier) && r.action == BLOCK_ACTION && r.status == Blocked
      && r.createdAt >= windowStart
  }

  function FailedAttempts(records: seq<AuditRecord>, ip: string, identifier: string, windowStart: int): nat {
    |Filter(records, IsFailedLogin(ip, identifier, windowStart))|
  }

  /** The `createdAt` of the newest record satisfying `p` (`findFirst` ordered by `createdAt desc`). */
  function LatestTime(records: seq<AuditRecord>, p: AuditRecord -> bool): (r: Option<int>)
    ensures r.None? <==> forall k :: 0 <= k < |records| ==> !p(records[k])
    ensures r.Some? ==> exists k :: 0 <= k < |records| && p(records[k]) && records[k].createdAt == r.value
    ensures r.Some? ==> forall k :: 0 <= k < |records| && p(records[k]) ==> records[k].createdAt <= r.value
  {
    if |records| == 0 then None
    else
      var last := records[|records| - 1];
      var earlier := LatestTime(records[..|records| - 1], p);
      assert forall k :: 0 <= k < |records| - 1 ==> records[..|records| - 1][k] == records[k];
      if !p(last) then earlier
      else if earlier.Some? && earlier.value >= last.createdAt then earlier
      else Some(last.createdAt)
  }

  /** `Math.ceil(ms / 60000)` for a positive number of milliseconds. */
  function CeilMinutes(ms: int): (r: nat)
    requires ms > 0
    ensures r >= 1 && (r - 1) * 60000 < ms <= r * 60000
  {
    (ms + 59999) / 60000
  }

  /** When the newest block in the window ends: its `createdAt` plus the block duration. */
  function BlockUntil(records: seq<AuditRecord>, ip: string, identifier: string, now: int,
                      blockMinutes: nat, windowMinutes: nat): Option<int> {
    match LatestTime(records, IsBlock(ip, identifier, now - windowMinutes * 60000))
    case None => None
    case Some(t) => Some(t + blockMinutes * 60000)
  }

  /** A lockout is in force when the newest recent block has not yet ended. */
  predicate ActiveBlock(records: seq<AuditRecord>, ip: string, identifier: string, now: int,
                        blockMinutes: nat, windowMinutes: nat) {
    var until := BlockUntil(records, ip, identifier, now, blockMinutes, windowMinutes);
    until.Some? && now < until.value
  }

  datatype Lockout =
    | Pass(attempts: nat)
    | Locked(error: string, message: string, retryAfter: int, record: AuditRecord)

  /** The lockout record: BLOCKED, for no user, on the authentication resource from the address. */
  function BlockRecord(ip: string, userAgent: Option<string>, metadata: Metadata, now: int): (r: AuditRecord)
    ensures r.userId.None? && r.action == BLOCK_ACTION && r.status == Blocked
    ensures r.resource == Some("authentication") && r.ipAddress == Some(ip) && r.createdAt == now
    ensures r.metadata == metadata
  {
    AuditRecord(None, BLOCK_ACTION, Some("authentication"), None, Blocked, Some(ip), userAgent, None, metadata, now)
  }

  /** The refusal during a lockout, reporting the whole minutes left. */
  function AlreadyBlocked(ip: string, userAgent: Option<string>, remaining: nat, now: int): (d: Lockout)
    ensures d.Locked? && d.error == "Account temporarily locked" && d.retryAfter == remaining * 60
    ensures d.record == BlockRecord(ip, userAgent,
                                    map["reason" := MStr("Already blocked"), "remainingMinutes" := MInt(remaining)], now)
  {
    Locked("Account temporarily locked",
           "Too many failed attempts. Please try again in " + NatToString(remaining) + " minutes.",
           remaining * 60,
           BlockRecord(ip, userAgent, map["reason" := MStr("Already blocked"), "remainingMinutes" := MInt(remaining)], now))
  }

  /** The refusal that starts a lockout; `blockUntil` is kept as a millisecond time rather than an ISO string. */
  function MaxExceeded(ip: string, identifier: string, userAgent: Option<string>, failed: nat, blockMinutes: nat,
                       now: int): (d: Lockout)
    ensures d.Locked? && d.error == "Account temporarily locked" && d.retryAfter == blockMinutes * 60
    ensures d.record == BlockRecord(ip, userAgent,
                                    map["identifier" := MStr(identifier), "failedAttempts" := MInt(failed),
                                        "blockUntil" := MInt(now + blockMinutes * 60000),
                                        "reason" := MStr("Max attempts exceeded")], now)
  {
    Locked("Account temporarily locked",
           "Too many failed login attempts. Please try again in " + NatToString(blockMinutes) + " minutes.",
           blockMinutes * 60,
           BlockRecord(ip, userAgent,
                       map["identifier" := MStr(identifier), "failedAttempts" := MInt(failed),
                           "blockUntil" := MInt(now + blockMinutes * 60000), "reason" := MStr("Max attempts exceeded")],
                       now))
  }

  /** The gate's decision. */
  function LockoutDecision(records: seq<AuditRecord>, ip: string, identifier: string, userAgent: Option<string>,
                           now: int, maxAttempts: nat, blockMinutes: nat, windowMinutes: nat): (d: Lockout)
    ensures d.Locked? <==> (ActiveBlock(records, ip, identifier, now, blockMinutes, windowMinutes)
      || FailedAttempts(records, ip, identifier, now - windowMinutes * 60000) >= maxAttempts)
    ensures d.Pass? ==> d.attempts == FailedAttempts(records, ip, identifier, now - windowMinutes * 60000)
    ensures d.Locked? ==> (d.error == "Account temporarily locked"
      && d.record.action == BLOCK_ACTION && d.record.status == Blocked && d.record.userId.None?
      && d.record.ipAddress == Some(ip) && d.record.createdAt == now)
    ensures d.Locked? && !ActiveBlock(records, ip, identifier, now, blockMinutes, windowMinutes) ==>
      d.retryAfter == blockMinutes * 60
    ensures d.Locked? && ActiveBlock(records, ip, identifier, now, blockMinutes, windowMinutes) ==>
      d.retryAfter == CeilMinutes(BlockUntil(records, ip, identifier, now, blockMinutes, windowMinutes).value - now) * 60
  {
    var until := BlockUntil(records, ip, identifier, now, blockMinutes, windowMinutes);
    var failed := FailedAttempts(records, ip, identifier, now - windowMinutes * 60000);
    if until.Some? && now < until.value then AlreadyBlocked(ip, userAgent, CeilMinutes(until.value - now), now)
    else if failed >= maxAttempts then MaxExceeded(ip, identifier, userAgent, failed, blockMinutes, now)
    else Pass(failed)
  }

  /** `antiBruteforce(maxAttempts, blockMinutes, windowMinutes)`: a lockout appends its BLOCK record; a pass writes nothing. */
  method AntiBruteforceGate(store: AuditStore, req: Request, bodyEmail: Option<string>, bodyUserId: Option<string>,
                            now: int, maxAttempts: nat, blockMinutes: nat, windowMinutes: nat)
    returns (d: Lockout)
    modifies store
    ensures var ip := Jwt.GetIpAddress(req);
      d == LockoutDecision(old(store.records), ip, Identifier(bodyEmail, bodyUserId, ip), Header(req, "user-agent"),
                           now, maxAttempts, blockMinutes, windowMinutes)
    ensures store.records == old(store.records) + (if d.Locked? then [d.record] else [])
  {
    var ip := Jwt.GetIpAddress(req);
    d := LockoutDecision(store.records, ip, Identifier(bodyEmail, bodyUserId, ip), Header(req, "user-agent"),
                         now, maxAttempts, blockMinutes, windowMinutes);
    if d.Locked? {
      store.records := store.records + [d.record];
    }
  }

  /**
   * A lockout extends itself: after a refusal at `now`, a later attempt
   * from the same IP is refused again while it comes within both the block
   * duration and the counting window of that refusal, whatever identifier it names.
   */
  lemma LockoutExtends(records: seq<AuditRecord>, ip: string, identifier: string, identifier2: string,
                       userAgent: Option<string>, userAgent2: Option<string>, now: int, later: int,
                       maxAttempts: nat, blockMinutes: nat, windowMinutes: nat)
    requires LockoutDecision(records, ip, identifier, userAgent, now, maxAttempts, blockMinutes, windowMinutes).Locked?
    requires now <= later < now + blockMinutes * 60000 && later - windowMinutes * 60000 <= now
    ensures var after := records
      + [LockoutDecision(records, ip, identifier, userAgent, now, maxAttempts, blockMinutes, windowMinutes).record];
      LockoutDecision(after, ip, identifier2, userAgent2, later, maxAttempts, blockMinutes, windowMinutes).Locked?
  {
    var d := LockoutDecision(records, ip, identifier, userAgent, now, maxAttempts, blockMinutes, windowMinutes);
    var after := records + [d.record];
    var p := IsBlock(ip, identifier2, later - windowMinutes * 60000);
    assert p(after[|after| - 1]);
    var latest := LatestTime(after, p);
    assert latest.Some? && latest.value >= now;
    assert ActiveBlock(after, ip, identifier2, later, blockMinutes, windowMinutes);
  }

  /** With the default settings, every attempt less than 15 minutes after the last refusal is refused. */
  lemma RepeatedAttemptsStayLocked(records: seq<AuditRecord>, ip: string, identifier: string, identifier2: string,
                                   userAgent: Option<string>, now: int, later: int)
    requires LockoutDecision(records, ip, identifier, userAgent, now, DEFAULT_MAX_ATTEMPTS, DEFAULT_BLOCK_MINUTES,
                             DEFAULT_WINDOW_MINUTES).Locked?
    requires now <= later < now + 15 * 60000
    ensures var after := records + [LockoutDecision(records, ip, identifier, userAgent, now, DEFAULT_MAX_ATTEMPTS,
                                                    DEFAULT_BLOCK_MINUTES, DEFAULT_WINDOW_MINUTES).record];
      LockoutDecision(after, ip, identifier2, userAgent, later, DEFAULT_MAX_ATTEMPTS, DEFAULT_BLOCK_MINUTES,
                      DEFAULT_WINDOW_MINUTES).Locked?
  {
    LockoutExtends(records, ip, identifier, identifier2, userAgent, userAgent, now, later,
                   DEFAULT_MAX_ATTEMPTS, DEFAULT_BLOCK_MINUTES, DEFAULT_WINDOW_MINUTES);
  }

  function Pow2(n: nat): (r: nat)
    ensures r >= 1
  {
    if n == 0 then 1 else 2 * Pow2(n - 1)
  }

  lemma {:induction false} Pow2Monotone(m: nat, n: nat)
    requires m <= n
    ensures Pow2(m) <= Pow2(n)
    decreases n
  {
    if m < n {
      Pow2Monotone(m, n - 1);
    }
  }

  /** `progressiveDelay`'s wait: none without failures, else `min(2^(n-1) * 1000, 16000)` ms. */
  function Delay(failedAttempts: nat): (ms: nat)
    ensures failedAttempts == 0 <==> ms == 0
    ensures ms <= 16000
  {
    if failedAttempts == 0 then 0 else Min(Pow2(failedAttempts - 1) * 1000, 16000)
  }

  /** Its failure count is the gate's, over a fixed 15-minute window. */
  function ProgressiveDelay(records: seq<AuditRecord>, req: Request, bodyEmail: Option<string>,
                            bodyUserId: Option<string>, now: int): (ms: nat)
    ensures var ip := Jwt.GetIpAddress(req);
      ms == Delay(FailedAttempts(records, ip, Identifier(bodyEmail, bodyUserId, ip), now - 15 * 60000))
  {
    var ip := Jwt.GetIpAddress(req);
    Delay(FailedAttempts(records, ip, Identifier(bodyEmail, bodyUserId, ip), now - 15 * 60000))
  }

  /** More failures never shorten the wait. */
  lemma DelayMonotone(m: nat, n: nat)
    requires m <= n
    ensures Delay(m) <= Delay(n)
  {
    if 0 < m {
      Pow2Monotone(m - 1, n - 1);
    }
  }

  /** The wait doubles from 1 s and is capped at 16 s from the fifth failure on. */
  lemma DelaySchedule(n: nat)
    ensures Delay(1) == 1000 && Delay(2) == 2000 && Delay(3) == 4000 && Delay(4) == 8000
    ensures n >= 5 ==> Delay(n) == 16000
  {
    assert Pow2(4) == 16;
    if n >= 5 {
      Pow2Monotone(4, n - 1);
    }
  }
}
