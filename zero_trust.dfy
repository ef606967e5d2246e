/**
 * The zero-trust middleware: per request it checks authentication, the IP
 * lists, MFA, roles, the risk score (always audited) and session expiry,
 * in that order, and either lets the request through with its risk score or
 * answers with an HTTP status. Each route configures it with options.
 */
module ZeroTrust {
  import opened Common
  import opened Records
  import opened Requests
  import Jwt
  import DeviceFingerprint
  import opened RiskScoring

  datatype ZeroTrustOptions = ZeroTrustOptions(
    requireMFA: bool,
    minRiskScore: Option<nat>,
    allowedRoles: Option<seq<string>>)

  /** The options of the transfer route: only a minimum risk score of 70. */
  const TRANSFER_ROUTE_OPTIONS: ZeroTrustOptions := ZeroTrustOptions(false, Some(70), None)

  datatype Outcome =
    | Proceed(riskScore: RiskScore, deviceFingerprint: string)
    | Denied(status: nat, error: string)

  /** `req.userId && req.user`. */
  predicate Authenticated(req: Request) {
    Truthy(req.userId) && req.user.Some?
  }

  function IpCheckOf(req: Request, blacklistEnv: Option<string>, whitelistEnv: Option<string>): IpDecision {
    CheckIPRestrictions(Jwt.GetIpAddress(req), blacklistEnv, whitelistEnv)
  }

  /** With `requireMFA`, an MFA secret must exist and be enabled. */
  predicate MfaSatisfied(options: ZeroTrustOptions, mfaEnabled: map<string, bool>, userId: string) {
    !options.requireMFA || (userId in mfaEnabled && mfaEnabled[userId])
  }

  /** A non-empty `allowedRoles` needs one role the user holds. */
  predicate RoleSatisfied(options: ZeroTrustOptions, user: User) {
    options.allowedRoles.None? || |options.allowedRoles.value| == 0
    || exists role :: role in options.allowedRoles.value && role in RoleNames(user)
  }

  /** Every gate before the risk step passes. */
  predicate PassesGates(options: ZeroTrustOptions, req: Request, mfaEnabled: map<string, bool>,
                        blacklistEnv: Option<string>, whitelistEnv: Option<string>) {
    && Authenticated(req)
    && IpCheckOf(req, blacklistEnv, whitelistEnv).allowed
    && MfaSatisfied(options, mfaEnabled, req.userId.value)
    && RoleSatisfied(options, req.user.value)
  }

  /** Steps 1 to 5: the answer of the first gate that fails, or none when every gate passes. */
  function GateDenial(options: ZeroTrustOptions, req: Request, mfaEnabled: map<string, bool>,
                      blacklistEnv: Option<string>, whitelistEnv: Option<string>): (r: Option<Outcome>)
    ensures r.None? <==> PassesGates(options, req, mfaEnabled, blacklistEnv, whitelistEnv)
  {
    if !Authenticated(req) then Some(Denied(401, "Unauthorized - Authentication required"))
    else if !IpCheckOf(req, blacklistEnv, whitelistEnv).allowed then Some(Denied(403, "Access denied"))
    else if !MfaSatisfied(options, mfaEnabled, req.userId.value) then Some(Denied(403, "MFA required"))
    else if !RoleSatisfied(options, req.user.value) then Some(Denied(403, "Access denied"))
    else None
  }

  /** The audit records the gates write: one ZERO_TRUST_BLOCK record for an IP denial, nothing otherwise. */
  function GateAudit(req: Request, blacklistEnv: Option<string>, whitelistEnv: Option<string>, now: int): seq<AuditRecord> {
    if Authenticated(req) && !IpCheckOf(req, blacklistEnv, whitelistEnv).allowed
    then [IpBlockRecord(req, req.userId.value, IpCheckOf(req, blacklistEnv, whitelistEnv).reason.value, now)]
    else []
  }

  /**
   * The gates in order: 401 without a user, a 403 on an IP refusal that is
   * audited, then 403s for MFA and for roles that write nothing.
   */
  lemma GateSteps(options: ZeroTrustOptions, req: Request, mfaEnabled: map<string, bool>,
                  blacklistEnv: Option<string>, whitelistEnv: Option<string>, now: int)
    ensures var d, a := GateDenial(options, req, mfaEnabled, blacklistEnv, whitelistEnv),
                        GateAudit(req, blacklistEnv, whitelistEnv, now);
      && (!Authenticated(req) ==> d == Some(Denied(401, "Unauthorized - Authentication required")) && a == [])
      && (Authenticated(req) && !IpCheckOf(req, blacklistEnv, whitelistEnv).allowed ==>
            d == Some(Denied(403, "Access denied"))
            && a == [IpBlockRecord(req, req.userId.value, IpCheckOf(req, blacklistEnv, whitelistEnv).reason.value, now)])
      && (Authenticated(req) && IpCheckOf(req, blacklistEnv, whitelistEnv).allowed
          && !MfaSatisfied(options, mfaEnabled, req.userId.value) ==>
            d == Some(Denied(403, "MFA required")) && a == [])
      && (Authenticated(req) && IpCheckOf(req, blacklistEnv, whitelistEnv).allowed
          && MfaSatisfied(options, mfaEnabled, req.userId.value) && !RoleSatisfied(options, req.user.value) ==>
            d == Some(Denied(403, "Access denied")) && a == [])
  {
  }

  /** `req.path.split('/')[2] || 'unknown'`. */
  function ResourceLabel(path: string): (r: string)
    ensures r != ""
  {
    var parts := Split(path, '/');
    if |parts| > 2 && parts[2] != "" then parts[2] else "unknown"
  }

  /** `req.body?.amount || req.query?.amount`, kept only when truthy. */
  function RequestAmount(req: Request): (r: Option<real>)
    ensures r.Some? ==> r.value != 0.0
    ensures r.Some? ==> r == req.bodyAmount || r == req.queryAmount
  {
    if req.bodyAmount.Some? && req.bodyAmount.value != 0.0 then req.bodyAmount
    else if req.queryAmount.Some? && req.queryAmount.value != 0.0 then req.queryAmount
    else None
  }

  function RiskContextOf(req: Request, userId: string, sha256: string -> string, hour: int): RiskContext {
    RiskContext(
      userId,
      req.httpMethod + " " + req.path,
      ResourceLabel(req.path),
      Jwt.GetIpAddress(req),
      DeviceFingerprint.GenerateDeviceFingerprint(req, sha256),
      hour,
      RequestAmount(req))
  }

  /** The ZERO_TRUST_BLOCK record of an IP denial: BLOCKED, on the path, typed as an IP restriction. */
  function IpBlockRecord(req: Request, userId: string, reason: string, now: int): (r: AuditRecord)
    ensures r.userId == Some(userId) && r.action == "ZERO_TRUST_BLOCK" && r.status == Blocked
    ensures r.resource == Some(req.path) && r.ipAddress == Some(Jwt.GetIpAddress(req)) && r.createdAt == now
    ensures r.metadata.Keys == {"reason", "type"}
      && r.metadata["reason"] == MStr(reason) && r.metadata["type"] == MStr("IP_RESTRICTION")
  {
    AuditRecord(Some(userId), "ZERO_TRUST_BLOCK", Some(req.path), None, Blocked,
                Some(Jwt.GetIpAddress(req)), Header(req, "user-agent"),
                Some(DeviceFingerprint.GetDeviceInfoString(req)),
                map["reason" := MStr(reason), "type" := MStr("IP_RESTRICTION")], now)
  }

  /** The RISK_ASSESSMENT record: BLOCKED iff the recommendation is BLOCK. */
  function RiskRecord(req: Request, userId: string, rs: RiskScore, now: int): (r: AuditRecord)
    ensures r.status == Blocked <==> rs.recommendation == Block
    ensures r.status == Success <==> rs.recommendation != Block
  {
    AuditRecord(Some(userId), "RISK_ASSESSMENT", Some(req.path), None,
                if rs.recommendation == Block then Blocked else Success,
                Some(Jwt.GetIpAddress(req)), Header(req, "user-agent"),
                Some(DeviceFingerprint.GetDeviceInfoString(req)),
                map["riskScore" := MInt(rs.score), "factors" := MList(Descriptions(rs.factors)),
                    "recommendation" := MStr(RecommendationName(rs.recommendation))], now)
  }

  /** The risk step denies on BLOCK, and on REVIEW when a truthy minimum is reached. */
  predicate RiskDenies(rs: RiskScore, minRiskScore: Option<nat>)
    ensures RiskDenies(rs, minRiskScore) ==> rs.recommendation != Allow
    ensures rs.recommendation == Review && (minRiskScore.None? || minRiskScore.value == 0) ==>
      !RiskDenies(rs, minRiskScore)
  {
    rs.recommendation == Block
    || (rs.recommendation == Review && minRiskScore.Some? && minRiskScore.value != 0 && rs.score >= minRiskScore.value)
  }

  /** The session filter `{ userId, token: authorization?.substring(7) }`; a missing header drops the token filter. */
  function TokenFilter(req: Request): Option<string> {
    match Header(req, "authorization")
    case None => None
    case Some(auth) => Some(if |auth| <= 7 then "" else auth[7..])
  }

  predicate SessionMatches(s: Session, userId: string, token: Option<string>) {
    s.userId == userId && (token.None? || s.token == token.value)
  }

  /** `session.findFirst`: the first matching row of the table. */
  function FindFirstSession(sessions: seq<Session>, userId: string, token: Option<string>): (r: Option<nat>)
    ensures r.Some? ==> r.value < |sessions| && SessionMatches(sessions[r.value], userId, token)
    ensures r.Some? ==> forall k :: 0 <= k < r.value ==> !SessionMatches(sessions[k], userId, token)
    ensures r.None? ==> forall s :: s in sessions ==> !SessionMatches(s, userId, token)
  {
    if |sessions| == 0 then None
    else if SessionMatches(sessions[0], userId, token) then Some(0)
    else match FindFirstSession(sessions[1..], userId, token)
      case None => None
      case Some(k) => Some(k + 1)
  }

  /** What a step leaves behind: the answer and the session table. */
  datatype StepResult = StepResult(outcome: Outcome, sessions: seq<Session>)

  /** Step 7: an expired session answers 401, a live one has its activity stamped. */
  function SessionStep(sessions: seq<Session>, found: Option<nat>, now: int, granted: Outcome): (r: StepResult)
    requires found.Some? ==> found.value < |sessions|
    ensures r.outcome == granted || r.outcome == Denied(401, "Session expired")
    ensures found.None? || sessions[found.value].expiresAt >= now ==> r.outcome == granted
    ensures found.Some? && sessions[found.value].expiresAt < now ==>
      r.outcome == Denied(401, "Session expired") && r.sessions == sessions
    ensures |r.sessions| == |sessions|
    ensures forall k :: 0 <= k < |sessions| && found != Some(k) ==> r.sessions[k] == sessions[k]
    ensures found.Some? && r.sessions != sessions ==>
      r.sessions[found.value] == sessions[found.value].(lastActivity := now)
  {
    if found.None? then StepResult(granted, sessions)
    else if sessions[found.value].expiresAt < now then StepResult(Denied(401, "Session expired"), sessions)
    else StepResult(granted, sessions[found.value := sessions[found.value].(lastActivity := now)])
  }

  /** The risk decision of step 6, then step 7. */
  function RiskStep(options: ZeroTrustOptions, rs: RiskScore, sessions: seq<Session>, found: Option<nat>,
                    now: int, fingerprint: string): (r: StepResult)
    requires found.Some? ==> found.value < |sessions|
    ensures r.outcome.Denied? ==> r.outcome.status == 401 || r.outcome.status == 403
    ensures r.outcome.Denied? ==> r.sessions == sessions
    ensures r.outcome.Proceed? ==> r.outcome == Proceed(rs, fingerprint)
  {
    if rs.recommendation == Block then StepResult(Denied(403, "Access denied"), sessions)
    else if rs.recommendation == Review && options.minRiskScore.Some? && options.minRiskScore.value != 0
            && rs.score >= options.minRiskScore.value
    then StepResult(Denied(403, "Additional verification required"), sessions)
    else SessionStep(sessions, found, now, Proceed(rs, fingerprint))
  }

  /**
   * The two last steps: a risk denial is a 403 that leaves sessions alone;
   * otherwise an expired session is a 401, a live one gets `lastActivity`
   * stamped and nothing else changes, and without a session the table is
   * untouched; the request proceeds carrying the score.
   */
  lemma RiskStepOutcomes(options: ZeroTrustOptions, rs: RiskScore, sessions: seq<Session>, found: Option<nat>,
                         now: int, fingerprint: string)
    requires found.Some? ==> found.value < |sessions|
    ensures var r := RiskStep(options, rs, sessions, found, now, fingerprint);
      && (r.outcome.Proceed? <==> !RiskDenies(rs, options.minRiskScore)
                                  && (found.None? || sessions[found.value].expiresAt >= now))
      && (r.outcome.Proceed? ==> r.outcome.riskScore == rs)
      && (RiskDenies(rs, options.minRiskScore) ==> r.outcome.Denied? && r.outcome.status == 403)
      && (!RiskDenies(rs, options.minRiskScore) && found.Some? && sessions[found.value].expiresAt < now ==>
            r.outcome == Denied(401, "Session expired"))
      && |r.sessions| == |sessions|
      && (forall k :: 0 <= k < |sessions| && (found.None? || k != found.value) ==> r.sessions[k] == sessions[k])
      && (r.sessions != sessions ==>
            (found.Some? && r.outcome.Proceed? && r.sessions[found.value] == sessions[found.value].(lastActivity := now)))
  {
  }

  /** `zeroTrustVerify(options)` applied to one request. */
  method ZeroTrustVerify(options: ZeroTrustOptions, req: Request, audit: AuditStore, store: SessionStore,
                         mfaEnabled: map<string, bool>, blacklistEnv: Option<string>, whitelistEnv: Option<string>,
                         sha256: string -> string, ipSample: seq<Option<string>>, hour: int, now: int)
    returns (outcome: Outcome)
    requires req.userId.Some? ==> IsIpSample(ipSample, store.sessions, req.userId.value)
    modifies audit, store
    // Steps 1 to 5: the first failing gate answers; only an IP denial is audited.
    ensures var d := GateDenial(options, req, mfaEnabled, blacklistEnv, whitelistEnv);
      d.Some? ==> outcome == d.value && audit.records == old(audit.records) + GateAudit(req, blacklistEnv, whitelistEnv, now)
                  && store.sessions == old(store.sessions)
    // Steps 6 and 7: exactly one risk record, then the risk and session decisions.
    ensures GateDenial(options, req, mfaEnabled, blacklistEnv, whitelistEnv).None? ==>
      var rs := ScoreOf(SignalsOf(RiskContextOf(req, req.userId.value, sha256, hour), old(store.sessions),
                                  old(audit.records), ipSample, now));
      && audit.records == old(audit.records) + [RiskRecord(req, req.userId.value, rs, now)]
      && StepResult(outcome, store.sessions) ==
           RiskStep(options, rs, old(store.sessions),
                    FindFirstSession(old(store.sessions), req.userId.value, TokenFilter(req)), now,
                    DeviceFingerprint.GenerateDeviceFingerprint(req, sha256))
  {
    var denied := CheckGates(options, req, audit, mfaEnabled, blacklistEnv, whitelistEnv, now);
    if denied.Some? {
      return denied.value;
    }
    assert GateAudit(req, blacklistEnv, whitelistEnv, now) == [];
    assert audit.records == old(audit.records);
    // The session lookup only reads the table, so it can follow the gates.
    var currentSession := FindFirstSession(store.sessions, req.userId.value, TokenFilter(req));
    outcome := AssessRiskAndSession(options, req, req.userId.value, audit, store, currentSession, sha256, ipSample,
                                    hour, now);
  }

  /** Steps 1, 2, 4 and 5: the first failing gate's answer, with the audit record of an IP denial. */
  method CheckGates(options: ZeroTrustOptions, req: Request, audit: AuditStore, mfaEnabled: map<string, bool>,
                    blacklistEnv: Option<string>, whitelistEnv: Option<string>, now: int)
    returns (denied: Option<Outcome>)
    modifies audit
    ensures denied == GateDenial(options, req, mfaEnabled, blacklistEnv, whitelistEnv)
    ensures audit.records == old(audit.records) + GateAudit(req, blacklistEnv, whitelistEnv, now)
  {
    // Step 1: authentication.
    if !Authenticated(req) {
      return Some(Denied(401, "Unauthorized - Authentication required"));
    }
    var userId := req.userId.value;
    var user := req.user.value;
    var ipAddress := Jwt.GetIpAddress(req);

    // Step 2: IP restrictions.
    var ipCheck := CheckIPRestrictions(ipAddress, blacklistEnv, whitelistEnv);
    assert ipCheck == IpCheckOf(req, blacklistEnv, whitelistEnv);
    if !ipCheck.allowed {
      audit.records := audit.records + [IpBlockRecord(req, userId, ipCheck.reason.value, now)];
      return Some(Denied(403, "Access denied"));
    }

    // Step 4: MFA.
    if options.requireMFA {
      if !(userId in mfaEnabled) || !mfaEnabled[userId] {
        return Some(Denied(403, "MFA required"));
      }
    }

    // Step 5: roles.
    if options.allowedRoles.Some? && |options.allowedRoles.value| > 0 {
      var userRoles := RoleNames(user);
      var hasAllowedRole := exists role :: role in options.allowedRoles.value && role in userRoles;
      if !hasAllowedRole {
        return Some(Denied(403, "Access denied"));
      }
    }
    return None;
  }

  /** Steps 6 and 7 for a request that passed the gates. */
  method AssessRiskAndSession(options: ZeroTrustOptions, req: Request, userId: string, audit: AuditStore,
                              store: SessionStore, currentSession: Option<nat>, sha256: string -> string,
                              ipSample: seq<Option<string>>, hour: int, now: int)
    returns (outcome: Outcome)
    requires IsIpSample(ipSample, store.sessions, userId)
    requires currentSession == FindFirstSession(store.sessions, userId, TokenFilter(req))
    modifies audit, store
    ensures var rs := ScoreOf(SignalsOf(RiskContextOf(req, userId, sha256, hour), old(store.sessions),
                                        old(audit.records), ipSample, now));
      && audit.records == old(audit.records) + [RiskRecord(req, userId, rs, now)]
      && StepResult(outcome, store.sessions) ==
           RiskStep(options, rs, old(store.sessions), currentSession, now,
                    DeviceFingerprint.GenerateDeviceFingerprint(req, sha256))
  {
    var deviceFingerprint := DeviceFingerprint.GenerateDeviceFingerprint(req, sha256);
    var riskContext := RiskContextOf(req, userId, sha256, hour);
    var riskScore := CalculateRiskScore(riskContext, store.sessions, audit.records, ipSample, now);
    audit.records := audit.records + [RiskRecord(req, userId, riskScore, now)];

    if riskScore.recommendation == Block {
      return Denied(403, "Access denied");
    }
    if riskScore.recommendation == Review && options.minRiskScore.Some? && options.minRiskScore.value != 0 {
      if riskScore.score >= options.minRiskScore.value {
        return Denied(403, "Additional verification required");
      }
    }

    // Step 7: session validity.
    if currentSession.Some? {
      var k := currentSession.value;
      if store.sessions[k].expiresAt < now {
        return Denied(401, "Session expired");
      }
      store.sessions := store.sessions[k := store.sessions[k].(lastActivity := now)];
    }
    outcome := Proceed(riskScore, deviceFingerprint);
  }

  /** Without a truthy minimum score, only BLOCK denies at the risk step. */
  lemma NoMinimumOnlyBlockDenies(rs: RiskScore)
    ensures RiskDenies(rs, None) <==> rs.recommendation == Block
    ensures RiskDenies(rs, Some(0)) <==> rs.recommendation == Block
  {
  }

  /**
   * On the transfer route the minimum is 70, while REVIEW means a score
   * below 70: the extra-verification denial can never fire, and the risk
   * step denies exactly the BLOCK recommendations.
   */
  lemma TransferRouteOnlyBlockDenies(g: Signals)
    ensures var rs := ScoreOf(g);
      rs.recommendation == Review ==> !RiskDenies(rs, TRANSFER_ROUTE_OPTIONS.minRiskScore)
    ensures RiskDenies(ScoreOf(g), TRANSFER_ROUTE_OPTIONS.minRiskScore) <==> ScoreOf(g).recommendation == Block
  {
    RecommendationBands(RawScore(g));
  }

  /** An ALLOW score is never denied by the risk step, whatever the options. */
  lemma AllowNeverDenied(rs: RiskScore, minRiskScore: Option<nat>)
    requires rs.recommendation == Allow
    ensures !RiskDenies(rs, minRiskScore)
  {
  }
}
