/**
 * The zero-trust risk score: seven additive factors, the reported score capped
 * at 100, and a recommendation ALLOW / REVIEW / BLOCK taken from the uncapped
 * score. Beside it, the blacklist/whitelist IP gate.
 *
 * The session table and the audit log are passed in; the clock `now` is in
 * milliseconds. The `distinct ipAddress, take 5` session query has no order,
 * so its answer is a parameter constrained by `IsIpSample`.
 */
module RiskScoring {
  import opened Common
  import opened Records
  import opened Pagination

  const HOUR_MS: int := 60 * 60 * 1000
  const FIVE_MINUTES_MS: int := 5 * 60 * 1000
  const BLOCK_THRESHOLD: nat := 70
  const REVIEW_THRESHOLD: nat := 40
  const MAX_SCORE: nat := 100

  datatype RiskContext = RiskContext(
    userId: string,
    action: string,
    resource: string,
    ipAddress: string,
    deviceFingerprint: string,
    timeOfDay: int,
    amount: Option<real>)

  /** The scorer's answer; each factor's message is `Describe(f)`. */
  datatype RiskScore = RiskScore(score: nat, factors: seq<Factor>, recommendation: Recommendation)

  /** The seven risk factors, in the order they are evaluated. */
  datatype Factor =
    | UnusualTime
    | NewDevice
    | FailedLogins(count: nat)
    | HighValue
    | NewIp
    | RapidActions
    | SensitiveAction

  function Points(f: Factor): nat {
    match f
    case UnusualTime => 15
    case NewDevice => 25
    case FailedLogins(n) => 10 * n
    case HighValue => 20
    case NewIp => 15
    case RapidActions => 20
    case SensitiveAction => 10
  }

  function Describe(f: Factor): string {
    match f
    case UnusualTime => "Unusual time of day"
    case NewDevice => "New device detected"
    case FailedLogins(n) => NatToString(n) + " recent failed login attempts"
    case HighValue => "High-value transaction"
    case NewIp => "New IP address"
    case RapidActions => "Rapid successive actions"
    case SensitiveAction => "Sensitive action"
  }

  function Descriptions(fs: seq<Factor>): (r: seq<string>)
    ensures |r| == |fs|
  {
    if |fs| == 0 then [] else [Describe(fs[0])] + Descriptions(fs[1..])
  }

  function SumPoints(fs: seq<Factor>): nat {
    if |fs| == 0 then 0 else Points(fs[0]) + SumPoints(fs[1..])
  }

  /** Outside 06:00-22:59. */
  predicate IsOffHours(hour: int) {
    hour < 6 || hour > 22
  }

  /**
   * The user's 10 most recent sessions by `createdAt`: ten of them, or all
   * when there are fewer, and no session of the user left out is newer than
   * one taken.
   */
  function RecentSessions(sessions: seq<Session>, userId: string): (r: seq<Session>)
    ensures |r| == Min(10, |Filter(sessions, (s: Session) => s.userId == userId)|)
    ensures forall s :: s in r ==> s in sessions && s.userId == userId
    ensures forall s, k :: s in sessions && s.userId == userId && s !in r && 0 <= k < |r| ==>
      s.createdAt <= r[k].createdAt
  {
    var own := Filter(sessions, (s: Session) => s.userId == userId);
    var r := Newest(own, SessionCreatedAt, 10);
    forall s | s in r
      ensures s in own
    {
      assert s in multiset(r);
    }
    forall s, k | s in sessions && s.userId == userId && s !in r && 0 <= k < |r|
      ensures s.createdAt <= r[k].createdAt
    {
      NewestAreNewest(own, SessionCreatedAt, 10, s);
      assert SessionCreatedAt(s) <= SessionCreatedAt(r[k]);
    }
    r
  }

  /** Some recent session's device string contains the first 16 characters of the fingerprint. */
  predicate KnownDevice(recent: seq<Session>, fingerprint: string) {
    exists s :: s in recent && Contains(OrElse(s.deviceInfo, ""), Prefix(fingerprint, 16))
  }

  predicate FailedLoginWithinHour(r: AuditRecord, userId: string, now: int) {
    r.userId == Some(userId) && r.action == "LOGIN" && r.status == Failed && r.createdAt >= now - HOUR_MS
  }

  function FailedLoginCount(audit: seq<AuditRecord>, userId: string, now: int): nat {
    |Filter(audit, (r: AuditRecord) => FailedLoginWithinHour(r, userId, now))|
  }

  function RecentActionCount(audit: seq<AuditRecord>, userId: string, now: int): nat {
    |Filter(audit, (r: AuditRecord) => r.userId == Some(userId) && r.createdAt >= now - FIVE_MINUTES_MS)|
  }

  /** `amount && amount > bound`: an absent or zero amount never counts. */
  predicate AmountOver(amount: Option<real>, bound: real) {
    amount.Some? && amount.value != 0.0 && amount.value > bound
  }

  /**
   * An admissible answer of the unordered `distinct: ['ipAddress'], take: 5`
   * query: distinct stored IPs of the user's sessions, at most five, and all
   * of them when there are fewer than five.
   */
  ghost predicate IsIpSample(sample: seq<Option<string>>, sessions: seq<Session>, userId: string) {
    && |sample| <= 5
    && (forall i, j :: 0 <= i < j < |sample| ==> sample[i] != sample[j])
    && (forall ip :: ip in sample ==> exists s :: s in sessions && s.userId == userId && s.ipAddress == ip)
    && (|sample| < 5 ==> forall s :: s in sessions && s.userId == userId ==> s.ipAddress in sample)
  }

  /** `previousIPs.map((s) => s.ipAddress || '')`. */
  function KnownIps(sample: seq<Option<string>>): seq<string> {
    seq(|sample|, i requires 0 <= i < |sample| => OrElse(sample[i], ""))
  }

  /** What the seven factor tests found for one request. */
  datatype Signals = Signals(
    offHours: bool,
    newDevice: bool,
    failures: nat,
    highValue: bool,
    newIp: bool,
    rapid: bool,
    sensitive: bool)

  /** The factor tests evaluated against the stored sessions and audit log. */
  function SignalsOf(ctx: RiskContext, sessions: seq<Session>, audit: seq<AuditRecord>,
                     ipSample: seq<Option<string>>, now: int): Signals
  {
    var recent := RecentSessions(sessions, ctx.userId);
    var known := KnownIps(ipSample);
    Signals(
      IsOffHours(ctx.timeOfDay),
      !KnownDevice(recent, ctx.deviceFingerprint) && |recent| > 0,
      FailedLoginCount(audit, ctx.userId, now),
      AmountOver(ctx.amount, 100000.0),
      ctx.ipAddress !in known && |known| > 0,
      RecentActionCount(audit, ctx.userId, now) > 10,
      ctx.resource == "customer" || AmountOver(ctx.amount, 50000.0))
  }

  /** One `if (test) factors.push(...)` step on the list of fired factors. */
  function Push(acc: seq<Factor>, c: bool, f: Factor): (r: seq<Factor>)
    ensures forall x :: x in r <==> x in acc || (c && x == f)
  {
    if c then acc + [f] else acc
  }

  /** The factors that fire, in evaluation order: the reference the scorer is proved against. */
  function FactorsOf(g: Signals): seq<Factor> {
    var afterTime := Push([], g.offHours, UnusualTime);
    var afterDevice := Push(afterTime, g.newDevice, NewDevice);
    var afterFailures := Push(afterDevice, g.failures > 0, FailedLogins(g.failures));
    var afterAmount := Push(afterFailures, g.highValue, HighValue);
    var afterIp := Push(afterAmount, g.newIp, NewIp);
    var afterRapid := Push(afterIp, g.rapid, RapidActions);
    Push(afterRapid, g.sensitive, SensitiveAction)
  }

  /** The recommendation for an uncapped score. */
  function Recommend(raw: nat): (r: Recommendation)
    ensures r == Block <==> raw >= BLOCK_THRESHOLD
    ensures r == Allow <==> raw < REVIEW_THRESHOLD
  {
    if raw >= BLOCK_THRESHOLD then Block
    else if raw >= REVIEW_THRESHOLD then Review
    else Allow
  }

  /**
   * The uncapped score as a weighted sum of the tests: 15 off-hours, 25 new
   * device, 10 per failed login, 20 high value, 15 new IP, 20 rapid actions,
   * 10 sensitive action.
   */
  function RawScore(g: Signals): (r: nat)
    ensures r >= 10 * g.failures
    ensures r == 0 <==> !g.offHours && !g.newDevice && g.failures == 0 && !g.highValue && !g.newIp && !g.rapid
                        && !g.sensitive
    ensures r <= 105 + 10 * g.failures
  {
    Weight(g.offHours, 15) + Weight(g.newDevice, 25) + 10 * g.failures
    + Weight(g.highValue, 20) + Weight(g.newIp, 15) + Weight(g.rapid, 20) + Weight(g.sensitive, 10)
  }

  /** `w` points when the test fired, none otherwise. */
  function Weight(fired: bool, w: nat): (r: nat)
    ensures r == 0 <==> !fired || w == 0
    ensures r <= w
  {
    if fired then w else 0
  }

  /** The answer the scorer gives for the signals `g`. */
  function ScoreOf(g: Signals): (r: RiskScore)
    ensures r.score <= MAX_SCORE
  {
    RiskScore(Min(RawScore(g), MAX_SCORE), FactorsOf(g), Recommend(RawScore(g)))
  }

  /**
   * `calculateRiskScore`: accumulates the factors one by one, then caps the
   * score at 100 and derives the recommendation from the uncapped score.
   */
  method CalculateRiskScore(ctx: RiskContext, sessions: seq<Session>, audit: seq<AuditRecord>,
                            ipSample: seq<Option<string>>, now: int) returns (r: RiskScore)
    requires IsIpSample(ipSample, sessions, ctx.userId)
    ensures r.score == Min(RawScore(SignalsOf(ctx, sessions, audit, ipSample, now)), MAX_SCORE)
    ensures r.factors == FactorsOf(SignalsOf(ctx, sessions, audit, ipSample, now))
    ensures r.recommendation == Recommend(RawScore(SignalsOf(ctx, sessions, audit, ipSample, now)))
    ensures r == ScoreOf(SignalsOf(ctx, sessions, audit, ipSample, now))
    ensures r.score <= MAX_SCORE
    ensures r.score == 0 <==> r.factors == []
  {
    var g := SignalsOf(ctx, sessions, audit, ipSample, now);
    var score, factors := Accumulate(g);
    NothingFiredIff(g);

    var recommendation: Recommendation;
    if score >= BLOCK_THRESHOLD {
      recommendation := Block;
    } else if score >= REVIEW_THRESHOLD {
      recommendation := Review;
    } else {
      recommendation := Allow;
    }
    r := RiskScore(Min(score, MAX_SCORE), factors, recommendation);
  }

  /** The seven `if (test) { score += points; factors.push(...) }` steps. */
  method Accumulate(g: Signals) returns (score: nat, factors: seq<Factor>)
    ensures score == RawScore(g)
    ensures factors == FactorsOf(g)
  {
    score := 0;
    factors := [];
    if g.offHours {
      score := score + 15;
      factors := factors + [UnusualTime];
    }
    assert score == (if g.offHours then 15 else 0);
    if g.newDevice {
      score := score + 25;
      factors := factors + [NewDevice];
    }
    assert score == (if g.offHours then 15 else 0) + (if g.newDevice then 25 else 0);
    if g.failures > 0 {
      score := score + g.failures * 10;
      factors := factors + [FailedLogins(g.failures)];
    }
    ghost var partial := (if g.offHours then 15 else 0) + (if g.newDevice then 25 else 0) + 10 * g.failures;
    assert score == partial;
    if g.highValue {
      score := score + 20;
      factors := factors + [HighValue];
    }
    assert score == partial + (if g.highValue then 20 else 0);
    partial := partial + (if g.highValue then 20 else 0);
    if g.newIp {
      score := score + 15;
      factors := factors + [NewIp];
    }
    assert score == partial + (if g.newIp then 15 else 0);
    partial := partial + (if g.newIp then 15 else 0);
    if g.rapid {
      score := score + 20;
      factors := factors + [RapidActions];
    }
    assert score == partial + (if g.rapid then 20 else 0);
    partial := partial + (if g.rapid then 20 else 0);
    if g.sensitive {
      score := score + 10;
      factors := factors + [SensitiveAction];
    }
    assert score == partial + (if g.sensitive then 10 else 0);
  }

  /** No factor fires exactly when every test is negative. */
  lemma NothingFiredIff(g: Signals)
    ensures FactorsOf(g) == [] <==>
      !g.offHours && !g.newDevice && g.failures == 0 && !g.highValue && !g.newIp && !g.rapid && !g.sensitive
  {
    var fs := FactorsOf(g);
    if fs == [] {
      InFactorsOf(g, UnusualTime);
      InFactorsOf(g, NewDevice);
      InFactorsOf(g, FailedLogins(g.failures));
      InFactorsOf(g, HighValue);
      InFactorsOf(g, NewIp);
      InFactorsOf(g, RapidActions);
      InFactorsOf(g, SensitiveAction);
    }
  }

  lemma {:induction false} SumPointsAppend(a: seq<Factor>, b: seq<Factor>)
    ensures SumPoints(a + b) == SumPoints(a) + SumPoints(b)
  {
    if |a| == 0 {
      assert a + b == b;
    } else {
      assert (a + b)[1..] == a[1..] + b;
      SumPointsAppend(a[1..], b);
    }
  }

  /** A sum of positive points is zero exactly when nothing fired. */
  lemma {:induction false} SumPointsZeroIff(fs: seq<Factor>)
    requires forall f :: f in fs ==> Points(f) > 0
    ensures SumPoints(fs) == 0 <==> fs == []
  {
    if |fs| > 0 {
      assert fs[0] in fs;
    }
  }

  /** Membership in the fired list, factor by factor. */
  lemma InFactorsOf(g: Signals, x: Factor)
    ensures x in FactorsOf(g) <==>
      || (x == UnusualTime && g.offHours)
      || (x == NewDevice && g.newDevice)
      || (x == FailedLogins(g.failures) && g.failures > 0)
      || (x == HighValue && g.highValue)
      || (x == NewIp && g.newIp)
      || (x == RapidActions && g.rapid)
      || (x == SensitiveAction && g.sensitive)
  {
  }

  lemma PushPoints(acc: seq<Factor>, c: bool, f: Factor)
    ensures SumPoints(Push(acc, c, f)) == SumPoints(acc) + (if c then Points(f) else 0)
  {
    if c {
      SumPointsAppend(acc, [f]);
    }
  }

  /** Every factor that fires adds positive points (failed logins fire only with count > 0). */
  lemma FactorsPointsPositive(g: Signals)
    ensures forall f :: f in FactorsOf(g) ==> Points(f) > 0
  {
    forall f | f in FactorsOf(g) {
      InFactorsOf(g, f);
    }
  }

  /** Each factor fires exactly under its own test, and failed logins carry their count. */
  lemma FactorsOfSignals(g: Signals)
    ensures var fs := FactorsOf(g);
      && (UnusualTime in fs <==> g.offHours)
      && (NewDevice in fs <==> g.newDevice)
      && (forall n :: FailedLogins(n) in fs <==> n > 0 && n == g.failures)
      && (HighValue in fs <==> g.highValue)
      && (NewIp in fs <==> g.newIp)
      && (RapidActions in fs <==> g.rapid)
      && (SensitiveAction in fs <==> g.sensitive)
  {
    forall x {
      InFactorsOf(g, x);
    }
  }

  /** Each fired factor contributes its points: the list's sum is the weighted sum of the tests. */
  lemma RawScoreFormula(g: Signals)
    ensures SumPoints(FactorsOf(g)) == RawScore(g)
  {
    var afterTime := Push([], g.offHours, UnusualTime);
    var afterDevice := Push(afterTime, g.newDevice, NewDevice);
    var afterFailures := Push(afterDevice, g.failures > 0, FailedLogins(g.failures));
    var afterAmount := Push(afterFailures, g.highValue, HighValue);
    var afterIp := Push(afterAmount, g.newIp, NewIp);
    var afterRapid := Push(afterIp, g.rapid, RapidActions);
    var all := Push(afterRapid, g.sensitive, SensitiveAction);
    PushPoints([], g.offHours, UnusualTime);
    PushPoints(afterTime, g.newDevice, NewDevice);
    PushPoints(afterDevice, g.failures > 0, FailedLogins(g.failures));
    PushPoints(afterFailures, g.highValue, HighValue);
    PushPoints(afterAmount, g.newIp, NewIp);
    PushPoints(afterIp, g.rapid, RapidActions);
    PushPoints(afterRapid, g.sensitive, SensitiveAction);
    RunningTotal(g, SumPoints(afterTime), SumPoints(afterDevice), SumPoints(afterFailures), SumPoints(afterAmount),
                 SumPoints(afterIp), SumPoints(afterRapid), SumPoints(all));
  }

  /** Running totals that grow by each factor's points in turn end at the raw score. */
  lemma RunningTotal(g: Signals, t1: nat, t2: nat, t3: nat, t4: nat, t5: nat, t6: nat, t7: nat)
    requires t1 == (if g.offHours then Points(UnusualTime) else 0)
    requires t2 == t1 + (if g.newDevice then Points(NewDevice) else 0)
    requires t3 == t2 + (if g.failures > 0 then Points(FailedLogins(g.failures)) else 0)
    requires t4 == t3 + (if g.highValue then Points(HighValue) else 0)
    requires t5 == t4 + (if g.newIp then Points(NewIp) else 0)
    requires t6 == t5 + (if g.rapid then Points(RapidActions) else 0)
    requires t7 == t6 + (if g.sensitive then Points(SensitiveAction) else 0)
    ensures t7 == RawScore(g)
  {
  }

  /**
   * The tests against the store: off-hours, an unseen device among at least
   * one of the 10 latest sessions, failed logins in the last hour counted one
   * by one, the two amount thresholds, an IP outside a non-empty known list,
   * and more than 10 actions in 5 minutes.
   */
  lemma FactorConditions(ctx: RiskContext, sessions: seq<Session>, audit: seq<AuditRecord>,
                         ipSample: seq<Option<string>>, now: int)
    ensures var g := SignalsOf(ctx, sessions, audit, ipSample, now);
      && (g.offHours <==> ctx.timeOfDay < 6 || ctx.timeOfDay > 22)
      && (g.newDevice <==>
            |RecentSessions(sessions, ctx.userId)| > 0
            && forall s :: s in RecentSessions(sessions, ctx.userId) ==>
                 !Contains(OrElse(s.deviceInfo, ""), Prefix(ctx.deviceFingerprint, 16)))
      && g.failures == FailedLoginCount(audit, ctx.userId, now)
      && (g.highValue <==> ctx.amount.Some? && ctx.amount.value > 100000.0)
      && (g.newIp <==> |ipSample| > 0 && ctx.ipAddress !in KnownIps(ipSample))
      && (g.rapid <==> RecentActionCount(audit, ctx.userId, now) > 10)
      && (g.sensitive <==> ctx.resource == "customer" || (ctx.amount.Some? && ctx.amount.value > 50000.0))
  {
  }

  /** With a known list, "new IP" means: not among the stored IPs of any of the user's sessions. */
  lemma NewIpWhenFewStoredIps(ctx: RiskContext, sessions: seq<Session>, ipSample: seq<Option<string>>)
    requires IsIpSample(ipSample, sessions, ctx.userId)
    requires |ipSample| < 5
    requires ctx.ipAddress != ""
    ensures ctx.ipAddress in KnownIps(ipSample) <==>
      exists s :: s in sessions && s.userId == ctx.userId && s.ipAddress == Some(ctx.ipAddress)
  {
    var known := KnownIps(ipSample);
    if ctx.ipAddress in known {
      var i :| 0 <= i < |known| && known[i] == ctx.ipAddress;
      assert ipSample[i] == Some(ctx.ipAddress);
      assert ipSample[i] in ipSample;
    }
    if exists s :: s in sessions && s.userId == ctx.userId && s.ipAddress == Some(ctx.ipAddress) {
      var s :| s in sessions && s.userId == ctx.userId && s.ipAddress == Some(ctx.ipAddress);
      assert Some(ctx.ipAddress) in ipSample;
      var i :| 0 <= i < |ipSample| && ipSample[i] == Some(ctx.ipAddress);
      assert known[i] == ctx.ipAddress;
    }
  }

  /**
   * The recommendation read against the reported (capped) score: BLOCK iff
   * score >= 70, REVIEW iff 40 <= score < 70, ALLOW iff score < 40.
   */
  lemma RecommendationBands(raw: nat)
    ensures var score := Min(raw, MAX_SCORE);
      && (Recommend(raw) == Block <==> score >= 70)
      && (Recommend(raw) == Review <==> 40 <= score < 70)
      && (Recommend(raw) == Allow <==> score < 40)
  {
  }

  /** The reported score is zero exactly when the factor list is empty. */
  lemma ScoreZeroIffNoFactors(g: Signals)
    ensures SumPoints(FactorsOf(g)) == 0 <==> FactorsOf(g) == []
  {
    FactorsPointsPositive(g);
    SumPointsZeroIff(FactorsOf(g));
  }

  /** A factor that fires never lowers the reported score or the recommendation. */
  lemma AddingFactorNeverLowers(before: seq<Factor>, f: Factor, after: seq<Factor>)
    ensures Min(SumPoints(before + after), MAX_SCORE) <= Min(SumPoints(before + [f] + after), MAX_SCORE)
    ensures Rank(Recommend(SumPoints(before + after))) <= Rank(Recommend(SumPoints(before + [f] + after)))
  {
    SumPointsAppend(before, after);
    SumPointsAppend(before + [f], after);
    SumPointsAppend(before, [f]);
  }

  /** The answer of `checkIPRestrictions`. */
  datatype IpDecision = IpDecision(allowed: bool, reason: Option<string>)

  /** `process.env.X?.split(',') || []`: an unset variable is empty, a set one (even "") splits. */
  function EnvList(env: Option<string>): (r: seq<string>)
    ensures env.None? <==> r == []
  {
    if env.Some? then Split(env.value, ',') else []
  }

  /**
   * `checkIPRestrictions`: blacklist first, then a non-empty whitelist; the
   * private-range test has no effect on the answer.
   */
  function CheckIPRestrictions(ip: string, blacklistEnv: Option<string>, whitelistEnv: Option<string>): (r: IpDecision)
    ensures r.allowed <==> ip !in EnvList(blacklistEnv) && (EnvList(whitelistEnv) == [] || ip in EnvList(whitelistEnv))
    ensures ip in EnvList(blacklistEnv) ==> r.reason == Some("IP is blacklisted")
    ensures ip !in EnvList(blacklistEnv) && EnvList(whitelistEnv) != [] && ip !in EnvList(whitelistEnv) ==>
      r.reason == Some("IP is not whitelisted")
    ensures r.allowed <==> r.reason.None?
  {
    var blacklist := EnvList(blacklistEnv);
    var whitelist := EnvList(whitelistEnv);
    if ip in blacklist then IpDecision(false, Some("IP is blacklisted"))
    else if |whitelist| > 0 && ip !in whitelist then IpDecision(false, Some("IP is not whitelisted"))
    else IpDecision(true, None)
  }

  /** With neither variable set, every address passes, private ranges included. */
  lemma NoListsAllowsAll(ip: string)
    ensures CheckIPRestrictions(ip, None, None).allowed
  {
  }

  /**
   * A whitelist variable set to the empty string splits to [""], a non-empty
   * list, so every non-empty address is refused.
   */
  lemma EmptyWhitelistRefusesAll(ip: string, blacklistEnv: Option<string>)
    requires ip != ""
    ensures !CheckIPRestrictions(ip, blacklistEnv, Some("")).allowed
  {
    assert EnvList(Some("")) == [""];
  }

  /** A single-address whitelist admits exactly that address (when it is not blacklisted). */
  lemma SingleWhitelist(ip: string, allowedIp: string)
    requires ',' !in allowedIp
    ensures CheckIPRestrictions(ip, None, Some(allowedIp)).allowed <==> ip == allowedIp
  {
    assert EnvList(Some(allowedIp)) == [allowedIp];
  }
}
