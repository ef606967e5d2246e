/**
 * The rate limiters: a database-backed store of hit counts keyed by
 * identifier, endpoint and 15-minute window start, and the four limiters
 * that use it (general, authentication, transfer, account creation). The
 * store is the object here; its table is the `counts` map. Times are
 * milliseconds since the epoch.
 */
module RateLimiter {
  import opened Common
  import opened Requests
  import Jwt

  const WINDOW_MS: nat := 900000
  const ENDPOINT: string := "general"

  /** A row's unique key, `identifier_endpoint_windowStart`. */
  datatype RateKey = RateKey(identifier: string, endpoint: string, windowStart: int)

  /** `now - (now % windowMs)`: the start of the 15-minute window holding `now`. */
  function WindowStart(now: nat): (ws: nat)
    ensures ws <= now < ws + WINDOW_MS
    ensures ws % WINDOW_MS == 0
  {
    now - now % WINDOW_MS
  }

  /** The row an increment touches. The endpoint is always "general". */
  function KeyFor(key: string, now: nat): RateKey {
    RateKey(key, ENDPOINT, WindowStart(now))
  }

  /** `Math.ceil(ms / 1000)` for a positive number of milliseconds. */
  function CeilSeconds(ms: int): (s: int)
    requires ms > 0
    ensures s >= 1 && (s - 1) * 1000 < ms <= s * 1000
  {
    (ms + 999) / 1000
  }

  datatype Hit = Hit(counts: map<RateKey, nat>, totalHits: nat, timeToExpire: int)

  /** `increment(key)`: find-or-create the row of the current window, then count one more hit. */
  function IncrementSpec(counts: map<RateKey, nat>, key: string, now: nat): (h: Hit)
    ensures h.counts.Keys == counts.Keys + {KeyFor(key, now)}
    ensures forall k :: k in counts && k != KeyFor(key, now) ==> h.counts[k] == counts[k]
    ensures h.totalHits == h.counts[KeyFor(key, now)]
    ensures h.totalHits == if KeyFor(key, now) in counts then counts[KeyFor(key, now)] + 1 else 1
    ensures 1 <= h.timeToExpire <= WINDOW_MS / 1000
    ensures KeyFor(key, now) !in counts ==> h.timeToExpire == WINDOW_MS / 1000
  {
    var k := KeyFor(key, now);
    if k in counts then
      Hit(counts[k := counts[k] + 1], counts[k] + 1, CeilSeconds(k.windowStart + WINDOW_MS - now))
    else
      Hit(counts[k := 1], 1, WINDOW_MS / 1000)
  }

  /** `resetKey(key)`: delete every row of the identifier, in every window. */
  function WithoutKey(counts: map<RateKey, nat>, key: string): (r: map<RateKey, nat>)
    ensures forall k :: k in r <==> k in counts && k.identifier != key
    ensures forall k :: k in r ==> r[k] == counts[k]
  {
    map k | k in counts && k.identifier != key :: counts[k]
  }

  /** `createDatabaseStore()`. */
  class RateLimitStore {
    var counts: map<RateKey, nat>

    constructor()
      ensures counts == map[]
    {
      counts := map[];
    }

    method Increment(key: string, now: nat) returns (totalHits: nat, timeToExpire: int)
      modifies this
      ensures Hit(counts, totalHits, timeToExpire) == IncrementSpec(old(counts), key, now)
    {
      var k := KeyFor(key, now);
      if k in counts {
        counts := counts[k := counts[k] + 1];
        totalHits := counts[k];
        timeToExpire := CeilSeconds(k.windowStart + WINDOW_MS - now);
      } else {
        counts := counts[k := 1];
        totalHits := 1;
        timeToExpire := WINDOW_MS / 1000;
      }
    }

    /** `decrement(key)` does nothing. */
    method Decrement(key: string)
      ensures counts == old(counts)
    {
    }

    method ResetKey(key: string)
      modifies this
      ensures counts == WithoutKey(old(counts), key)
    {
      counts := WithoutKey(counts, key);
    }
  }

  /** The counts after a sequence of hits on one key at the given times. */
  function Replay(counts: map<RateKey, nat>, key: string, times: seq<nat>): (r: map<RateKey, nat>)
    ensures counts.Keys <= r.Keys
    ensures |times| > 0 ==> KeyFor(key, times[0]) in r
    decreases |times|
  {
    if |times| == 0 then counts
    else Replay(IncrementSpec(counts, key, times[0]).counts, key, times[1..])
  }

  /** Hits on one key inside one fresh window are counted exactly, one each. */
  lemma {:induction false} HitsInOneWindow(counts: map<RateKey, nat>, key: string, times: seq<nat>, now: nat)
    requires forall i :: 0 <= i < |times| ==> WindowStart(times[i]) == WindowStart(now)
    ensures |times| > 0 ==> KeyFor(key, now) in Replay(counts, key, times)
    ensures KeyFor(key, now) in counts ==>
      Replay(counts, key, times)[KeyFor(key, now)] == counts[KeyFor(key, now)] + |times|
    ensures KeyFor(key, now) !in counts && |times| > 0 ==> Replay(counts, key, times)[KeyFor(key, now)] == |times|
    decreases |times|
  {
    if |times| > 0 {
      var next := IncrementSpec(counts, key, times[0]).counts;
      assert KeyFor(key, times[0]) == KeyFor(key, now);
      HitsInOneWindow(next, key, times[1..], now);
    }
  }

  /** Hits on one key leave every other identifier's rows as they were. */
  lemma {:induction false} ReplayKeepsOtherKeys(counts: map<RateKey, nat>, key: string, times: seq<nat>, k: RateKey)
    requires k in counts && k.identifier != key
    ensures k in Replay(counts, key, times) && Replay(counts, key, times)[k] == counts[k]
    decreases |times|
  {
    if |times| > 0 {
      ReplayKeepsOtherKeys(IncrementSpec(counts, key, times[0]).counts, key, times[1..], k);
    }
  }

  /** After a reset, the next hit on that key starts again from one. */
  lemma ResetStartsOver(counts: map<RateKey, nat>, key: string, now: nat)
    ensures IncrementSpec(WithoutKey(counts, key), key, now).totalHits == 1
  {
  }

  /** A later window starts from one whatever the earlier windows counted. */
  lemma NewWindowStartsOver(counts: map<RateKey, nat>, key: string, now: nat)
    requires forall k :: k in counts && k.identifier == key ==> k.windowStart < WindowStart(now)
    ensures IncrementSpec(counts, key, now).totalHits == 1
  {
  }

  datatype LimiterKind = General | Auth | TransferLimit | AccountCreation

  /** The `max` each limiter is configured with. */
  function MaxHits(kind: LimiterKind): nat {
    match kind
    case General => 100
    case Auth => 5
    case TransferLimit => 10
    case AccountCreation => 3
  }

  /** The `windowMs` each limiter is configured with; the store never reads it. */
  function ConfiguredWindowMs(kind: LimiterKind): nat {
    match kind
    case General => 900000
    case Auth => 900000
    case TransferLimit => 3600000
    case AccountCreation => 86400000
  }

  /** Each limiter's `keyGenerator`. */
  function LimiterKey(kind: LimiterKind, req: Request): string {
    match kind
    case General => Jwt.GetIpAddress(req)
    case Auth => "auth:" + Jwt.GetIpAddress(req)
    case TransferLimit => "transfer:" + OrElse(req.userId, Jwt.GetIpAddress(req))
    case AccountCreation => "account:" + OrElse(req.userId, Jwt.GetIpAddress(req))
  }

  /** Only the transfer limiter has a `skip`: unauthenticated requests. */
  predicate Skipped(kind: LimiterKind, req: Request) {
    kind == TransferLimit && !Truthy(req.userId)
  }

  datatype Refusal = Refusal(status: int, error: string, message: string, retryAfter: int)

  /** Each limiter's `handler`. */
  function RefusalOf(kind: LimiterKind): (r: Refusal)
    ensures r.status == 429 && r.retryAfter == ConfiguredWindowMs(kind) / 1000
  {
    match kind
    case General => Refusal(429, "Too many requests", "Rate limit exceeded. Please try again later.", 900)
    case Auth => Refusal(429, "Too many authentication attempts", "Please try again in 15 minutes.", 900)
    case TransferLimit => Refusal(429, "Transfer limit exceeded", "Maximum 10 transfers per hour allowed.", 3600)
    case AccountCreation => Refusal(429, "Account creation limit exceeded", "Maximum 3 accounts per day allowed.", 86400)
  }

  /**
   * One pass through a limiter: unless skipped, count the hit and refuse
   * once the count exceeds the limiter's maximum (the rule of the rate-limit
   * library, whose code is not part of this model).
   */
  method Limit(store: RateLimitStore, kind: LimiterKind, req: Request, now: nat) returns (r: Option<Refusal>)
    modifies store
    ensures Skipped(kind, req) ==> r.None? && store.counts == old(store.counts)
    ensures !Skipped(kind, req) ==>
      var h := IncrementSpec(old(store.counts), LimiterKey(kind, req), now);
      store.counts == h.counts && (r.Some? <==> h.totalHits > MaxHits(kind))
      && (r.Some? ==> r.value == RefusalOf(kind))
  {
    if Skipped(kind, req) {
      return None;
    }
    var totalHits, _ := store.Increment(LimiterKey(kind, req), now);
    if totalHits > MaxHits(kind) {
      r := Some(RefusalOf(kind));
    } else {
      r := None;
    }
  }

  /** Whenever the transfer limiter counts a request, it counts it against the user, never the IP. */
  lemma TransferKeyIsUser(req: Request)
    requires !Skipped(TransferLimit, req)
    ensures LimiterKey(TransferLimit, req) == "transfer:" + req.userId.value
  {
  }

  /** The prefixed limiters never share a counter, whatever the two requests are. */
  lemma PrefixedKeysDisjoint(k1: LimiterKind, k2: LimiterKind, r1: Request, r2: Request)
    requires k1 != General && k2 != General && k1 != k2
    ensures LimiterKey(k1, r1) != LimiterKey(k2, r2)
  {
    var a, b := LimiterKey(k1, r1), LimiterKey(k2, r2);
    assert a[0] != b[0] || a[1] != b[1];
  }

  /**
   * The account-creation limiter is configured for 3 per day, but the
   * store counts in 15-minute windows: a user with 3 creations in one
   * window is counted afresh in the next one, well within the day.
   */
  lemma AccountLimitResetsAfterQuarterHour(req: Request, earlier: nat)
    requires Truthy(req.userId)
    ensures var key := LimiterKey(AccountCreation, req);
      var counts := map[KeyFor(key, earlier) := MaxHits(AccountCreation)];
      var later := WindowStart(earlier) + WINDOW_MS;
      later - earlier <= WINDOW_MS < ConfiguredWindowMs(AccountCreation)
      && IncrementSpec(counts, key, later).totalHits == 1 <= MaxHits(AccountCreation)
  {
    var key := LimiterKey(AccountCreation, req);
    var later := WindowStart(earlier) + WINDOW_MS;
    assert later % WINDOW_MS == 0;
    assert WindowStart(later) == later;
    assert KeyFor(key, earlier) != KeyFor(key, later);
  }
}
