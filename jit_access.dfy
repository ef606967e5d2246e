/**
 * Just-in-time access: temporary grants kept in the audit log. A request
 * appends a JIT_ACCESS_REQUEST record carrying a token and an expiry;
 * verification looks the token up among the ten newest SUCCESS grants for
 * the user and resource and appends a JIT_ACCESS_USED record when it
 * passes; revocation marks the matching grants REVOKED in place.
 *
 * An audit record's id is its position in the table. Times are
 * milliseconds; the expiry is stored as that number.
 */
module JitAccess {
  import opened Common
  import opened Records
  import opened Pagination

  const JIT_REQUEST: string := "JIT_ACCESS_REQUEST"
  const JIT_USED: string := "JIT_ACCESS_USED"
  const DEFAULT_DURATION: int := 30
  const MINUTE: int := 60000
  const VERIFY_WINDOW: nat := 10
  const REVOKE_SCAN: nat := 100

  datatype JitRequest = JitRequest(
    userId: string,
    resource: string,
    resourceId: string,
    action: string,
    reason: string,
    duration: Option<int>)

  datatype JitGrant = JitGrant(
    id: string,
    token: string,
    expiresAt: int,
    resource: string,
    resourceId: string,
    action: string)

  /** `request.duration || 30`, in minutes. */
  function Duration(d: Option<int>): (r: int)
    ensures (d.None? || d.value == 0) ==> r == DEFAULT_DURATION
    ensures d.Some? && d.value != 0 ==> r == d.value
  {
    if d.Some? && d.value != 0 then d.value else DEFAULT_DURATION
  }

  function ExpiresAt(d: Option<int>, now: int): int {
    now + Duration(d) * MINUTE
  }

  /**
   * The record `requestJITAccess` writes: a grant for the request's user and
   * resource, carrying the token and the action, that expires once the
   * clock passes `ExpiresAt`.
   */
  function GrantRecord(req: JitRequest, token: string, now: int): (r: AuditRecord)
    ensures IsGrantFor(r, req.userId, req.resource, req.resourceId) && HasToken(r, token) && ActionIs(r, req.action)
    ensures forall t :: Expired(r, t) <==> t > ExpiresAt(req.duration, now)
    ensures r.createdAt == now
  {
    AuditRecord(Some(req.userId), JIT_REQUEST, Some(req.resource), Some(req.resourceId), Success,
                None, None, None,
                map["jitToken" := MStr(token), "expiresAt" := MInt(ExpiresAt(req.duration, now)),
                    "reason" := MStr(req.reason), "action" := MStr(req.action)],
                now)
  }

  /** The record a successful `verifyJITAccess` writes: never itself a grant, pointing at the grant used. */
  function UsedRecord(userId: string, resource: string, resourceId: string, token: string, grant: nat,
                      now: int): (r: AuditRecord)
    ensures forall u, res, id :: !IsGrantFor(r, u, res, id)
    ensures r.userId == Some(userId) && r.action == JIT_USED && HasToken(r, token)
    ensures "originalRequestId" in r.metadata && r.metadata["originalRequestId"] == MInt(grant)
  {
    AuditRecord(Some(userId), JIT_USED, Some(resource), Some(resourceId), Success, None, None, None,
                map["jitToken" := MStr(token), "originalRequestId" := MInt(grant)], now)
  }

  /** `requestJITAccess`: one grant record appended; the grant returned. */
  method RequestJitAccess(store: AuditStore, req: JitRequest, now: int, token: string, grantId: string)
    returns (g: JitGrant)
    modifies store
    ensures store.records == old(store.records) + [GrantRecord(req, token, now)]
    ensures g == JitGrant(grantId, token, ExpiresAt(req.duration, now), req.resource, req.resourceId, req.action)
  {
    var expiresAt := now + Duration(req.duration) * MINUTE;
    store.records := store.records + [GrantRecord(req, token, now)];
    g := JitGrant(grantId, token, expiresAt, req.resource, req.resourceId, req.action);
  }

  /** The `where` clause of the verification query. */
  predicate IsGrantFor(r: AuditRecord, userId: string, resource: string, resourceId: string) {
    && r.userId == Some(userId) && r.action == JIT_REQUEST
    && r.resource == Some(resource) && r.resourceId == Some(resourceId) && r.status == Success
  }

  /** `metadata?.jitToken === token`. */
  predicate HasToken(r: AuditRecord, token: string) {
    "jitToken" in r.metadata && r.metadata["jitToken"] == MStr(token)
  }

  /** `new Date(metadata.expiresAt) < new Date()`; a missing or unreadable expiry never expires. */
  predicate Expired(r: AuditRecord, now: int) {
    "expiresAt" in r.metadata && r.metadata["expiresAt"].MInt? && r.metadata["expiresAt"].whole < now
  }

  predicate ActionIs(r: AuditRecord, action: string) {
    "action" in r.metadata && r.metadata["action"] == MStr(action)
  }

  /** The positions of the grants for the user and resource, oldest first. */
  function GrantIndices(records: seq<AuditRecord>, userId: string, resource: string, resourceId: string)
    : (r: seq<nat>)
    ensures forall k :: 0 <= k < |r| ==> r[k] < |records| && IsGrantFor(records[r[k]], userId, resource, resourceId)
    ensures forall i :: 0 <= i < |records| && IsGrantFor(records[i], userId, resource, resourceId) ==> i in r
    decreases |records|
  {
    if |records| == 0 then []
    else
      var n := |records| - 1;
      GrantIndices(records[..n], userId, resource, resourceId)
      + (if IsGrantFor(records[n], userId, resource, resourceId) then [n] else [])
  }

  /** The stamp of the record at a position (positions past the table never occur as grants). */
  function GrantTime(records: seq<AuditRecord>): nat -> int {
    (i: nat) => if i < |records| then records[i].createdAt else 0
  }

  /** `orderBy: { createdAt: 'desc' }, take: 10` over the grants. */
  function Candidates(records: seq<AuditRecord>, userId: string, resource: string, resourceId: string)
    : (r: seq<nat>)
    ensures |r| <= VERIFY_WINDOW
    ensures forall k :: 0 <= k < |r| ==> r[k] < |records| && IsGrantFor(records[r[k]], userId, resource, resourceId)
  {
    var gi := GrantIndices(records, userId, resource, resourceId);
    var r := Newest(gi, GrantTime(records), VERIFY_WINDOW);
    assert forall k :: 0 <= k < |r| ==> r[k] in multiset(gi);
    r
  }

  /**
   * The candidates are the ten newest grants, newest first: each grant at
   * most once, and no grant left out is newer than one taken.
   */
  lemma CandidatesAreNewest(records: seq<AuditRecord>, userId: string, resource: string, resourceId: string)
    ensures var gi, r := GrantIndices(records, userId, resource, resourceId), Candidates(records, userId, resource, resourceId);
      && |r| == Min(|gi|, VERIFY_WINDOW)
      && (forall k, l :: 0 <= k < l < |r| ==> records[r[k]].createdAt >= records[r[l]].createdAt)
      && multiset(r) <= multiset(gi)
      && forall i, k ::
           0 <= i < |records| && IsGrantFor(records[i], userId, resource, resourceId) && i !in r && 0 <= k < |r|
           ==> records[i].createdAt <= records[r[k]].createdAt
  {
    var gi, r := GrantIndices(records, userId, resource, resourceId), Candidates(records, userId, resource, resourceId);
    var key := GrantTime(records);
    assert SortedDesc(r, key);
    forall k, l | 0 <= k < l < |r|
      ensures records[r[k]].createdAt >= records[r[l]].createdAt
    {
      assert key(r[k]) >= key(r[l]);
    }
    forall i, k | 0 <= i < |records| && IsGrantFor(records[i], userId, resource, resourceId) && i !in r && 0 <= k < |r|
      ensures records[i].createdAt <= records[r[k]].createdAt
    {
      NewestAreNewest<nat>(gi, key, VERIFY_WINDOW, i);
      assert key(i) <= key(r[k]);
    }
  }

  /** `jitGrants.find(...)`: the first candidate carrying the token. */
  function FindToken(records: seq<AuditRecord>, cands: seq<nat>, token: string): (r: Option<nat>)
    requires forall k :: 0 <= k < |cands| ==> cands[k] < |records|
    ensures r.Some? ==> r.value in cands && HasToken(records[r.value], token)
    ensures r.None? <==> forall k :: 0 <= k < |cands| ==> !HasToken(records[cands[k]], token)
  {
    if |cands| == 0 then None
    else if HasToken(records[cands[0]], token) then Some(cands[0])
    else FindToken(records, cands[1..], token)
  }

  /** What `verifyJITAccess` decides: the grant used, or `None` for `false`. */
  function CheckJit(records: seq<AuditRecord>, token: string, userId: string, resource: string,
                    resourceId: string, action: string, now: int): (r: Option<nat>)
    ensures r.Some? ==>
      && r.value < |records| && IsGrantFor(records[r.value], userId, resource, resourceId)
      && HasToken(records[r.value], token) && !Expired(records[r.value], now) && ActionIs(records[r.value], action)
      && r.value in Candidates(records, userId, resource, resourceId)
  {
    Decide(records, Candidates(records, userId, resource, resourceId), token, action, now)
  }

  /** Among the candidates, the first with the token, if it is unexpired and covers the action. */
  function Decide(records: seq<AuditRecord>, cands: seq<nat>, token: string, action: string, now: int)
    : (r: Option<nat>)
    requires forall k :: 0 <= k < |cands| ==> cands[k] < |records|
    ensures r.Some? ==>
      && r.value in cands && r.value < |records| && HasToken(records[r.value], token)
      && !Expired(records[r.value], now) && ActionIs(records[r.value], action)
  {
    match FindToken(records, cands, token)
    case None => None
    case Some(g) =>
      if Expired(records[g], now) then None
      else if !ActionIs(records[g], action) then None
      else Some(g)
  }

  /**
   * Only the ten newest grants count: every grant for the user and
   * resource created after the one that verifies is also a candidate, so
   * fewer than ten of them are newer.
   */
  lemma {:induction false} UsedGrantWithinWindow(records: seq<AuditRecord>, token: string, userId: string, resource: string,
                              resourceId: string, action: string, now: int)
    ensures var d := CheckJit(records, token, userId, resource, resourceId, action, now);
      var cands := Candidates(records, userId, resource, resourceId);
      d.Some? ==> forall i ::
        0 <= i < |records| && IsGrantFor(records[i], userId, resource, resourceId)
        && records[i].createdAt > records[d.value].createdAt
        ==> i in cands
  {
    var d := CheckJit(records, token, userId, resource, resourceId, action, now);
    if d.Some? {
      forall i | 0 <= i < |records| && IsGrantFor(records[i], userId, resource, resourceId)
                 && records[i].createdAt > records[d.value].createdAt
        ensures i in Candidates(records, userId, resource, resourceId)
      {
        CandidateInWindow(records, userId, resource, resourceId, d.value, i);
      }
    }
  }

  /** A grant newer than a candidate is a candidate. */
  lemma {:induction false} CandidateInWindow(records: seq<AuditRecord>, userId: string, resource: string,
                                             resourceId: string, x: nat, i: nat)
    requires x in Candidates(records, userId, resource, resourceId)
    requires i < |records| && IsGrantFor(records[i], userId, resource, resourceId)
    requires records[i].createdAt > records[x].createdAt
    ensures i in Candidates(records, userId, resource, resourceId)
  {
    var gi := GrantIndices(records, userId, resource, resourceId);
    NewerThanTakenIsTaken(gi, GrantTime(records), VERIFY_WINDOW, x, i);
  }

  /**
   * On a log written by a clock that never goes back, the candidates are
   * the last ten grants in table order, last first.
   */
  lemma CandidatesOfSortedLog(records: seq<AuditRecord>, userId: string, resource: string, resourceId: string)
    requires SortedAsc(records, RecordCreatedAt)
    ensures var gi := GrantIndices(records, userId, resource, resourceId);
      Candidates(records, userId, resource, resourceId) == NewestFirst(LastN(gi, VERIFY_WINDOW))
  {
    var gi := GrantIndices(records, userId, resource, resourceId);
    GrantIndicesAscending(records, userId, resource, resourceId);
    forall k, l | 0 <= k < l < |gi|
      ensures GrantTime(records)(gi[k]) <= GrantTime(records)(gi[l])
    {
      assert RecordCreatedAt(records[gi[k]]) <= RecordCreatedAt(records[gi[l]]);
    }
    NewestOfSorted(gi, GrantTime(records), VERIFY_WINDOW);
  }

  predicate Increasing(s: seq<nat>) {
    forall k, l :: 0 <= k < l < |s| ==> s[k] < s[l]
  }

  /** The grant positions are increasing. */
  lemma {:induction false} GrantIndicesAscending(records: seq<AuditRecord>, userId: string, resource: string,
                                                 resourceId: string)
    ensures Increasing(GrantIndices(records, userId, resource, resourceId))
    decreases |records|
  {
    if |records| > 0 {
      var n := |records| - 1;
      var init := GrantIndices(records[..n], userId, resource, resourceId);
      GrantIndicesAscending(records[..n], userId, resource, resourceId);
      var gi := GrantIndices(records, userId, resource, resourceId);
      assert gi == init + (if IsGrantFor(records[n], userId, resource, resourceId) then [n] else []);
      forall k, l | 0 <= k < l < |gi|
        ensures gi[k] < gi[l]
      {
        if l < |init| {
          assert gi[k] == init[k] && gi[l] == init[l];
          assert init[k] < init[l];
        } else {
          assert gi[k] == init[k] < |records[..n]| == n == gi[l];
        }
      }
    }
  }

  /** `verifyJITAccess`: on success one JIT_ACCESS_USED record is appended; on failure nothing is. */
  method VerifyJitAccess(store: AuditStore, token: string, userId: string, resource: string, resourceId: string,
                         action: string, now: int) returns (ok: bool)
    modifies store
    ensures var d := CheckJit(old(store.records), token, userId, resource, resourceId, action, now);
      && (ok <==> d.Some?)
      && (d.None? ==> store.records == old(store.records))
      && (d.Some? ==> store.records == old(store.records) + [UsedRecord(userId, resource, resourceId, token, d.value, now)])
  {
    var cands := Candidates(store.records, userId, resource, resourceId);
    var found := FindToken(store.records, cands, token);
    if found.None? {
      return false;
    }
    var g := found.value;
    if Expired(store.records[g], now) {
      return false;
    }
    if !ActionIs(store.records[g], action) {
      return false;
    }
    store.records := store.records + [UsedRecord(userId, resource, resourceId, token, g, now)];
    ok := true;
  }

  /** Appending a record that is not a grant for the user and resource leaves the grants as they were. */
  lemma GrantIndicesAppendOther(records: seq<AuditRecord>, x: AuditRecord, userId: string, resource: string,
                                resourceId: string)
    requires !IsGrantFor(x, userId, resource, resourceId)
    ensures GrantIndices(records + [x], userId, resource, resourceId) == GrantIndices(records, userId, resource, resourceId)
  {
    assert (records + [x])[..|records|] == records;
  }

  lemma GrantIndicesAppendGrant(records: seq<AuditRecord>, x: AuditRecord, userId: string, resource: string,
                                resourceId: string)
    requires IsGrantFor(x, userId, resource, resourceId)
    ensures GrantIndices(records + [x], userId, resource, resourceId)
      == GrantIndices(records, userId, resource, resourceId) + [|records|]
  {
    assert (records + [x])[..|records|] == records;
  }

  /** No grant for the request's user and resource was stamped after `t`. */
  predicate NoLaterGrant(records: seq<AuditRecord>, req: JitRequest, t: int) {
    forall i :: 0 <= i < |records| && IsGrantFor(records[i], req.userId, req.resource, req.resourceId) ==>
      records[i].createdAt <= t
  }

  /** A grant stamped no earlier than the other grants heads the candidates. */
  lemma NewGrantFirst(records: seq<AuditRecord>, req: JitRequest, token: string, issuedAt: int)
    requires NoLaterGrant(records, req, issuedAt)
    ensures var cands := Candidates(records + [GrantRecord(req, token, issuedAt)], req.userId, req.resource,
                                    req.resourceId);
      |cands| > 0 && cands[0] == |records|
  {
    var g := GrantRecord(req, token, issuedAt);
    var recs := records + [g];
    var gi := GrantIndices(records, req.userId, req.resource, req.resourceId);
    GrantIndicesAppendGrant(records, g, req.userId, req.resource, req.resourceId);
    forall y | y in gi
      ensures GrantTime(recs)(y) <= GrantTime(recs)(|records|)
    {
      assert recs[y] == records[y];
    }
    var n: nat := |records|;
    ByNewestLatestFirst<nat>(gi, n, GrantTime(recs));
  }

  /**
   * A grant just requested verifies: until its expiry, the same user,
   * resource, resource id and action pass with its token, whatever older
   * grants came before.
   */
  lemma RequestThenVerify(records: seq<AuditRecord>, req: JitRequest, token: string, issuedAt: int, now: int)
    requires NoLaterGrant(records, req, issuedAt)
    requires now <= ExpiresAt(req.duration, issuedAt)
    ensures CheckJit(records + [GrantRecord(req, token, issuedAt)], token, req.userId, req.resource,
                     req.resourceId, req.action, now) == Some(|records|)
  {
    var g := GrantRecord(req, token, issuedAt);
    assert g.metadata["expiresAt"] == MInt(ExpiresAt(req.duration, issuedAt));
    assert g.metadata["action"] == MStr(req.action);
    NewGrantChecked(records, req, token, issuedAt, req.action, now);
  }

  /** The same grant no longer verifies once its expiry has passed. */
  lemma RequestThenExpire(records: seq<AuditRecord>, req: JitRequest, token: string, issuedAt: int, now: int)
    requires NoLaterGrant(records, req, issuedAt)
    requires now > ExpiresAt(req.duration, issuedAt)
    ensures CheckJit(records + [GrantRecord(req, token, issuedAt)], token, req.userId, req.resource,
                     req.resourceId, req.action, now).None?
  {
    NewGrantChecked(records, req, token, issuedAt, req.action, now);
  }

  /** Nor does it verify for any other action. */
  lemma RequestThenOtherAction(records: seq<AuditRecord>, req: JitRequest, token: string, issuedAt: int,
                               action: string, now: int)
    requires NoLaterGrant(records, req, issuedAt)
    requires action != req.action
    ensures CheckJit(records + [GrantRecord(req, token, issuedAt)], token, req.userId, req.resource,
                     req.resourceId, action, now).None?
  {
    NewGrantChecked(records, req, token, issuedAt, action, now);
  }

  /** The check of a token against a fresh grant is decided by that grant alone. */
  lemma NewGrantChecked(records: seq<AuditRecord>, req: JitRequest, token: string, issuedAt: int,
                        action: string, now: int)
    requires NoLaterGrant(records, req, issuedAt)
    ensures var g := GrantRecord(req, token, issuedAt);
      CheckJit(records + [g], token, req.userId, req.resource, req.resourceId, action, now)
        == (if Expired(g, now) || !ActionIs(g, action) then None else Some(|records|))
  {
    var g := GrantRecord(req, token, issuedAt);
    var recs := records + [g];
    NewGrantFirst(records, req, token, issuedAt);
    var cands := Candidates(recs, req.userId, req.resource, req.resourceId);
    assert recs[|records|] == g;
    assert HasToken(g, token);
    assert FindToken(recs, cands, token) == Some(|records|);
  }

  /** A row appended after the grants leaves the candidates as they were when it is not a grant. */
  lemma CandidatesAppendOther(records: seq<AuditRecord>, x: AuditRecord, userId: string, resource: string,
                              resourceId: string)
    requires !IsGrantFor(x, userId, resource, resourceId)
    ensures Candidates(records + [x], userId, resource, resourceId) == Candidates(records, userId, resource, resourceId)
  {
    var gi := GrantIndices(records, userId, resource, resourceId);
    GrantIndicesAppendOther(records, x, userId, resource, resourceId);
    forall i | i in gi
      ensures GrantTime(records + [x])(i) == GrantTime(records)(i)
    {
      assert (records + [x])[i] == records[i];
    }
    ByNewestKeyAgree(gi, GrantTime(records + [x]), GrantTime(records));
  }

  /** A successful verification does not use the grant up: the same check passes again. */
  lemma VerifyDoesNotConsume(records: seq<AuditRecord>, token: string, userId: string, resource: string,
                             resourceId: string, action: string, now: int, g: nat)
    ensures CheckJit(records + [UsedRecord(userId, resource, resourceId, token, g, now)], token, userId,
                     resource, resourceId, action, now)
      == CheckJit(records, token, userId, resource, resourceId, action, now)
  {
    CheckJitAppendOther(records, UsedRecord(userId, resource, resourceId, token, g, now), token, userId,
                        resource, resourceId, action, now);
  }

  /** Appending a row that is not a grant for the user and resource changes no verification. */
  lemma CheckJitAppendOther(records: seq<AuditRecord>, x: AuditRecord, token: string, userId: string,
                            resource: string, resourceId: string, action: string, now: int)
    requires !IsGrantFor(x, userId, resource, resourceId)
    ensures CheckJit(records + [x], token, userId, resource, resourceId, action, now)
      == CheckJit(records, token, userId, resource, resourceId, action, now)
  {
    CandidatesAppendOther(records, x, userId, resource, resourceId);
    DecideAppend(records, x, Candidates(records, userId, resource, resourceId), token, action, now);
  }

  /** Deciding among old rows gives the same answer after a row is appended. */
  lemma DecideAppend(records: seq<AuditRecord>, x: AuditRecord, cands: seq<nat>, token: string, action: string,
                     now: int)
    requires forall k :: 0 <= k < |cands| ==> cands[k] < |records|
    ensures Decide(records + [x], cands, token, action, now) == Decide(records, cands, token, action, now)
  {
    FindTokenPrefix(records, x, cands, token);
    var f := FindToken(records, cands, token);
    if f.Some? {
      assert (records + [x])[f.value] == records[f.value];
    }
  }

  /** Looking a token up among old rows gives the same answer after a row is appended. */
  lemma {:induction false} FindTokenPrefix(records: seq<AuditRecord>, x: AuditRecord, cands: seq<nat>, token: string)
    requires forall k :: 0 <= k < |cands| ==> cands[k] < |records|
    ensures FindToken(records + [x], cands, token) == FindToken(records, cands, token)
  {
    if |cands| > 0 {
      assert (records + [x])[cands[0]] == records[cands[0]];
      FindTokenPrefix(records, x, cands[1..], token);
    }
  }

  /** A record of the user's JIT requests, the rows the revocation query returns. */
  predicate IsRequestOf(r: AuditRecord, userId: string) {
    r.userId == Some(userId) && r.action == JIT_REQUEST
  }

  /**
   * The rows `findMany({ where: { userId, action }, take: 100 })` returns,
   * in no particular order: distinct positions of the user's requests, and
   * either 100 of them or all of them.
   */
  predicate ScanValid(records: seq<AuditRecord>, userId: string, scan: seq<nat>) {
    && (forall k :: 0 <= k < |scan| ==> scan[k] < |records| && IsRequestOf(records[scan[k]], userId))
    && (forall k, l :: 0 <= k < l < |scan| ==> scan[k] != scan[l])
    && (|scan| == REVOKE_SCAN || ScanComplete(records, userId, scan))
  }

  predicate ScanComplete(records: seq<AuditRecord>, userId: string, scan: seq<nat>) {
    forall i :: 0 <= i < |records| && IsRequestOf(records[i], userId) ==> i in scan
  }

  /** `grantsToRevoke`: the scanned rows carrying the token. */
  function ToRevoke(records: seq<AuditRecord>, scan: seq<nat>, token: string): (r: seq<nat>)
    requires forall k :: 0 <= k < |scan| ==> scan[k] < |records|
    ensures forall k :: 0 <= k < |r| ==> r[k] in scan && HasToken(records[r[k]], token)
    ensures forall k :: 0 <= k < |scan| && HasToken(records[scan[k]], token) ==> scan[k] in r
  {
    if |scan| == 0 then []
    else (if HasToken(records[scan[0]], token) then [scan[0]] else []) + ToRevoke(records, scan[1..], token)
  }

  /**
   * `revokeJITAccess`: each scanned grant with the token becomes REVOKED;
   * no other field and no other record changes.
   */
  method RevokeJitAccess(store: AuditStore, token: string, userId: string, scan: seq<nat>)
    requires ScanValid(store.records, userId, scan)
    modifies store
    ensures |store.records| == |old(store.records)|
    ensures forall i :: 0 <= i < |store.records| ==>
      store.records[i] == (if i in ToRevoke(old(store.records), scan, token)
                           then old(store.records)[i].(status := Revoked) else old(store.records)[i])
  {
    var revoke := ToRevoke(store.records, scan, token);
    ghost var before := store.records;
    for k := 0 to |revoke|
      invariant |store.records| == |before|
      invariant forall i :: 0 <= i < |before| ==>
        store.records[i] == (if i in revoke[..k] then before[i].(status := Revoked) else before[i])
    {
      var id := revoke[k];
      assert revoke[..k + 1] == revoke[..k] + [id];
      store.records := store.records[id := store.records[id].(status := Revoked)];
    }
    assert revoke[..|revoke|] == revoke;
  }

  /** The revocation result as a value: what `RevokeJitAccess` leaves in the table. */
  function AfterRevoke(records: seq<AuditRecord>, scan: seq<nat>, token: string): (r: seq<AuditRecord>)
    requires forall k :: 0 <= k < |scan| ==> scan[k] < |records|
    ensures |r| == |records|
    ensures forall i :: 0 <= i < |records| ==>
      r[i] == (if i in ToRevoke(records, scan, token) then records[i].(status := Revoked) else records[i])
  {
    seq(|records|, i requires 0 <= i < |records| =>
      if i in ToRevoke(records, scan, token) then records[i].(status := Revoked) else records[i])
  }

  /**
   * When the scan saw all of the user's requests, a revoked token no longer
   * verifies for any resource or action.
   */
  lemma RevokeThenVerifyFails(records: seq<AuditRecord>, token: string, userId: string, scan: seq<nat>,
                              resource: string, resourceId: string, action: string, now: int)
    requires ScanValid(records, userId, scan) && ScanComplete(records, userId, scan)
    ensures CheckJit(AfterRevoke(records, scan, token), token, userId, resource, resourceId, action, now).None?
  {
    var after := AfterRevoke(records, scan, token);
    var cands := Candidates(after, userId, resource, resourceId);
    forall k | 0 <= k < |cands|
      ensures !HasToken(after[cands[k]], token)
    {
      var i := cands[k];
      assert IsGrantFor(after[i], userId, resource, resourceId);
      assert i !in ToRevoke(records, scan, token);
      assert after[i] == records[i];
      assert i in scan;
      var m :| 0 <= m < |scan| && scan[m] == i;
    }
  }

  /** Revocation only touches the status of the user's own request records. */
  lemma RevokeTouchesOnlyOwnRequests(records: seq<AuditRecord>, token: string, userId: string, scan: seq<nat>, i: nat)
    requires ScanValid(records, userId, scan) && i < |records|
    ensures var after := AfterRevoke(records, scan, token);
      && after[i].(status := records[i].status) == records[i]
      && (after[i] != records[i] ==> IsRequestOf(records[i], userId) && HasToken(records[i], token))
  {
  }
}
