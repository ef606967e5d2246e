/**
 * Role-based access control: the permission, any-permission and role
 * gates. Each looks the caller up with their roles and permissions, answers
 * 401 for a missing caller or a missing or inactive user, and on a denial
 * appends one BLOCKED audit record and answers 403.
 */
module Rbac {
  import opened Common
  import opened Records
  import opened Requests

  /** `prisma.user.findUnique({ where: { id } })`. */
  function FindUser(users: seq<User>, id: string): (r: Option<User>)
    ensures r.Some? ==> r.value in users && r.value.id == id
    ensures r.None? <==> forall u :: u in users ==> u.id != id
  {
    if |users| == 0 then None
    else if users[0].id == id then Some(users[0])
    else FindUser(users[1..], id)
  }

  /** `req.headers['x-forwarded-for'] || req.connection.remoteAddress || 'unknown'`: the raw header, unsplit. */
  function RawIp(req: Request): (r: string)
    ensures Truthy(Header(req, "x-forwarded-for")) ==> r == req.headers["x-forwarded-for"]
    ensures !Truthy(Header(req, "x-forwarded-for")) && Truthy(req.connectionRemoteAddress) ==>
      r == req.connectionRemoteAddress.value
    ensures !Truthy(Header(req, "x-forwarded-for")) && !Truthy(req.connectionRemoteAddress) ==> r == "unknown"
  {
    OrElse(Header(req, "x-forwarded-for"), OrElse(req.connectionRemoteAddress, "unknown"))
  }

  /** What a gate does: call `next()` (with the permissions it stores, if any), or answer with an error. */
  datatype Gate = Next(userPermissions: Option<seq<string>>) | Refuse(status: int, error: string, message: string)

  /** The shared first steps: the caller must be signed in and be an active stored user. */
  datatype Caller = NoCaller(status: int, error: string) | ActiveUser(user: User)

  function LoadCaller(req: Request, users: seq<User>): (r: Caller)
    ensures !Truthy(req.userId) ==> r == NoCaller(401, "Unauthorized")
    ensures Truthy(req.userId) && r.NoCaller? ==> r == NoCaller(401, "User not found or inactive")
    ensures r.ActiveUser? <==>
      Truthy(req.userId) && FindUser(users, req.userId.value).Some? && FindUser(users, req.userId.value).value.isActive
    ensures r.ActiveUser? ==> r.user.isActive && Some(r.user) == FindUser(users, req.userId.value)
  {
    if !Truthy(req.userId) then NoCaller(401, "Unauthorized")
    else match FindUser(users, req.userId.value)
      case None => NoCaller(401, "User not found or inactive")
      case Some(u) => if !u.isActive then NoCaller(401, "User not found or inactive") else ActiveUser(u)
  }

  /** `user.roles.some((r) => r.role.permissions.some((p) => p.permission.name === required))`. */
  predicate HasPermission(u: User, required: string) {
    exists i :: 0 <= i < |u.roles| && required in u.roles[i].permissions
  }

  predicate HasRole(u: User, required: string) {
    exists i :: 0 <= i < |u.roles| && u.roles[i].name == required
  }

  /** The BLOCKED record a denial appends (no device info is logged). */
  function DenialRecord(req: Request, userId: string, action: string, resource: string, metadata: Metadata,
                        now: int): AuditRecord {
    AuditRecord(Some(userId), action, Some(resource), None, Blocked, Some(RawIp(req)), Header(req, "user-agent"),
                None, metadata, now)
  }

  function PermissionDeniedRecord(req: Request, u: User, required: string, now: int): (r: AuditRecord)
    requires req.userId.Some?
    ensures r.userId == req.userId && r.action == "PERMISSION_DENIED" && r.status == Blocked
    ensures r.resource == Some(required) && r.deviceInfo.None?
    ensures r.metadata.Keys == {"requiredPermission", "userRoles"}
      && r.metadata["requiredPermission"] == MStr(required) && r.metadata["userRoles"] == MList(RoleNames(u))
  {
    DenialRecord(req, req.userId.value, "PERMISSION_DENIED", required,
                 map["requiredPermission" := MStr(required), "userRoles" := MList(RoleNames(u))], now)
  }

  function PermissionDecision(req: Request, users: seq<User>, required: string): (r: Gate)
    ensures r.Next? <==> LoadCaller(req, users).ActiveUser? && HasPermission(LoadCaller(req, users).user, required)
    ensures r.Next? ==> r.userPermissions == Some(PermissionNames(LoadCaller(req, users).user.roles))
    ensures LoadCaller(req, users).NoCaller? ==> r.Refuse? && r.status == 401
    ensures LoadCaller(req, users).ActiveUser? && !r.Next? ==>
      r == Refuse(403, "Forbidden", "You don't have permission: " + required)
  {
    match LoadCaller(req, users)
    case NoCaller(s, e) => Refuse(s, e, "")
    case ActiveUser(u) =>
      if !HasPermission(u, required) then Refuse(403, "Forbidden", "You don't have permission: " + required)
      else Next(Some(PermissionNames(u.roles)))
  }

  /** `requirePermission(required)`: a 403 appends one PERMISSION_DENIED record; anything else appends none. */
  method RequirePermission(req: Request, users: seq<User>, required: string, audit: AuditStore, now: int)
    returns (g: Gate)
    modifies audit
    ensures g == PermissionDecision(req, users, required)
    ensures audit.records == old(audit.records)
      + (if g.Refuse? && g.status == 403
         then [PermissionDeniedRecord(req, LoadCaller(req, users).user, required, now)] else [])
  {
    g := PermissionDecision(req, users, required);
    if g.Refuse? && g.status == 403 {
      audit.records := audit.records + [PermissionDeniedRecord(req, LoadCaller(req, users).user, required, now)];
    }
  }

  /** `requiredPermissions.some((p) => userPermissions.includes(p))`. */
  predicate HasAnyPermission(u: User, required: seq<string>) {
    exists k :: 0 <= k < |required| && required[k] in PermissionNames(u.roles)
  }

  function AnyDeniedRecord(req: Request, u: User, required: seq<string>, now: int): (r: AuditRecord)
    requires req.userId.Some?
    ensures r.userId == req.userId && r.action == "PERMISSION_DENIED" && r.status == Blocked
    ensures r.resource == Some(Join(required, " OR ")) && r.deviceInfo.None?
    ensures r.metadata.Keys == {"requiredPermissions", "userRoles"}
      && r.metadata["requiredPermissions"] == MList(required) && r.metadata["userRoles"] == MList(RoleNames(u))
  {
    DenialRecord(req, req.userId.value, "PERMISSION_DENIED", Join(required, " OR "),
                 map["requiredPermissions" := MList(required), "userRoles" := MList(RoleNames(u))], now)
  }

  function AnyPermissionDecision(req: Request, users: seq<User>, required: seq<string>): (r: Gate)
    ensures r.Next? <==> LoadCaller(req, users).ActiveUser? && HasAnyPermission(LoadCaller(req, users).user, required)
    ensures r.Next? ==> r.userPermissions == Some(PermissionNames(LoadCaller(req, users).user.roles))
    ensures LoadCaller(req, users).NoCaller? ==> r.Refuse? && r.status == 401
    ensures LoadCaller(req, users).ActiveUser? && !r.Next? ==>
      r == Refuse(403, "Forbidden", "You don't have any of the required permissions")
  {
    match LoadCaller(req, users)
    case NoCaller(s, e) => Refuse(s, e, "")
    case ActiveUser(u) =>
      if !HasAnyPermission(u, required) then Refuse(403, "Forbidden", "You don't have any of the required permissions")
      else Next(Some(PermissionNames(u.roles)))
  }

  /** `requireAnyPermission(required)`. */
  method RequireAnyPermission(req: Request, users: seq<User>, required: seq<string>, audit: AuditStore, now: int)
    returns (g: Gate)
    modifies audit
    ensures g == AnyPermissionDecision(req, users, required)
    ensures audit.records == old(audit.records)
      + (if g.Refuse? && g.status == 403 then [AnyDeniedRecord(req, LoadCaller(req, users).user, required, now)] else [])
  {
    g := AnyPermissionDecision(req, users, required);
    if g.Refuse? && g.status == 403 {
      audit.records := audit.records + [AnyDeniedRecord(req, LoadCaller(req, users).user, required, now)];
    }
  }

  function RoleDeniedRecord(req: Request, u: User, required: string, now: int): (r: AuditRecord)
    requires req.userId.Some?
    ensures r.userId == req.userId && r.action == "ROLE_DENIED" && r.status == Blocked
    ensures r.resource == Some(required) && r.deviceInfo.None?
    ensures r.metadata.Keys == {"requiredRole", "userRoles"}
      && r.metadata["requiredRole"] == MStr(required) && r.metadata["userRoles"] == MList(RoleNames(u))
  {
    DenialRecord(req, req.userId.value, "ROLE_DENIED", required,
                 map["requiredRole" := MStr(required), "userRoles" := MList(RoleNames(u))], now)
  }

  function RoleDecision(req: Request, users: seq<User>, required: string): (r: Gate)
    ensures r.Next? <==> LoadCaller(req, users).ActiveUser? && required in RoleNames(LoadCaller(req, users).user)
    ensures r.Next? ==> r.userPermissions.None?
    ensures LoadCaller(req, users).NoCaller? ==> r.Refuse? && r.status == 401
    ensures LoadCaller(req, users).ActiveUser? && !r.Next? ==>
      r == Refuse(403, "Forbidden", "You don't have the required role: " + required)
  {
    match LoadCaller(req, users)
    case NoCaller(s, e) => Refuse(s, e, "")
    case ActiveUser(u) =>
      if !HasRole(u, required) then Refuse(403, "Forbidden", "You don't have the required role: " + required)
      else Next(None)
  }

  /** `requireRole(required)`. */
  method RequireRole(req: Request, users: seq<User>, required: string, audit: AuditStore, now: int)
    returns (g: Gate)
    modifies audit
    ensures g == RoleDecision(req, users, required)
    ensures audit.records == old(audit.records)
      + (if g.Refuse? && g.status == 403 then [RoleDeniedRecord(req, LoadCaller(req, users).user, required, now)] else [])
  {
    g := RoleDecision(req, users, required);
    if g.Refuse? && g.status == 403 {
      audit.records := audit.records + [RoleDeniedRecord(req, LoadCaller(req, users).user, required, now)];
    }
  }

  /** Holding a permission through some role is the same as finding it in the flattened list. */
  lemma HasPermissionIffListed(u: User, required: string)
    ensures HasPermission(u, required) <==> required in PermissionNames(u.roles)
  {
    if required in PermissionNames(u.roles) {
      var role :| role in u.roles && required in role.permissions;
      var i :| 0 <= i < |u.roles| && u.roles[i] == role;
    }
    if HasPermission(u, required) {
      var i :| 0 <= i < |u.roles| && required in u.roles[i].permissions;
      assert u.roles[i] in u.roles;
    }
  }

  /** An empty list of alternatives lets no one through. */
  lemma AnyOfNoneDenies(req: Request, users: seq<User>)
    ensures AnyPermissionDecision(req, users, []).Refuse?
  {
  }

  /** With a single alternative, the any-permission gate lets through the same callers as the permission gate. */
  lemma AnyOfOneIsPermission(req: Request, users: seq<User>, required: string)
    ensures AnyPermissionDecision(req, users, [required]).Next? <==> PermissionDecision(req, users, required).Next?
    ensures AnyPermissionDecision(req, users, [required]).Next? ==>
      AnyPermissionDecision(req, users, [required]) == PermissionDecision(req, users, required)
  {
    var c := LoadCaller(req, users);
    if c.ActiveUser? {
      HasPermissionIffListed(c.user, required);
      assert [required][0] == required;
      assert HasAnyPermission(c.user, [required]) <==> required in PermissionNames(c.user.roles);
    }
  }

  /** Adding alternatives never turns a pass into a denial. */
  lemma AnyOfMoreNeverDenies(req: Request, users: seq<User>, required: seq<string>, extra: seq<string>)
    requires AnyPermissionDecision(req, users, required).Next?
    ensures AnyPermissionDecision(req, users, required + extra).Next?
  {
    var u := LoadCaller(req, users).user;
    var k :| 0 <= k < |required| && required[k] in PermissionNames(u.roles);
    assert (required + extra)[k] == required[k];
  }

  /** The role gate passes exactly when a role of the active user has the required name. */
  lemma RoleGateIff(req: Request, users: seq<User>, required: string)
    ensures RoleDecision(req, users, required).Next? <==>
      LoadCaller(req, users).ActiveUser? && HasRole(LoadCaller(req, users).user, required)
  {
    var c := LoadCaller(req, users);
    if c.ActiveUser? {
      if HasRole(c.user, required) {
        var i :| 0 <= i < |c.user.roles| && c.user.roles[i].name == required;
        assert RoleNames(c.user)[i] == required;
      }
    }
  }
}
