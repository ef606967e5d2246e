/**
 * Attribute-based access control: the policy check over a context of user,
 * resource, action and environment, and the `requireABAC(resourceType,
 * action)` middleware that builds that context from the request, the user
 * table and the account table.
 */
module Abac {
  import opened Common
  import opened Records
  import opened Requests
  import Rbac

  datatype AbacUser = AbacUser(id: string, roles: seq<string>, permissions: seq<string>)

  /** `amount` is the one resource attribute a policy reads. */
  datatype AbacResource = AbacResource(resourceType: string, id: Option<string>, ownerId: Option<string>,
                                       amount: Option<real>)

  datatype Environment = Environment(ipAddress: Option<string>, timeOfDay: Option<int>, deviceInfo: Option<string>)

  datatype AbacContext = AbacContext(user: AbacUser, resource: AbacResource, action: string,
                                     environment: Option<Environment>)

  predicate Staff(u: AbacUser) {
    "ADMIN" in u.roles || "EMPLOYEE" in u.roles
  }

  /** Policy 1: a resource with an owner other than the caller needs an ADMIN or EMPLOYEE role. */
  predicate OwnershipAllows(ctx: AbacContext) {
    Truthy(ctx.resource.ownerId) && ctx.resource.ownerId.value != ctx.user.id ==> Staff(ctx.user)
  }

  /** Policy 2: an EMPLOYEE on customer data needs `customer:view`, and `customer:modify` for anything but reading. */
  predicate EmployeeRuleAllows(ctx: AbacContext) {
    "EMPLOYEE" in ctx.user.roles && ctx.resource.resourceType == "customer" ==>
      "customer:view" in ctx.user.permissions
      && (ctx.action == "read" || "customer:modify" in ctx.user.permissions)
  }

  /** Policy 3 applies only when the context carries a non-zero time of day. */
  predicate TimeOfDaySet(ctx: AbacContext) {
    ctx.environment.Some? && ctx.environment.value.timeOfDay.Some? && ctx.environment.value.timeOfDay.value != 0
  }

  predicate HighValueTransfer(ctx: AbacContext) {
    ctx.action == "transfer:create" && ctx.resource.amount.Some? && ctx.resource.amount.value > 100000.0
  }

  /** Policy 3: a high-value transfer is only allowed from 9:00 to 17:59. */
  predicate BusinessHoursAllows(ctx: AbacContext, hour: int) {
    TimeOfDaySet(ctx) && HighValueTransfer(ctx) ==> 9 <= hour <= 17
  }

  /**
   * `checkABACPolicy(context)`, the policies in their order with early
   * returns; `hour` is the clock's hour at the time of the check. Policy 4
   * (trusted IPs for ADMIN) has an empty body and decides nothing.
   */
  function CheckAbacPolicy(ctx: AbacContext, hour: int): (allowed: bool)
    ensures allowed <==> OwnershipAllows(ctx) && EmployeeRuleAllows(ctx) && BusinessHoursAllows(ctx, hour)
  {
    var u := ctx.user;
    if Truthy(ctx.resource.ownerId) && ctx.resource.ownerId.value != u.id && !Staff(u) then false
    else if "EMPLOYEE" in u.roles && ctx.resource.resourceType == "customer" && !("customer:view" in u.permissions) then false
    else if "EMPLOYEE" in u.roles && ctx.resource.resourceType == "customer" && ctx.action != "read"
      && !("customer:modify" in u.permissions) then false
    else if TimeOfDaySet(ctx) && HighValueTransfer(ctx) && (hour < 9 || hour > 17) then false
    else true
  }

  /** A caller with no staff role is refused any resource owned by someone else. */
  lemma NonOwnerDenied(ctx: AbacContext, hour: int)
    requires Truthy(ctx.resource.ownerId) && ctx.resource.ownerId.value != ctx.user.id
    requires !("ADMIN" in ctx.user.roles) && !("EMPLOYEE" in ctx.user.roles)
    ensures !CheckAbacPolicy(ctx, hour)
  {
  }

  /** An EMPLOYEE changing customer data needs both customer permissions. */
  lemma EmployeeModifyNeedsBoth(ctx: AbacContext, hour: int)
    requires "EMPLOYEE" in ctx.user.roles && ctx.resource.resourceType == "customer" && ctx.action != "read"
    requires CheckAbacPolicy(ctx, hour)
    ensures "customer:view" in ctx.user.permissions && "customer:modify" in ctx.user.permissions
  {
  }

  /** A time of day of 0 (midnight) is falsy, so the business-hours policy is skipped entirely. */
  lemma MidnightSkipsBusinessHours(ctx: AbacContext, h1: int, h2: int)
    requires ctx.environment.Some? && ctx.environment.value.timeOfDay == Some(0)
    ensures CheckAbacPolicy(ctx, h1) == CheckAbacPolicy(ctx, h2)
  {
  }

  /** Outside business hours, a high-value transfer with a time of day set is refused whoever asks. */
  lemma HighValueTransferAtNightDenied(ctx: AbacContext, hour: int)
    requires TimeOfDaySet(ctx) && HighValueTransfer(ctx) && (hour < 9 || hour > 17)
    ensures !CheckAbacPolicy(ctx, hour)
  {
  }

  /** Granting more permissions never turns an allowed context into a denied one. */
  lemma MorePermissionsNeverDeny(ctx: AbacContext, extra: seq<string>, hour: int)
    requires CheckAbacPolicy(ctx, hour)
    ensures CheckAbacPolicy(ctx.(user := ctx.user.(permissions := ctx.user.permissions + extra)), hour)
  {
  }

  /**
   * Roles are not monotone: an EMPLOYEE role without `customer:view` is
   * refused customer data that the same caller may read as a plain customer.
   */
  lemma EmployeeRoleCanDeny()
    ensures var plain := AbacContext(AbacUser("u1", [], []), AbacResource("customer", Some("u1"), Some("u1"), None),
                                     "read", None);
            CheckAbacPolicy(plain, 12)
            && !CheckAbacPolicy(plain.(user := plain.user.(roles := ["EMPLOYEE"])), 12)
  {
    var plain := AbacContext(AbacUser("u1", [], []), AbacResource("customer", Some("u1"), Some("u1"), None),
                             "read", None);
    var employee := plain.(user := plain.user.(roles := ["EMPLOYEE"]));
    assert "EMPLOYEE" in employee.user.roles;
    assert !("customer:view" in employee.user.permissions);
  }

  /** `req.params.id || req.body.id || req.query.id`: the first truthy one, else the query's value as it is. */
  function ResourceId(paramsId: Option<string>, bodyId: Option<string>, queryId: Option<string>): (r: Option<string>)
    ensures Truthy(r) <==> Truthy(paramsId) || Truthy(bodyId) || Truthy(queryId)
    ensures Truthy(paramsId) ==> r == paramsId
    ensures !Truthy(paramsId) && Truthy(bodyId) ==> r == bodyId
    ensures !Truthy(paramsId) && !Truthy(bodyId) ==> r == queryId
  {
    if Truthy(paramsId) then paramsId else if Truthy(bodyId) then bodyId else queryId
  }

  /** The owner: the stored account's user for an account, the id itself for a customer, else none. */
  function ResourceOwner(resourceType: string, resourceId: Option<string>, accounts: seq<Account>): (r: Option<string>)
    ensures r.Some? ==> Truthy(resourceId) && (resourceType == "account" || resourceType == "customer")
    ensures Truthy(resourceId) && resourceType == "customer" ==> r == resourceId
    ensures Truthy(resourceId) && resourceType == "account" ==>
      (r.None? <==> !HasAccount(accounts, resourceId.value))
    ensures r.Some? && resourceType == "account" ==>
      exists k :: 0 <= k < |accounts| && accounts[k].id == resourceId.value && accounts[k].userId == r.value
  {
    if Truthy(resourceId) && resourceType == "account" then
      match FindAccount(accounts, resourceId.value)
      case None => None
      case Some(k) => Some(accounts[k].userId)
    else if Truthy(resourceId) && resourceType == "customer" then resourceId
    else None
  }

  /** The context the middleware builds; it sets no resource attributes, so no amount. */
  function BuildContext(resourceType: string, action: string, req: Request, u: User, resourceId: Option<string>,
                        accounts: seq<Account>, hour: int): (ctx: AbacContext)
    ensures ctx.user == AbacUser(u.id, RoleNames(u), PermissionNames(u.roles))
    ensures ctx.resource == AbacResource(resourceType, resourceId, ResourceOwner(resourceType, resourceId, accounts), None)
    ensures ctx.action == action
    ensures ctx.environment == Some(Environment(Some(Rbac.RawIp(req)), Some(hour), Header(req, "user-agent")))
  {
    AbacContext(AbacUser(u.id, RoleNames(u), PermissionNames(u.roles)),
                AbacResource(resourceType, resourceId, ResourceOwner(resourceType, resourceId, accounts), None),
                action,
                Some(Environment(Some(Rbac.RawIp(req)), Some(hour), Header(req, "user-agent"))))
  }

  datatype AbacGate = AbacNext(context: AbacContext) | AbacRefuse(status: int, error: string, message: string)

  function AbacDecision(resourceType: string, action: string, req: Request, users: seq<User>,
                        resourceId: Option<string>, accounts: seq<Account>, hour: int): (r: AbacGate)
    ensures Rbac.LoadCaller(req, users).NoCaller? ==>
      r == AbacRefuse(Rbac.LoadCaller(req, users).status, Rbac.LoadCaller(req, users).error, "")
    ensures Rbac.LoadCaller(req, users).ActiveUser? ==>
      var ctx := BuildContext(resourceType, action, req, Rbac.LoadCaller(req, users).user, resourceId, accounts, hour);
      r == (if CheckAbacPolicy(ctx, hour) then AbacNext(ctx)
            else AbacRefuse(403, "Forbidden", "Access denied by ABAC policy"))
  {
    match Rbac.LoadCaller(req, users)
    case NoCaller(s, e) => AbacRefuse(s, e, "")
    case ActiveUser(u) =>
      var ctx := BuildContext(resourceType, action, req, u, resourceId, accounts, hour);
      if !CheckAbacPolicy(ctx, hour) then AbacRefuse(403, "Forbidden", "Access denied by ABAC policy")
      else AbacNext(ctx)
  }

  /** A string field that is left out when it is undefined, as `JSON.stringify` leaves it out. */
  function OptStr(key: string, v: Option<string>): map<string, Meta> {
    if v.Some? then map[key := MStr(v.value)] else map[]
  }

  function OptInt(key: string, v: Option<int>): map<string, Meta> {
    if v.Some? then map[key := MInt(v.value)] else map[]
  }

  function UserMeta(u: AbacUser): map<string, Meta> {
    map["id" := MStr(u.id), "roles" := MList(u.roles), "permissions" := MList(u.permissions)]
  }

  function ResourceMeta(res: AbacResource): map<string, Meta> {
    map["type" := MStr(res.resourceType)] + OptStr("id", res.id) + OptStr("ownerId", res.ownerId)
  }

  function EnvironmentMeta(e: Environment): map<string, Meta> {
    OptStr("ipAddress", e.ipAddress) + OptInt("timeOfDay", e.timeOfDay) + OptStr("deviceInfo", e.deviceInfo)
  }

  /** The context as the JSON object stored under `metadata.context`. */
  function ContextMeta(ctx: AbacContext): Meta {
    var fields := map["user" := MObj(UserMeta(ctx.user)), "resource" := MObj(ResourceMeta(ctx.resource)),
                      "action" := MStr(ctx.action)];
    match ctx.environment
    case None => MObj(fields)
    case Some(e) => MObj(fields["environment" := MObj(EnvironmentMeta(e))])
  }

  function StrField(m: map<string, Meta>, key: string): Option<string> {
    if key in m && m[key].MStr? then Some(m[key].str) else None
  }

  function IntField(m: map<string, Meta>, key: string): Option<int> {
    if key in m && m[key].MInt? then Some(m[key].whole) else None
  }

  function ReadUser(m: Meta): Option<AbacUser> {
    if m.MObj? && "id" in m.fields && m.fields["id"].MStr? && "roles" in m.fields && m.fields["roles"].MList?
       && "permissions" in m.fields && m.fields["permissions"].MList?
    then Some(AbacUser(m.fields["id"].str, m.fields["roles"].items, m.fields["permissions"].items))
    else None
  }

  /** The stored resource has no amount: the middleware never sets one. */
  function ReadResource(m: Meta): Option<AbacResource> {
    if m.MObj? && "type" in m.fields && m.fields["type"].MStr?
    then Some(AbacResource(m.fields["type"].str, StrField(m.fields, "id"), StrField(m.fields, "ownerId"), None))
    else None
  }

  function ReadEnvironment(f: map<string, Meta>): Option<Environment> {
    if "environment" in f && f["environment"].MObj? then
      var e := f["environment"].fields;
      Some(Environment(StrField(e, "ipAddress"), IntField(e, "timeOfDay"), StrField(e, "deviceInfo")))
    else None
  }

  /** Reading a stored context back; `None` when the object lacks a part every context has. */
  function ReadContext(m: Meta): Option<AbacContext> {
    if !m.MObj? || "user" !in m.fields || "resource" !in m.fields || "action" !in m.fields then None
    else
      var f := m.fields;
      match (ReadUser(f["user"]), ReadResource(f["resource"]), f["action"])
      case (Some(u), Some(res), MStr(action)) => Some(AbacContext(u, res, action, ReadEnvironment(f)))
      case _ => None
  }

  lemma UserRoundTrip(u: AbacUser)
    ensures ReadUser(MObj(UserMeta(u))) == Some(u)
  {
  }

  lemma ResourceRoundTrip(res: AbacResource)
    ensures ReadResource(MObj(ResourceMeta(res))) == Some(res.(amount := None))
  {
    var m := ResourceMeta(res);
    assert StrField(m, "id") == res.id;
    assert StrField(m, "ownerId") == res.ownerId;
  }

  lemma EnvironmentRoundTrip(f: map<string, Meta>, e: Environment)
    ensures ReadEnvironment(f["environment" := MObj(EnvironmentMeta(e))]) == Some(e)
  {
    var m := EnvironmentMeta(e);
    assert StrField(m, "ipAddress") == e.ipAddress;
    assert IntField(m, "timeOfDay") == e.timeOfDay;
    assert StrField(m, "deviceInfo") == e.deviceInfo;
  }

  /**
   * The stored context loses nothing but the resource amount (which the
   * middleware never sets): it reads back as the context.
   */
  lemma ContextMetaRoundTrip(ctx: AbacContext)
    ensures ReadContext(ContextMeta(ctx)) == Some(ctx.(resource := ctx.resource.(amount := None)))
  {
    var fields := map["user" := MObj(UserMeta(ctx.user)), "resource" := MObj(ResourceMeta(ctx.resource)),
                      "action" := MStr(ctx.action)];
    UserRoundTrip(ctx.user);
    ResourceRoundTrip(ctx.resource);
    match ctx.environment
    case None =>
      assert ReadEnvironment(fields) == None;
    case Some(e) =>
      EnvironmentRoundTrip(fields, e);
      var f := fields["environment" := MObj(EnvironmentMeta(e))];
      assert f["user"] == MObj(UserMeta(ctx.user)) && f["resource"] == MObj(ResourceMeta(ctx.resource));
  }

  /**
   * The ABAC_DENIED record: BLOCKED, for the caller and the resource, the
   * environment's address and device string, and the whole context with the
   * reason in its metadata.
   */
  function AbacDeniedRecord(req: Request, ctx: AbacContext, now: int): (r: AuditRecord)
    ensures r.userId == req.userId && r.action == "ABAC_DENIED" && r.status == Blocked && r.createdAt == now
    ensures r.resource == Some(ctx.resource.resourceType) && r.resourceId == ctx.resource.id
    ensures ctx.environment.Some? ==>
      r.ipAddress == ctx.environment.value.ipAddress && r.userAgent == ctx.environment.value.deviceInfo
    ensures "reason" in r.metadata && r.metadata["reason"] == MStr("ABAC policy violation")
    ensures "context" in r.metadata
      && ReadContext(r.metadata["context"]) == Some(ctx.(resource := ctx.resource.(amount := None)))
  {
    var ip := if ctx.environment.Some? then ctx.environment.value.ipAddress else None;
    var ua := if ctx.environment.Some? then ctx.environment.value.deviceInfo else None;
    var stored := ContextMeta(ctx);
    ContextMetaRoundTrip(ctx);
    AuditRecord(req.userId, "ABAC_DENIED", Some(ctx.resource.resourceType), ctx.resource.id, Blocked, ip, ua, None,
                map["context" := stored, "reason" := MStr("ABAC policy violation")], now)
  }

  /** `requireABAC(resourceType, action)`: a 403 appends one ABAC_DENIED record; anything else appends none. */
  method RequireAbac(resourceType: string, action: string, req: Request, users: seq<User>,
                     paramsId: Option<string>, bodyId: Option<string>, queryId: Option<string>,
                     accounts: seq<Account>, audit: AuditStore, hour: int, now: int)
    returns (g: AbacGate)
    modifies audit
    ensures g == AbacDecision(resourceType, action, req, users, ResourceId(paramsId, bodyId, queryId), accounts, hour)
    ensures audit.records == old(audit.records)
      + (if g.AbacRefuse? && g.status == 403 && Rbac.LoadCaller(req, users).ActiveUser?
         then [AbacDeniedRecord(req, BuildContext(resourceType, action, req, Rbac.LoadCaller(req, users).user,
                                                  ResourceId(paramsId, bodyId, queryId), accounts, hour), now)]
         else [])
    ensures g.AbacRefuse? && g.status == 403 ==> Rbac.LoadCaller(req, users).ActiveUser?
  {
    var resourceId := ResourceId(paramsId, bodyId, queryId);
    g := AbacDecision(resourceType, action, req, users, resourceId, accounts, hour);
    if g.AbacRefuse? && g.status == 403 {
      var ctx := BuildContext(resourceType, action, req, Rbac.LoadCaller(req, users).user, resourceId, accounts, hour);
      audit.records := audit.records + [AbacDeniedRecord(req, ctx, now)];
    }
  }

  /** Through the middleware the business-hours policy never fires: the decision does not depend on the hour. */
  lemma MiddlewareIgnoresHour(resourceType: string, action: string, req: Request, users: seq<User>,
                              resourceId: Option<string>, accounts: seq<Account>, h1: int, h2: int)
    ensures AbacDecision(resourceType, action, req, users, resourceId, accounts, h1).AbacNext?
        <==> AbacDecision(resourceType, action, req, users, resourceId, accounts, h2).AbacNext?
  {
  }

  /**
   * For an account, a caller without a staff role gets through exactly
   * when no account id was given, the account does not exist, or they own it.
   */
  lemma AccountGateIff(action: string, req: Request, users: seq<User>, resourceId: Option<string>,
                       accounts: seq<Account>, hour: int)
    requires Rbac.LoadCaller(req, users).ActiveUser?
    requires var u := Rbac.LoadCaller(req, users).user; !("ADMIN" in RoleNames(u)) && !("EMPLOYEE" in RoleNames(u))
    ensures AbacDecision("account", action, req, users, resourceId, accounts, hour).AbacNext? <==>
      !Truthy(resourceId)
      || (var k := FindAccount(accounts, resourceId.value);
          k.None? || accounts[k.value].userId == "" || accounts[k.value].userId == Rbac.LoadCaller(req, users).user.id)
  {
    var u := Rbac.LoadCaller(req, users).user;
    var ctx := BuildContext("account", action, req, u, resourceId, accounts, hour);
    assert !Staff(ctx.user);
    assert !HighValueTransfer(ctx);
    assert CheckAbacPolicy(ctx, hour) <==> OwnershipAllows(ctx);
  }

  /** A customer record is open to its own user, whatever roles they hold, unless the EMPLOYEE rule applies. */
  lemma OwnCustomerRecordAllowed(action: string, req: Request, users: seq<User>, accounts: seq<Account>, hour: int)
    requires Rbac.LoadCaller(req, users).ActiveUser?
    requires !("EMPLOYEE" in RoleNames(Rbac.LoadCaller(req, users).user))
    ensures var id := Some(Rbac.LoadCaller(req, users).user.id);
      AbacDecision("customer", action, req, users, id, accounts, hour).AbacNext?
  {
  }
}
