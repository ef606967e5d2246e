/**
 * The audit log service: `create` appends one record to the append-only
 * log and swallows any storage failure, and each `log*` helper builds the
 * record of one kind of event and hands it to `create`.
 *
 * Object spread `{ a, b, ...m }` is the right-biased map union
 * `map[a, b] + m` (keys of `m` win); `{ ...m, t }` is `m + map[t]`.
 * Whether the storage write succeeds is a parameter; the clock (`now`, and
 * the ISO timestamp `logLogin` adds) is one too.
 */
module AuditLogService {
  import opened Common
  import opened Records

  /** The argument of `create`. */
  datatype AuditLogData = AuditLogData(
    userId: Option<string>,
    action: string,
    resource: Option<string>,
    resourceId: Option<string>,
    status: Status,
    ipAddress: Option<string>,
    userAgent: Option<string>,
    deviceInfo: Option<string>,
    metadata: Option<Metadata>)

  /** `...metadata` of an optional caller object: nothing when absent. */
  function Spread(m: Option<Metadata>): Metadata {
    if m.Some? then m.value else map[]
  }

  /** The stored row; absent metadata is stored as `{}`. */
  function RecordOf(data: AuditLogData, now: int): (r: AuditRecord)
    ensures data.metadata.None? ==> r.metadata == map[]
    ensures data.metadata.Some? ==> r.metadata == data.metadata.value
    ensures r.userId == data.userId && r.action == data.action && r.status == data.status
    ensures r.createdAt == now
  {
    AuditRecord(data.userId, data.action, data.resource, data.resourceId, data.status,
                data.ipAddress, data.userAgent, data.deviceInfo, Spread(data.metadata), now)
  }

  /** `AuditLogService.create`: appends the record, or nothing when the write fails; it never fails itself. */
  method Create(store: AuditStore, data: AuditLogData, now: int, writeSucceeds: bool)
    modifies store
    ensures store.records == old(store.records) + (if writeSucceeds then [RecordOf(data, now)] else [])
  {
    if writeSucceeds {
      store.records := store.records + [RecordOf(data, now)];
    }
  }

  function LoginData(userId: Option<string>, status: Status, ipAddress: string, userAgent: string,
                     deviceInfo: string, metadata: Option<Metadata>, timestamp: string): AuditLogData
  {
    AuditLogData(userId, "LOGIN", None, None, status, Some(ipAddress), Some(userAgent), Some(deviceInfo),
                 Some(Spread(metadata) + map["timestamp" := MStr(timestamp)]))
  }

  function LogoutData(userId: string, ipAddress: string, userAgent: string, deviceInfo: string): AuditLogData {
    AuditLogData(Some(userId), "LOGOUT", None, None, Success, Some(ipAddress), Some(userAgent), Some(deviceInfo), None)
  }

  datatype CustomerAction = View | Modify | List

  function CustomerActionName(a: CustomerAction): string {
    match a
    case View => "VIEW"
    case Modify => "MODIFY"
    case List => "LIST"
  }

  function CustomerAccessData(employeeId: string, customerId: string, action: CustomerAction, ipAddress: string,
                              userAgent: string, deviceInfo: string, metadata: Option<Metadata>): AuditLogData
  {
    AuditLogData(Some(employeeId), "CUSTOMER_" + CustomerActionName(action), Some("customer"), Some(customerId),
                 Success, Some(ipAddress), Some(userAgent), Some(deviceInfo),
                 Some(map["customerId" := MStr(customerId)] + Spread(metadata)))
  }

  function TransferData(userId: string, transactionId: string, amount: Money, fromAccountId: string,
                        toAccountId: string, status: Status, ipAddress: string, userAgent: string,
                        deviceInfo: string, metadata: Option<Metadata>): AuditLogData
  {
    AuditLogData(Some(userId), "TRANSFER", Some("transaction"), Some(transactionId), status,
                 Some(ipAddress), Some(userAgent), Some(deviceInfo),
                 Some(map["amount" := MNum(amount), "fromAccountId" := MStr(fromAccountId),
                          "toAccountId" := MStr(toAccountId)] + Spread(metadata)))
  }

  function FailedAccessData(userId: Option<string>, action: string, resource: string, reason: string,
                            ipAddress: string, userAgent: string, deviceInfo: string): AuditLogData
  {
    AuditLogData(userId, action, Some(resource), None, Failed, Some(ipAddress), Some(userAgent), Some(deviceInfo),
                 Some(map["reason" := MStr(reason), "blocked" := MBool(true)]))
  }

  function PermissionDeniedData(userId: string, requiredPermission: string, ipAddress: string, userAgent: string,
                                deviceInfo: string): AuditLogData
  {
    AuditLogData(Some(userId), "PERMISSION_DENIED", Some(requiredPermission), None, Blocked,
                 Some(ipAddress), Some(userAgent), Some(deviceInfo),
                 Some(map["requiredPermission" := MStr(requiredPermission)]))
  }

  function EmployeeActivityData(employeeId: string, action: string, resource: string, resourceId: Option<string>,
                                ipAddress: string, userAgent: string, deviceInfo: string,
                                metadata: Option<Metadata>): AuditLogData
  {
    AuditLogData(Some(employeeId), "EMPLOYEE_" + action, Some(resource), resourceId, Success,
                 Some(ipAddress), Some(userAgent), Some(deviceInfo),
                 Some(map["employeeId" := MStr(employeeId)] + Spread(metadata)))
  }

  /** `logLogin`: a SUCCESS or FAILED login record. */
  method LogLogin(store: AuditStore, userId: Option<string>, status: Status, ipAddress: string, userAgent: string,
                  deviceInfo: string, metadata: Option<Metadata>, timestamp: string, now: int, writeSucceeds: bool)
    requires status == Success || status == Failed
    modifies store
    ensures store.records == old(store.records)
      + (if writeSucceeds then [RecordOf(LoginData(userId, status, ipAddress, userAgent, deviceInfo, metadata, timestamp), now)] else [])
  {
    Create(store, LoginData(userId, status, ipAddress, userAgent, deviceInfo, metadata, timestamp), now, writeSucceeds);
  }

  /** `logLogout`. */
  method LogLogout(store: AuditStore, userId: string, ipAddress: string, userAgent: string, deviceInfo: string,
                   now: int, writeSucceeds: bool)
    modifies store
    ensures store.records == old(store.records)
      + (if writeSucceeds then [RecordOf(LogoutData(userId, ipAddress, userAgent, deviceInfo), now)] else [])
  {
    Create(store, LogoutData(userId, ipAddress, userAgent, deviceInfo), now, writeSucceeds);
  }

  /** `logCustomerAccess`. */
  method LogCustomerAccess(store: AuditStore, employeeId: string, customerId: string, action: CustomerAction,
                           ipAddress: string, userAgent: string, deviceInfo: string, metadata: Option<Metadata>,
                           now: int, writeSucceeds: bool)
    modifies store
    ensures store.records == old(store.records)
      + (if writeSucceeds
         then [RecordOf(CustomerAccessData(employeeId, customerId, action, ipAddress, userAgent, deviceInfo, metadata), now)]
         else [])
  {
    Create(store, CustomerAccessData(employeeId, customerId, action, ipAddress, userAgent, deviceInfo, metadata),
           now, writeSucceeds);
  }

  /** `logTransfer`. */
  method LogTransfer(store: AuditStore, userId: string, transactionId: string, amount: Money, fromAccountId: string,
                     toAccountId: string, status: Status, ipAddress: string, userAgent: string, deviceInfo: string,
                     metadata: Option<Metadata>, now: int, writeSucceeds: bool)
    requires status != Revoked
    modifies store
    ensures store.records == old(store.records)
      + (if writeSucceeds
         then [RecordOf(TransferData(userId, transactionId, amount, fromAccountId, toAccountId, status,
                                     ipAddress, userAgent, deviceInfo, metadata), now)]
         else [])
  {
    Create(store, TransferData(userId, transactionId, amount, fromAccountId, toAccountId, status,
                               ipAddress, userAgent, deviceInfo, metadata), now, writeSucceeds);
  }

  /** `logFailedAccess`. */
  method LogFailedAccess(store: AuditStore, userId: Option<string>, action: string, resource: string, reason: string,
                         ipAddress: string, userAgent: string, deviceInfo: string, now: int, writeSucceeds: bool)
    modifies store
    ensures store.records == old(store.records)
      + (if writeSucceeds
         then [RecordOf(FailedAccessData(userId, action, resource, reason, ipAddress, userAgent, deviceInfo), now)]
         else [])
  {
    Create(store, FailedAccessData(userId, action, resource, reason, ipAddress, userAgent, deviceInfo), now, writeSucceeds);
  }

  /** `logPermissionDenied`. */
  method LogPermissionDenied(store: AuditStore, userId: string, requiredPermission: string, ipAddress: string,
                             userAgent: string, deviceInfo: string, now: int, writeSucceeds: bool)
    modifies store
    ensures store.records == old(store.records)
      + (if writeSucceeds
         then [RecordOf(PermissionDeniedData(userId, requiredPermission, ipAddress, userAgent, deviceInfo), now)]
         else [])
  {
    Create(store, PermissionDeniedData(userId, requiredPermission, ipAddress, userAgent, deviceInfo), now, writeSucceeds);
  }

  /** `logEmployeeActivity`. */
  method LogEmployeeActivity(store: AuditStore, employeeId: string, action: string, resource: string,
                             resourceId: Option<string>, ipAddress: string, userAgent: string, deviceInfo: string,
                             metadata: Option<Metadata>, now: int, writeSucceeds: bool)
    modifies store
    ensures store.records == old(store.records)
      + (if writeSucceeds
         then [RecordOf(EmployeeActivityData(employeeId, action, resource, resourceId, ipAddress, userAgent,
                                             deviceInfo, metadata), now)]
         else [])
  {
    Create(store, EmployeeActivityData(employeeId, action, resource, resourceId, ipAddress, userAgent,
                                       deviceInfo, metadata), now, writeSucceeds);
  }

  /** The login timestamp overrides a caller "timestamp"; every other caller key is kept. */
  lemma LoginTimestampWins(userId: Option<string>, status: Status, ipAddress: string, userAgent: string,
                           deviceInfo: string, metadata: Option<Metadata>, timestamp: string, now: int)
    ensures var r := RecordOf(LoginData(userId, status, ipAddress, userAgent, deviceInfo, metadata, timestamp), now);
      && r.action == "LOGIN"
      && r.metadata["timestamp"] == MStr(timestamp)
      && r.metadata.Keys == Spread(metadata).Keys + {"timestamp"}
      && forall k :: k in Spread(metadata) && k != "timestamp" ==> r.metadata[k] == Spread(metadata)[k]
  {
  }

  /** A caller "customerId" key overrides the customer id in the metadata; the row's resourceId stays. */
  lemma CustomerIdOverridable(employeeId: string, customerId: string, action: CustomerAction, ipAddress: string,
                              userAgent: string, deviceInfo: string, metadata: Option<Metadata>, now: int)
    ensures var r := RecordOf(CustomerAccessData(employeeId, customerId, action, ipAddress, userAgent, deviceInfo,
                                                 metadata), now);
      && r.resource == Some("customer") && r.resourceId == Some(customerId) && r.status == Success
      && r.action == "CUSTOMER_" + CustomerActionName(action)
      && r.metadata["customerId"] ==
           (if "customerId" in Spread(metadata) then Spread(metadata)["customerId"] else MStr(customerId))
  {
  }

  /** The transfer's own keys are defaults: caller metadata wins on all three. */
  lemma TransferMetadataOverridable(userId: string, transactionId: string, amount: Money, fromAccountId: string,
                                    toAccountId: string, status: Status, ipAddress: string, userAgent: string,
                                    deviceInfo: string, metadata: Option<Metadata>, now: int)
    ensures var r := RecordOf(TransferData(userId, transactionId, amount, fromAccountId, toAccountId, status,
                                           ipAddress, userAgent, deviceInfo, metadata), now);
      var m := Spread(metadata);
      && r.action == "TRANSFER" && r.resource == Some("transaction") && r.resourceId == Some(transactionId)
      && r.metadata.Keys == {"amount", "fromAccountId", "toAccountId"} + m.Keys
      && r.metadata["amount"] == (if "amount" in m then m["amount"] else MNum(amount))
      && r.metadata["fromAccountId"] == (if "fromAccountId" in m then m["fromAccountId"] else MStr(fromAccountId))
      && r.metadata["toAccountId"] == (if "toAccountId" in m then m["toAccountId"] else MStr(toAccountId))
  {
  }

  /** Failed access is FAILED and marked blocked; permission denial is BLOCKED; employee actions are prefixed. */
  lemma HelperStatuses(userId: string, action: string, resource: string, reason: string, ipAddress: string,
                       userAgent: string, deviceInfo: string, now: int)
    ensures var r := RecordOf(FailedAccessData(Some(userId), action, resource, reason, ipAddress, userAgent,
                                               deviceInfo), now);
      r.status == Failed && r.metadata["blocked"] == MBool(true) && r.metadata["reason"] == MStr(reason)
    ensures RecordOf(PermissionDeniedData(userId, resource, ipAddress, userAgent, deviceInfo), now).status == Blocked
    ensures var r := RecordOf(EmployeeActivityData(userId, action, resource, None, ipAddress, userAgent, deviceInfo,
                                                   None), now);
      r.status == Success && StartsWith(r.action, "EMPLOYEE_") && r.action[9..] == action
      && r.metadata == map["employeeId" := MStr(userId)]
  {
  }
}
