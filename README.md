# Bank backend decision logic, modelled in Dafny

This project models the decision logic of a demo banking backend. That logic
gates every movement of money and every sensitive read. The project also models
the notification list of the bank's mobile app.

The backend is an Express service over a relational store:

- The money paths:
  - the transfer pipeline, with its transfer limits, fraud rules, account checks and the debit/credit pair;
  - cancellation of a pending transaction, with its reversal;
  - the account, balance and transaction-history endpoints.
- The security middleware that runs before the money paths:
  - the zero-trust orchestrator, with its risk score and IP gate;
  - role-based and attribute-based access control;
  - anti-bruteforce lockout;
  - rate limiting;
  - CSRF protection;
  - input sanitising.
- The append-only audit log, and the endpoints and just-in-time grants built on it.
- Bill lookup.

Every table of the store (accounts, transactions, sessions, audit records) is a
sequence in insertion order, kept in memory. Each row carries its own
`createdAt` stamp. A query with `orderBy createdAt desc` sorts on that stamp
(`Pagination.ByNewest`), not on the row's position, because seeded rows are not
inserted in date order. Prisma's `skip` and `take` are modelled as Prisma
applies them (`Pagination.Window`): a negative skip is rejected, and a negative
take counts back from the end. A few small classes own these
tables, and their methods update them in place:

- `Records.Ledger` holds accounts and transactions.
- `Records.AuditStore` holds the audit log.
- `Records.SessionStore` holds sessions.
- `RateLimiter.RateLimitStore` holds the hit counts.
- `Notifications.NotificationService` holds the mobile list.

Each method is tied by its postcondition to a pure function of the old state.
The properties the code promises are proved about those functions as lemmas.

A few things become parameters:

- the clock (milliseconds since the epoch, the hour of day, the start of today and of the month);
- random draws;
- the SHA-256 hash;
- the answers of unordered queries.

Money is a Dafny `real`, so the code's constants (100,000, 50,000 and so on)
appear unchanged. An optional request field is an `Option`. JavaScript's `||`
fallback is written out with `Common.OrElse` and `Common.Truthy`.

One Dafny module stands for each source file. `Records` and `Requests` hold the
shared entities, and `Pagination` holds the page arithmetic that the list
endpoints share.

Several facts about the code as written are proved as lemmas:

- The fraud engine never yields CRITICAL, so the fraud refusal in `createTransfer` is unreachable (`FraudDetection.CheckFraud`, `TransferController.CreateTransfer`).
- The daily limit is below the single-transaction limit, so the controller's "REVIEW and amount over 50,000" refusal is unreachable (`TransferController.AcceptedAtMostDailyLimit`).
- The transfer route's `minRiskScore` of 70 means a REVIEW never triggers the extra-verification refusal (`ZeroTrust.TransferRouteOnlyBlockDenies`).
- The 1-hour and 24-hour rate limiters count in 15-minute windows (`RateLimiter.AccountLimitResetsAfterQuarterHour`).
- No session token is ever set, so CSRF protection refuses every protected request that lacks a bearer token (`Csrf.NoSessionTokenRefusesAll`).
- ABAC Policy 3, the large-transfer hours rule, never fires through the middleware (`Abac.MiddlewareIgnoresHour`).
- Sanitising twice is not idempotent (`InputValidation.NotIdempotent`).
- Two notifications added in the same millisecond share an id (`Notifications.SameMillisecondIdsCollide`).

## Model

| member | source | states |
|---|---|---|
| Records.RoleNames | backend/src/middleware/rbac.ts:61 | the caller's role names, one per role in the loaded order |
| Records.PermissionNames | backend/src/middleware/rbac.ts:73-75 | a name is in the flattened list exactly when some role of the user grants it |
| Records.FindAccount | backend/src/controllers/transfer.controller.ts:90 | a lookup by id finds a row with that id, and finds nothing exactly when no account has it |
| Records.FindAccountUnique | backend/src/controllers/transfer.controller.ts:90 | with unique ids the lookup of an account's own id returns that account's row |
| Records.FindAccountByNumber | backend/src/controllers/transfer.controller.ts:110 | a lookup by account number finds a row with that number, or no row has it |
| Records.FindTransaction | backend/src/controllers/transaction.controller.ts:176-183 | a lookup by id finds a transaction with that id, or none has it |
| Records.FindTransactionUnique | backend/src/controllers/transaction.controller.ts:176-183 | with unique ids the lookup of a transaction's own id returns its row |
| Records.AccountIdsOf | backend/src/controllers/transaction.controller.ts:34-39 | exactly the ids of the accounts the user owns |
| Jwt.GetDeviceInfo | backend/src/utils/jwt.ts:34-38 | user agent and accept-language, "" when missing, joined by one vertical bar |
| Jwt.ForwardedFor | backend/src/utils/jwt.ts:42 | present exactly when the X-Forwarded-For header is; then a comma-free prefix of it that ends at the end of the header or at a comma |
| Jwt.GetIpAddress | backend/src/utils/jwt.ts:40-47 | never empty; the first forwarded hop, else the connection address, else the socket address, else "unknown" |
| Jwt.ForwardedFirstHop | backend/src/utils/jwt.ts:42 | a forwarded list "a,b" resolves to "a" |
| Jwt.EmptyForwardedFallsBack | backend/src/utils/jwt.ts:42-45 | an empty forwarded header is falsy and falls through to the socket addresses |
| DeviceFingerprint.GenerateDeviceFingerprint | backend/src/utils/deviceFingerprint.ts:7-33 | the hash of the nine header values ("" when missing) joined by vertical bars |
| DeviceFingerprint.SameHeadersSameFingerprint | backend/src/utils/deviceFingerprint.ts:7-33 | two requests agreeing on the nine headers get the same fingerprint |
| DeviceFingerprint.PositionalMatches | backend/src/utils/deviceFingerprint.ts:47-53 | the count of matching positions below n is at most n |
| DeviceFingerprint.CompareDeviceFingerprints | backend/src/utils/deviceFingerprint.ts:39-55 | 1 for equal strings; NaN when different and one is empty; otherwise matches over the shorter length, always in [0, 1] |
| DeviceFingerprint.PrefixMatchesFully | backend/src/utils/deviceFingerprint.ts:47-54 | strings that agree on the first n characters match at all n positions |
| DeviceFingerprint.GetDeviceInfoString | backend/src/utils/deviceFingerprint.ts:60-64 | user agent (default "Unknown") and language joined by a vertical bar between spaces |
| DeviceFingerprint.DeviceStringsNeverAgree | backend/src/utils/deviceFingerprint.ts:60-64 | the readable device string never equals the token module's device string for the same request |
| Rbac.FindUser | backend/src/middleware/rbac.ts:19-36 | finds a stored user with the id, or none exists |
| Rbac.RawIp | backend/src/middleware/rbac.ts:57 | the unsplit forwarded header, else the connection address, else "unknown" |
| Rbac.LoadCaller | backend/src/middleware/rbac.ts:14-40 | 401 "Unauthorized" without a user id, 401 "User not found or inactive" otherwise, an active caller exactly when the stored user exists and is active |
| Rbac.PermissionDecision | backend/src/middleware/rbac.ts:11-77 | passes exactly when the active caller holds the permission through a role, storing all permission names; otherwise 401 or 403 with the permission in the message |
| Rbac.RequirePermission | backend/src/middleware/rbac.ts:49-70 | answers the decision and appends one BLOCKED PERMISSION_DENIED record exactly on a 403 |
| Rbac.AnyPermissionDecision | backend/src/middleware/rbac.ts:89-150 | passes exactly when the active caller holds one of the listed permissions; otherwise 401 or 403 |
| Rbac.RequireAnyPermission | backend/src/middleware/rbac.ts:127-147 | answers the decision and appends one record, resource "a OR b", exactly on a 403 |
| Rbac.RoleDecision | backend/src/middleware/rbac.ts:162-210 | passes exactly when a role of the active caller has the required name; stores nothing |
| Rbac.RequireRole | backend/src/middleware/rbac.ts:188-208 | answers the decision and appends one ROLE_DENIED record exactly on a 403 |
| Rbac.HasPermissionIffListed | backend/src/middleware/rbac.ts:43-75 | holding a permission through a role is the same as its name being in the flattened list |
| Rbac.AnyOfNoneDenies | backend/src/middleware/rbac.ts:123-125 | an empty list of alternatives admits no one |
| Rbac.AnyOfOneIsPermission | backend/src/middleware/rbac.ts:43-125 | with one alternative the two permission gates admit the same callers and store the same permissions |
| Rbac.AnyOfMoreNeverDenies | backend/src/middleware/rbac.ts:123-125 | adding alternatives never turns a pass into a denial |
| Rbac.RoleGateIff | backend/src/middleware/rbac.ts:184-186 | the role gate passes exactly for an active stored user with a role of that name |
| Abac.CheckAbacPolicy | backend/src/middleware/abac.ts:36-78 | allowed exactly when the ownership, employee and business-hours policies all hold |
| Abac.NonOwnerDenied | backend/src/middleware/abac.ts:40-45 | a caller without a staff role is refused any resource someone else owns |
| Abac.EmployeeModifyNeedsBoth | backend/src/middleware/abac.ts:48-56 | an allowed EMPLOYEE change of customer data implies both customer permissions |
| Abac.MidnightSkipsBusinessHours | backend/src/middleware/abac.ts:59 | a time of day of 0 is falsy, so the hour never matters |
| Abac.HighValueTransferAtNightDenied | backend/src/middleware/abac.ts:59-66 | a transfer above 100000 outside 9 to 17 is refused whenever the time of day is set |
| Abac.MorePermissionsNeverDeny | backend/src/middleware/abac.ts:36-78 | granting more permissions never turns an allowed context into a denied one |
| Abac.EmployeeRoleCanDeny | backend/src/middleware/abac.ts:48-51 | adding the EMPLOYEE role can turn an allowed context into a denied one |
| Abac.ResourceId | backend/src/middleware/abac.ts:120 | the first truthy of params, body and query id, else the query's value |
| Abac.ResourceOwner | backend/src/middleware/abac.ts:121-131 | the stored account's user for an account id, the id itself for a customer, else none |
| Abac.BuildContext | backend/src/middleware/abac.ts:114-151 | the context holds the caller's role and permission names, the owner, no amount, and the raw IP, hour and user agent |
| Abac.AbacDecision | backend/src/middleware/abac.ts:87-181 | 401 for a missing or inactive caller; otherwise passes with the context exactly when the policy allows it, else 403 "Access denied by ABAC policy" |
| Abac.RequireAbac | backend/src/middleware/abac.ts:156-177 | answers the decision and appends one record exactly on a 403; that record is the ABAC_DENIED record built from the context of the refused request |
| Abac.MiddlewareIgnoresHour | backend/src/middleware/abac.ts:62-144 | the middleware's decision does not depend on the hour, because it never sets an amount |
| Abac.AccountGateIff | backend/src/middleware/abac.ts:40-128 | for a caller without a staff role, an account request passes exactly when there is no id, no such account, or the caller owns it |
| Abac.OwnCustomerRecordAllowed | backend/src/middleware/abac.ts:129-131 | a customer record is always open to its own non-employee user |
| Abac.AbacDeniedRecord | backend/src/middleware/abac.ts:156-169 | a BLOCKED ABAC_DENIED row of the caller for the context's resource type and id, from its IP and user agent, whose metadata holds the reason and the whole context, read back field by field |
| Abac.ContextMetaRoundTrip | backend/src/middleware/abac.ts:133-150 | the stored context reads back as the context, with the amount the middleware never sets dropped |
| Abac.UserRoundTrip | backend/src/middleware/abac.ts:134-138 | the stored user part reads back unchanged |
| Abac.ResourceRoundTrip | backend/src/middleware/abac.ts:139-143 | the stored resource part reads back unchanged, apart from the absent amount |
| Abac.EnvironmentRoundTrip | backend/src/middleware/abac.ts:145-149 | the stored environment part reads back unchanged |
| Rbac.PermissionDeniedRecord | backend/src/middleware/rbac.ts:51-64 | a BLOCKED PERMISSION_DENIED row of the caller on the required permission, whose metadata holds that permission and the caller's role names |
| Rbac.AnyDeniedRecord | backend/src/middleware/rbac.ts:128-141 | the same row for `requireAnyPermission`, on the permissions joined by " OR ", whose metadata holds the list and the role names |
| Rbac.RoleDeniedRecord | backend/src/middleware/rbac.ts:189-202 | a BLOCKED ROLE_DENIED row of the caller on the required role, whose metadata holds that role and the role names |
| RiskScoring.Descriptions | backend/src/utils/riskScoring.ts:30-121 | one message per fired factor, in order |
| RiskScoring.RecentSessions | backend/src/utils/riskScoring.ts:39-47 | Min(10, the user's sessions) of the user's stored sessions, and no session left out was created later than one taken |
| RiskScoring.Push | backend/src/utils/riskScoring.ts:33-121 | one `factors.push` step: the list gains the factor exactly when its test holds |
| RiskScoring.ScoreOf | backend/src/utils/riskScoring.ts:133-137 | the reported score never exceeds 100 |
| RiskScoring.CalculateRiskScore | backend/src/utils/riskScoring.ts:26-138 | score = min(weighted sum of the seven tests, 100), the fired factors in evaluation order, the recommendation of the uncapped sum, and score 0 exactly when no factor fired |
| RiskScoring.Accumulate | backend/src/utils/riskScoring.ts:29-121 | the seven steps add up the weighted sum and list exactly the fired factors |
| RiskScoring.NothingFiredIff | backend/src/utils/riskScoring.ts:33-121 | the factor list is empty exactly when all seven tests are negative |
| RiskScoring.SumPointsZeroIff | backend/src/utils/riskScoring.ts:29-121 | a list of positive-point factors sums to 0 exactly when it is empty |
| RiskScoring.InFactorsOf | backend/src/utils/riskScoring.ts:33-121 | a factor is listed exactly when its own test holds |
| RiskScoring.FactorsPointsPositive | backend/src/utils/riskScoring.ts:71-74 | every fired factor adds positive points; failed logins fire only with a count above 0 |
| RiskScoring.FactorsOfSignals | backend/src/utils/riskScoring.ts:33-121 | each factor fires exactly under its test, and the failed-login entry carries the count |
| RiskScoring.RawScoreFormula | backend/src/utils/riskScoring.ts:33-121 | the sum of the listed factors is 15, 25, 10 per failure, 20, 15, 20, 10 for the tests that hold |
| RiskScoring.FactorConditions | backend/src/utils/riskScoring.ts:33-118 | off-hours is hour < 6 or > 22; new device needs at least one of the 10 latest sessions and no device string holding the fingerprint's first 16 characters; the amount tests are > 100000 and > 50000 or a customer resource; new IP needs a non-empty known list; rapid is more than 10 actions in 5 minutes |
| RiskScoring.NewIpWhenFewStoredIps | backend/src/utils/riskScoring.ts:83-95 | when the user has fewer than five distinct stored IPs, "known" means stored in one of the user's sessions |
| RiskScoring.RecommendationBands | backend/src/utils/riskScoring.ts:124-134 | BLOCK exactly when the reported score is >= 70, REVIEW for 40 to 69, ALLOW below 40 |
| RiskScoring.ScoreZeroIffNoFactors | backend/src/utils/riskScoring.ts:133-137 | the score is 0 exactly when the factor list is empty |
| RiskScoring.AddingFactorNeverLowers | backend/src/utils/riskScoring.ts:124-137 | a further fired factor never lowers the reported score or the recommendation |
| RiskScoring.EnvList | backend/src/utils/riskScoring.ts:148-149 | an unset variable gives the empty list, a set one never does |
| RiskScoring.CheckIPRestrictions | backend/src/utils/riskScoring.ts:143-169 | allowed exactly when not blacklisted and the whitelist is empty or holds the IP; the reason names the list that refused |
| RiskScoring.NoListsAllowsAll | backend/src/utils/riskScoring.ts:161-168 | with neither list set every address passes, private ranges included |
| RiskScoring.EmptyWhitelistRefusesAll | backend/src/utils/riskScoring.ts:149-159 | a whitelist variable set to "" refuses every non-empty address |
| RiskScoring.SingleWhitelist | backend/src/utils/riskScoring.ts:149-159 | a one-address whitelist admits exactly that address |
| RiskScoring.Recommend | backend/src/utils/riskScoring.ts:123-131 | BLOCK exactly at 70 or more, ALLOW exactly below 40, REVIEW in between |
| RiskScoring.RawScore | backend/src/utils/riskScoring.ts:33-121 | at least 10 per failed login, at most 105 beyond that, and zero exactly when no test fires |
| FraudDetection.Escalate | backend/src/utils/fraudDetection.ts:48-84 | the escalating step never lowers a level and yields MEDIUM or HIGH |
| FraudDetection.Lift | backend/src/utils/fraudDetection.ts:78-108 | the lifting step never lowers a level, never reaches CRITICAL and leaves LOW behind |
| FraudDetection.PushReason | backend/src/utils/fraudDetection.ts:26-107 | one `reasons.push` step: the list grows by the reason exactly when its test holds |
| FraudDetection.CheckFraud | backend/src/utils/fraudDetection.ts:15-125 | level and reasons are those of the rules in order; never CRITICAL; the recommendation follows the level; LOW exactly when no reason; fraud exactly when HIGH with at least three reasons |
| FraudDetection.ApplyRules | backend/src/utils/fraudDetection.ts:21-109 | the six rules applied in order give the reference level and reasons, never CRITICAL |
| FraudDetection.AmountAndVelocityRules | backend/src/utils/fraudDetection.ts:21-64 | rules 1 to 3 from LOW give the reference level and reasons |
| FraudDetection.VeryLargeIsLarge | backend/src/utils/fraudDetection.ts:25-33 | an amount above 500,000 is also above 100,000 |
| FraudDetection.NoReasonsIff | backend/src/utils/fraudDetection.ts:21-109 | no reason is pushed exactly when the level stays LOW |
| FraudDetection.LowIffAllow | backend/src/utils/fraudDetection.ts:21-117 | LOW exactly when no reasons exactly when ALLOW |
| FraudDetection.AmountRule | backend/src/utils/fraudDetection.ts:25-33 | alone, an amount in (100,000, 500,000] gives MEDIUM and one above 500,000 gives HIGH |
| FraudDetection.LiftsNeverReachHigh | backend/src/utils/fraudDetection.ts:76-109 | the lifting rules alone never exceed MEDIUM; three recent failures always force HIGH |
| FraudDetection.MissingSourceSkipsBalanceRules | backend/src/utils/fraudDetection.ts:67-86 | a missing source account switches off both balance rules |
| FraudDetection.FraudFlag | backend/src/utils/fraudDetection.ts:113-124 | the flag needs at least three reasons; a very large amount to a new recipient is flagged; a very large amount alone only blocks |
| FraudDetection.NewRecipientAtLeastMedium | backend/src/utils/fraudDetection.ts:52-64 | a first transfer to a recipient above 10,000 is at least MEDIUM |
| FraudDetection.CheckSuspiciousActivity | backend/src/utils/fraudDetection.ts:130-165 | one indicator for more than 50 transactions in 24 hours and one for at least three withdrawals above 50,000; suspicious exactly when an indicator fired |
| FraudDetection.LargeWithdrawalsAreRecentOutgoing | backend/src/utils/fraudDetection.ts:139-155 | every counted withdrawal is a stored outgoing transaction of the account above 50,000 from the last day |
| FraudDetection.RecommendationFor | backend/src/utils/fraudDetection.ts:111-117 | BLOCK exactly for HIGH or CRITICAL, ALLOW exactly for LOW |
| FraudDetection.IsFraud | backend/src/utils/fraudDetection.ts:120 | a fraud verdict always comes with a BLOCK recommendation and at least three reasons |
| TransferLimits.CheckTransferLimits | backend/src/utils/transferLimits.ts:25-118 | the first failing ceiling in the order single, daily, monthly, count; the single limit is decided on the amount alone; allowed exactly when no ceiling fails; the limits are always reported |
| TransferLimits.WindowTotalNonNegative | backend/src/utils/transferLimits.ts:63-66 | a history of non-negative amounts has a non-negative windowed total |
| TransferLimits.OverDailyLimitAlwaysRefused | backend/src/utils/transferLimits.ts:15-68 | any amount above 50,000 is refused, even with no prior transfers |
| TransferLimits.CountLimitRefusesAnyAmount | backend/src/utils/transferLimits.ts:106-112 | twenty qualifying transfers today refuse every amount |
| TransferLimits.MonthlyCoversDaily | backend/src/utils/transferLimits.ts:52-95 | the month's total is at least today's when the month starts no later than today |
| TransferLimits.GetTransferLimitUsage | backend/src/utils/transferLimits.ts:123-200 | used plus remaining is the limit for day and month; used is the windowed total; the count is today's qualifying transfers |
| TransferLimits.UsageAgreesWithCheck | backend/src/utils/transferLimits.ts:25-200 | the check allows an amount exactly when it fits the single limit, both remaining allowances and today's count |
| TransferLimits.RemainingOrdered | backend/src/utils/transferLimits.ts:187-192 | the monthly allowance left never exceeds the daily one plus 450,000 |
| ZeroTrust.ResourceLabel | backend/src/middleware/zeroTrust.ts:159 | the path's second segment, never empty ("unknown" when missing) |
| ZeroTrust.RequestAmount | backend/src/middleware/zeroTrust.ts:160-169 | a truthy body amount, else a truthy query amount, else none |
| ZeroTrust.RiskRecord | backend/src/middleware/zeroTrust.ts:175-190 | the RISK_ASSESSMENT record is BLOCKED exactly for a BLOCK recommendation, SUCCESS otherwise |
| ZeroTrust.FindFirstSession | backend/src/middleware/zeroTrust.ts:121-126 | the first session matching the user and token filter, or none matches |
| ZeroTrust.RiskStepOutcomes | backend/src/middleware/zeroTrust.ts:192-228 | a risk denial is a 403 that leaves sessions alone; an expired session is a 401; a live one gets its activity stamped and nothing else changes; the request proceeds carrying the score |
| ZeroTrust.GateDenial | backend/src/middleware/zeroTrust.ts:30-154 | the gates give no answer exactly when the caller is authenticated, the IP is allowed, MFA is satisfied and a required role is held |
| ZeroTrust.GateSteps | backend/src/middleware/zeroTrust.ts:30-154 | gates answer in order: 401 without a user, a 403 on an IP refusal with its ZERO_TRUST_BLOCK record, then 403s for MFA and role that write nothing |
| ZeroTrust.CheckGates | backend/src/middleware/zeroTrust.ts:30-154 | answers as the first failing gate does and writes exactly that gate's audit records |
| ZeroTrust.ZeroTrustVerify | backend/src/middleware/zeroTrust.ts:22-240 | a failing gate's answer leaves sessions untouched and writes only the IP denial's record; when every gate passes, exactly one risk record is written, followed by the risk and session decisions |
| ZeroTrust.AssessRiskAndSession | backend/src/middleware/zeroTrust.ts:157-234 | appends exactly one risk record and answers the risk and session decision for the computed score |
| ZeroTrust.NoMinimumOnlyBlockDenies | backend/src/middleware/zeroTrust.ts:193-211 | without a truthy minimum score only BLOCK denies |
| ZeroTrust.TransferRouteOnlyBlockDenies | backend/src/routes/transfer.routes.ts:21 | with the transfer route's minimum of 70, REVIEW is never denied, so only BLOCK denies |
| ZeroTrust.AllowNeverDenied | backend/src/middleware/zeroTrust.ts:193-211 | an ALLOW score is never denied by the risk step |
| ZeroTrust.IpBlockRecord | backend/src/middleware/zeroTrust.ts:41-55 | a BLOCKED ZERO_TRUST_BLOCK row of the user on the request path from the caller's IP, with the reason and the type as its only metadata |
| ZeroTrust.RiskDenies | backend/src/middleware/zeroTrust.ts:193-212 | only a BLOCK or REVIEW can refuse, and a REVIEW never refuses without a non-zero minimum |
| ZeroTrust.RiskStep | backend/src/middleware/zeroTrust.ts:193-229 | a refusal is a 401 or 403 and leaves the sessions alone; a pass carries the score and the fingerprint |
| ZeroTrust.SessionStep | backend/src/middleware/zeroTrust.ts:214-228 | an expired found session answers 401 and changes nothing; otherwise the request passes, and only the found session changes, in its last activity alone |
| TransferController.Destination | backend/src/controllers/transfer.controller.ts:24 | the identifier when truthy, else the account id |
| TransferController.ResolveDestination | backend/src/controllers/transfer.controller.ts:106-114 | by account id first, then by account number; nothing found exactly when neither matches |
| TransferController.TransferDecision | backend/src/controllers/transfer.controller.ts:15-114 | an accepted transfer names two stored accounts |
| TransferController.AccountChecks | backend/src/controllers/transfer.controller.ts:90-114 | accepts only the requested source account for the requested amount |
| TransferController.ApplyTransfer | backend/src/controllers/transfer.controller.ts:145-161 | the debit and the credit keep the number of accounts |
| TransferController.ApplyTransferEffect | backend/src/controllers/transfer.controller.ts:145-161 | the source loses the amount, the destination gains it, no other account or field changes, the total balance is conserved, a self-transfer changes nothing |
| TransferController.CreateTransfer | backend/src/controllers/transfer.controller.ts:15-194 | a refusal changes nothing and answers the first failing guard; an acceptance appends one COMPLETED TRANSFER row, debits and credits, audits once, and keeps the ledger well formed and its total balance |
| TransferController.PostTransfer | backend/src/controllers/transfer.controller.ts:132-161 | appends the row, applies debit and credit, keeps the ledger well formed and its total |
| TransferController.CommitTransfer | backend/src/controllers/transfer.controller.ts:127-178 | the row, debit, credit and one success audit record |
| TransferController.AcceptedIff | backend/src/controllers/transfer.controller.ts:17-114 | accepted exactly when signed in, all fields present, amount positive and within the limits, the source owned, active, unfrozen and covering the amount, and the destination found by id or number |
| TransferController.SourceChecksIff | backend/src/controllers/transfer.controller.ts:90-114 | the account guards pass exactly when the source is usable and a destination exists |
| TransferController.ValidationFirst | backend/src/controllers/transfer.controller.ts:26-31 | missing fields are refused before the limits or any account is consulted |
| TransferController.LimitsBeforeAccounts | backend/src/controllers/transfer.controller.ts:40-47 | a limit refusal is answered whatever the source account's state |
| TransferController.AcceptedAtMostDailyLimit | backend/src/controllers/transfer.controller.ts:40-118 | no accepted transfer exceeds 50,000, so the REVIEW-and-above-50,000 branch cannot be reached |
| TransferController.TransferRow | backend/src/controllers/transfer.controller.ts:132-142 | a COMPLETED TRANSFER row from the source to the found account for the amount, with the reference number and the description or "Money transfer" |
| TransferController.SuccessRecord | backend/src/controllers/transfer.controller.ts:164-178 | a SUCCESS TRANSFER row of the caller for the transaction, with amount, destination and reference in its metadata, and a risk score exactly when one was computed |
| TransactionController.DirectionWithinScope | backend/src/controllers/transaction.controller.ts:42-213 | within the caller's scope a row is outgoing exactly when its source is the caller's, an incoming row reaches one of the caller's accounts, and every such row is one the details endpoint shows |
| TransactionController.Entries | backend/src/controllers/transaction.controller.ts:114-140 | one entry per row, in order, carrying the row and its direction |
| TransactionController.ListHistory | backend/src/controllers/transaction.controller.ts:29-150 | 500 exactly when the skip (page - 1) * limit is negative; otherwise the Prisma window at that skip and take limit over the selected rows sorted by `createdAt`, newest first (a negative limit takes from the end), labelled by direction, with the total count and the page count |
| TransactionController.ListedRowsMatch | backend/src/controllers/transaction.controller.ts:85-140 | every listed row is a stored row the filter selects |
| TransactionController.TransactionHistory | backend/src/controllers/transaction.controller.ts:11-155 | 401 without a user; every listed row is stored, matches the where clause as written and carries its direction |
| TransactionController.ScopedTransactionHistory | backend/src/controllers/transaction.controller.ts:42-54 | every listed row also leaves or reaches one of the caller's accounts |
| TransactionController.DefaultHistoryOnlyVisible | backend/src/controllers/transaction.controller.ts:42-47 | without an account filter only rows the caller may open are listed |
| TransactionController.ForeignAccountHistoryLeaks | backend/src/controllers/transaction.controller.ts:49-54 | a caller with no accounts lists another customer's deposit by naming that account, a row the details endpoint would refuse |
| TransactionController.ScopedHistoryOnlyVisible | backend/src/controllers/transaction.controller.ts:42-217 | the scoped history only lists rows the caller may open |
| TransactionController.ScopedAgreesOnOwnAccounts | backend/src/controllers/transaction.controller.ts:42-54 | with no filter, or a filter on one of the caller's accounts, the scoped history equals the written one |
| TransactionController.TransactionDetails | backend/src/controllers/transaction.controller.ts:160-224 | 401 without a user; 404 exactly when no row has the id; a shown row is stored, has the id and is visible; 403 for an invisible row |
| TransactionController.DetailsIff | backend/src/controllers/transaction.controller.ts:206-219 | details are shown exactly for a visible row with that id |
| TransactionController.CancelDecisionOf | backend/src/controllers/transaction.controller.ts:229-263 | 401 without a user; 404 exactly when no row has the id; a cancellable row is PENDING and reaches one of the caller's accounts |
| TransactionController.CancelOutcomeOfRow | backend/src/controllers/transaction.controller.ts:253-263 | the decision depends only on the destination: not owned gives 403, owned but not pending gives 400, otherwise the row is cancelled |
| TransactionController.Reversal | backend/src/controllers/transaction.controller.ts:273-292 | the reversal keeps the number of accounts |
| TransactionController.ReversalEffect | backend/src/controllers/transaction.controller.ts:273-292 | a TRANSFER with a source gets its amount credited back and debited from the destination, nothing else changes, the total is conserved; any other row leaves balances alone |
| TransactionController.ReversalUndoesTransfer | backend/src/controllers/transaction.controller.ts:273-292 | cancelling the row a transfer wrote restores the balances from before the transfer |
| TransactionController.ApplyBackRestores | backend/src/controllers/transaction.controller.ts:273-292 | moving an amount one way and back changes nothing |
| TransactionController.CreditThenDebit | backend/src/controllers/transaction.controller.ts:275-291 | crediting the source then debiting the destination equals one transfer back |
| TransactionController.MarkCancelled | backend/src/controllers/transaction.controller.ts:266-292 | writes the CANCELLED row, applies the reversal, keeps the ledger well formed and the total |
| TransactionController.CancelKeepsWellFormed | backend/src/controllers/transaction.controller.ts:266-292 | cancelling keeps the ledger well formed and the total balance |
| TransactionController.CancelTransaction | backend/src/controllers/transaction.controller.ts:229-302 | a refusal changes nothing; a cancellation marks the row CANCELLED and applies the reversal; the ledger stays well formed and its total is kept |
| TransactionController.DirectionOf | backend/src/controllers/transaction.controller.ts:115 | outgoing exactly when the source is a non-empty id of one of the caller's accounts; an incoming row in the caller's scope reaches one of them |
| TransactionController.HistoryFilter | backend/src/controllers/transaction.controller.ts:41-82 | selects by the query's conditions; without an account filter only rows leaving or reaching the caller's accounts |
| TransactionController.ScopedHistoryFilter | backend/src/controllers/transaction.controller.ts:41-82 | the same conditions, always within the caller's own accounts |
| Pagination.Skip | backend/src/controllers/transaction.controller.ts:31 | zero on the first page, never negative for a page of at least 1 and a non-negative limit, and with a positive limit negative exactly for a page below 1 |
| AccountController.GetAccount | backend/src/controllers/account.controller.ts:11-79 | 401 without a user; 404 exactly when no account has the id; a shown account is stored, has the id and, without an access-control context, belongs to the caller |
| AccountController.GetAccountAccess | backend/src/controllers/account.controller.ts:61-74 | without a context a stored account is shown to its owner and answered 403 to anyone else; with a context it is shown to every signed-in caller |
| AccountController.ListAccounts | backend/src/controllers/account.controller.ts:84-103 | 401 exactly without a user; otherwise exactly the caller's stored accounts, each as often as stored, sorted by `createdAt` newest first |
| AccountController.OwnedAccountAt | backend/src/controllers/account.controller.ts:110-170 | 401 without a user, 404 exactly when no account has the id; success names the caller's own account with that id |
| AccountController.OwnedLookupIff | backend/src/controllers/account.controller.ts:117-128 | with unique ids the lookup succeeds exactly for a signed-in caller's own account |
| AccountController.UpdateFlags | backend/src/controllers/account.controller.ts:130-136 | each supplied flag is set, an absent one kept, every other field unchanged |
| AccountController.UpdateFlagsIdempotent | backend/src/controllers/account.controller.ts:130-136 | the same update applied twice has the effect of applying it once |
| AccountController.UpdateAccount | backend/src/controllers/account.controller.ts:108-146 | a refused lookup changes nothing; otherwise only the caller's account gets its flags updated; the ledger stays well formed and its total is kept |
| AccountController.DeactivateDecision | backend/src/controllers/account.controller.ts:151-178 | the lookup's refusals are kept; an allowed deactivation is of an account whose balance is not positive; a positive balance gives 400 |
| AccountController.DeactivationRefusedIffBalance | backend/src/controllers/account.controller.ts:167-178 | for the caller's own account, deactivation is refused exactly when its balance is positive |
| AccountController.DeactivateAccount | backend/src/controllers/account.controller.ts:151-195 | a refusal changes nothing; otherwise only that account becomes inactive; the ledger stays well formed and its total is kept |
| AccountController.InactiveOrFrozenCannotSend | backend/src/controllers/account.controller.ts:130-185 | an account made inactive or frozen can never be the source of an accepted transfer |
| AccountController.PadStart3 | backend/src/controllers/account.controller.ts:248 | a short string is left-padded with zeros to three characters, a long one kept |
| AccountController.DrawCode | backend/src/controllers/account.controller.ts:248-251 | a draw in 1..999 becomes a three-character code |
| AccountController.StopDraw | backend/src/controllers/account.controller.ts:248-253 | the retry loop stops at the first free code or after 100 retries |
| AccountController.StopDrawSkipsTaken | backend/src/controllers/account.controller.ts:250 | every draw the loop passes over is already in use |
| AccountController.StopDrawExhausted | backend/src/controllers/account.controller.ts:248-254 | if the code the loop stops at from draw n on is in use, every draw from n to 100 is in use |
| AccountController.StoppedCodeFreeUnlessExhausted | backend/src/controllers/account.controller.ts:248-254 | the generated code is free unless all 101 draws were in use |
| AccountController.GenerateBranchCode | backend/src/controllers/account.controller.ts:248-284 | the loop returns the code of the draw the retry rule stops at |
| AccountController.NameByCode | backend/src/controllers/account.controller.ts:226-264 | a found name is non-empty and belongs to a stored account with that code |
| AccountController.CodeByName | backend/src/controllers/account.controller.ts:238-275 | a found code is non-empty and belongs to a stored account with that name |
| AccountController.BranchAlwaysResolved | backend/src/controllers/account.controller.ts:216-286 | every new account gets a non-empty code and name; a requested code is kept and takes its stored name |
| AccountController.RequestedBranchNameIgnored | backend/src/controllers/account.controller.ts:206-256 | as written, a request naming a stored branch without a code gets the random name instead of the requested one |
| AccountController.RequestedBranchNameKept | backend/src/controllers/account.controller.ts:268-286 | with the requested name as the starting value, it is kept and gets its stored code or a generated one |
| AccountController.ResolveBranch | backend/src/controllers/account.controller.ts:216-286 | the branch steps deliver the branch the branch rule chooses |
| AccountController.AccountNumber | backend/src/controllers/account.controller.ts:212 | the account number starts with TR |
| AccountController.NewAccount | backend/src/controllers/account.controller.ts:288-300 | a new account is active, not frozen, carries the chosen branch and is stamped with the clock |
| AccountController.NewAccountDefaults | backend/src/controllers/account.controller.ts:292-294 | the requested type is kept; the currency defaults to TRY and the balance to 0 |
| AccountController.CreateAccount | backend/src/controllers/account.controller.ts:200-328 | 401 or 400 change nothing; a taken account number fails before writing; otherwise the account is appended, the total grows by its balance and the ACCOUNT_CREATE record is written |
| AccountController.ChooseBranch | backend/src/controllers/account.controller.ts:216-256 | a requested code is kept; a requested name is kept unless the code has a stored name; with neither, the random name; a missing code is the stored or a generated one |
| AccountController.BranchAsWritten | backend/src/controllers/account.controller.ts:216-256 | without a code, always the random name and its code; with a code, the code and its stored name or the random one |
| AccountController.AccountCreateRecord | backend/src/controllers/account.controller.ts:303-318 | a SUCCESS ACCOUNT_CREATE row of the caller for the new account, with its number and type as the only metadata |
| BalanceController.GetAccountBalance | backend/src/controllers/balance.controller.ts:11-46 | 401 without a user; 404 exactly when no account has the id; a balance is shown only for the caller's own account, with its fields |
| BalanceController.BalanceOnlyForOwner | backend/src/controllers/balance.controller.ts:19-41 | with unique ids the balance is shown exactly for a signed-in caller's own account, and 403 otherwise |
| BalanceController.RecentViews | backend/src/controllers/balance.controller.ts:117-125 | one view per row, in order |
| BalanceController.TodayStats | backend/src/controllers/balance.controller.ts:99-131 | incoming is the sum of what each of today's rows pays into the account, outgoing the sum of what each takes out of it, net is incoming minus outgoing, and the count is the number of today's rows |
| BalanceController.IncomingIsSumReceived | backend/src/controllers/balance.controller.ts:99-102 | the total of the rows paid into the account equals the sum over all rows of what each pays into it |
| BalanceController.OutgoingIsSumSent | backend/src/controllers/balance.controller.ts:103-105 | the total of the rows paid out of the account equals the sum over all rows of what each takes from it |
| BalanceController.NetIsSumOfEffects | backend/src/controllers/balance.controller.ts:99-129 | incoming minus outgoing equals the sum over today's rows of what each does to the account |
| BalanceController.TodayFiguresNonNegative | backend/src/controllers/balance.controller.ts:99-105 | with positive amounts, incoming and outgoing are never negative |
| BalanceController.SelfTransferNetsZero | backend/src/controllers/balance.controller.ts:99-130 | a row from the account to itself counts in both incoming and outgoing and leaves the net figure unchanged |
| BalanceController.TransferMovesBalanceByNetEffect | backend/src/controllers/balance.controller.ts:99-105 | a posted transfer moves every account's balance by exactly its net effect on that account |
| BalanceController.GetAccountSummary | backend/src/controllers/balance.controller.ts:51-138 | the same guards and view as the balance endpoint; the ten rows touching the account with the latest `createdAt`, sorted newest first; today's statistics over the rows touching the account since midnight; the caller's limit usage |
| BalanceController.Views | backend/src/controllers/balance.controller.ts:160-167 | one view per account, in order |
| BalanceController.GetAllBalances | backend/src/controllers/balance.controller.ts:143-175 | 401 exactly without a user; the caller's active accounts sorted by `createdAt`, newest first, their number, and the total of their balances |
| BalanceController.TotalBalanceByNewest | backend/src/controllers/balance.controller.ts:149-158 | summing the accounts sorted newest first gives the same total as summing in table order |
| BalanceController.TotalBalanceInsert | backend/src/controllers/balance.controller.ts:149-158 | placing an account into the sorted list adds exactly its balance to the total |
| BalanceController.DeactivationDropsBalanceFromTotal | backend/src/controllers/balance.controller.ts:149-158 | deactivating an account removes exactly its balance from the owner's reported total |
| BalanceController.DeactivationNeverLowersTotal | backend/src/controllers/balance.controller.ts:149-158 | an account the deactivation rule lets go never lowers the owner's reported total |
| Pagination.TotalPages | backend/src/controllers/transaction.controller.ts:148 | the page count is the least integer not below total / limit; a zero limit gives none |
| Pagination.CeilBounds | backend/src/controllers/transaction.controller.ts:148 | the rounded-up quotient lies within one of the real quotient |
| Pagination.FloorBounds | backend/src/controllers/transaction.controller.ts:148 | the rounded-down quotient lies within one of the real quotient |
| Pagination.Window | backend/src/controllers/transaction.controller.ts:104-109 | absent exactly when the skip is negative; otherwise the Prisma window: from the skip on, at most take rows for a non-negative take, and for a negative take the last -take rows before the skip counted from the end |
| Pagination.EveryRowOnItsPage | backend/src/controllers/transaction.controller.ts:31-148 | with a positive limit every row sits on exactly one of the page-count pages |
| Pagination.PastLastPageEmpty | backend/src/controllers/transaction.controller.ts:31-148 | a page past the last one is empty |
| Pagination.RecentAreNewest | backend/src/controllers/balance.controller.ts:73-81 | on a table sorted by date, the last n rows taken from the end backwards, Min(n, size) of them |
| Pagination.ByNewest | backend/src/controllers/transaction.controller.ts:104-106 | `orderBy createdAt desc`: a permutation of the rows sorted on the key, newest first |
| Pagination.InsertNewest | backend/src/controllers/transaction.controller.ts:104-106 | placing a row adds exactly that row |
| Pagination.InsertNewestSorted | backend/src/controllers/transaction.controller.ts:104-106 | placing a row into a list sorted newest first keeps it sorted |
| Pagination.ByNewestLatestFirst | backend/src/controllers/transaction.controller.ts:104-106 | a row appended with a key no older than any other comes first |
| Pagination.ByNewestOfSorted | backend/src/controllers/transaction.controller.ts:104-106 | on rows already in ascending date order, sorting newest first is reversing the table |
| Pagination.ByNewestKeyAgree | backend/src/controllers/transaction.controller.ts:104-106 | two keys that agree on every row give the same order |
| Pagination.Newest | backend/src/controllers/balance.controller.ts:76-81 | `orderBy createdAt desc` with take n: Min(n, size) rows drawn from the table, sorted newest first |
| Pagination.NewestAreNewest | backend/src/controllers/balance.controller.ts:76-81 | a row left out is no newer than any row taken |
| Pagination.NewerThanTakenIsTaken | backend/src/controllers/balance.controller.ts:76-81 | a row newer than a taken row is taken |
| Pagination.NewestOfSorted | backend/src/controllers/balance.controller.ts:76-81 | on rows in ascending date order, the n newest are the last n in reverse table order |
| Pagination.WindowRowsIn | backend/src/controllers/transaction.controller.ts:104-109 | every row of a window is a row of the table |
| AuditLogService.RecordOf | backend/src/services/auditLog.service.ts:27-39 | the stored row keeps the caller, action and status, is stamped with the clock, and stores absent metadata as empty |
| AuditLogService.Create | backend/src/services/auditLog.service.ts:25-44 | appends exactly the one record, or nothing when the write fails; never fails itself |
| AuditLogService.LogLogin | backend/src/services/auditLog.service.ts:49-69 | appends the LOGIN record with the caller's metadata and the timestamp |
| AuditLogService.LogLogout | backend/src/services/auditLog.service.ts:74-88 | appends the LOGOUT record with status SUCCESS |
| AuditLogService.LogCustomerAccess | backend/src/services/auditLog.service.ts:93-116 | appends the CUSTOMER_ record of the action on the customer |
| AuditLogService.LogTransfer | backend/src/services/auditLog.service.ts:121-149 | appends the TRANSFER record with amount and both accounts |
| AuditLogService.LogFailedAccess | backend/src/services/auditLog.service.ts:154-176 | appends the FAILED record with the reason |
| AuditLogService.LogPermissionDenied | backend/src/services/auditLog.service.ts:181-200 | appends the PERMISSION_DENIED record |
| AuditLogService.LogEmployeeActivity | backend/src/services/auditLog.service.ts:205-229 | appends the EMPLOYEE_ record |
| AuditLogService.LoginTimestampWins | backend/src/services/auditLog.service.ts:64-67 | the login timestamp overrides a caller timestamp key; every other caller key is kept |
| AuditLogService.CustomerIdOverridable | backend/src/services/auditLog.service.ts:102-115 | a caller customerId key overrides the metadata's customer id, while the row's resource id stays the customer |
| AuditLogService.TransferMetadataOverridable | backend/src/services/auditLog.service.ts:133-148 | the record's amount and account keys are defaults that caller metadata overrides |
| AuditLogService.HelperStatuses | backend/src/services/auditLog.service.ts:163-228 | failed access is FAILED and marked blocked with its reason, a permission denial is BLOCKED, an employee action is SUCCESS and prefixed EMPLOYEE_ |
| AuditLogController.Lower | backend/src/controllers/auditLog.controller.ts:41-44 | the folded string keeps the length and folds each character |
| AuditLogController.PageOf | backend/src/controllers/auditLog.controller.ts:29-95 | 500 exactly when the skip (page - 1) * limit is negative; otherwise the Prisma window at that skip and take limit over the matching records sorted by `createdAt`, newest first (a negative limit takes from the end), with the total count and the page count |
| AuditLogController.PagedRecordsMatch | backend/src/controllers/auditLog.controller.ts:66-86 | every record a page lists is stored and selected by the filter |
| AuditLogController.GetAuditLogs | backend/src/controllers/auditLog.controller.ts:12-101 | 401 without a caller; the page of records matching every supplied filter, page 1 and limit 50 by default |
| AuditLogController.ActionFoundInAnyCase | backend/src/controllers/auditLog.controller.ts:40-45 | the action filter ignores letter case |
| AuditLogController.GetAuditStats | backend/src/controllers/auditLog.controller.ts:106-204 | 401 exactly without a caller; the seven counts over the records in the date range |
| AuditLogController.StatusCountsSplitTotal | backend/src/controllers/auditLog.controller.ts:135-144 | the success, failed, blocked and revoked counts add up to the total |
| AuditLogController.ActionCountsWithinTotal | backend/src/controllers/auditLog.controller.ts:145-156 | the login, transfer and customer-access counts are disjoint and together never exceed the total |
| AuditLogController.GetMyAuditLogs | backend/src/controllers/auditLog.controller.ts:225-264 | 401 exactly without a caller; otherwise the Prisma window at skip 0 and take limit (default 20) over the caller's matching records sorted by `createdAt`, newest first; a negative limit takes from the end |
| AuditLogController.MyLogsAreOwn | backend/src/controllers/auditLog.controller.ts:233-235 | a caller only ever sees their own stored records |
| AuditLogController.GetCustomerAccessLogs | backend/src/controllers/auditLog.controller.ts:269-338 | 401 without a caller; the page of CUSTOMER_ records matching the customer, employee and dates |
| AuditLogController.CustomerAccessRecordFound | backend/src/controllers/auditLog.controller.ts:281-301 | the record written for a customer access is found by its customer id and its employee id |
| AuditLogController.MetaNumber | backend/src/controllers/auditLog.controller.ts:399-400 | a missing or non-numeric metadata value reads as 0, a number as itself |
| AuditLogController.IndicatorsDistinct | backend/src/controllers/auditLog.controller.ts:404-418 | the four indicator texts are distinct |
| AuditLogController.FraudIndicators | backend/src/controllers/auditLog.controller.ts:402-418 | each indicator is present exactly when its condition holds: amount above 100000, risk score above 70, BLOCKED status, a 192.168. address |
| AuditLogController.IndicatorsInFixedOrder | backend/src/controllers/auditLog.controller.ts:402-418 | the indicators are those of the fixed list that apply, in the list's order |
| AuditLogController.SuccessRecordFlagsPrivateIp | backend/src/controllers/auditLog.controller.ts:404-418 | the SUCCESS record of an accepted transfer of at most 100 000 whose score did not block carries at most the private-IP indicator |
| AuditLogController.OnlyPrivateIpFires | backend/src/controllers/auditLog.controller.ts:404-418 | a record under both thresholds that was not blocked carries at most the private-IP indicator |
| AuditLogController.CreatedTransferOnlyFlagsPrivateIp | backend/src/controllers/auditLog.controller.ts:404-418 | the record of an accepted transfer can only ever carry the private-IP indicator |
| AuditLogController.Tagged | backend/src/controllers/auditLog.controller.ts:397-424 | one tagged record per record, in order, with its indicators |
| AuditLogController.WithIndicators | backend/src/controllers/auditLog.controller.ts:397-436 | the page's counts are kept and its records tagged; a failure is kept |
| AuditLogController.GetTransferLogs | backend/src/controllers/auditLog.controller.ts:343-441 | 401 without a caller; the page of TRANSFER records matching user, status and dates, each with its indicators; the minimum amount plays no part |
| AuditLogController.MinAmountIgnored | backend/src/controllers/auditLog.controller.ts:349-375 | a transfer of 10 is listed although at least 1000 was asked for |
| AuditLogController.GetTransferLogsAtLeast | backend/src/controllers/auditLog.controller.ts:343-441 | with the minimum applied, every listed transfer has at least that amount and the total counts only such transfers |
| AuditLogController.AtLeastAgreesWithoutMinimum | backend/src/controllers/auditLog.controller.ts:355-375 | without a minimum the corrected endpoint answers exactly as the one as written |
| JitAccess.Duration | backend/src/utils/jitAccess.ts:34 | a missing or zero duration becomes 30 minutes; any other is kept |
| JitAccess.RequestJitAccess | backend/src/utils/jitAccess.ts:31-67 | exactly one JIT_ACCESS_REQUEST record is appended, carrying the token, the expiry and the requested action; the grant returned has that token and expiry |
| JitAccess.GrantIndices | backend/src/utils/jitAccess.ts:81-88 | exactly the positions of the SUCCESS grant records of the user for the resource |
| JitAccess.Candidates | backend/src/utils/jitAccess.ts:81-93 | at most ten grants, each a grant of the user for the resource |
| JitAccess.CandidatesAreNewest | backend/src/utils/jitAccess.ts:89-92 | the candidates are Min(10, grants) of the grants, sorted by `createdAt` newest first, and no grant left out is newer than any candidate |
| JitAccess.CandidatesOfSortedLog | backend/src/utils/jitAccess.ts:89-92 | on a log whose `createdAt` never decreases, the candidates are the last ten grants in reverse table order |
| JitAccess.GrantIndicesAscending | backend/src/utils/jitAccess.ts:81-88 | the grant positions are strictly increasing |
| JitAccess.NewGrantFirst | backend/src/utils/jitAccess.ts:31-92 | a grant appended with no grant for the same user and resource stamped later becomes the first candidate |
| JitAccess.NewGrantChecked | backend/src/utils/jitAccess.ts:31-117 | under the same condition, verifying the new token passes with the new grant exactly when it has not expired and names the action |
| JitAccess.CandidatesAppendOther | backend/src/utils/jitAccess.ts:81-92 | appending a row that is no grant for the user and resource leaves the candidates unchanged |
| JitAccess.CheckJitAppendOther | backend/src/utils/jitAccess.ts:81-117 | appending such a row changes no verification |
| JitAccess.Decide | backend/src/utils/jitAccess.ts:96-117 | a grant chosen is a candidate with the token that has not expired and names the action |
| JitAccess.DecideAppend | backend/src/utils/jitAccess.ts:96-117 | deciding among old rows gives the same answer after any row is appended |
| JitAccess.GrantRecord | backend/src/utils/jitAccess.ts:43-58 | the stored grant is a SUCCESS JIT_ACCESS_REQUEST of the user for the resource and id, carrying the token and the action, and it expires exactly once the clock passes the expiry |
| JitAccess.UsedRecord | backend/src/utils/jitAccess.ts:120-132 | the usage row is a JIT_ACCESS_USED row of the user with the token and the used grant's id, and is never a grant |
| JitAccess.FindToken | backend/src/utils/jitAccess.ts:96-99 | a found grant is a candidate with the token; none is found exactly when no candidate has it |
| JitAccess.CheckJit | backend/src/utils/jitAccess.ts:81-117 | a grant that passes is one of the candidates, carries the token, has not expired and names the action |
| JitAccess.CandidateInWindow | backend/src/utils/jitAccess.ts:89-92 | a grant for the user and resource stamped later than a candidate is itself a candidate |
| JitAccess.UsedGrantWithinWindow | backend/src/utils/jitAccess.ts:89-93 | every grant for the same user and resource stamped later than the grant that passes is a candidate |
| JitAccess.VerifyJitAccess | backend/src/utils/jitAccess.ts:72-135 | answers true exactly when the check passes; only then is the one JIT_ACCESS_USED record appended |
| JitAccess.GrantIndicesAppendOther | backend/src/utils/jitAccess.ts:81-88 | appending a record that is no grant for the user and resource leaves the grants unchanged |
| JitAccess.GrantIndicesAppendGrant | backend/src/utils/jitAccess.ts:81-88 | appending a grant appends its position at the end of the grant positions |
| JitAccess.RequestThenVerify | backend/src/utils/jitAccess.ts:31-117 | a grant just requested, with no grant for the same user and resource stamped later, passes for its user, resource and action until its expiry |
| JitAccess.RequestThenExpire | backend/src/utils/jitAccess.ts:105-112 | the same grant fails once its expiry has passed |
| JitAccess.RequestThenOtherAction | backend/src/utils/jitAccess.ts:114-117 | the same grant fails for any other action |
| JitAccess.VerifyDoesNotConsume | backend/src/utils/jitAccess.ts:119-134 | a successful verification leaves the grant usable: the same check passes again |
| JitAccess.FindTokenPrefix | backend/src/utils/jitAccess.ts:96-99 | looking a token up among old rows is not affected by appending a row |
| JitAccess.ToRevoke | backend/src/utils/jitAccess.ts:154-157 | exactly the scanned grants that carry the token |
| JitAccess.RevokeJitAccess | backend/src/utils/jitAccess.ts:140-168 | each scanned grant with the token becomes REVOKED; no other record and no other field changes |
| JitAccess.AfterRevoke | backend/src/utils/jitAccess.ts:159-167 | the table after revocation, with the same length |
| JitAccess.RevokeThenVerifyFails | backend/src/utils/jitAccess.ts:81-168 | when the scan saw all of the user's requests, a revoked token no longer passes for any resource or action |
| JitAccess.RevokeTouchesOnlyOwnRequests | backend/src/utils/jitAccess.ts:146-167 | revocation changes only the status, and only of the user's own request records with the token |
| AntiBruteforce.Identifier | backend/src/middleware/antiBruteforce.ts:26 | the body's email, else its user id, else the IP |
| AntiBruteforce.LatestTime | backend/src/middleware/antiBruteforce.ts:48-63 | none exactly when no record qualifies; otherwise the time of a qualifying record that no qualifying record is newer than |
| AntiBruteforce.CeilMinutes | backend/src/middleware/antiBruteforce.ts:70 | the least whole number of minutes covering a positive time span |
| AntiBruteforce.AlreadyBlocked | backend/src/middleware/antiBruteforce.ts:72-90 | a lockout refusal reporting the minutes left, its retry time in seconds, and the BLOCK record saying so |
| AntiBruteforce.MaxExceeded | backend/src/middleware/antiBruteforce.ts:95-119 | the refusal that starts a lockout, with the block duration as retry time and the BLOCK record holding the identifier, the count and the end of the block |
| AntiBruteforce.LockoutDecision | backend/src/middleware/antiBruteforce.ts:24-124 | locked exactly when the newest recent block has not ended or the recent failed logins reach the maximum; a pass reports the count; a lockout writes a BLOCKED record for the IP |
| AntiBruteforce.AntiBruteforceGate | backend/src/middleware/antiBruteforce.ts:19-131 | the gate's decision over the log, with the IP and identifier of the request; a lockout appends its one record, a pass writes nothing |
| AntiBruteforce.LockoutExtends | backend/src/middleware/antiBruteforce.ts:48-92 | after a refusal, a later attempt from the same IP inside the block duration and window is refused again, whatever identifier it names |
| AntiBruteforce.RepeatedAttemptsStayLocked | backend/src/middleware/antiBruteforce.ts:20-92 | with the defaults, every attempt less than 15 minutes after a refusal is refused |
| AntiBruteforce.Pow2Monotone | backend/src/middleware/antiBruteforce.ts:162 | powers of two grow with the exponent |
| AntiBruteforce.Delay | backend/src/middleware/antiBruteforce.ts:160-164 | no wait exactly without failures, and never more than 16 s |
| AntiBruteforce.ProgressiveDelay | backend/src/middleware/antiBruteforce.ts:137-172 | the wait is driven by the same failed-login count the gate uses, over a fixed 15-minute window |
| AntiBruteforce.DelayMonotone | backend/src/middleware/antiBruteforce.ts:160-164 | more failures never shorten the wait |
| AntiBruteforce.DelaySchedule | backend/src/middleware/antiBruteforce.ts:160-162 | the wait is 1, 2, 4 and 8 s for one to four failures and 16 s from five on |
| AntiBruteforce.BlockRecord | backend/src/middleware/antiBruteforce.ts:99-111 | a BLOCKED BRUTEFORCE_BLOCK row for no user on "authentication" from the caller's IP, with the given metadata |
| InputValidation.FirstIndex | backend/src/middleware/inputValidation.ts:13 | the position of the first occurrence of the character |
| InputValidation.StripTags | backend/src/middleware/inputValidation.ts:13 | tag removal never lengthens the text and only keeps characters already there |
| InputValidation.SanitizeText | backend/src/middleware/inputValidation.ts:12-28 | the sanitised text is at most 10,000 characters |
| InputValidation.ReplaceAllAppend | backend/src/middleware/inputValidation.ts:17-25 | replacing a character in a concatenation replaces it in each part |
| InputValidation.ReplaceAllAbsent | backend/src/middleware/inputValidation.ts:17-25 | replacing an absent character changes nothing |
| InputValidation.ReplaceEachAppend | backend/src/middleware/inputValidation.ts:16-22 | the replacement chain distributes over concatenation |
| InputValidation.ReplaceEachAbsent | backend/src/middleware/inputValidation.ts:16-22 | text without any replaced character passes the chain unchanged |
| InputValidation.ReplaceAllOne | backend/src/middleware/inputValidation.ts:17-25 | one character is replaced exactly when it is the target |
| InputValidation.ReplaceEachOne | backend/src/middleware/inputValidation.ts:16-22 | a character first replaced at step k ends as that step's entity |
| InputValidation.EscapeChainChar | backend/src/middleware/inputValidation.ts:16-22 | the chain escapes a single character as the per-character escaping does |
| InputValidation.EscapeChainIsPerCharacter | backend/src/middleware/inputValidation.ts:16-22 | because & is replaced first, the chain escapes every character exactly once |
| InputValidation.EscapeHasNoMarkup | backend/src/middleware/inputValidation.ts:16-22 | escaped text holds no markup character other than NUL |
| InputValidation.RemoveNulKeeps | backend/src/middleware/inputValidation.ts:25 | removing NUL keeps every other character and leaves no NUL |
| InputValidation.SanitizedHasNoMarkup | backend/src/middleware/inputValidation.ts:12-28 | sanitised text contains none of < > " ' / or NUL |
| InputValidation.PlainEscape | backend/src/middleware/inputValidation.ts:16-22 | text holding no special character is left as it is by the escaping |
| InputValidation.CleanTextUnchanged | backend/src/middleware/inputValidation.ts:12-28 | text with no special character, within the length limit, is returned unchanged |
| InputValidation.StripTagsPlain | backend/src/middleware/inputValidation.ts:13 | text without < keeps all its characters |
| InputValidation.TagRemoved | backend/src/middleware/inputValidation.ts:13 | a complete tag is removed together with its contents |
| InputValidation.SanitizeUntagged | backend/src/middleware/inputValidation.ts:12-28 | on text without tags and NUL, sanitising is per-character escaping |
| InputValidation.EscapeAppend | backend/src/middleware/inputValidation.ts:16-22 | per-character escaping distributes over concatenation |
| InputValidation.NotIdempotent | backend/src/middleware/inputValidation.ts:16-22 | sanitising twice escapes twice: & becomes &amp; and then &amp;amp; |
| InputValidation.SanitizeString | backend/src/middleware/inputValidation.ts:7-29 | a non-string gives the empty string; a string is sanitised |
| InputValidation.SanitizeKeepsShape | backend/src/middleware/inputValidation.ts:34-58 | null, undefined and scalars are kept; arrays keep length and order; objects keep their keys in order |
| InputValidation.SanitizedValueHasNoMarkup | backend/src/middleware/inputValidation.ts:34-58 | no string anywhere inside a sanitised value holds a markup character |
| InputValidation.CleanValueUnchanged | backend/src/middleware/inputValidation.ts:34-58 | a value whose strings are all clean is returned as it was |
| Csrf.CsrfProtection | backend/src/middleware/csrf.ts:25-52 | other methods and bearer-token requests pass; any other protected request passes exactly when its x-csrf-token header is non-empty and equals the session token; a refusal is 403 |
| Csrf.MissingHeaderRefused | backend/src/middleware/csrf.ts:40-48 | a protected request without bearer token and without the header is refused |
| Csrf.NoSessionTokenRefusesAll | backend/src/middleware/csrf.ts:41-68 | without a session token every protected request lacking a bearer token is refused |
| Csrf.MatchingTokenPasses | backend/src/middleware/csrf.ts:40-50 | a matching non-empty token passes |
| Csrf.AddCsrfToken | backend/src/middleware/csrf.ts:58-68 | a token is issued exactly on the token path, and it is the drawn one |
| Csrf.OtherPathsForwarded | backend/src/middleware/csrf.ts:61-67 | a path that only extends the token path is passed on |
| RateLimiter.WindowStart | backend/src/middleware/rateLimiter.ts:20-22 | the start of the 15-minute window holding the time: a multiple of the window, at most the time and within one window of it |
| RateLimiter.CeilSeconds | backend/src/middleware/rateLimiter.ts:52 | the least whole number of seconds covering a positive span |
| RateLimiter.IncrementSpec | backend/src/middleware/rateLimiter.ts:19-69 | only the current window's row of the key changes: one more hit, or a new row with one; the reported count is that row's; the expiry lies within the window |
| RateLimiter.WithoutKey | backend/src/middleware/rateLimiter.ts:75-79 | exactly the rows of other identifiers remain, unchanged |
| RateLimiter.RateLimitStore.constructor | backend/src/middleware/rateLimiter.ts:17-18 | the store starts with no rows |
| RateLimiter.RateLimitStore.Increment | backend/src/middleware/rateLimiter.ts:19-69 | the table and the answer are those of the increment rule |
| RateLimiter.RateLimitStore.Decrement | backend/src/middleware/rateLimiter.ts:71-73 | nothing changes |
| RateLimiter.RateLimitStore.ResetKey | backend/src/middleware/rateLimiter.ts:75-79 | every row of the identifier is deleted and no other |
| RateLimiter.Replay | backend/src/middleware/rateLimiter.ts:19-69 | replaying hits never loses a row and creates the first hit's row |
| RateLimiter.HitsInOneWindow | backend/src/middleware/rateLimiter.ts:19-69 | hits on one key within one window are counted one each |
| RateLimiter.ReplayKeepsOtherKeys | backend/src/middleware/rateLimiter.ts:25-48 | hits on one key leave every other identifier's rows as they were |
| RateLimiter.ResetStartsOver | backend/src/middleware/rateLimiter.ts:55-79 | after a reset the next hit counts one |
| RateLimiter.NewWindowStartsOver | backend/src/middleware/rateLimiter.ts:22-67 | the first hit of a later window counts one whatever earlier windows counted |
| RateLimiter.RefusalOf | backend/src/middleware/rateLimiter.ts:97-173 | every limiter answers 429 with a retry time equal to its configured window in seconds |
| RateLimiter.Limit | backend/src/middleware/rateLimiter.ts:87-174 | a skipped request is neither counted nor refused; any other is counted once and refused exactly when its count exceeds the limiter's maximum |
| RateLimiter.TransferKeyIsUser | backend/src/middleware/rateLimiter.ts:140-143 | a request the transfer limiter counts is counted against its user |
| RateLimiter.PrefixedKeysDisjoint | backend/src/middleware/rateLimiter.ts:117-166 | the auth, transfer and account limiters never share a counter |
| RateLimiter.AccountLimitResetsAfterQuarterHour | backend/src/middleware/rateLimiter.ts:20-159 | three account creations in one 15-minute window are forgotten in the next window, well inside the configured day |
| Bill.TableShape | backend/src/controllers/bill.controller.ts:5-46 | every listed city has a non-empty list for exactly the six listed types |
| Bill.GetBillProviders | backend/src/controllers/bill.controller.ts:53-73 | the city and type default to İstanbul and ELECTRICITY; the list is the city's, else the default city's for the type, else empty |
| Bill.ProvidersDefaults | backend/src/controllers/bill.controller.ts:7-60 | with nothing asked for, İstanbul's electricity providers |
| Bill.UnknownCityFallsBack | backend/src/controllers/bill.controller.ts:60 | an unknown city gets İstanbul's list for a known type, under its own name |
| Bill.UnknownTypeIsEmpty | backend/src/controllers/bill.controller.ts:60 | an unknown type has no providers anywhere |
| Bill.BillDescription | backend/src/controllers/bill.controller.ts:147-157 | Fatura exactly for an unknown type |
| Bill.AmountRange | backend/src/controllers/bill.controller.ts:90-99 | each range is positive and non-empty |
| Bill.RoundCents | backend/src/controllers/bill.controller.ts:100 | rounding to the cent moves the value by at most half a cent |
| Bill.AmountInRange | backend/src/controllers/bill.controller.ts:99-100 | the rounded amount stays in the type's range |
| Bill.DueInDays | backend/src/controllers/bill.controller.ts:104 | the due date is 7 to 29 days away |
| Bill.QueryBill | backend/src/controllers/bill.controller.ts:78-127 | 400 exactly when a field is missing; otherwise a PENDING bill echoing the fields, with the type's description |
| Bill.QueriedAmountInRange | backend/src/controllers/bill.controller.ts:89-100 | a queried bill's amount is in its type's range |
| Bill.GetUserBills | backend/src/controllers/bill.controller.ts:132-145 | 401 exactly without a user, otherwise always an empty list |
| Notifications.NewNotification | mobile/src/services/notifications.ts:43-49 | a new notification is unread, stamped with the time, and its id is that time in decimal |
| Notifications.Added | mobile/src/services/notifications.ts:51-56 | the new notification comes first, followed by the old list in order, cut to 100 |
| Notifications.FirstWithId | mobile/src/services/notifications.ts:66 | the first position with the id, or none exactly when no notification has it |
| Notifications.NotificationService.constructor | mobile/src/services/notifications.ts:20 | the service starts with no notifications |
| Notifications.NotificationService.Add | mobile/src/services/notifications.ts:43-60 | the new notification is put first and the list cut to 100 |
| Notifications.NotificationService.MarkAsRead | mobile/src/services/notifications.ts:65-71 | only the first notification with the id is marked read |
| Notifications.NotificationService.MarkAllAsRead | mobile/src/services/notifications.ts:76-79 | every notification is marked read |
| Notifications.NotificationService.GetAll | mobile/src/services/notifications.ts:84-86 | the list as it is |
| Notifications.NotificationService.GetUnreadCount | mobile/src/services/notifications.ts:91-93 | the number of unread notifications |
| Notifications.NotificationService.Delete | mobile/src/services/notifications.ts:98-101 | every notification with the id is removed |
| Notifications.NotificationService.Clear | mobile/src/services/notifications.ts:106-109 | the list becomes empty |
| Notifications.NotificationService.SimulateTransferNotification | mobile/src/services/notifications.ts:114-121 | adds the transfer notification with its title, message and data |
| Notifications.NotificationService.SimulateTransactionNotification | mobile/src/services/notifications.ts:126-133 | adds the transaction notification with its title, message and data |
| Notifications.NotificationService.SimulateSecurityNotification | mobile/src/services/notifications.ts:138-144 | adds the security notification with the message |
| Notifications.UnreadCountAppend | mobile/src/services/notifications.ts:91-93 | the unread count of a concatenation is the sum of the counts |
| Notifications.AddedCountsOneMore | mobile/src/services/notifications.ts:43-93 | below the cap, adding raises the unread count by one |
| Notifications.AddedAtCapacityDropsOldest | mobile/src/services/notifications.ts:53-56 | at the cap the oldest notification is dropped |
| Notifications.MarkedReadChangesOne | mobile/src/services/notifications.ts:65-71 | marking keeps length and ids, changes at most one entry and only ever sets a flag |
| Notifications.MarkUnknownIdIsNoop | mobile/src/services/notifications.ts:66-67 | an unknown id changes nothing |
| Notifications.UnreadCountUpdate | mobile/src/services/notifications.ts:91-93 | replacing one entry changes the unread count by the change of that entry |
| Notifications.MarkedReadCount | mobile/src/services/notifications.ts:65-93 | marking an unread notification lowers the unread count by one; anything else keeps it |
| Notifications.AllReadNoneUnread | mobile/src/services/notifications.ts:76-93 | after marking all, nothing is unread |
| Notifications.MarkAllLeavesNoneUnread | mobile/src/services/notifications.ts:76-79 | after marking all, nothing is unread and length and ids in order are kept |
| Notifications.DeleteRemovesAll | mobile/src/services/notifications.ts:98-101 | after deleting, no notification has the id and every other one is kept |
| Notifications.SameMillisecondIdsCollide | mobile/src/services/notifications.ts:46-101 | two notifications added in the same millisecond share an id: marking it marks only the newer, deleting it removes both |
| InputValidation.SanitizeObject | backend/src/middleware/inputValidation.ts:34-58 | keeps the shape: a string becomes its sanitised text, arrays and objects keep their length and keys, anything else is unchanged |
| Notifications.MarkedRead | mobile/src/services/notifications.ts:65-71 | only the first notification with the id changes, and it becomes read; the length is kept |
| Notifications.AllRead | mobile/src/services/notifications.ts:76-79 | every notification is read and nothing else about it changes |
| Notifications.WithoutId | mobile/src/services/notifications.ts:98-100 | a notification remains exactly when it was listed and has another id |
| Bill.BillAmount | backend/src/controllers/bill.controller.ts:100 | a whole number of cents within half a cent of the draw scaled into the type's range |
| Records.Ledger.Valid | backend/src/controllers/transfer.controller.ts:35 | a valid ledger has only positive amounts and no two accounts with one id |

## Left out

- Store errors and the `catch` paths that answer 500 are not modelled, except where a store query is given a value it rejects (a negative skip answers 500). Each controller in the model answers from its in-memory tables.
- The fail-open `catch` blocks are not modelled: anti-bruteforce and the progressive delay let the request through when the store throws. Audit writes are the exception: `AuditLogService.Create` takes whether the write succeeds as a parameter and never fails its caller.
- Prisma's ordering of unordered queries is modelled as a parameter. This covers the distinct-IP sample of the risk score (`RiskScoring.IsIpSample`) and the 100 grants the JIT revoke scans. Sessions are scanned in insertion order, and `findFirst` without an `orderBy` is the first matching row in table order (`ZeroTrust.FindFirstSession`).
- Included and selected related objects (a transaction's accounts, an audit record's user) are not modelled. Endpoints return the stored rows themselves.
- Date values are milliseconds since the epoch rather than `Date` objects or ISO strings. This covers the anti-bruteforce `blockUntil`, the JIT `expiresAt`, the bill `dueDate` (days ahead, see `Bill.DueInDays`) and every `createdAt`. The bill's `id`, built from `Date.now()` and a random number, is not modelled.
- Parsing of query strings is not modelled. `parseInt` and `parseFloat` of page, limit, amount and date parameters are taken as already parsed, so NaN and non-numeric input are not modelled. A status string outside the enumeration is not modelled either.
- Floating point is not modelled: money is an exact `real`. `toLocaleString` currency formatting is a parameter (`formattedAmount` for notifications) or is replaced by the numbers the message reports (`TransferLimits.LimitViolation`).
- The text of response messages is kept only where a contract speaks about it. JSON bodies are result datatypes.
- Token signing and verification (JWT), bcrypt, TOTP verification, and the token and MFA controllers are not part of this model. Random tokens (JIT uuid, CSRF token, account and reference numbers) are parameters.
- The SHA-256 hash in the device fingerprint is a function parameter with no properties.
- The rate-limit library's own bookkeeping is not modelled: headers, response shape and the window it is configured with. A limiter refuses when the store's count exceeds its maximum. That rule belongs to the library and is stated in `RateLimiter.Limit`, not derived.
- The `sanitizeInput` middleware wrapper and the express-validator rule chains are not modelled. `sanitizeString` and `sanitizeObject` are.
- The ABAC middleware also stores its context on the request. That side effect is not modelled.
- The commented-out device check of zero trust is dead code and is not modelled.
- The summary's `topActions` and `failedLoginByIP` groupings of `getAuditStats` are not modelled. The status and action counts are.
- The wait performed by the progressive delay is not modelled: its length is (`AntiBruteforce.Delay`).
- The bill provider table lookup treats only the listed cities and types as keys. A query for an `Object.prototype` key such as `constructor` would find an inherited property in the source, and this is not modelled.
- The notification listeners (`subscribe`, `notify`) are callbacks and are not modelled. `getAll` returns a copy in the source; a Dafny sequence is already a value, so aliasing is not modelled. Notifications are values, not shared objects.
- Concurrency is not modelled: every request runs to completion before the next. The race between the limit and fraud reads and the balance updates of a transfer is not represented.
- Routes, `index.ts` and the UI clients are wiring and are not modelled. The transfer route's `minRiskScore` of 70 is kept as `ZeroTrust.TRANSFER_ROUTE_OPTIONS`.
- AuditLogController.MetaNumber: a metadata `amount` or `riskScore` stored as a string is compared numerically by JavaScript, but reads as 0 in the model; the system itself only writes numbers there.
- Rows with equal `createdAt` are ordered by `Pagination.ByNewest` with the later-inserted row first; Postgres leaves their order unspecified, so the model fixes one of the orders it may return.
- JitAccess.RequestThenVerify, JitAccess.RequestThenExpire, JitAccess.RequestThenOtherAction: these assume that no grant for the same user and resource carries a later `createdAt` than the new one, which a clock that never goes back guarantees; with a later-stamped grant among the ten newest, the new grant may not be checked first.
- AuditLogController.LowerChar: folds only the letters A to Z. A `mode: 'insensitive'` filter uses the database's collation, which also folds other letters (for example Ç and Ş), and that is not modelled.
- InputValidation.SanitizeText: counts the 10,000-character limit in code points, while JavaScript's `substring` counts UTF-16 code units, so a text with characters outside the Basic Multilingual Plane is cut at a different place.
- AccountController.CreateAccount follows the branch logic as written (`AccountController.BranchAsWritten`); the corrected rule is given by `AccountController.ChooseBranch` and proved there, under "Findings".
- The structured `Factor` values of the risk score stand for its factor strings; `RiskScoring.Describe` gives each one's text.

## Findings

| source | as written | input that shows it | evidently intended | confidence | as-written member | corrected member |
|---|---|---|---|---|---|---|
| backend/src/controllers/transaction.controller.ts:49-54 | an explicit `accountId` filter replaces the ownership filter, so any account's history can be listed | a caller with no accounts asks for `accountId` of another customer's account and gets its deposit | the account filter is applied only within the caller's own accounts | high, not executed | TransactionController.TransactionHistory, TransactionController.ForeignAccountHistoryLeaks | TransactionController.ScopedTransactionHistory, TransactionController.ScopedHistoryOnlyVisible, TransactionController.ScopedAgreesOnOwnAccounts |
| backend/src/controllers/account.controller.ts:206-256 | the branch name starts out null, so a requested `branchName` never reaches the branch assignment | a request with `branchName` "Kartal Şubesi" and no code, while a stored account has that branch, gets a random branch name | a requested name is kept and gets its stored or a generated code | medium, not executed | AccountController.BranchAsWritten, AccountController.RequestedBranchNameIgnored | AccountController.ChooseBranch, AccountController.RequestedBranchNameKept |
| backend/src/controllers/auditLog.controller.ts:349-375 | `minAmount` is read from the query but never applied | a TRANSFER record of amount 10 is listed for `minAmount` 1000 | only transfers of at least `minAmount` are listed | high, not executed | AuditLogController.GetTransferLogs, AuditLogController.MinAmountIgnored | AuditLogController.GetTransferLogsAtLeast, AuditLogController.AtLeastAgreesWithoutMinimum |
