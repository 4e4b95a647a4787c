# restlos-studio rules, modelled in Dafny

restlos-studio is an internal studio dashboard: user and role administration with six
permission flags, marketing campaigns with dashboard statistics, and a registration flow
that confirms an e-mail address with a six-digit one-time code (OTP). This project models
the deterministic rules underneath the web pages and the API routes, and proves what they
promise.

- **Registration and OTP lifecycle.** The `PendingUser` document (`generateOTP`,
  `verifyOTP`, `isOTPExpired`) and the four handlers that move records between a pending
  collection and the user collection: register, verify-otp, resend-otp (with its two-minute
  rate limit) and the cleanup sweep. `Store.Database` holds the collections as sequences;
  each handler is a `method` that changes them step by step and is proved equal to a pure
  outcome function, about which the lemmas are stated. Among them: "at most one pending
  record per address" is preserved by every handler, and a failed mail rolls the new record
  back.
- **Authorization and users.** The permission record and its constants, the User schema,
  its pre-save hook and `grantPermission`/`revokePermission`, the server-side checks
  (`checkPermission` and the others, `authenticateAdmin`), the client hook `usePermissions`,
  the credential check `authorize` with its fixed error order, the JWT and session callbacks,
  and the two routes that edit users.
- **Campaigns.** The enum validators and label maps, the schema's validators and virtuals,
  `validateCampaignData` as the first failure of an ordered list of checks, campaign
  creation, paging, and the statistics pipelines as folds over the caller's campaigns.
- **Client-side helpers.** Navigation filtering, the user list's filters and counters, the
  two user dialogs, the campaign dialog, the register, verify, login and settings pages,
  the avatar initials, and the image collage's slots, swaps and layout.

Documents the source changes in place (a `PendingUser`, a `User`, a `Campaign`, the session
user, the verify page's countdown) are classes, read through a `Record()` or `State()` function or a `data` field.
Time is an integer number of milliseconds. Random draws, password hashing, token
generation, the mail provider, URL and date parsing, `parseFloat` and the regular-expression
search are parameters. Amounts and ratios are reals.

The shared modules are `Wrappers` (`Option`), `Seqs` (filter, count, subsequence),
`Text` (JavaScript's `trim`, ASCII case mapping, `includes`, `split`, decimal rendering),
`FormChecks` (the e-mail pattern), `Http` (status codes) and `Store` (the collections).

## Model

| member | source | states |
|---|---|---|
| PendingUserModel.OtpNumber | src/lib/models/PendingUser.ts:67 | a draw of `Math.random()` gives a number from 100000 to 999999 |
| PendingUserModel.OtpCode | src/lib/models/PendingUser.ts:67 | the issued code has exactly six decimal digits and denotes that number |
| PendingUserModel.VerifyOtp | src/lib/models/PendingUser.ts:73-77 | an input verifies exactly when a non-empty code and an expiry are stored, the expiry has not passed and the input equals the code |
| PendingUserModel.IsOtpExpired | src/lib/models/PendingUser.ts:79-82 | a record is expired exactly when it has no expiry or the expiry lies before now |
| PendingUserModel.VerifiedIsNotExpired | src/lib/models/PendingUser.ts:73-82 | a code that verifies belongs to a record that is not expired |
| PendingUserModel.ExpiredRejectsEveryCode | src/lib/models/PendingUser.ts:73-82 | after the expiry no input verifies, the stored code included |
| PendingUserModel.IssuedCodeLifetime | src/lib/models/PendingUser.ts:66-77 | a code issued at `t` verifies exactly up to `t` plus 15 minutes; any other input never verifies |
| PendingUserModel.PendingUserDoc.constructor | src/lib/models/PendingUser.ts:18-59 | a new document holds the lower-cased, trimmed address, the trimmed names, no code and the creation time |
| PendingUserModel.PendingUserDoc.Load | src/lib/models/PendingUser.ts:4-16 | a loaded document holds the stored record |
| PendingUserModel.PendingUserDoc.GenerateOtp | src/lib/models/PendingUser.ts:66-71 | issuing changes only the code and its expiry (now plus 15 minutes) and returns the six-digit code |
| Store.FindUser | src/lib/auth.ts:69-71 | returns -1 exactly when no user has the key, and otherwise the position of the first user with that key |
| Store.FindPendingByEmail | src/app/api/register/route.ts:38-40 | returns -1 exactly when no pending record has the key, and otherwise the position of the first one that has it |
| Store.FindPendingByToken | src/app/api/verify-otp/route.ts:22-24 | returns -1 exactly when no pending record has the token, and otherwise the position of the first one that has it |
| Store.DeletePendingById | src/app/api/verify-otp/route.ts:76 | exactly the records with another id remain, in their order |
| Store.DeleteByEmailFirstMatch | src/app/api/register/route.ts:43 | when a record carries the key, `DeletePendingByEmail` removes exactly the first such record, keeping the others in order, so the multiset loses that one record; with at most one record per address none with the key is left (without a match the function's own contract leaves the collection as it is) |
| Store.FoundByToken | src/lib/models/PendingUser.ts:48-52 | with unique tokens the lookup by token finds the one record that carries it |
| Store.ReplaceAtIndex | src/app/api/resend-otp/route.ts:54 | with unique ids, `ReplacePending` (a `save()` of a stored record) changes only the record's own position, to the saved one |
| Store.ReplaceUserAtIndex | src/app/api/user/route.ts:127 | with unique ids, `ReplaceUser` (a `save()` of a stored user) changes only the user's own position, to the saved one |
| Store.AtMostOneAfterDelete | src/app/api/verify-otp/route.ts:76 | deleting by id keeps every address and every id at most once |
| Store.Database.NewId | src/app/api/register/route.ts:54-60 | a new document gets the next unused id; the collections are unchanged |
| Store.Database.DeleteOnePendingByEmail | src/app/api/register/route.ts:43 | the pending collection becomes the collection without the first record for the key; nothing else changes |
| Store.Database.DeleteOnePendingById | src/app/api/register/route.ts:88 | the pending collection loses the record with that id; nothing else changes |
| Store.Database.SavePending | src/app/api/register/route.ts:67 | a save that passes the validators and the unique token index inserts a new record or replaces the stored one; a refused save changes nothing |
| Store.Database.SaveUser | src/app/api/verify-otp/route.ts:73 | the pre-save hook runs first; a save that passes the validators and the unique address index inserts or replaces the record, a refused one changes nothing |
| Store.Database.DeleteManyPending | src/app/api/cleanup-pending-users/route.ts:15-30 | exactly the records that do not match remain, and the count is the number removed |
| Store.Database.InsertCampaign | src/app/api/campaigns/route.ts:168 | a campaign without schema errors and with a free auction number is appended; otherwise nothing changes |
| Store.AppendCampaignKeepsKeys | src/lib/models/Campaign.ts:33-38 | appending a campaign with a new id and a free auction number keeps ids and auction numbers unique |
| RegisterRoute.Post | src/app/api/register/route.ts:15-116 | `RegisterOutcome` is the specification: the handler leaves the pending collection, the id counter and the reply exactly as the outcome function gives them, touching neither users nor campaigns |
| RegisterRoute.Replace | src/app/api/register/route.ts:37-45 | an earlier pending record for the lower-cased address is deleted before the new one is enrolled |
| RegisterRoute.Enroll | src/app/api/register/route.ts:47-108 | the new record is built, saved and mailed as the enrol outcome gives it |
| RegisterRoute.Build | src/app/api/register/route.ts:55-64 | a fresh document holding the issued record: lower-cased address, hashed password, token and a fresh code |
| RegisterRoute.SaveAndMail | src/app/api/register/route.ts:66-108 | the record is saved and, when the mail fails, deleted again by its id with a 500 reply |
| RegisterRoute.IncompleteRefused | src/app/api/register/route.ts:18-23 | a request without one of the four fields gets 400 and changes nothing |
| RegisterRoute.KnownAddressRefused | src/app/api/register/route.ts:29-35 | an address a user already holds, after lower-casing, gets 409 and changes nothing |
| RegisterRoute.StartedStoresRecord | src/app/api/register/route.ts:37-108 | a successful registration replaces any earlier pending record for the address by one with the lower-cased address, the hashed password, the token and a six-digit code valid for the code lifetime, and replies with that token |
| RegisterRoute.StartedOutcome | src/app/api/register/route.ts:37-108 | the `Started` reply comes only from a complete request for a free address whose mail went out, and it appends the issued record to the cleared collection |
| RegisterRoute.IssuedFields | src/app/api/register/route.ts:55-64 | the issued record's address, password hash, token, six-digit code, expiry and creation time |
| RegisterRoute.DeleteAppended | src/app/api/register/route.ts:88 | deleting by the new record's id removes exactly the record just appended |
| RegisterRoute.MailFailureRollsBack | src/app/api/register/route.ts:76-98 | a failed mail leaves the collection without the new record and without the earlier one, and replies 500 without `requiresVerification` |
| RegisterRoute.EnrollMailFailure | src/app/api/register/route.ts:85-98 | after a failed mail the collection is the one before the save |
| RegisterRoute.ClearedIdsBelow | src/app/api/register/route.ts:43 | deleting by address keeps every id below the counter |
| RegisterRoute.ClearedHasNoKey | src/app/api/register/route.ts:38-45 | after the delete no pending record has the address, given at most one had it |
| RegisterRoute.AppendKeepsUnique | src/app/api/register/route.ts:67 | appending a record with a new address and a new id keeps addresses and ids unique |
| RegisterRoute.RegisterKeepsOnePerEmail | src/app/api/register/route.ts:37-108 | registration keeps at most one pending record per address and unique ids |
| VerifyOtpRoute.Post | src/app/api/verify-otp/route.ts:8-105 | `VerifyOutcome` is the specification: the handler leaves users, pending records, the id counter and the reply exactly as the outcome function gives them, touching no campaign |
| VerifyOtpRoute.Promote | src/app/api/verify-otp/route.ts:50-97 | an address that has a user meanwhile only loses its pending record; otherwise the user is created and the pending record removed |
| VerifyOtpRoute.FreshUserIdNotStored | src/app/api/verify-otp/route.ts:61-73 | the id given to the new user is not used by an existing one |
| VerifyOtpRoute.MissingInputRefused | src/app/api/verify-otp/route.ts:12-17 | no token or no code gets 400 and changes nothing |
| VerifyOtpRoute.UnknownTokenRefused | src/app/api/verify-otp/route.ts:21-31 | a token no record carries gets 404 and changes nothing |
| VerifyOtpRoute.FailedCodeKeepsRecord | src/app/api/verify-otp/route.ts:33-48 | a code that does not verify gets 410 when the stored code has expired and 400 otherwise, and leaves everything as it was |
| VerifyOtpRoute.ValidCodeForKnownAddress | src/app/api/verify-otp/route.ts:50-59 | a valid code for an address that meanwhile has a user removes the pending record and gets 409, users unchanged |
| VerifyOtpRoute.SuccessPromotes | src/app/api/verify-otp/route.ts:33-97 | success means the stored code matched and had not expired; exactly one user is appended with the pending names, address and hashed password, role `user`, not approved, active and without permissions, and the pending record is gone |
| VerifyOtpRoute.PromoteKeepsOnePerEmail | src/app/api/verify-otp/route.ts:50-76 | promotion keeps at most one pending record per address and unique ids |
| VerifyOtpRoute.VerifyKeepsOnePerEmail | src/app/api/verify-otp/route.ts:8-105 | every outcome keeps at most one pending record per address and unique ids |
| ResendOtpRoute.CeilDiv | src/app/api/resend-otp/route.ts:40-42 | `Math.ceil(a / b)`: the least whole number whose multiple of `b` reaches `a` |
| ResendOtpRoute.WaitMinutes | src/app/api/resend-otp/route.ts:40-45 | the reported wait is at least one minute |
| ResendOtpRoute.Post | src/app/api/resend-otp/route.ts:7-85 | `ResendOutcome` is the specification: the handler leaves the pending collection and the reply exactly as the outcome function gives them, touching nothing else |
| ResendOtpRoute.MissingOrUnknownToken | src/app/api/resend-otp/route.ts:11-30 | no token gets 400, a token no record carries 404, and neither changes the collection |
| ResendOtpRoute.RefusedExactlyWhenRecent | src/app/api/resend-otp/route.ts:32-50 | the request is refused with 429 exactly when an expiry is stored and its code was issued less than two minutes ago; a refusal changes nothing, and a record without an expiry is never refused |
| ResendOtpRoute.WaitBounds | src/app/api/resend-otp/route.ts:34-45 | the wait is the minutes, rounded up, until two minutes after issue: at least 1, and at most 2 for a code issued in the past |
| ResendOtpRoute.ReissueReplacesRecord | src/app/api/resend-otp/route.ts:52-77 | otherwise only the token's record changes, getting the new code and an expiry one code lifetime from now; a failed mail keeps the new code and replies 500 |
| ResendOtpRoute.ResendKeepsOnePerEmail | src/app/api/resend-otp/route.ts:6-85 | every outcome keeps at most one pending record per address, and unique ids and tokens |
| ResendOtpRoute.SecondResendRefused | src/app/api/resend-otp/route.ts:32-54 | a second resend less than two minutes after a successful one is refused |
| CleanupRoute.Post | src/app/api/cleanup-pending-users/route.ts:6-70 | `CleanupOutcome` is the specification: the three deletions and two counts leave the pending collection and the report exactly as the outcome function gives them, touching nothing else |
| CleanupRoute.SweepLeavesNoMatch | src/app/api/cleanup-pending-users/route.ts:12-35 | after the sweep no record is older than a day, none has a code expired more than half an hour ago, and every one has a non-empty code and an expiry |
| CleanupRoute.SweepKeepsTheRest | src/app/api/cleanup-pending-users/route.ts:12-35 | what is left is exactly the records no pass matches, unchanged and in their order |
| CleanupRoute.SweepKeepsOnePerEmail | src/app/api/cleanup-pending-users/route.ts:12-35 | the sweep keeps at most one pending record per address and unique ids |
| CleanupRoute.SweepCounts | src/app/api/cleanup-pending-users/route.ts:15-52 | each pass counts only what the earlier passes left, the total is their sum, the remaining count is the initial size less the total, and the last-hour count is at most the remaining one |
| CleanupRoute.SweepIdempotent | src/app/api/cleanup-pending-users/route.ts:12-40 | a second sweep at the same instant deletes nothing |
| CleanupRoute.OldestIndex | src/app/api/cleanup-pending-users/route.ts:108-110 | a position holding the least creation time |
| CleanupRoute.NewestIndex | src/app/api/cleanup-pending-users/route.ts:111-113 | a position holding the greatest creation time |
| CleanupRoute.StatsCounts | src/app/api/cleanup-pending-users/route.ts:89-105 | of `GetStats`: expired plus valid codes is the number of records with an expiry; the last-hour count is at most the last-day count, which is at most the total |
| CleanupRoute.StatsExtremes | src/app/api/cleanup-pending-users/route.ts:107-140 | `GetStats` reports the oldest and the newest exactly when a record exists, each with the address and time of a stored record; no record is older than the oldest or newer than the newest; `ageInHours` and `ageInMinutes` are the elapsed time rounded down to whole hours and whole minutes |
| Permissions.Flags.Set | src/app/dashboard/users/UserEditForm.tsx:170-177 | `{ ...permissions, [p]: v }` sets flag `p` to `v` and keeps every other flag |
| Permissions.FlagsExtensional | src/lib/types/permissions.ts:13-20 | two permission records that agree on all six permissions are the same record |
| Permissions.EnumerationsComplete | src/lib/types/permissions.ts:3-11 | there are exactly six permissions and three roles, each listed once |
| Permissions.ConstantRecords | src/lib/types/permissions.ts:51-59 | the default record grants nothing, the admin record grants everything, the fallback record grants only marketing |
| Permissions.Label | src/lib/types/permissions.ts:61-69 | every permission has a non-empty label |
| Permissions.LabelsDistinct | src/lib/types/permissions.ts:61-69 | no two permissions share a label |
| Permissions.ParsePermission | src/lib/types/permissions.ts:3-9 | a string is recognised as a permission only when it is that permission's key |
| Permissions.ParseKeyRoundTrip | src/lib/types/permissions.ts:3-9 | every permission is recognised from its own key |
| Permissions.ParseRole | src/lib/models/User.ts:43-47 | a string is recognised as a role only when it is that role's key |
| Permissions.ParseRoleRoundTrip | src/lib/models/User.ts:43-47 | every role is recognised from its own key |
| Permissions.Effective | src/app/api/user/route.ts:27-42 | stored permissions are kept; without them an admin gets every flag and anyone else only marketing |
| Permissions.AnyHeld | src/lib/middleware/checkPermissions.ts:74-76 | true exactly when some listed permission is held |
| Permissions.AllHeld | src/hooks/usePermissions.ts:53-55 | true exactly when every listed permission is held |
| UserModel.NewUser | src/lib/models/User.ts:20-88 | a new user has the lower-cased, trimmed address and trimmed names; each field left out takes its default, each given field is kept, and there is no last login |
| UserModel.NewUserDefaults | src/lib/models/User.ts:43-81 | with only the required fields the user is an unapproved, active `user` without any permission, and the stored address has no surrounding spaces and no upper-case letter |
| UserModel.HydratedAsCreated | src/lib/models/User.ts:43-85 | `Hydrated`, the document a non-lean `findOne` loads: loading fills in exactly the defaults `new User` fills in (role `user`, not approved, active, every flag unset), so a legacy record reads like one created with the fields it has; loading twice is loading once |
| UserModel.CreatedIsHydrated | src/lib/models/User.ts:43-85 | a document `new User` made is loaded back exactly as it was stored |
| UserModel.HydratedFallbacksUnused | src/lib/auth.ts:98-122 | on a loaded document the fallbacks `user.permissions || ...` and `isActive ?? true` never apply: the effective flags are the stored ones or none, and `hasPermission` reads as on the stored record |
| UserModel.PreSaved | src/lib/models/User.ts:96-108 | an admin is saved with all six flags set; everyone else is saved unchanged; nothing but the permissions ever changes |
| UserModel.PreSaveIdempotent | src/lib/models/User.ts:96-108 | running the pre-save hook twice is the same as running it once |
| UserModel.Granted | src/lib/models/User.ts:122-126 | granting sets that flag and leaves the other flags and every other field as they were |
| UserModel.Revoked | src/lib/models/User.ts:128-135 | revoking leaves an admin untouched; for anyone else it clears that flag only |
| UserModel.AdminHoldsEverything | src/lib/models/User.ts:116-135 | an admin has every permission, even after a revoke |
| UserModel.NonAdminHasPermission | src/lib/models/User.ts:116-135 | `HasPermission`: for a non-admin `hasPermission` is the flag; granting makes it true, revoking false, and changing another permission leaves it as it was |
| UserModel.FullNameParts | src/lib/models/User.ts:111-113 | `FullName` reads back as its parts: its length is that of both names plus one, the first name comes first, then one space, then the last name, as the template string `${firstName} ${lastName}` lays them out |
| UserModel.FindActiveUsers | src/lib/models/User.ts:138-140 | exactly the active and approved users, in stored order |
| UserModel.FindByPermission | src/lib/models/User.ts:142-150 | exactly the active, approved users whose flag for the permission is set, in stored order |
| UserModel.ByPermissionWithinActive | src/lib/models/User.ts:138-150 | everyone found by a permission is an active user, so there are never more of them |
| UserModel.UserDoc.constructor | src/lib/models/User.ts:153-154 | a loaded document holds the stored record |
| UserModel.UserDoc.PreSave | src/lib/models/User.ts:96-108 | saving a document applies the pre-save hook to its record |
| UserModel.UserDoc.GrantPermission | src/lib/models/User.ts:122-126 | the document's record becomes the granted record |
| UserModel.UserDoc.RevokePermission | src/lib/models/User.ts:128-135 | the document's record becomes the revoked record |
| AuthenticateAdmin.AdminGate | src/lib/middleware/authenticateAdmin.ts:3-14 | `AuthenticateAdmin`: authorized exactly when a token exists and its role is `admin`; an authorized result carries the token, a refusal carries none |
| AuthenticateAdmin.ComparedWithCheckAdmin | src/lib/middleware/authenticateAdmin.ts:8-13 | for an active token this gate is stricter than `checkAdminPermission`: the `admin` flag alone passes only the other, and an inactive admin passes only this one |
| CheckPermissions.CommonRefusals | src/lib/middleware/checkPermissions.ts:15-128 | every check refuses a missing token with `Nicht eingeloggt` and an inactive one with `Account deaktiviert`, before any role test; every result is well formed |
| CheckPermissions.PermissionRule | src/lib/middleware/checkPermissions.ts:29-43 | `CheckPermission`: an active admin passes every permission; an active non-admin passes exactly when its permissions have that flag set |
| CheckPermissions.AnyPermissionRule | src/lib/middleware/checkPermissions.ts:63-85 | `CheckAnyPermission`: an active non-admin passes exactly when one listed flag is set, so an empty list is refused; for a non-empty list it passes exactly when `checkPermission` passes for some element |
| CheckPermissions.AdminRule | src/lib/middleware/checkPermissions.ts:91-111 | `CheckAdminPermission`: passes exactly for an active token whose role is `admin` or whose `admin` flag is set, the same verdict as `checkPermission(admin)` |
| CheckPermissions.AuthenticatedRule | src/lib/middleware/checkPermissions.ts:116-128 | `CheckAuthenticated`: passes exactly for a present, active token; every other check passes only when this one does |
| CheckPermissions.RefusalResponses | src/lib/middleware/checkPermissions.ts:133-151 | a refusal of any check passed to `unauthorizedResponse` or `forbiddenResponse` (`UnauthorizedResponse`, `ForbiddenResponse`) keeps the check's own message with status 401 or 403; the defaults `Unauthorized` and `Forbidden` appear only without a message |
| CheckPermissions.SignedInTokenAuthenticated | src/lib/auth.ts:86-93 | the token written at a successful sign-in passes `checkAuthenticated`, since only active users sign in |
| UsePermissions.UserPermissions | src/hooks/usePermissions.ts:14-40 | without a session user the defaults; with stored permissions exactly those |
| UsePermissions.EffectiveRecord | src/hooks/usePermissions.ts:14-47 | `HasPermission` reads the effective record: no session grants nothing; stored permissions decide as they are; without them an admin holds all six and anyone else only marketing |
| UsePermissions.AnyAndAll | src/hooks/usePermissions.ts:49-55 | `HasAnyPermission` and `HasAllPermissions`: `hasAnyPermission` is the existential and `hasAllPermissions` the universal over the list, so the empty list gives false and true, and for a non-empty list all implies any |
| UsePermissions.AdminAndDepartments | src/hooks/usePermissions.ts:57-67 | `IsAdmin` and `CanAccessDepartment`: `isAdmin` holds exactly for role `admin` or a set `admin` flag; `canAccessDepartment` is true for admins and otherwise the department's flag |
| Auth.Authorize | src/lib/auth.ts:62-124 | `AuthorizeOutcome` is the specification: the handler loads the found user with the schema defaults filled in, and leaves the user collection and returns the result exactly as the outcome function gives them; the other collections are untouched |
| Auth.MissingCredentialsFirst | src/lib/auth.ts:65-67 | `MissingCredentials` is thrown exactly when the address or the password is missing |
| Auth.UnknownAddressSecond | src/lib/auth.ts:69-75 | with both credentials given, `UserNotFound` is thrown exactly when no user holds the lower-cased address |
| Auth.RefusalWritesNothing | src/lib/auth.ts:65-96 | every refusal leaves the user collection unchanged, so `lastLogin` is written only on success |
| Auth.LaterFailures | src/lib/auth.ts:77-92 | for a known address: `InvalidPassword` exactly when the password does not match, then `NOT_APPROVED` exactly when the account is not approved (a record without the field counts as not approved), then `ACCOUNT_DEACTIVATED` exactly when it is stored as inactive (a record without the field counts as active) |
| Auth.SuccessfulSignIn | src/lib/auth.ts:69-123 | a sign-in succeeds only for a matching, approved user not stored as inactive; only that user's record changes, to the loaded document with `lastLogin` now and the filled-in defaults saved; the result carries its id, address, role (`user` when none is stored) and names, the admin's six flags, otherwise the stored flags or none, and `isActive` true |
| Auth.Jwt | src/lib/auth.ts:129-144 | without a user the token is returned unchanged |
| Auth.JwtAtSignIn | src/lib/auth.ts:129-142 | at sign-in the token carries every field of the user and the name "first last"; a later call keeps that token |
| Auth.SessionUser.constructor | src/lib/auth.ts:24-35 | a new session user holds the given claims |
| Auth.SessionUser.CopyFrom | src/lib/auth.ts:147-154 | after the eight copies the session user equals the token |
| Auth.SessionCallback | src/lib/auth.ts:145-157 | with a token and a session user, the user becomes the token; without a token it is left as it was |
| UserRoute.Put | src/app/api/user/route.ts:67-140 | `PutResult` is the specification: the handler leaves users and the reply exactly as the outcome function gives them, touching nothing else |
| UserRoute.Assign | src/app/api/user/route.ts:94-125 | the loaded document's assignments give the edited record, and a role outside the enum is reported |
| UserRoute.AssignNames | src/app/api/user/route.ts:96-98 | a supplied first or last name is stored trimmed |
| UserRoute.AssignAdminFields | src/app/api/user/route.ts:101-119 | the administrator's address, role, approval and permission assignments |
| UserRoute.AssignEmail | src/app/api/user/route.ts:114 | a supplied address is stored lower-cased and trimmed |
| UserRoute.AssignRole | src/app/api/user/route.ts:116 | a supplied role is applied when the enum has it and reported otherwise |
| UserRoute.AssignFlags | src/app/api/user/route.ts:117-118 | a supplied approval flag or permission record replaces the stored one |
| UserRoute.Save | src/app/api/user/route.ts:127-132 | the save replaces the caller's record, or fails with 500 when the schema refuses it |
| UserRoute.RefusedCallers | src/app/api/user/route.ts:11-26 | without a signed-in address both handlers reply 401, for an unknown address 404, and nothing changes |
| UserRoute.ProfileFallbacks | src/app/api/user/route.ts:28-57 | `Get` and `ProfileOf`: `GET` returns the stored permissions or the role's fallback, role `user`, not approved and active where the record lacks them, and stored values as they are |
| UserRoute.UpdateRules | src/app/api/user/route.ts:86-127 | a successful `PUT` changes only the caller's record, starting from the loaded document with the schema defaults: trimmed names when sent, a new hash only for a non-blank password, for a non-admin the address, role, approval and permissions as loaded, and the filled-in defaults saved with it |
| UserRoute.AdminAddressChange | src/app/api/user/route.ts:101-115 | an administrator's new address that another user holds after lower-casing gets 400 and nothing is saved; on success it is stored lower-cased |
| AdminUsersRoute.Create | src/app/api/admin/users/route.ts:56-137 | `CreateResult` is the specification: the handler leaves users, the id counter and the reply exactly as the outcome function gives them, touching no pending record or campaign |
| AdminUsersRoute.Make | src/app/api/admin/users/route.ts:98-129 | the password is hashed, the user built and saved |
| AdminUsersRoute.Build | src/app/api/admin/users/route.ts:103-124 | the new document with the fresh id and the hash, then its save |
| AdminUsersRoute.Insert | src/app/api/admin/users/route.ts:124-129 | the save of a document with a fresh id |
| AdminUsersRoute.RefusedCaller | src/app/api/admin/users/route.ts:12-18 | a caller the admin check refuses gets 401 from both handlers with the check's message, and nothing changes |
| AdminUsersRoute.ListShape | src/app/api/admin/users/route.ts:20-46 | `ListUsers`: one entry per stored user, in order, without the hash; permissions are the stored flags, or all six for an admin and marketing only for anyone else, and a missing active flag reads true |
| AdminUsersRoute.CreateRefusals | src/app/api/admin/users/route.ts:79-96 | a missing field gives 400, and so does an address a user already holds after lower-casing; a user is created only when neither applies |
| AdminUsersRoute.CreatedUser | src/app/api/admin/users/route.ts:98-129 | a created user is appended with the next id, approved, role `user` unless another is sent, active unless sent otherwise, trimmed names, the lower-cased trimmed address and the hashed password; an admin holds all six flags, anyone else the sent flags or the default; the reply omits the hash |
| AdminUsersRoute.CandidateFacts | src/app/api/admin/users/route.ts:103-122 | the fields of the document the handler builds |
| CampaignTypes.IsValidChannelExactly | src/lib/types/campaign.ts:146-148 | `isValidChannel` accepts a string exactly when it is the key of one of the four channels |
| CampaignTypes.IsValidStatusExactly | src/lib/types/campaign.ts:150-152 | `isValidStatus` accepts a string exactly when it is the key of one of the five statuses |
| CampaignTypes.IsValidMetaAdTypeExactly | src/lib/types/campaign.ts:154-156 | `isValidMetaAdType` accepts a string exactly when it is the key of one of the four Meta ad types |
| CampaignTypes.IsValidGoogleAdTypeExactly | src/lib/types/campaign.ts:158-160 | `isValidGoogleAdType` accepts a string exactly when it is the key of one of the four Google ad types |
| CampaignTypes.SharedAdType | src/lib/types/campaign.ts:154-160 | `video` is the only string that both ad-type validators accept |
| CampaignTypes.ChannelLabel | src/lib/types/campaign.ts:114-119 | every channel has a non-empty label |
| CampaignTypes.StatusLabel | src/lib/types/campaign.ts:122-128 | every status has a non-empty label |
| CampaignTypes.MetaAdTypeLabel | src/lib/types/campaign.ts:131-136 | every Meta ad type has a non-empty label |
| CampaignTypes.GoogleAdTypeLabel | src/lib/types/campaign.ts:138-143 | every Google ad type has a non-empty label |
| CampaignTypes.LabelsDistinct | src/lib/types/campaign.ts:114-143 | within each label map, different members have different labels |
| CampaignTypes.KeysInjective | src/lib/types/campaign.ts:3-14 | within each union type, different members have different keys |
| CampaignModel.SchemeEnd | src/lib/models/Campaign.ts:45 | the position after a leading `http://` or `https://` lies within the link |
| CampaignModel.LinkMatchesExactly | src/lib/models/Campaign.ts:43-48 | `/^https?:\/\/.+/` accepts a link exactly when it starts with `http://` or `https://` and a character other than a line terminator follows |
| CampaignModel.LinkExamples | src/lib/models/Campaign.ts:43-48 | instances only, beside the general `LinkMatchesExactly`: a bare `https://` and an `ftp://` link are refused, `https://example.org` is accepted |
| CampaignModel.RoiRecoversRevenue | src/lib/models/Campaign.ts:137-145 | with a positive budget the ROI times the budget is the estimated revenue, otherwise the ROI is 0; the same for the actual ROI |
| CampaignModel.IsActiveOverTime | src/lib/models/Campaign.ts:147-149 | a campaign is active only with status `active` and before its end date, and once inactive by date it stays inactive |
| CampaignModel.Refused | src/lib/models/Campaign.ts:68-88 | lists every element an enum refuses, with its position, and is empty exactly when all elements are accepted |
| CampaignModel.EnumErrors | src/lib/models/Campaign.ts:68-88 | an array path has no enum error exactly when every element is accepted |
| CampaignModel.SchemaErrors | src/lib/models/Campaign.ts:31-128 | a campaign has no schema error exactly when it has an auction number, a matching link, non-negative revenue and budget, valid channels and ad types, a valid status and notes of at most 1000 characters |
| CampaignModel.CampaignDoc.constructor | src/lib/models/Campaign.ts:158-160 | a new document holds the given campaign |
| CampaignModel.CampaignDoc.PreSave | src/lib/models/Campaign.ts:131-134 | every save sets `updatedAt` to the current time and changes nothing else |
| CampaignsRoute.FirstInvalid | src/app/api/campaigns/route.ts:248-252 | the loop finds nothing exactly when every element passes, and what it finds is an element of the list that fails |
| CampaignsRoute.FirstInvalidIsFirst | src/app/api/campaigns/route.ts:248-252 | the loop reports the failing element every earlier element of which passed |
| CampaignsRoute.ValidateFields | src/app/api/campaigns/route.ts:210-245 | the first eight checks pass exactly when number and link are non-blank, the end date is given, revenue and budget are positive, a channel is chosen, the link parses as a URL and the date parses |
| CampaignsRoute.LoopCheck | src/app/api/campaigns/route.ts:248-252 | a list check passes exactly when every element is valid |
| CampaignsRoute.AdTypeCheck | src/app/api/campaigns/route.ts:255-276 | an ad-type check passes exactly when its channel is not chosen or its list is non-empty and every entry is valid |
| CampaignsRoute.FirstSome | src/app/api/campaigns/route.ts:208-284 | the chain's result: nothing exactly when every check passes, otherwise the first failing check |
| CampaignsRoute.ValidateIsFirstFailure | src/app/api/campaigns/route.ts:208-284 | `Validate` (`validateCampaignData`): the early-return chain reports the first failing check in the list's order |
| CampaignsRoute.FieldChecksInOrder | src/app/api/campaigns/route.ts:210-245 | the first eight entries of the list are the field checks, in order |
| CampaignsRoute.FirstSomeAt | src/app/api/campaigns/route.ts:208-284 | the first failing check is the one before which every check passes |
| CampaignsRoute.ListChecksInOrder | src/app/api/campaigns/route.ts:247-281 | the last four entries of the list are the loops, the ad types and the notes, in order |
| CampaignsRoute.FirstSomeConcat | src/app/api/campaigns/route.ts:208-284 | the first failure of two lists of checks in a row is the first of the front list, or else of the back list |
| CampaignsRoute.FirstSomeFrom | src/app/api/campaigns/route.ts:208-284 | one step of the search: a failing check ends it, a passing one moves on |
| CampaignsRoute.ValidExactly | src/app/api/campaigns/route.ts:208-284 | `Validate` passes a request exactly when all twelve conditions hold, among them that notes (`NotesCheck`) are absent or at most 1000 characters |
| CampaignsRoute.UnchosenMetaIgnored | src/app/api/campaigns/route.ts:255-264 | ad types for meta are not looked at unless meta is chosen |
| CampaignsRoute.UnchosenGoogleIgnored | src/app/api/campaigns/route.ts:267-276 | ad types for google are not looked at unless google is chosen |
| CampaignsRoute.InvalidChannelNamed | src/app/api/campaigns/route.ts:248-252 | a channel outside the enum is reported by name once every earlier check passed |
| CampaignsRoute.Post | src/app/api/campaigns/route.ts:94-205 | `PostResult` is the specification: the handler leaves the campaigns, the id counter and the reply exactly as the outcome function gives them, touching no user or pending record |
| CampaignsRoute.NewDocument | src/app/api/campaigns/route.ts:147-168 | a fresh campaign document built from the request, the owner and the status for the end date, with the pre-save stamp |
| CampaignsRoute.Create | src/app/api/campaigns/route.ts:167-181 | against `SaveResult`: the document is built and saved, or refused with the schema's messages |
| CampaignsRoute.PostRefusals | src/app/api/campaigns/route.ts:98-129 | no signed-in address gets 401, an unknown address 404, and a failing check 400 with its message; nothing is created |
| CampaignsRoute.DuplicateRefused | src/app/api/campaigns/route.ts:131-144 | a valid request whose auction number a campaign already has gets 409 and nothing is created |
| CampaignsRoute.SavedCampaign | src/app/api/campaigns/route.ts:146-181 | a saved campaign is appended with the next id, belongs to the caller, carries the parsed end date, passes the schema, and no earlier campaign has its number |
| CampaignsRoute.BuiltCampaign | src/app/api/campaigns/route.ts:146-163 | the document `Built` makes is `planned` exactly when its end date lies after now and `ended` otherwise, starts with zero counters, keeps a `createdAt` the body carries and otherwise takes now, and has `updatedAt` now |
| CampaignsRoute.Matching | src/app/api/campaigns/route.ts:49-57 | exactly the campaigns that pass the owner, status and search filters |
| CampaignsRoute.Window | src/app/api/campaigns/route.ts:64-70 | `skip` then `limit`: at most that many consecutive entries from position `skip`, a zero limit meaning no limit |
| CampaignsRoute.TotalPages | src/app/api/campaigns/route.ts:82 | for a positive limit the least number of pages holding the list; none for a zero limit |
| CampaignsRoute.SkipSign | src/app/api/campaigns/route.ts:64 | the skip is not negative exactly from page 1 on |
| CampaignsRoute.PageStartsInside | src/app/api/campaigns/route.ts:64-82 | a page up to the page count starts inside the list |
| CampaignsRoute.PageOf | src/app/api/campaigns/route.ts:64-82 | a page holds at most `limit` consecutive matching entries from the skip on, the page count is the least that holds the list, and a page up to it is empty only for an empty list |
| CampaignsRoute.PageContents | src/app/api/campaigns/route.ts:18-84 | `List`: a page lists only the caller's campaigns that pass the filters, as that window, and `total` counts every matching one |
| CampaignStats.GroupIsSums | src/app/api/campaigns/stats/route.ts:43-77 | each accumulator of the `$group` stage is the count or sum it stands for |
| CampaignStats.TotalsAreSums | src/app/api/campaigns/stats/route.ts:36-108 | `Stats` over `GroupAll`: the figures count and sum exactly the caller's campaigns, the average ROI is total revenue over total budget when that is positive and 0 otherwise, and with no campaign every figure is 0 |
| CampaignStats.DisjointCounts | src/app/api/campaigns/stats/route.ts:49-63 | the three status counts together count each campaign at most once |
| CampaignStats.StatusCountsBounded | src/app/api/campaigns/stats/route.ts:48-63 | active, planned and ended together never exceed the total |
| CampaignStats.OthersIgnored | src/app/api/campaigns/stats/route.ts:38-40 | another user's campaign changes no figure |
| CampaignStats.RatioOfSumsExample | src/app/api/campaigns/stats/route.ts:92-96 | an instance only, beside the general `TotalsAreSums`: for two given campaigns the average ROI, a ratio of sums, differs from the mean of their ratios |
| CampaignStats.UnwindMembers | src/app/api/campaigns/stats/route.ts:135 | `$unwind` (`Pairs`) yields exactly the pairs of a campaign and one of its channels |
| CampaignStats.Keys | src/app/api/campaigns/stats/route.ts:137-138 | the group keys are each channel that occurs, once each |
| CampaignStats.Insert | src/app/api/campaigns/stats/route.ts:153 | inserting keeps every entry and adds the new one |
| CampaignStats.InsertDescending | src/app/api/campaigns/stats/route.ts:153 | inserting into a descending list keeps it descending |
| CampaignStats.SortByRoi | src/app/api/campaigns/stats/route.ts:153 | the sort reorders the groups, keeping each of them |
| CampaignStats.SortDescending | src/app/api/campaigns/stats/route.ts:153 | the sorted groups descend by average ROI |
| CampaignStats.ChannelGroupsExact | src/app/api/campaigns/stats/route.ts:133-154 | every channel one of the caller's campaigns lists has exactly one group, and every group's channel is listed by one of them |
| CampaignStats.GroupChannelListed | src/app/api/campaigns/stats/route.ts:133-152 | the channel of a group is listed by one of the caller's campaigns |
| CampaignStats.ChannelGroupFigures | src/app/api/campaigns/stats/route.ts:136-152 | a group counts its channel's entries, at least one, sums their budgets and revenues, and averages revenue over budget with a budget of 0 or less counting as 0 |
| CampaignStats.TopChannelsBest | src/app/api/campaigns/stats/route.ts:153-176 | the top channels are the min(3, n) groups with the highest average, highest first, and no group left out beats a listed one |
| CampaignStats.PrefixBest | src/app/api/campaigns/stats/route.ts:176 | a prefix of a descending list is descending and no later entry beats an entry in it |
| CampaignStats.InsightCounts | src/app/api/campaigns/stats/route.ts:156-189 | `InsightsOf`: the recent count is the caller's campaigns created in the last week, the ending-soon count the active or planned ones ending within the week, weekly growth repeats the recent count, and a failed query gives zeros |
| CampaignStats.StatsReplies | src/app/api/campaigns/stats/route.ts:12-119 | no signed-in address gets 401, an unknown one 404, and a reply with figures describes the signed-in user's own campaigns |
| Text.EmailKeyOfLower | src/app/api/register/route.ts:29 | lower-casing an address before the schema's setters run gives the same stored key |
| Text.EmailKeyIdempotent | src/lib/models/User.ts:22-28 | passing a stored key through the `lowercase` and `trim` setters again changes nothing |
| Text.EmailKeyNormal | src/lib/models/User.ts:22-28 | a stored key has no surrounding spaces and no upper-case letter |
| FormChecks.EmailShapedIsPattern | src/app/register/page.tsx:118 | the direct test of no space, one `@` not first and a later `.` before the end accepts exactly what `/^[^\s@]+@[^\s@]+\.[^\s@]+$/` accepts |
| Sidebar.NarrowAll | src/components/dashboard/Sidebar.tsx:167-183 | every group is narrowed to its visible items, in order and with nothing dropped yet |
| Sidebar.FilterRules | src/components/dashboard/Sidebar.tsx:166-185 | `FilteredNavGroups`: no shown group is empty; every shown item passes the admin and department tests; every item of the tree that passes is shown in a group of the same name |
| Sidebar.ShownAreVisible | src/components/dashboard/Sidebar.tsx:170-184 | every shown group has items and every shown item passes the filter |
| Sidebar.VisibleIsShown | src/components/dashboard/Sidebar.tsx:166-185 | an item that passes the filter is shown in a group carrying its group's name |
| Sidebar.UnrestrictedAlwaysShown | src/components/dashboard/Sidebar.tsx:170-182 | an item with neither `adminOnly` nor a permission is shown to everybody |
| Sidebar.FilterKeepsOrder | src/components/dashboard/Sidebar.tsx:167-184 | groups keep their order, and within each group the items keep theirs |
| Sidebar.AdminSeesAll | src/components/dashboard/Sidebar.tsx:170-184 | an admin sees every item of every non-empty group |
| Sidebar.AdminSeesEverything | src/components/dashboard/Sidebar.tsx:65-185 | an admin sees the whole navigation tree |
| Sidebar.SignedOutVisible | src/components/dashboard/Sidebar.tsx:170-182 | without a session only items with neither `adminOnly` nor a permission pass |
| Sidebar.SignedOutGroup | src/components/dashboard/Sidebar.tsx:168-184 | without a session a group of unrestricted items stays whole and a group of restricted items is emptied |
| Sidebar.AtMostOneActive | src/components/dashboard/Sidebar.tsx:330 | `IsActive`: the hrefs of the tree are distinct, so at most one item is active for any path |
| Sidebar.ComingSoonItems | src/components/dashboard/Sidebar.tsx:87-118 | exactly the four department items after marketing are coming soon and rendered without a link |
| UsersList.FilteredExactly | src/app/dashboard/users/UsersList.tsx:96-134 | `FilteredUsers`: a user is listed exactly when it was fetched and passes every active control |
| UsersList.FilteredKeepsOrder | src/app/dashboard/users/UsersList.tsx:96-134 | the list keeps the fetched order, and with every control off it is the whole list |
| UsersList.StepsAreSubsequences | src/app/dashboard/users/UsersList.tsx:100-132 | each of the four filter steps keeps a subsequence of its input |
| UsersList.StatusPartition | src/app/dashboard/users/UsersList.tsx:116-121 | the `active` and `inactive` filters split the users between them |
| UsersList.StatsBounds | src/app/dashboard/users/UsersList.tsx:182-199 | `GetUserStats`: active users are approved, approved users are users, and when every role is one of the three the role counts add up to the total |
| UsersList.RoleCounts | src/app/dashboard/users/UsersList.tsx:188-190 | with every role one of the three, each user is counted under exactly one role |
| UsersList.KeysOfMembers | src/app/dashboard/users/UsersList.tsx:216-221 | `KeysOf` lists a key exactly when its permission is listed |
| UsersList.ActivePermissionsExactly | src/app/dashboard/users/UsersList.tsx:216-221 | `ActivePermissions`: exactly the keys of the true flags are listed, each a valid key, at most six |
| UsersList.BadgesAccount | src/app/dashboard/users/UsersList.tsx:531-570 | at most three badges are shown, they are the first granted permissions, and together with the `+n` count they account for every granted one |
| UsersList.InitialsShape | src/app/dashboard/users/UsersList.tsx:178-180 | `Initials`: the upper-cased first letters of the two names, one for each non-empty name |
| UsersList.BadgeFor | src/app/dashboard/users/UsersList.tsx:234-262 | `Aktiv` exactly when approved and active, `Nicht freigegeben` exactly when not approved, `Deaktiviert` exactly when approved but inactive |
| UserCreateForm.LengthTiers | src/app/dashboard/users/UserCreateForm.tsx:75-76 | at most the two length thresholds are reached |
| UserCreateForm.ClassCount | src/app/dashboard/users/UserCreateForm.tsx:77-80 | at most the four character classes occur |
| UserCreateForm.CalculatePasswordStrength | src/app/dashboard/users/UserCreateForm.tsx:73-82 | the loop's score is the strength function's value, between 0 and 100 |
| UserCreateForm.StrengthTextOf | src/app/dashboard/users/UserCreateForm.tsx:84-89 | `Schwach` below 30, `Mittel` below 60, `Stark` below 80, `Sehr stark` from 80 on, each exactly on its band |
| UserCreateForm.StrengthLevels | src/app/dashboard/users/UserCreateForm.tsx:73-89 | a password under eight characters scores at most 50 and reads at best `Mittel`; twelve characters of all four classes score 100; more length and more classes never lower the score |
| UserCreateForm.StrengthExample | src/app/dashboard/users/UserCreateForm.tsx:73-89 | an instance only, beside the general `StrengthLevels`: `Passwort` scores 50 and reads `Mittel` |
| UserCreateForm.AlphabetIndex | src/app/dashboard/users/UserCreateForm.tsx:68 | `Math.floor(draw * chars.length)` is a position of the alphabet for a draw in [0, 1) |
| UserCreateForm.GenerateRandomPassword | src/app/dashboard/users/UserCreateForm.tsx:63-71 | a password of the requested length whose characters are the alphabet's, one per draw |
| UserCreateForm.EveryCharacterReachable | src/app/dashboard/users/UserCreateForm.tsx:63-71 | every character of the alphabet is produced by some draw |
| UserCreateForm.FormValidity | src/app/dashboard/users/UserCreateForm.tsx:131-139 | the form is valid exactly when both names have a non-space character, the address matches the pattern and the password has eight characters; the initial form is not valid |
| UserCreateForm.FlagsForRole | src/app/dashboard/users/UserCreateForm.tsx:142-166 | choosing admin sets all six flags; another role clears only the admin flag |
| UserCreateForm.HandleRoleChange | src/app/dashboard/users/UserCreateForm.tsx:142-166 | the role and the flags change as for the role, nothing else |
| UserCreateForm.HandlePermissionChange | src/app/dashboard/users/UserCreateForm.tsx:168-179 | the chosen flag takes the checked value, nothing else changes |
| UserCreateForm.AdminFlagsStay | src/app/dashboard/users/UserCreateForm.tsx:142-179 | for an admin, any run of clicks on the checkboxes (only the admin box is enabled) keeps the role and the five department flags; for every role, choosing it twice equals choosing it once |
| UserCreateForm.AfterCreate | src/app/dashboard/users/UserCreateForm.tsx:181-215 | after a successful create the form is cleared and cannot be submitted again, every flag off and role `user`; after a failed one the entries stay |
| UserCreateForm.Close | src/app/dashboard/users/UserCreateForm.tsx:217-229 | closing discards the entries: the form cannot be submitted and is the form a successful create leaves |
| UserCreateForm.InitialState | src/app/dashboard/users/UserCreateForm.tsx:96-105 | the initial form: empty strings, role `user`, approved, active, every flag off, strength 0 |
| UserEditForm.InitialEdit | src/app/dashboard/users/UserEditForm.tsx:119-137 | the form copies the user's fields, reads a missing active flag as true and missing permissions as all off, and starts with an empty password |
| UserEditForm.EditRoleChange | src/app/dashboard/users/UserEditForm.tsx:140-164 | choosing admin sets all six flags, another role clears only the admin flag; nothing else changes |
| UserEditForm.EditPermissionChange | src/app/dashboard/users/UserEditForm.tsx:166-177 | the chosen flag takes the checked value, nothing else changes |
| UserEditForm.UpdatePayload | src/app/dashboard/users/UserEditForm.tsx:179-187 | the payload is the form with the password key removed exactly when the password is empty or only spaces |
| UserEditForm.LoadedBadge | src/app/dashboard/users/UserEditForm.tsx:243-265 | a freshly loaded user shows as active exactly when approved and not stored as inactive, and as not approved exactly when not approved |
| UserEditForm.ActiveCountBounds | src/app/dashboard/users/UserEditForm.tsx:745-751 | the counter counts exactly the true flags, is at most six, and is six after choosing admin |
| NewCampaignForm.DatePart | src/app/dashboard/marketing/NewCampaignForm.tsx:156-158 | the end date up to its first `T`, or empty without an end date |
| NewCampaignForm.LoadForm | src/app/dashboard/marketing/NewCampaignForm.tsx:149-182 | an edited campaign's fields fill the form, absent ones empty and the end date cut at `T`; a new campaign gets the empty form |
| NewCampaignForm.Toggled | src/app/dashboard/marketing/NewCampaignForm.tsx:192-194 | checking appends the id; unchecking removes every occurrence of it and keeps the rest in order |
| NewCampaignForm.ChannelChange | src/app/dashboard/marketing/NewCampaignForm.tsx:190-217 | the channel list is toggled, unchecking meta or google also empties that channel's ad types, nothing else changes |
| NewCampaignForm.MetaAdTypeChange | src/app/dashboard/marketing/NewCampaignForm.tsx:219-227 | only the meta ad-type list is toggled |
| NewCampaignForm.GoogleAdTypeChange | src/app/dashboard/marketing/NewCampaignForm.tsx:229-237 | only the Google ad-type list is toggled |
| NewCampaignForm.ToggledNoDuplicates | src/app/dashboard/marketing/NewCampaignForm.tsx:190-237 | a click that flips a box keeps its list free of duplicates |
| NewCampaignForm.FilterNoDuplicates | src/app/dashboard/marketing/NewCampaignForm.tsx:194 | removing entries keeps a list free of duplicates |
| NewCampaignForm.ClicksKeepConsistent | src/app/dashboard/marketing/NewCampaignForm.tsx:190-237 | the empty form is consistent, and every click the dialog offers keeps ad types only for chosen channels and no id twice |
| NewCampaignForm.ValidatePassesAll | src/app/dashboard/marketing/NewCampaignForm.tsx:239-296 | no error is reported exactly when every check passes |
| NewCampaignForm.ValidateFirstFailure | src/app/dashboard/marketing/NewCampaignForm.tsx:239-296 | `ValidateForm`: the error reported belongs to a failing check and every earlier check passes |
| NewCampaignForm.PassingForm | src/app/dashboard/marketing/NewCampaignForm.tsx:239-296 | a passing form has a non-blank number and link, an end date, amounts that are not empty and not non-positive, a channel, and ad types for a chosen meta or google |
| NewCampaignForm.RequestOf | src/app/dashboard/marketing/NewCampaignForm.tsx:312-326 | the request trims number and link, parses the amounts, keeps the channels, leaves out empty ad-type lists and blank notes, and trims the notes otherwise |
| NewCampaignForm.Submit | src/app/dashboard/marketing/NewCampaignForm.tsx:298-312 | the form is refused exactly when a check fails, with its message; otherwise the request is sent |
| NewCampaignForm.SentRequest | src/app/dashboard/marketing/NewCampaignForm.tsx:298-326 | a sent request has a non-empty number and link, an end date, a channel, and ad types for a chosen meta or google |
| RegisterPage.GetPasswordStrength | src/app/register/page.tsx:47-90 | an empty password scores 0 with no text; otherwise the score is 100 less 25 per missed criterion, the text is the score's label and the feedback lists the missed criteria in order |
| RegisterPage.FeedbackText | src/app/register/page.tsx:85-88 | the line starts with `Fehlt:` exactly when some criterion is missed |
| RegisterPage.MissingExactly | src/app/register/page.tsx:53-63 | `Labels` lists a criterion exactly when it is not met, at most once and in the source's order, so the score is 0, 25, 50, 75 or 100 |
| RegisterPage.AllMetFeedback | src/app/register/page.tsx:85-88 | the feedback is the all-clear exactly when all four criteria are met |
| RegisterPage.ValidateFirstFailure | src/app/register/page.tsx:92-134 | `ValidateForm`: the error reported belongs to a failing check and every earlier check passes |
| RegisterPage.ValidatePassesAll | src/app/register/page.tsx:92-134 | no error is reported exactly when every check passes |
| RegisterPage.SentRequest | src/app/register/page.tsx:153-161 | a request that is sent has trimmed names of at least two characters, a lower-cased address the pattern accepts and the password as typed, of at least eight characters |
| RegisterPage.SentEmail | src/app/register/page.tsx:119-159 | a trimmed address that passed the pattern still passes it after lower-casing, and lower-casing it again changes nothing |
| RegisterPage.LowerKeepsPattern | src/app/register/page.tsx:119-159 | lower-casing keeps an address that matches the pattern matching |
| RegisterPage.ShowReply | src/app/register/page.tsx:166-200 | a 409 shows the already-registered warning, another failure the server's error when it has one, and a success the code prompt exactly when the reply asks for verification and names the address |
| RegisterPage.Submit | src/app/register/page.tsx:143-161 | the form is refused exactly when some check fails, with that check's message; otherwise the request built from the form is sent |
| VerifyPage.FormatTimeReadsBack | src/app/verify/page.tsx:65-69 | `FormatTime` with `Pad2` reads back as the time: minutes before the colon, exactly two digits of seconds below 60 after it, together `seconds` |
| VerifyPage.FormatTimeExamples | src/app/verify/page.tsx:65-69 | instances only, beside the general `FormatTimeReadsBack`: 900 seconds show as `15:00` and 65 seconds as `1:05` |
| VerifyPage.AvailableInCountsDown | src/app/verify/page.tsx:399-402 | while resend is locked in a countdown begun at 15:00, the wait `AvailableIn` shows is the number of ticks after which resend is still locked, and one tick more unlocks it |
| VerifyPage.LastChar | src/app/verify/page.tsx:87 | `slice(-1)` is the last character, or empty exactly for an empty value |
| VerifyPage.OtpChange | src/app/verify/page.tsx:83-88 | a value with a non-digit changes nothing; otherwise only the edited slot changes, to the value's last character, and the slots stay single digits |
| VerifyPage.FocusNavigation | src/app/verify/page.tsx:83-106 | `FocusAfterChange` and `KeyDown` move the focus only to a neighbouring slot and never out of the six; typing a digit moves it on, and Backspace on the next, still empty, slot moves it back |
| VerifyPage.Pasted | src/app/verify/page.tsx:111-114 | the pasted text keeps only its digits, in order, at most six |
| VerifyPage.HandlePaste | src/app/verify/page.tsx:109-127 | the pasted digits fill the first slots in order, the other slots keep their contents, and the focus goes to the first empty slot, or to the last when none is empty |
| VerifyPage.PasteFullCode | src/app/verify/page.tsx:111-114 | a pasted six-digit code is kept whole |
| VerifyPage.CodeLength | src/app/verify/page.tsx:131 | the joined code has one digit per filled slot and consists of digits |
| VerifyPage.CodeOfDigits | src/app/verify/page.tsx:117-131 | slots holding one digit each join back to exactly those digits |
| VerifyPage.HandleVerify | src/app/verify/page.tsx:130-144 | an incomplete code is refused first, then an expired countdown; otherwise the joined code is posted |
| VerifyPage.VerifySendsFullCode | src/app/verify/page.tsx:130-157 | a request is posted exactly when every slot holds a digit and time is left, and then it carries six digits |
| VerifyPage.GuardNotice | src/app/verify/page.tsx:133-143 | the incomplete-code guard and the expiry guard each show their own error |
| VerifyPage.ShowVerifyReply | src/app/verify/page.tsx:159-190 | success on an ok reply, the expiry warning on 410, the not-found error on 404, otherwise the server's message when there is one, `Ungültiger Code.` for a 400 without one, and the connection error without a reply |
| VerifyPage.Step | src/app/verify/page.tsx:40-53 | a tick never raises the time left and never takes resend back; a stopped interval changes nothing |
| VerifyPage.TicksCounting | src/app/verify/page.tsx:40-53 | while counting, each tick takes one second off until 0 is reached, where it stays |
| VerifyPage.CountdownFromStart | src/app/verify/page.tsx:34-53 | after n ticks from 15:00 the display shows 900 - n down to 0; resend is allowed from the 121st tick on; the interval stops at 0 |
| VerifyPage.Countdown.constructor | src/app/verify/page.tsx:34-35 | the countdown starts at 900 seconds, running, with resend locked |
| VerifyPage.Countdown.Tick | src/app/verify/page.tsx:41-52 | one second moves the countdown by the interval callback |
| VerifyPage.Countdown.Restart | src/app/verify/page.tsx:219-221 | a successful resend sets 900 seconds and locks resend but leaves the interval as it is, so one stopped at 0 stays stopped |
| VerifyPage.Restarted | src/app/verify/page.tsx:39-56 | the corrected reset begins a countdown that unlocks resend exactly from the 121st tick and stops exactly at the 900th |
| VerifyPage.RestartAsWritten | src/app/verify/page.tsx:219-221 | as written, the reset gives 900 seconds with resend locked; while the interval runs it equals the corrected reset, and after it stopped no tick changes anything again |
| VerifyPage.RestartAgreesWhileRunning | src/app/verify/page.tsx:39-56 | before the fifteen minutes are over the interval still runs, and a resend then resets the countdown as the corrected handler would |
| VerifyPage.ResendAfterExpiryFreezes | src/app/verify/page.tsx:39-56 | as written, a resend after expiry leaves the countdown at 15:00 for ever with resend locked |
| VerifyPage.ResendRestartsCountdown | src/app/verify/page.tsx:39-56 | with the interval restarted, every resend begins a full countdown that unlocks resend again after 121 ticks |
| VerifyPage.ShowResendReply | src/app/verify/page.tsx:208-227 | success on an ok reply, the server's message when there is one, and the connection error without a reply |
| VerifyPage.HandleResend | src/app/verify/page.tsx:197-231 | the notice follows the reply; a successful reply clears the six slots (`SlotsAfterResend`) and resets the countdown as written; any other reply leaves slots and countdown |
| VerifyPage.ClearedSlotsBlockVerify | src/app/verify/page.tsx:133-136 | after a successful resend nothing is posted until six digits are entered again |
| LoginPage.Cascade | src/app/login/page.tsx:85-118 | the `default` branch gives one of its four messages |
| LoginPage.CaseInsensitive | src/app/login/page.tsx:36-39 | `ErrorNotice` (`getErrorMessage`): matching ignores case: a code and its upper-case form get the same message |
| LoginPage.CascadeOrder | src/app/login/page.tsx:85-118 | `ErrorNotice`: a code that is none of the seven cases gets the approval warning exactly when it mentions a missing approval, else the password message exactly when it mentions a password, else the user message exactly when it mentions a user, else the generic message |
| LoginPage.ExactCodesAndApproval | src/app/login/page.tsx:39-84 | of the seven exact codes only `ACCOUNT_NOT_APPROVED` mentions a missing approval |
| LoginPage.WarningOnlyNotApproved | src/app/login/page.tsx:36-120 | a message is a warning exactly when the upper-cased code mentions a missing approval |
| LoginPage.UserNotFoundCascade | src/app/login/page.tsx:107-112 | `USERNOTFOUND` falls through to the no-account message |
| LoginPage.InvalidPasswordCascade | src/app/login/page.tsx:97-105 | `INVALIDPASSWORD` falls through to the wrong-password message |
| LoginPage.NotApprovedCascade | src/app/login/page.tsx:86-95 | `NOT_APPROVED` falls through to the approval warning |
| LoginPage.DeactivatedCascade | src/app/login/page.tsx:114-118 | `ACCOUNT_DEACTIVATED` falls through to the generic message |
| LoginPage.MissingCredentialsCascade | src/app/login/page.tsx:114-118 | `MISSINGCREDENTIALS` falls through to the generic message |
| LoginPage.CredentialCodes | src/app/login/page.tsx:36-120 | of the codes `authorize` throws, an unknown address and a wrong password get their own messages, the missing approval the warning, and a deactivated account and missing credentials the generic message |
| LoginPage.Submit | src/app/login/page.tsx:128-143 | a blank field stops the attempt with `Bitte fülle alle Felder aus.`; otherwise the address is sent trimmed and the password as typed |
| LoginPage.ShowResult | src/app/login/page.tsx:144-167 | an error code is shown through its message first, then success on an ok result, and the connection error when the call threw |
| SettingsPage.Submit | src/app/dashboard/settings/page.tsx:97-114 | the field rules refuse exactly an invalid form, a typed password that differs from its confirmation is refused next, and otherwise the body carries the names and address, the role exactly for an admin, and the password exactly when one was typed |
| SettingsPage.NonAdminSendsNoRole | src/app/dashboard/settings/page.tsx:111 | a user who is not an admin never sends a role |
| SettingsPage.EmptyPasswordNotSent | src/app/dashboard/settings/page.tsx:98-112 | an empty password sends no password, whatever the confirmation holds |
| SettingsPage.SettingsInitials | src/app/dashboard/settings/page.tsx:126-130 | each present name contributes its upper-cased first letter, a missing one nothing |
| SettingsPage.Reset | src/app/dashboard/settings/page.tsx:76 | `reset(data)` makes the data the values and the baseline and leaves the form clean, so saving is disabled |
| SettingsPage.Loaded | src/app/dashboard/settings/page.tsx:69-84 | after loading, the form is clean and saving is disabled |
| SettingsPage.Edit | src/app/dashboard/settings/page.tsx:57-64 | typing keeps the dirty flag in step with the values, so save is enabled exactly when nothing loads or submits and the values differ from the baseline |
| SettingsPage.SetRoleAsWritten | src/app/dashboard/settings/page.tsx:274 | as written, the role select changes only the role and never changes whether save is enabled |
| SettingsPage.SetRole | src/app/dashboard/settings/page.tsx:274 | the corrected select changes only the role, keeps the flag in step, and enables save exactly when the values then differ from the baseline |
| SettingsPage.AfterSave | src/app/dashboard/settings/page.tsx:115-123 | a successful save makes the sent values the baseline and disables save until the next change; a failed one changes nothing |
| SettingsPage.TrackingPreserved | src/app/dashboard/settings/page.tsx:391-402 | loading, typing, the corrected select and saving keep the dirty flag in step with the values, so saving is enabled only when something differs |
| SettingsPage.RoleOnlyChangeCannotBeSaved | src/app/dashboard/settings/page.tsx:270-276 | as written, an admin who changes only the role gets no enabled save button although the role differs |
| SettingsPage.RoleOnlyChangeCanBeSaved | src/app/dashboard/settings/page.tsx:270-276 | with the corrected select, changing only the role enables saving |
| UserNav.Take2 | src/components/dashboard/UserNav.tsx:36 | `slice(0, 2)` gives the first two characters, or the whole string when it is shorter |
| UserNav.NavInitialsAsWritten | src/components/dashboard/UserNav.tsx:31-45 | the initials as written: one or two characters from a present first name, `U` without first name and name, and for a name of several pieces more than two characters exactly when one of the first two pieces is empty |
| UserNav.AsWrittenTooLong | src/components/dashboard/UserNav.tsx:38-43 | when the name splits into several pieces, the initials as written run past two characters exactly when one of the first two pieces is empty (`TemplateChar` prints `undefined`) |
| UserNav.TrailingSpaceShowsUndefined | src/components/dashboard/UserNav.tsx:38-43 | the name `A ` gives the avatar text `Aundefined` |
| UserNav.Words | src/components/dashboard/UserNav.tsx:39 | the words of a name are non-empty, contain no space, and appear in the order of `split(' ')` |
| UserNav.NavInitials | src/components/dashboard/UserNav.tsx:31-45 | the initials have one or two characters: both first letters, a prefix of the first name, the first letters of the first two words, a prefix of the only word, or `U` |
| UserNav.AgreesOnSingleSpaced | src/components/dashboard/UserNav.tsx:31-45 | for a name without leading, trailing or doubled spaces the initials as written equal the corrected ones |
| UserNav.DisplayName | src/components/dashboard/UserNav.tsx:47 | the e-mail line beside it (`ShownEmail`) is the address or empty; the name shown is never empty: the first name, else the name, else `User` |
| ImageCollage.FirstFour | src/app/dashboard/project/image-collage/page.tsx:80 | `slice(0, 4)`: at most the first four, all of a short list |
| ImageCollage.Accepted | src/app/dashboard/project/image-collage/page.tsx:78-96 | the image files among the batch's first four, in order, at most four |
| ImageCollage.AddedSnoc | src/app/dashboard/project/image-collage/page.tsx:82-94 | `Added` grows by one image, with the next random id, for one more accepted file |
| ImageCollage.HandleFileUpload | src/app/dashboard/project/image-collage/page.tsx:75-99 | without a file list nothing changes; otherwise the new images are appended and the list is cut to four |
| ImageCollage.UploadShape | src/app/dashboard/project/image-collage/page.tsx:75-99 | an upload keeps at most four images, the earlier ones in front, and adds only accepted image files, in order |
| ImageCollage.FullListUnchanged | src/app/dashboard/project/image-collage/page.tsx:98 | a list of four takes no more images |
| ImageCollage.SlotIdsDistinct | src/app/dashboard/project/image-collage/page.tsx:62 | different positions get different slot ids |
| ImageCollage.BuiltSlotsDistinct | src/app/dashboard/project/image-collage/page.tsx:56-71 | `SlotsFor` one to four images with distinct ids gives slots with distinct ids and distinct images |
| ImageCollage.Drop | src/app/dashboard/project/image-collage/page.tsx:107-131 | without a dragged image nothing changes; a drop keeps the slots' ids and positions, changes nothing without a target slot or a source slot, and clears the dragged image |
| ImageCollage.SwapImages | src/app/dashboard/project/image-collage/page.tsx:118-127 | the two slots exchange their images; every slot keeps its id and position, and every other slot is unchanged |
| ImageCollage.SwapPermutes | src/app/dashboard/project/image-collage/page.tsx:118-127 | exchanging two slots' images rearranges the images the slots hold (`Images`) as a permutation and keeps the slot ids |
| ImageCollage.DragAndDropSwaps | src/app/dashboard/project/image-collage/page.tsx:102-131 | `DragStart` then `Drop` (each slot mapped by `Moved`) onto another slot exchanges the two images and leaves every other slot as it was |
| ImageCollage.RemoveImage | src/app/dashboard/project/image-collage/page.tsx:139-141 | exactly the images with another id remain, in order |
| ImageCollage.RemoveAbsentId | src/app/dashboard/project/image-collage/page.tsx:139-141 | removing an id no image has changes nothing, and removing never lengthens the list |
| ImageCollage.ResetAll | src/app/dashboard/project/image-collage/page.tsx:266-270 | no images, no slots, nothing dragged, which the slot effect agrees with |
| ImageCollage.SlotStyle | src/app/dashboard/project/image-collage/page.tsx:144-189 | four images form a two-by-two grid, and a count outside one to four gets an empty rectangle |
| ImageCollage.SlotInsideCanvas | src/app/dashboard/project/image-collage/page.tsx:144-189 | each slot lies within the canvas |
| ImageCollage.SlotsDisjoint | src/app/dashboard/project/image-collage/page.tsx:144-189 | for one to four images no two slots overlap |
| ImageCollage.CoverTwo | src/app/dashboard/project/image-collage/page.tsx:151-158 | the two halves cover the canvas's area |
| ImageCollage.CoverThree | src/app/dashboard/project/image-collage/page.tsx:160-176 | the two quarters and the lower half cover the canvas's area |
| ImageCollage.CoverFour | src/app/dashboard/project/image-collage/page.tsx:178-187 | the four quarters cover the canvas's area |
| ImageCollage.SlotsCoverCanvas | src/app/dashboard/project/image-collage/page.tsx:144-189 | for one to four images the slots' areas add up to the canvas's, so with no overlap and all inside they tile it |

## Left out

- Database connection, Mongoose persistence internals, query operators and the MongoDB server: the collections are sequences in `Store.Database`, and lookups are the searches `Store.FindUser` and friends.
- The TTL index on pending records (`src/lib/models/PendingUser.ts:56-58`): the database removes expired records on its own schedule, which is outside any handler.
- bcrypt hashing, `crypto.randomBytes` tokens and `Math.random`: a hash function, a token string and real draws in [0, 1) are parameters.
- The mail provider and the HTML templates under `src/lib/email/`: sending is a boolean outcome parameter. The verification-success mail of verify-otp has no parameter, because its failure changes neither the reply nor the collections.
- `getToken`, `getServerSession` and the rest of NextAuth: the decoded token or session is an input `Option<Claims>`.
- Unicode case mapping: `toLowerCase` and `toUpperCase` are modelled on ASCII letters only.
- Floating-point arithmetic: ROI, averages, password-strength scores and collage rectangles are computed over reals, without rounding.
- `new URL`, `new Date`, `parseFloat` and the `$regex` search of the campaign list: they are parameters (`urlOk`, `parseDate`, `parseFloat`, `matchesSearch`). The e-mail pattern of the settings page (`src/app/dashboard/settings/page.tsx:235`) is the parameter `emailMatches` of `SettingsPage.Submit`.
- `parseInt` of the paging parameters: `page` and `limit` are integers, so the `NaN` a malformed parameter would give is not modelled.
- The sort of the campaign list (`sortBy`, `sortOrder`): pages are windows of the matching campaigns in stored order, so the order the database would return is not modelled.
- The statistics route's outer `catch` (500): the aggregation is a total fold and has no failure case. The failure of `calculateInsights` is a boolean parameter.
- The order of channel groups with equal average ROI: `$sort` does not fix it, so `CampaignStats.SortByRoi` places equal entries in one particular order, and the lemmas only use the descending order.
- `setDate(±7)` calendar arithmetic: a week is a fixed 604800000 ms, and every `Date.now()` read of a handler is one `now`.
- Auth.Authorize, UserRoute.Put: a loaded document is `UserModel.Hydrated` of the stored record, and its `save()` writes the filled-in defaults back with the change. That is how Mongoose treats paths it defaulted on load. The permission record is stored whole or not at all, so a record that lacks only some flags, which Mongoose would also fill in flag by flag, is not modelled.
- The `isVerified: true` that verify-otp passes to `new User` (`src/app/api/verify-otp/route.ts:68`): the User schema has no such path, and Mongoose's strict mode drops it, so `VerifyOtpRoute.Promoted` has no such field.
- UsersList.ActivePermissions: `Object.entries` lists the flags in the order of the received object's fields; the model fixes that order at the schema's key order.
- Concurrency and atomicity: races between a duplicate check and its insert, and a crash between the verify-otp insert and its delete.
- The 500 replies of the `catch` blocks of register, verify-otp, resend-otp, cleanup, campaigns, user and admin users: the modelled steps do not throw, except the saves and mails that are modelled. Request fields are typed, so a field of the wrong JSON type (a number where `.trim()` or `.toLowerCase()` is called, which throws and gives 500) is not modelled.
- String lengths: a `string` is a sequence of code points, while `.length` and Mongoose `maxlength`/`minlength` count UTF-16 units, so for text outside the Basic Multilingual Plane the limits differ: notes of at most 1000 characters, names of at least 2, the 8- and 12-character tiers of the password strength, and the settings password of at least 6.
- Built, BuiltCampaign, SavedCampaign: `...body` also copies into the document an `_id` or any other schema field the client sends; only a client `createdAt` is modelled, and only as an already cast date, so a value Mongoose fails to cast is not modelled.
- The client and server halves of registration are modelled separately and not joined: the verify page posts `email` and `otp` while the routes read `verificationToken`, and the register page redirects only on `data.email`, which the route does not return.
- The routes `src/app/api/admin/users/[id]/route.ts` and `src/app/api/campaigns/[id]/route.ts` are not part of this model.
- Send-mail routes, static pages, `MobileSidebar.tsx`, the dashboard layout redirect and the users-page admin gate: they hold no rule beyond those modelled or are presentation only.
- Rendering: icons, colours, toasts, focus handling beyond the slot index, redirect timers, `maxLength` attributes and the Sidebar's signed-out markup.
- The collage export (`src/app/dashboard/project/image-collage/page.tsx:193-263`), the canvas size inputs and `setAuctionSize`: drawing on a canvas is outside the model.
- Random image ids: `Math.random().toString(36)` is a parameter `idFor`, so a clash of two drawn ids is neither excluded nor modelled.
- NewCampaignForm's ROI preview and `formatCurrency` (`src/app/dashboard/marketing/NewCampaignForm.tsx:373-377`, `568-572`): locale formatting and display rounding.

## Findings

| source | as written | input that shows it | evidently intended | confidence | as-written member | corrected member |
|---|---|---|---|---|---|---|
| src/app/verify/page.tsx:39-56 | the interval clears itself when the time reaches 0, and a successful resend only sets the time back to 900 and locks resend, so the countdown never starts again | wait 15 minutes, then resend successfully: the page shows 15:00 for ever and resend stays disabled | a resend restarts the countdown, which unlocks resend after two minutes and runs down to 0 | not executed | VerifyPage.Countdown.Restart; VerifyPage.RestartAsWritten; VerifyPage.ResendAfterExpiryFreezes | VerifyPage.Restarted; VerifyPage.ResendRestartsCountdown |
| src/app/dashboard/settings/page.tsx:270-276 | the role select calls `setValue('role', value)` without `shouldDirty`, so the form stays clean | an administrator changes only the role: the save button stays disabled although the role differs | changing the role marks the form dirty like every other field | not executed | SettingsPage.SetRoleAsWritten; SettingsPage.RoleOnlyChangeCannotBeSaved | SettingsPage.SetRole; SettingsPage.RoleOnlyChangeCanBeSaved |
| src/components/dashboard/UserNav.tsx:38-43 | the name is split on single spaces and `names[0][0]`, `names[1][0]` are read, which are `undefined` for empty pieces | the name `A ` (a trailing space) gives the avatar text `Aundefined` | the initials are the first letters of the first two words, at most two characters | not executed | UserNav.NavInitialsAsWritten; UserNav.TrailingSpaceShowsUndefined | UserNav.NavInitials; UserNav.AgreesOnSingleSpaced |
