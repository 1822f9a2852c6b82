# Ophthalmology clinic web application: authorization, session and scheduling core

This project is a Dafny model of the server-side core of a clinic web
application written in TypeScript (Astro), with proofs about that model. The
modelled parts are:

- **Request middleware** (`Middleware`, `Session`). It loads the session user and refreshes a token that is about to expire. Then it uses its own public, auth and protected route lists to redirect the request or let it through. The decision is the pure function `Middleware.Decide`. `Middleware.OnRequest` performs it step by step on a session store (`Session.SessionStore`) and on the request locals (`Middleware.Locals`).
- **Route configuration** (`Routes`). Prefix and wildcard matching, the longest-prefix lookup of required permissions, the any-of access check, the landing page for each role, and the available-routes filter.
- **Identity service** (`AuthTypes`, `AuthErrors`, `AuthHelpers`). The `AuthError` record and its default messages. The mapping from a provider error body and HTTP status to an error code. The parse fallback for error bodies that are not JSON, and the classification of whatever a request throws. The static helpers: building the session user, token expiry, permission checks, validators, sanitising, grouping permissions by category, and formatting error messages.
- **Permission utilities** (`UserUtils`). Role and permission predicates, the exact-match route access table, display names and initials, expiry, grouping and the CRUD check.
- **Server actions** (`Actions`). Each handler is a method of `Actions.Handlers` over the session store. It is given the outcomes of the identity-service calls it may make, and a pure function states its result, the calls it makes and its session writes. The form schemas are predicates on the inputs.
- **Sidebar** (`Sidebar`). The shipped group configuration, the permission and role filters, the sorted sidebar for a user, active-route detection and the first active item.
- **Schedules** (`Entities`, `Availability`, `ScheduleData`, `Doctors`). "HH:MM" ↔ minute conversion, conflict detection between weekly schedules, the schedule filters, the week view and its counts, the doctor queries, and the join of schedules with their doctor and location.
- **Toasts** (`Notifications`). The configuration builders, the predefined message table, and `handleActionResult`. The service is a class whose `show` appends each toast configuration to a log of emitted toasts.

Helper modules:

- `Wrappers` holds `Option` and `Result`.
- `Seqs` holds filter, count, find, dedup and the stable sort, with their facts.
- `JsStrings` holds the JavaScript string operations the source relies on. These are `includes`, `trim`, `split`, `Number()`, `toString`/`padStart`, ASCII and Latin-1 case mapping, the UTF-16 code-unit order used by `sort()`, and `encodeURIComponent`.

Other conventions of the model:

- JavaScript number semantics are modelled where they matter. `||` falls back on 0 and on "". `%` keeps the sign of the dividend. A NaN from `Number()` is `None`, and every comparison involving it is false.
- Dates are integer day numbers counted from 1970-01-01, which was a Thursday.
- Clock readings, the outcomes of identity-service calls, and the ok/failed outcome of loading the session are parameters.

Behaviour of the code that the model keeps, though a reader might expect otherwise:

- The middleware applies its redirects to every HTTP method.
- The middleware sends every signed-in user on an auth page to `/dashboard`, whatever the role.
- `logout` destroys the session and still throws `LOGOUT_FAILED` when the provider call fails.
- The login and registration failures carry the caught error's raw message, not its user message.
- `isPublic` is computed by the middleware but never used.
- `showMessage` falls back to 4000 ms for a warning, while `warning()` falls back to 5000 ms.
- Because `'/'` is a public route and matching is by prefix, every absolute path is public for `RouteUtils.isPublicRoute`.
- `src/lib/data/schedule.data.ts` imports `seedDoctors`, which `src/lib/data/doctors.data.ts` does not export; its export is `doctorsSeed`. The join is modelled against `doctorsSeed` (`Doctors.DoctorsSeed`) and the location seed.

## Model

| member | source | states |
|---|---|---|
| Middleware.IsTokenExpired | src/middleware.ts:74-78 | the floored-seconds expiry test with the five-minute buffer; stated by `TokenExpiredIffExpiringSoon`: expired exactly from the millisecond (expires_at − 300)·1000 on |
| Middleware.HasRoutePermission | src/middleware.ts:48-71 | the per-prefix permission test; stated by `LacksRoutePermissionIff`: it fails only on /admin… without admin.access for a user who is not super_admin, and on /dashboard… without dashboard.access |
| Middleware.TokenExpiredIffExpiringSoon | src/middleware.ts:74-78 | a token counts as expired exactly when the clock in milliseconds has reached (expiresAt − 300)·1000, so flooring to seconds agrees with the auth library's "expiring soon" test |
| Middleware.LacksRoutePermissionIff | src/middleware.ts:48-71 | a signed-in user lacks a route permission only on /admin… without 'admin.access' and not super_admin, or on /dashboard… (not /admin…) without 'dashboard.access'; every other path is allowed |
| Middleware.CreateSessionUser | src/middleware.ts:81-93 | the session user built from a refresh response carries its user's id, e-mail, names and role, the given permissions and the response's tokens and expiry (the same record the auth library builds) |
| Middleware.Authenticate | src/middleware.ts:105-142 | the request is authenticated iff a user is set; the session is left alone, destroyed, or written once with the user that is set; an untouched authenticated request keeps the stored user; no stored user means no writes and no service calls |
| Middleware.IsAuthRoute | src/middleware.ts:146 | matching against the middleware's own auth list (src/middleware.ts:17-22); `AuthPageRedirectsToDashboard` states what it decides |
| Middleware.IsProtectedRoute | src/middleware.ts:147 | matching against the middleware's own protected list (src/middleware.ts:25-30); `AnonymousProtectedRedirectsToLogin`, `UnauthorizedIff` and `LoadFailureDestroys` state what it decides |
| Middleware.Route | src/middleware.ts:144-171 | the redirect chain; stated by `AuthPageRedirectsToDashboard`, `AnonymousProtectedRedirectsToLogin` and `UnauthorizedIff`, with `TargetsDiffer` showing the three targets apart |
| Middleware.Decide | src/middleware.ts:95-187 | the whole request decision: authenticated iff a user is set, and the session is written at most once |
| Middleware.ValidSessionUserIsUsed | src/middleware.ts:107-141 | a stored user whose token is not expired is used as is, with no session write and no service call |
| Middleware.RefreshOverwritesOnce | src/middleware.ts:109-128 | an expired token with a successful refresh and permission fetch calls refresh then permissions, writes the session exactly once with the rebuilt user and authenticates the request with it |
| Middleware.RefreshFailureDestroys | src/middleware.ts:129-136 | a failed refresh or permission fetch destroys the session, leaves the request anonymous and routes it like any anonymous request |
| Middleware.NoSessionUserIsAnonymous | src/middleware.ts:100-107 | without a stored user the request is anonymous, the session is not written and no service is called |
| Middleware.AuthPageRedirectsToDashboard | src/middleware.ts:150-154 | a signed-in visitor on a sign-in page is redirected to /dashboard whatever the role |
| Middleware.AnonymousProtectedRedirectsToLogin | src/middleware.ts:156-160 | an anonymous visitor on a protected page is redirected to /auth/login?redirect= followed by the URI-encoded path |
| Middleware.TargetsDiffer | src/middleware.ts:153-166 | the three redirect targets of the route protection (the dashboard, /unauthorized and any login redirect) are pairwise distinct strings |
| Middleware.UnauthorizedIff | src/middleware.ts:150-168 | the answer is /unauthorized exactly for a signed-in visitor on a protected page that is not a sign-in page and whose route permission is missing |
| Middleware.LoadFailureDestroys | src/middleware.ts:173-187 | an exception while loading the session destroys it, leaves the request anonymous, and redirects to /auth/login?error=session-error only on protected pages |
| Middleware.StoreAgreesWithLocals | src/middleware.ts:100-142 | after the request, the stored user is the locals' user when authenticated, the old stored user when nothing was written, and none otherwise |
| Middleware.Locals.constructor | src/middleware.ts:99-101 | the locals start anonymous with no user |
| Middleware.OnRequest | src/middleware.ts:95-187 | performed step by step, the handler returns the response and makes the calls `Decide` names, sets the locals to its outcome, and appends exactly its writes to the session store, keeping the store consistent |
| Session.Replay | src/middleware.ts:105-133 | replaying no writes leaves the stored user unchanged |
| Session.ReplayAppend | src/middleware.ts:123-133 | replaying one more write applies it to the earlier result |
| Session.ReplayLast | src/middleware.ts:123-177 | after at least one write, the stored user depends only on the last write |
| Session.SessionStore.constructor | src/middleware.ts:96-105 | the store starts with the user the request brought and an empty write history |
| Session.SessionStore.Get | src/middleware.ts:105 | reading returns the stored user |
| Session.SessionStore.Set | src/middleware.ts:123 | writing stores the user and records exactly that write |
| Session.SessionStore.Destroy | src/middleware.ts:133 | destroying clears the user and records exactly that write |
| Routes.RouteMatches | src/config/routes.ts:124-137 | one route of the `some` callback; stated by `RouteMatchesIsPrefix`: a match is a prefix match of the route less a trailing '*' |
| Routes.RouteMatchesIsPrefix | src/config/routes.ts:124-137 | a route matches exactly when it (less a trailing '*') is a prefix of the path; the exact and API branches add nothing |
| Routes.MatchesRoutePattern | src/config/routes.ts:123-138 | true exactly when some route of the list matches the path |
| Routes.EveryAbsolutePathIsPublic | src/config/routes.ts:25-35 | because '/' is public and matching is by prefix, every path starting with '/' is public |
| Routes.IsPublicRoute | src/config/routes.ts:143-145 | matching against the public list; stated by `EveryAbsolutePathIsPublic`: every path starting with '/' is public |
| Routes.IsAuthRoute | src/config/routes.ts:150-152 | matching against the auth list; `MatchesRoutePattern` states it holds exactly when some auth route matches |
| Routes.IsProtectedRoute | src/config/routes.ts:157-159 | matching against the protected list; `MatchesRoutePattern` states it holds exactly when some protected route matches |
| Routes.Keys | src/config/routes.ts:171 | the keys of the restricted record, in order |
| Routes.LookupPermissions | src/config/routes.ts:166-167 | a lookup succeeds exactly when the key is present, and returns the value of an entry with that key |
| Routes.LongestPrefixKeyUnique | src/config/routes.ts:170-178 | two longest keys that are prefixes of one path are equal |
| Routes.JsLengthConcat | src/config/routes.ts:172 | the code-unit length of a concatenation is the sum of the lengths |
| Routes.PrefixLengths | src/config/routes.ts:172-175 | of two prefixes of one path, the one with fewer characters has fewer code units |
| Routes.LongerFirstTotalPreorder | src/config/routes.ts:171-172 | the longer-first comparator is total and transitive, so the sort is well defined |
| Routes.SortedKeysFacts | src/config/routes.ts:171-172 | the sorted keys are ordered longest first and hold exactly the record's keys |
| Routes.FirstPrefixIsLongest | src/config/routes.ts:174-178 | in a list sorted longest first, the first key that is a prefix of the path is no shorter than any other such key |
| Routes.PrefixSearchIsLongest | src/config/routes.ts:170-180 | the loop returns the permissions of the longest key that is a prefix of the path, and [] when no key is |
| Routes.ExactShortcutAgrees | src/config/routes.ts:165-178 | when the path is itself a key, the exact-match shortcut returns what the prefix search would |
| Routes.RequiredPermissionsIsLongestPrefix | src/config/routes.ts:164-181 | `getRequiredPermissions` returns the permissions of the longest key that is a prefix of the path, and [] when there is none |
| Routes.RequiredIffSomePrefixKey | src/config/routes.ts:164-181 | when no value is empty, permissions are required exactly when some key is a prefix of the path |
| Routes.LongestPrefixKeyOf | src/config/routes.ts:170-178 | whenever some key is a prefix of the path, a longest such key exists |
| Routes.RestrictedValuesNonEmpty | src/config/routes.ts:60-113 | every configured restricted route requires at least one permission |
| Routes.SortedKeys | src/config/routes.ts:170-171 | the keys sorted longest first; stated by `SortedKeysFacts`: non-increasing length, exactly the record's keys |
| Routes.PrefixSearch | src/config/routes.ts:170-178 | the for-loop over the sorted keys; stated by `PrefixSearchIsLongest`: the value of the longest key that is a prefix of the path, or [] when none is |
| Routes.RequiredPermissionsIn | src/config/routes.ts:164-181 | the exact-key shortcut, then the prefix search; stated by `ExactShortcutAgrees` and `RequiredPermissionsIsLongestPrefix`: the longest-prefix lookup |
| Routes.GetRequiredPermissions | src/config/routes.ts:164-181 | the lookup over the shipped record; stated by `RequiredPermissionsIsLongestPrefix`, `RestrictedIffPrefixKey` and `SettingsUserDetailNeedsUserAdmin` |
| Routes.IsRestrictedRoute | src/config/routes.ts:186-188 | a non-empty permission list; stated by `RestrictedIffPrefixKey`: restricted exactly when some configured key is a prefix of the path |
| Routes.RestrictedIffPrefixKey | src/config/routes.ts:186-188 | a route is restricted exactly when some configured key is a prefix of it |
| Routes.RedirectMap | src/config/routes.ts:194-203 | the role-to-page record; `GetDefaultRedirectAfterLogin` states the page each role gets |
| Routes.GetDefaultRedirectAfterLogin | src/config/routes.ts:193-206 | receptionists, coordinators and technicians land on /appointment; every other role, known or not, lands on /dashboard |
| Routes.CanAccessRoute | src/config/routes.ts:211-222 | access is granted exactly when nothing is required or the user holds at least one required permission |
| Routes.AppointmentsReaderDeniedSettingsUsers | src/config/routes.ts:62 | a user holding only 'appointments.read' cannot reach /settings/users |
| Routes.LongKeysLeaveSettingsUsers0 | src/config/routes.ts:62-80 | none of the first twelve keys is a 16–18 character key that starts like /settings/users |
| Routes.LongKeysLeaveSettingsUsers1 | src/config/routes.ts:81-98 | likewise for the next twelve keys |
| Routes.LongKeysLeaveSettingsUsers2 | src/config/routes.ts:99-112 | likewise for the last eleven keys |
| Routes.SettingsUserDetailNeedsUserAdmin | src/config/routes.ts:62-181 | /settings/users/42 requires what /settings/users requires (the longer key wins over /settings) |
| Routes.GetAvailableRoutes | src/config/routes.ts:227-236 | the protected routes followed by the restricted keys, keeping in order, with repeats, exactly those the user can access |
| AuthErrors.DefaultUserMessage | src/lib/auth.ts:46-67 | the constructor's message table, with the generic message for UNKNOWN_ERROR; `NewAuthError` states it is used exactly when no truthy user message is given |
| AuthErrors.NewAuthError | src/lib/auth.ts:33-44 | the error keeps the message, code and status given; its user message is the one given when that is non-empty, otherwise the default for the code |
| AuthErrors.ErrorText | src/lib/auth.ts:136 | the technical message is the first present, non-empty one of msg, message, error and error_description, else 'Unknown error'; never empty |
| AuthErrors.ProviderCode | src/lib/auth.ts:142-199 | the code table of the provider switch; `MapSupabaseError`, `RecognisedCodeIgnoresStatus` and `SignupDisabledIsEmailExists` state its use |
| AuthErrors.ProviderMessage | src/lib/auth.ts:143-199 | the user messages of the provider switch; `MapSupabaseError` states that a recognised code takes its message from here |
| AuthErrors.StatusCode | src/lib/auth.ts:202-262 | the code table of the status switch; stated by `StatusDecides`: each listed status against its code, in both directions |
| AuthErrors.StatusMessage | src/lib/auth.ts:202-262 | the user messages of the status switch; `MapSupabaseError` states that an unrecognised provider code takes the status's message |
| AuthErrors.MapSupabaseError | src/lib/auth.ts:135-263 | the mapped error keeps the status and the technical message; a recognised provider code fixes the code and its user message, otherwise the HTTP status does |
| AuthErrors.RecognisedCodeIgnoresStatus | src/lib/auth.ts:142-198 | with a recognised provider code, code and user message do not depend on the status |
| AuthErrors.SignupDisabledIsEmailExists | src/lib/auth.ts:183-190 | 'signup_disabled' maps exactly like 'email_already_exists', to EMAIL_ALREADY_EXISTS |
| AuthErrors.StatusDecides | src/lib/auth.ts:200-261 | the status table in both directions: 400, 401, 403, 422 and 429 have their own codes, 500/502/503/504 give SERVER_ERROR, every other status UNKNOWN_ERROR |
| AuthErrors.ParseFallback | src/lib/auth.ts:109-116 | a non-JSON error body becomes a PARSE_ERROR structure whose message is the status text, or 'Unknown error' when that is empty |
| AuthErrors.ParseFallbackUsesStatus | src/lib/auth.ts:109-119 | PARSE_ERROR matches no provider case, so a non-JSON error body is classified by its status alone |
| AuthErrors.HandleResponse | src/lib/auth.ts:96-133 | a status outside 200–299 throws an AuthError with that status; 204 or a zero content-length yields the stock success message; a parsed payload comes only from a JSON body |
| AuthErrors.ClassifyException | src/lib/auth.ts:288-323 | an AuthError is rethrown unchanged; an AbortError becomes TIMEOUT/408; a TypeError mentioning 'fetch' becomes NETWORK_ERROR/0; any other Error UNKNOWN_ERROR/500 with its message; a non-Error UNKNOWN_ERROR/500 'Unknown error' |
| AuthErrors.MakeRequest | src/lib/auth.ts:266-324 | an error status always rejects with an AuthError carrying that status, a JSON error body with exactly its mapped error, and a throwing fetch with the classified exception |
| AuthErrors.ErrorStatusKeepsMapping | src/lib/auth.ts:100-120 | for an error status, the request rejects with the mapping of its body (or of the parse fallback) and the rethrow does not wrap it again |
| AuthErrors.FormatErrorMessage | src/lib/auth.ts:608-618 | an AuthError shows its user message, any other Error its message, anything else 'An unexpected error occurred' |
| AuthHelpers.ToSessionUser | src/lib/auth.ts:474-486 | the session user carries the provider user's id, e-mail, role and names, the response's tokens and expiry, and exactly the permissions given |
| AuthHelpers.ToSessionUserDefault | src/lib/auth.ts:474 | without a permission list the session user has no permissions |
| AuthHelpers.ExpiredIsExpiringSoon | src/lib/auth.ts:488-491 | an expired token (now ≥ expiresAt) is also expiring soon (within five minutes) |
| AuthHelpers.IsTokenExpired | src/lib/auth.ts:489-491 | expiry in exact arithmetic; stated by `ExpiredIsExpiringSoon` and `UserUtils.ExpiringSoonFrom`: an expired token is also expiring soon |
| AuthHelpers.IsTokenExpiringSoon | src/lib/auth.ts:541-545 | within 300 seconds of expiry; stated by `Middleware.TokenExpiredIffExpiringSoon`: the same instant as the middleware's expiry test |
| AuthHelpers.HasPermission | src/lib/auth.ts:494-496 | membership in the list, as `includes` tests it; `HasAnyPermission`, `HasAllPermissions` and `CanPerformCrud` are stated as this membership |
| AuthHelpers.HasAnyPermission | src/lib/auth.ts:499-501 | true exactly when some required permission is held |
| AuthHelpers.HasAllPermissions | src/lib/auth.ts:504-506 | true exactly when every required permission is held |
| AuthHelpers.AllAndAny | src/lib/auth.ts:499-506 | an empty requirement is met by the every-check and failed by the some-check; for a non-empty requirement all implies any |
| AuthHelpers.CanPerformCrud | src/lib/auth.ts:563-570 | true exactly when the permission `resource.action` is held |
| AuthHelpers.IsValidEmail | src/lib/auth.ts:509-512 | the validator written out; stated by `IsValidEmailMatchesPattern`: it agrees with the regular expression on every string |
| AuthHelpers.ValidEmailMatchesPattern | src/lib/auth.ts:509-512 | every e-mail the validator accepts is matched by the pattern `^[^\s@]+@[^\s@]+\.[^\s@]+$` |
| AuthHelpers.PatternMatchIsValidEmail | src/lib/auth.ts:509-512 | every string the pattern matches is accepted by the validator |
| AuthHelpers.IsValidEmailMatchesPattern | src/lib/auth.ts:509-512 | the validator accepts exactly the strings the e-mail pattern matches |
| AuthHelpers.IsValidPassword | src/lib/auth.ts:515-526 | valid exactly when the password has at least six UTF-16 code units, in which case there is no message; an empty password is 'required', a short one 'too short' |
| AuthHelpers.SanitizeInput | src/lib/auth.ts:573-575 | the result holds no angle bracket and is the trimmed input with exactly its angle brackets removed, order kept |
| AuthHelpers.SanitizeWithoutAngles | src/lib/auth.ts:573-575 | input without angle brackets is only trimmed |
| AuthHelpers.Category | src/lib/auth.ts:552 | a permission's category is its text before the first '.', or all of it when it has none: a dot-free prefix followed in the permission by a '.' whenever it is shorter |
| AuthHelpers.Grouped | src/lib/auth.ts:548-560 | the record the forEach builds; stated by `GroupedKeys`, `GroupedValues`, `EmptyGroup` and `GroupedSpec` |
| AuthHelpers.CategoryOrder | src/lib/auth.ts:548-560 | the order the record's keys are created in; stated by `CategoryOrderSpec`: each present category once, in first-occurrence order |
| AuthHelpers.CategoryOrderSpec | src/lib/auth.ts:551-557 | the record's key order lists exactly the categories that occur, each once |
| AuthHelpers.GroupedKeys | src/lib/auth.ts:551-557 | the record's keys are exactly the listed categories |
| AuthHelpers.GroupedValues | src/lib/auth.ts:551-557 | each category's group is exactly the permissions of that category, in input order |
| AuthHelpers.EmptyGroup | src/lib/auth.ts:553-555 | a category that never occurs has no permissions |
| AuthHelpers.GroupedSpec | src/lib/auth.ts:548-560 | the grouping as a whole: keys, groups in input order, key order without repeats |
| AuthHelpers.SumSizesUpdate | src/lib/auth.ts:556 | replacing one listed group changes the total by the difference of sizes |
| AuthHelpers.SumSizesUnchanged | src/lib/auth.ts:554 | adding a group that is not listed leaves the total unchanged |
| AuthHelpers.SumSizesAppend | src/lib/auth.ts:554 | listing one more group adds its size to the total |
| AuthHelpers.GroupSizesSum | src/lib/auth.ts:548-560 | every listed key has a group, and the group sizes add up to the number of permissions |
| AuthHelpers.SumAfterKnownCategory | src/lib/auth.ts:553-556 | a permission of a category already present keeps the sizes adding up |
| AuthHelpers.SumAfterNewCategory | src/lib/auth.ts:553-556 | a permission of a new category keeps the sizes adding up |
| AuthHelpers.GroupPermissionsByCategory | src/lib/auth.ts:548-560 | the loop builds exactly the grouping and key order; each group holds that category's permissions in order, and the sizes add up to the input length |
| AuthHelpers.CrudPermissionIsGrouped | src/lib/auth.ts:563-570 | a held CRUD permission on a dot-free resource sits in that resource's group |
| UserUtils.IsAuthenticated | src/lib/utils/auth.ts:4-6 | a user is present (`user !== undefined`); no lemma is needed beyond that |
| UserUtils.HasRole | src/lib/utils/auth.ts:9-11 | role equality; `SuperAdminIsRole` states it for super_admin |
| UserUtils.IsSuperAdmin | src/lib/utils/auth.ts:14-16 | stated by `SuperAdminIsRole`: exactly the role 'super_admin', and then no other role |
| UserUtils.HasPermission | src/lib/utils/auth.ts:19-21 | `includes` on the user's permissions; `CanPerformCrud` states its result through it |
| UserUtils.HasAnyPermission | src/lib/utils/auth.ts:24-26 | `some` over the required permissions; stated by `AllAndAnyForUser` |
| UserUtils.HasAllPermissions | src/lib/utils/auth.ts:29-31 | `every` over the required permissions; stated by `AllAndAnyForUser` |
| UserUtils.SuperAdminIsRole | src/lib/utils/auth.ts:9-16 | being super admin is exactly having the role 'super_admin' |
| UserUtils.AllAndAnyForUser | src/lib/utils/auth.ts:24-31 | for a user, an empty requirement is met by every and failed by some; for a non-empty one all implies any |
| UserUtils.RouteEntry | src/lib/utils/auth.ts:36-49 | a route has an entry exactly when it is a key of the table, and then the entry is that key's one permission |
| UserUtils.FindRoute | src/lib/utils/auth.ts:52-57 | lookup in a table without repeated keys finds a route exactly when it is a key, with that key's permission |
| UserUtils.CanAccessRoute | src/lib/utils/auth.ts:34-58 | an unmapped route is open; a mapped one is open exactly when the user holds its permission |
| UserUtils.AdminSubPathOpen | src/lib/utils/auth.ts:36-54 | lookup is by exact key, so /admin/x is open to every user |
| UserUtils.SuperAdminNoBypass | src/lib/utils/auth.ts:37-57 | the super_admin role is no bypass here: without 'admin.access' /admin is closed |
| UserUtils.GetFullName | src/lib/utils/auth.ts:61-63 | the trimmed join; stated by `FullNameOfTrimmedNames` and `FullNameWithoutLastName` |
| UserUtils.FullNameOfTrimmedNames | src/lib/utils/auth.ts:61-63 | with non-empty names free of outer whitespace, the full name is the two joined by one space |
| UserUtils.FullNameWithoutLastName | src/lib/utils/auth.ts:61-63 | a missing last name leaves no trailing space |
| UserUtils.Initial | src/lib/utils/auth.ts:67-68 | the initial is empty exactly for an empty name, and otherwise the upper-cased first character, at most two characters (upper-casing can expand a letter) |
| UserUtils.GetInitials | src/lib/utils/auth.ts:66-70 | the initials are empty exactly when both names are; with both names they are the upper-cased first character of each, first name first; with one name empty they are the other name's initial |
| UserUtils.IsTokenExpiringSoon | src/lib/utils/auth.ts:73-77 | the five-minute test on the user's expiry; stated by `ExpiringSoonFrom`: from the millisecond (expires_at − 300)·1000 on |
| UserUtils.ExpiringSoonFrom | src/lib/utils/auth.ts:73-77 | the token is expiring soon exactly from the millisecond (expires_at − 300)·1000 on, which includes every expired token |
| UserUtils.GroupPermissionsByCategory | src/lib/utils/auth.ts:80-92 | the keys are exactly the categories present, each holding that category's permissions in input order, listed once each, with sizes adding up to the input length |
| UserUtils.CanPerformCrud | src/lib/utils/auth.ts:95-97 | true exactly when the user holds the permission `resource.action` |
| Actions.MinLengthOne | src/actions/index.ts:10-12 | `min(1)` holds exactly for a non-empty string |
| Actions.Check | src/actions/index.ts:7-59 | one schema rule reports its field exactly when the rule fails, and nothing else |
| Actions.RegisterIssues | src/actions/index.ts:7-13 | the sign-up form passes exactly when the e-mail is valid, the password has at least six code units and names and phone are non-empty; the password is reported exactly when it is too short |
| Actions.LoginIssues | src/actions/index.ts:15-18 | the sign-in form passes exactly when the e-mail is valid and the password non-empty |
| Actions.RecoverIssues | src/actions/index.ts:20-22 | the recovery form passes exactly when the e-mail is valid |
| Actions.UpdatePasswordIssues | src/actions/index.ts:24-26 | the new password passes exactly when it has at least six code units |
| Actions.MetadataIssues | src/actions/index.ts:28-33 | the metadata form passes exactly when names and phone are non-empty and the avatar URL is valid |
| Actions.PersonalIssues | src/actions/index.ts:36-42 | the personal fields pass exactly when all are non-empty and the avatar URL is valid; gender is not among them |
| Actions.ContactIssues | src/actions/index.ts:43-46 | gender is reported exactly when it is not M, F or Other; the part passes exactly when gender is valid and the emergency contact complete |
| Actions.InsuranceIssues | src/actions/index.ts:53-57 | the insurance part passes exactly when provider, policy number and preferred language are non-empty |
| Actions.CompleteProfileIssues | src/actions/index.ts:35-59 | the complete-profile form passes exactly when every required text is non-empty, the avatar URL is valid and gender is M, F or Other |
| Actions.WithDefaults | src/actions/index.ts:47-58 | the allergies, current medications, conditions and surgeries become [] when missing and are passed on unchanged when given; the bio becomes "" when missing and is passed on when given; every other field is copied |
| Actions.RegisterEffect | src/actions/index.ts:63-95 | registration succeeds exactly when the form passes and sign-up and permission fetch both succeed; only then is the session written, once, with the new user; a service failure becomes REGISTRATION_FAILED with the service's message; a form that fails the schema is BAD_REQUEST with its failing fields and no call |
| Actions.LoginEffect | src/actions/index.ts:98-125 | sign-in succeeds exactly when the form passes and sign-in and permission fetch succeed; only then is the session written, once; a failure becomes LOGIN_FAILED with the service's message; a form that fails the schema is BAD_REQUEST with its failing fields and no call |
| Actions.LogoutEffect | src/actions/index.ts:128-152 | the session is destroyed exactly once whatever happens; the provider is called only for a stored user; the result fails with LOGOUT_FAILED exactly when that call fails |
| Actions.RecoverPasswordEffect | src/actions/index.ts:155-172 | recovery never touches the session and succeeds exactly when the e-mail is valid and the mail was sent; a send failure becomes RECOVERY_FAILED with the service's message; an invalid e-mail is BAD_REQUEST with no call |
| Actions.UpdatePasswordEffect | src/actions/index.ts:175-202 | never writes the session; without a user it is UNAUTHORIZED with no call; succeeds exactly for a valid password, a stored user and a successful update, having called the update with the user's token; a failed update is UPDATE_PASSWORD_FAILED with the service's message; a short password is BAD_REQUEST with no call |
| Actions.UpdateMetadataEffect | src/actions/index.ts:205-247 | without a user it is UNAUTHORIZED with no call; succeeds exactly for a valid form, a user and a successful update, and then rewrites the stored user with only the new names; on failure the session is left alone; a failed update is UPDATE_METADATA_FAILED with the service's message; a form that fails the schema is BAD_REQUEST with no call |
| Actions.UpdateCompleteProfileEffect | src/actions/index.ts:250-274 | never writes the session; without a user it is UNAUTHORIZED; succeeds exactly for a valid form, a user and a successful update; sends the parsed profile with its defaults; a failed update is UPDATE_COMPLETE_PROFILE_FAILED with the service's message; a form that fails the schema is BAD_REQUEST with no call |
| Actions.GetCurrentUserProfileEffect | src/actions/index.ts:277-298 | never writes the session; without a user it is UNAUTHORIZED with no call; otherwise it returns the fetched profile or GET_PROFILE_FAILED with the service's message |
| Actions.GetUserPermissionsEffect | src/actions/index.ts:301-322 | never writes the session; without a user it is UNAUTHORIZED with no call; otherwise it returns the fetched permissions or GET_PERMISSIONS_FAILED with the service's message |
| Actions.LoginFailureCarriesRawMessage | src/actions/index.ts:118-123 | a failed sign-in reports code LOGIN_FAILED with the service error's technical message, not its user message |
| Actions.Handlers.constructor | src/actions/index.ts:61 | the handlers start on the given session with no calls logged |
| Actions.Handlers.Perform | src/actions/index.ts:85-144 | performing an effect returns its outcome, logs exactly its calls and applies exactly its writes to the session |
| Actions.Handlers.Register | src/actions/index.ts:63-95 | the handler's outcome, calls and session writes are those `RegisterEffect` states |
| Actions.Handlers.Login | src/actions/index.ts:98-125 | the handler's outcome, calls and session writes are those `LoginEffect` states |
| Actions.Handlers.Logout | src/actions/index.ts:128-152 | the handler's outcome, calls and session writes are those `LogoutEffect` states for the stored user |
| Actions.Handlers.RecoverPassword | src/actions/index.ts:155-172 | the handler's outcome and calls are those `RecoverPasswordEffect` states, and the session is not written |
| Actions.Handlers.UpdatePassword | src/actions/index.ts:175-202 | the handler's outcome and calls are those `UpdatePasswordEffect` states for the stored user |
| Actions.Handlers.UpdateUserMetadata | src/actions/index.ts:205-247 | the handler's outcome, calls and session writes are those `UpdateMetadataEffect` states |
| Actions.Handlers.UpdateCompleteProfile | src/actions/index.ts:250-274 | the handler's outcome and calls are those `UpdateCompleteProfileEffect` states |
| Actions.Handlers.GetCurrentUserProfile | src/actions/index.ts:277-298 | the handler's outcome and calls are those `GetCurrentUserProfileEffect` states |
| Actions.Handlers.GetUserPermissions | src/actions/index.ts:301-322 | the handler's outcome and calls are those `GetUserPermissionsEffect` states |
| Sidebar.FilterItemsByPermissions | src/config/sidebar.ts:351-360 | keeps, in order, exactly the items with no (or an empty) permission list or with one of their permissions held |
| Sidebar.FilterItemsByRole | src/config/sidebar.ts:365-373 | keeps, in order, exactly the items with no (or an empty) role list or listing the user's role |
| Sidebar.GroupSurvives | src/config/sidebar.ts:379-395 | the filter callback; `FilterGroupsByPermissions` states that exactly the surviving groups are kept |
| Sidebar.FilterGroupsByPermissions | src/config/sidebar.ts:378-400 | the groups whose own permissions allow the user and that keep a visible item, in order, each with its items narrowed and every other field unchanged; no returned group is empty |
| Sidebar.ByOrderTotalPreorder | src/config/sidebar.ts:415 | the comparator on `order` is total and transitive |
| Sidebar.RoleFiltered | src/config/sidebar.ts:406-412 | the permission filter, then the role filter on each group's items; `SidebarSortedPermutation` and `RoleFilterCanEmptyAGroup` state its use |
| Sidebar.SidebarFor | src/config/sidebar.ts:405-416 | the sorted sidebar over any configuration; stated by `SidebarSortedPermutation` and `NoPermissionsNoSidebar` |
| Sidebar.GetSidebarForUser | src/config/sidebar.ts:405-416 | the sidebar over the shipped groups; stated by `NoPermissionsEmptySidebar` |
| Sidebar.SidebarSortedPermutation | src/config/sidebar.ts:405-416 | the sidebar holds exactly the filtered groups (as a multiset), in non-decreasing `order` |
| Sidebar.RoleFilterCanEmptyAGroup | src/config/sidebar.ts:405-416 | the role filter runs after the emptiness check, so a returned group can have no items |
| Sidebar.ShippedGroupsRequirePermissions | src/config/sidebar.ts:180-342 | every configured group lists at least one permission |
| Sidebar.NoPermissionsNoSidebar | src/config/sidebar.ts:378-390 | for groups that all require a permission, a user without permissions gets no group |
| Sidebar.NoPermissionsEmptySidebar | src/config/sidebar.ts:180-416 | a user without permissions gets an empty sidebar from the shipped configuration |
| Sidebar.IsActiveRoute | src/config/sidebar.ts:421-431 | the three-branch test; stated by `ActiveRouteIff`: /dashboard only on itself, any other link on every path it prefixes |
| Sidebar.ActiveRouteIff | src/config/sidebar.ts:421-431 | /dashboard is active only on /dashboard itself; any other link is active on every path it prefixes |
| Sidebar.FindInItems | src/config/sidebar.ts:438-442 | returns the first active item of a group, and nothing exactly when none is active |
| Sidebar.FirstActiveConcat | src/config/sidebar.ts:437-444 | the first active item of a prefix, or of the rest when the prefix has none, is the first active item of the whole |
| Sidebar.FindActiveItem | src/config/sidebar.ts:436-445 | returns the first active item in group-then-item order, and nothing exactly when no item is active |
| Availability.JsRem | src/lib/utils/availability.utils.ts:221 | JavaScript's `%` for a positive divisor: the Euclidean remainder for a non-negative dividend, a value in (-b, 0] for a negative one; in both cases the dividend is a multiple of the divisor plus the result, so the result is the truncated remainder |
| Availability.MinutesToTime | src/lib/utils/availability.utils.ts:219-223 | a count below 6000 minutes renders as five characters with ':' in the middle |
| Availability.PadStart2Digits | src/lib/utils/availability.utils.ts:222 | padding a numeral on the left keeps it all digits and free of ':' |
| Availability.MinutesToTimeParts | src/lib/utils/availability.utils.ts:219-223 | a non-negative count renders as its padded hours, ':' and its padded minutes |
| Availability.TimeToMinutes | src/lib/utils/availability.utils.ts:211-214 | split, Number() and combine, NaN as None; stated by `ReadTime` and `MinutesToTimeRoundTrip` |
| Availability.HoursAndMinutes | src/lib/utils/availability.utils.ts:212-213 | hours·60 + minutes over the first two pieces; stated by `ReadTime` |
| Availability.ReadTime | src/lib/utils/availability.utils.ts:211-214 | two numerals joined by ':' read back as hours times 60 plus minutes |
| Availability.ReadPaddedTime | src/lib/utils/availability.utils.ts:211-214 | zero-padded hours and minutes read back as hours times 60 plus minutes |
| Availability.MinutesToTimeRoundTrip | src/lib/utils/availability.utils.ts:211-223 | `timeToMinutes(minutesToTime(m)) == m` for every non-negative count |
| Availability.CalculateDuration | src/lib/utils/availability.utils.ts:228-230 | end minus start, NaN as None; stated by `DurationOfRenderedTimes` and `DurationOfReadTimes` |
| Availability.DurationOfRenderedTimes | src/lib/utils/availability.utils.ts:228-230 | the duration between two rendered counts is end minus start, negative when the end comes first |
| Availability.DurationOfReadTimes | src/lib/utils/availability.utils.ts:228-230 | when both times read as numbers, the duration is their difference |
| Availability.AddPair | src/lib/utils/availability.utils.ts:187-196 | recording a pair never drops a group and leaves at least one group |
| Availability.InnerStep | src/lib/utils/availability.utils.ts:173-198 | one pass of the inner loop checks the pair (i, j) and continues from j + 1 |
| Availability.InnerDone | src/lib/utils/availability.utils.ts:173 | the inner loop past the end leaves the groups as they are |
| Availability.OuterStep | src/lib/utils/availability.utils.ts:172-200 | one pass of the outer loop runs the inner loop from i + 1 and continues from i + 1 |
| Availability.OuterDone | src/lib/utils/availability.utils.ts:172 | the outer loop past the end leaves the groups as they are |
| Availability.SoundInRange | src/lib/utils/availability.utils.ts:187-196 | members of sound groups are positions of the schedule list |
| Availability.Overlap | src/lib/utils/availability.utils.ts:178-185 | same day and `start1 < end2 && start2 < end1`; stated by `OverlapSymmetric` and `BackToBackNoConflict`, and it is the relation `ConflictGroupsNonEmptyIff` quantifies over |
| Availability.OverlapSymmetric | src/lib/utils/availability.utils.ts:178-185 | the same-day overlap test does not depend on the order of the two schedules |
| Availability.PairGroupSound | src/lib/utils/availability.utils.ts:195 | a new group of two overlapping schedules is sound |
| Availability.ExtendKeeps | src/lib/utils/availability.utils.ts:192-193 | pushing only when `includes` is false keeps a group free of duplicates and leaves the pushed member in it |
| Availability.ExtendSound | src/lib/utils/availability.utils.ts:192-193 | pushing a member already there, or one that overlaps a member, keeps a group sound |
| Availability.ExtendGroupSound | src/lib/utils/availability.utils.ts:191-193 | pushing an overlapping pair into a sound group holding one of them keeps it sound |
| Availability.AddPairSound | src/lib/utils/availability.utils.ts:187-196 | recording an overlapping pair of distinct positions keeps every group sound |
| Availability.InnerSound | src/lib/utils/availability.utils.ts:173-198 | the inner loop keeps every group sound |
| Availability.OuterSound | src/lib/utils/availability.utils.ts:172-200 | the outer loop keeps every group sound |
| Availability.ConflictGroups | src/lib/utils/availability.utils.ts:170-200 | the groups the nested loops build, as positions; stated by `ConflictGroupsSound`, `ConflictGroupsNonEmptyIff` and `CollectGroups` |
| Availability.ConflictGroupsSound | src/lib/utils/availability.utils.ts:167-206 | every reported group has at least two distinct schedules, each overlapping another member on the same day |
| Availability.InnerNonEmpty | src/lib/utils/availability.utils.ts:173-198 | after the inner loop there is a group exactly when there was one before or some later schedule overlaps schedule i |
| Availability.OuterNonEmpty | src/lib/utils/availability.utils.ts:172-200 | after the outer loop there is a group exactly when there was one before or some pair from i on overlaps |
| Availability.ConflictGroupsNonEmptyIff | src/lib/utils/availability.utils.ts:167-206 | there is a conflict group exactly when some pair of schedules on one day overlaps |
| Availability.BackToBackNoConflict | src/lib/utils/availability.utils.ts:185 | a schedule ending when another starts does not conflict with it, in either order |
| Availability.ConflictIgnoresDoctorAndLocation | src/lib/utils/availability.utils.ts:178-185 | two schedules of different doctors or locations conflict just as the same ones would |
| Availability.GroupsMayShareMembers | src/lib/utils/availability.utils.ts:187-196 | a concrete list where one schedule ends up in two groups: the groups are not a partition |
| Availability.Pick | src/lib/utils/availability.utils.ts:187-196 | each position of a group is replaced by the schedule at that position |
| Availability.Members | src/lib/utils/availability.utils.ts:202-205 | every group of positions becomes the list of its schedules |
| Availability.ConflictReport | src/lib/utils/availability.utils.ts:167-206 | the groups are sound, name positions of the list, have two or more members, and exist exactly when some pair overlaps |
| Availability.ReportedConflicts | src/lib/utils/availability.utils.ts:202-205 | the reported schedule lists are non-empty exactly when two schedules overlap, and each has at least two schedules |
| Availability.RecordConflict | src/lib/utils/availability.utils.ts:187-196 | the find-and-push block computes AddPair |
| Availability.DetectScheduleConflicts | src/lib/utils/availability.utils.ts:167-206 | the conflicts are the schedules of the sound groups, `hasConflicts` holds exactly when some same-day pair overlaps, and every group has two or more schedules |
| Availability.CollectGroups | src/lib/utils/availability.utils.ts:172-200 | the nested loops compute the conflict groups of the schedules' spans |
| Availability.SpansOfMap | src/lib/utils/availability.utils.ts:174-182 | the span list holds, position by position, each schedule's day and minutes |
| Availability.SpanAt | src/lib/utils/availability.utils.ts:174-182 | the span at a position is the day and minutes of the schedule at that position |
| Availability.ScanPartners | src/lib/utils/availability.utils.ts:173-199 | the inner loop computes Inner from i + 1 |
| Availability.CheckPair | src/lib/utils/availability.utils.ts:174-197 | one pair is recorded exactly when both are on the same day and `start1 < end2 && start2 < end1` |
| Availability.FilterSchedulesByDoctor | src/lib/utils/availability.utils.ts:99-105 | an empty id returns the list itself; otherwise the order-preserving sublist of exactly that doctor's schedules |
| Availability.FilterSchedulesByLocation | src/lib/utils/availability.utils.ts:110-116 | an empty id returns the list itself; otherwise the order-preserving sublist of exactly that location's schedules |
| Availability.FilterSchedulesBySpecialization | src/lib/utils/availability.utils.ts:121-127 | an empty name returns the list itself; otherwise the order-preserving sublist of exactly the schedules whose doctor has that specialization |
| Availability.ApplyFilters | src/lib/utils/availability.utils.ts:132-162 | the result is the order-preserving sublist of exactly the schedules passing every given (truthy) filter, where onlyActive also requires an active doctor |
| Availability.Weekday | src/lib/utils/availability.utils.ts:26 | `getDay()` lies in 0..6 |
| Availability.WeekdayShift | src/lib/utils/availability.utils.ts:24-26 | moving i days on moves the weekday by i modulo 7 |
| Availability.WeekHasEveryWeekday | src/lib/utils/availability.utils.ts:22-32 | the seven days of a week fall on seven different adjusted weekdays, each in 1..7 |
| Availability.GetWeekStart | src/lib/utils/availability.utils.ts:51-56 | the result is a Monday, at most six days before the date, and the only Monday in that window |
| Availability.WeekStartIsMonday | src/lib/utils/availability.utils.ts:53-54 | the day the formula computes is a Monday, Sunday included |
| Availability.MondaysWithinAWeek | src/lib/utils/availability.utils.ts:51-56 | two Mondays less than a week apart are the same day |
| Availability.GetNextWeek | src/lib/utils/availability.utils.ts:72-76 | seven days later; stated by `WeekNavigation`: undone by the previous week and keeping the weekday |
| Availability.GetPreviousWeek | src/lib/utils/availability.utils.ts:81-85 | seven days earlier; stated by `WeekNavigation` |
| Availability.WeekNavigation | src/lib/utils/availability.utils.ts:72-85 | next and previous week undo each other, keep the weekday, and the week start of next week is the next week of the week start |
| Availability.WeekStartIdempotent | src/lib/utils/availability.utils.ts:51-56 | the week start of a week start is itself |
| Availability.GenerateWeekView | src/lib/utils/availability.utils.ts:12-46 | seven days from weekStart, weekEnd six days on, each day holding, in order, exactly the active schedules of its weekday with Sunday as 7 |
| Availability.SundayZeroNeverShown | src/lib/utils/availability.utils.ts:27-32 | a schedule with dayOfWeek 0 is never selected for any day of a week view |
| Availability.TotalSchedules | src/lib/utils/availability.utils.ts:236 | the summed day lengths equal the length of the flattened schedule list |
| Availability.ActiveSchedules | src/lib/utils/availability.utils.ts:237-239 | the active count is the number of active schedules in the flattened week; it is at most the total, and equal to it exactly when every schedule of the week is active |
| Availability.Distinct | src/lib/utils/availability.utils.ts:241-251 | the count is the size of the set of values the field takes on the week's schedules; it is at most the total, and zero exactly when the week holds no schedule |
| Availability.GetWeekAvailabilityStats | src/lib/utils/availability.utils.ts:235-258 | the total is the flattened length; the active count is the number of active schedules in it; the doctor, location and specialization counts are the sizes of the sets of doctor ids, location ids and specializations on the week's schedules; all counts are bounded by the total, with no doctor exactly when no schedule |
| Availability.GeneratedWeekAllActive | src/lib/utils/availability.utils.ts:236-239 | in a week view whose schedules are all active, the active and total counts agree |
| Doctors.GetActiveDoctors | src/lib/data/doctors.data.ts:264-266 | the order-preserving sublist of exactly the active doctors |
| Doctors.GetInactiveDoctors | src/lib/data/doctors.data.ts:271-273 | the order-preserving sublist of exactly the inactive doctors |
| Doctors.GetActiveDoctorsCount | src/lib/data/doctors.data.ts:233-235 | the number of active doctors, which is the length of the active list |
| Doctors.ActiveInactivePartition | src/lib/data/doctors.data.ts:264-273 | the active and inactive lists together are the doctor list as a multiset, and their lengths add up to its length |
| Doctors.GetSpecializations | src/lib/data/doctors.data.ts:240-243 | duplicate-free, sorted by UTF-16 code units, and holding exactly the specializations some doctor has |
| Doctors.SortedSetFacts | src/lib/data/doctors.data.ts:242 | sorting a duplicate-free list keeps it duplicate-free, with the same elements, and sorted |
| Doctors.GetDoctorsBySpecialization | src/lib/data/doctors.data.ts:248-252 | the order-preserving sublist of exactly the active doctors of that specialization |
| Doctors.GetDoctorById | src/lib/data/doctors.data.ts:257-259 | none exactly when no doctor has the id; otherwise the first doctor carrying it |
| Doctors.SearchTerm | src/lib/data/doctors.data.ts:279 | the query lowercased, then trimmed; `SearchDoctors` states its results in terms of it |
| Doctors.SearchDoctors | src/lib/data/doctors.data.ts:278-292 | a blank lowercased-and-trimmed query returns the active doctors; otherwise exactly the active doctors whose lowercased name, specialization or bio contains the term, in order |
| Doctors.SearchFindsActiveDoctors | src/lib/data/doctors.data.ts:278-292 | search returns only active doctors and never more than there are |
| Doctors.OrdersAreTotalPreorders | src/lib/data/doctors.data.ts:304-313 | both comparators, with a missing number as 0, are total and transitive |
| Seqs.SortByStable | src/lib/data/doctors.data.ts:311-313 | `Array.prototype.sort` is stable: in the sorted list the elements a comparator ranks equal to any given one appear in their input order |
| Doctors.GetDoctorsByExperience | src/lib/data/doctors.data.ts:304-306 | a permutation of the active doctors in non-increasing years of experience; doctors with equal experience keep their seed order |
| Doctors.GetDoctorsByPrice | src/lib/data/doctors.data.ts:311-313 | a permutation of the active doctors in non-decreasing consultation price; doctors with equal price keep their seed order |
| Doctors.CountsFor | src/lib/data/doctors.data.ts:326-329 | one entry per name, in order, holding the name and the number of its active doctors |
| Doctors.GetDoctorsStats | src/lib/data/doctors.data.ts:318-341 | total, active and inactive counts that add up, the number of specializations, and for each sorted specialization the number of its active doctors |
| ScheduleData.Attach | src/lib/data/schedule.data.ts:195-198 | the schedule spread with the first doctor and the first location carrying its ids |
| ScheduleData.Join | src/lib/data/schedule.data.ts:195-199 | one joined entry per schedule, in order, each attached to its doctor and location |
| ScheduleData.ResolvesAt | src/lib/data/schedule.data.ts:197-198 | a table of positions for each schedule's doctor and location makes both `find` calls succeed |
| ScheduleData.SeedsResolve | src/lib/data/schedule.data.ts:5-191 | every seed schedule names a seed doctor and a seed location, so the non-null assertions hold |
| ScheduleData.GetScheduleWithDetails | src/lib/data/schedule.data.ts:194-200 | the schedules in order, each with the doctor and the location whose ids it names |
| ScheduleData.GetDoctorSchedules | src/lib/data/schedule.data.ts:202-204 | the order-preserving sublist of exactly the joined entries of that doctor |
| ScheduleData.GetLocationSchedules | src/lib/data/schedule.data.ts:206-207 | the order-preserving sublist of exactly the joined entries at that location |
| ScheduleData.DoctorSchedulesCarryDoctor | src/lib/data/schedule.data.ts:194-204 | every entry of a doctor's list carries that doctor, and there is one entry per schedule of the doctor |
| ScheduleData.CountJoined | src/lib/data/schedule.data.ts:195-203 | joining keeps the number of schedules of each doctor |
| Notifications.OrNumber | src/lib/utils/notifications.ts:114 | `x \|\| fallback` on a number: the value when present and non-zero, the fallback otherwise |
| Notifications.OrText | src/lib/utils/notifications.ts:116 | `x \|\| fallback` on a string: the value when present and non-empty, the fallback otherwise |
| Notifications.DefaultDuration | src/lib/utils/notifications.ts:109-164 | the builders' fallback durations are positive |
| Notifications.Build | src/lib/utils/notifications.ts:109-164 | the toast carries the category, title and description as given, a non-zero duration that is the given one or the category's default, and a non-empty cancel label that is the given one or "Dismiss"; without options both are the defaults |
| Notifications.MessageDuration | src/lib/utils/notifications.ts:180 | `showMessage` falls back to 6000 exactly for errors and to 4000 for every other category |
| Notifications.MessageToast | src/lib/utils/notifications.ts:169-185 | the entry's title and description, the given category or info, the duration from the options or else 6000 for errors and 4000 otherwise, and the cancel label from the options or else "Dismiss" |
| Notifications.NamedToast | src/lib/utils/notifications.ts:170-174 | nothing exactly when the name is not a key of the message table; otherwise the key's toast |
| Notifications.MessageDurationAgreesExceptWarning | src/lib/utils/notifications.ts:139-185 | a predefined message lasts as long as a built toast of its category by default, except for warnings (4000 against 5000) |
| Notifications.Reaction | src/lib/utils/notifications.ts:190-221 | a toast is shown only for a result, always with "Dismiss" and the `showMessage` default duration, and never in the info category |
| Notifications.WarningIffRateLimited | src/lib/utils/notifications.ts:193-202 | a warning is shown exactly for an error, not UNAUTHORIZED or BAD_REQUEST and not mentioning the network, whose message mentions "rate" |
| Notifications.CategoryFollowsOutcome | src/lib/utils/notifications.ts:190-221 | a shown toast is a success toast exactly when the result succeeded |
| Notifications.SilentIff | src/lib/utils/notifications.ts:190-221 | nothing is shown exactly when there is no result, the result is neither an error nor a success, or the caller's key is not in the table |
| Notifications.ErrorToasts | src/lib/utils/notifications.ts:195-202 | a BAD_REQUEST error shows "Invalid request" with the error's message or "Please check your input and try again."; a rate-limited error shows the RATE_LIMITED message as a warning |
| Notifications.ErrorKeyToast | src/lib/utils/notifications.ts:203-206 | an unclassified error with an error key shows that key's message as an error |
| Notifications.SuccessToasts | src/lib/utils/notifications.ts:210-219 | a success shows the success key's message when a key is given, else "Success" with the result's message when it has one, else the SUCCESS message |
| Notifications.ErrorPrecedence | src/lib/utils/notifications.ts:195-200 | the error code wins over the message, and a network message is not read as rate limiting |
| Notifications.NetworkIgnoresCase | src/lib/utils/notifications.ts:199-200 | a message "NETWORK" is shown as a connection error because it is lowercased first |
| Notifications.GenericFailureKeepsMessage | src/lib/utils/notifications.ts:203-209 | an unclassified error without an error key shows "Operation failed" with the error's own message when it has one |
| Notifications.Emit | src/lib/utils/notifications.ts:84-104 | an optional toast is shown as one toast or none |
| Notifications.NotificationService.constructor | src/lib/utils/notifications.ts:18-21 | a new service has shown nothing |
| Notifications.NotificationService.Show | src/lib/utils/notifications.ts:84-104 | the configuration is appended as it is to the shown toasts |
| Notifications.NotificationService.Success | src/lib/utils/notifications.ts:109-119 | appends the success toast Build gives |
| Notifications.NotificationService.Error | src/lib/utils/notifications.ts:124-134 | appends the error toast Build gives |
| Notifications.NotificationService.Warning | src/lib/utils/notifications.ts:139-149 | appends the warning toast Build gives |
| Notifications.NotificationService.Info | src/lib/utils/notifications.ts:154-164 | appends the info toast Build gives |
| Notifications.NotificationService.ShowKey | src/lib/utils/notifications.ts:169-185 | appends the message toast of the key |
| Notifications.NotificationService.ShowMessage | src/lib/utils/notifications.ts:169-185 | appends the named toast, or nothing for an unknown name |
| Notifications.NotificationService.HandleActionResult | src/lib/utils/notifications.ts:190-221 | appends exactly the toast Reaction gives, so at most one |
| Notifications.NotificationService.LoginSuccess | src/lib/utils/notifications.ts:227 | appends the LOGIN_SUCCESS message as a success |
| Notifications.NotificationService.LoginError | src/lib/utils/notifications.ts:228-231 | appends an error with the LOGIN_ERROR title and the given message or the table's description |
| Notifications.NotificationService.LogoutSuccess | src/lib/utils/notifications.ts:232 | appends the LOGOUT_SUCCESS message as info |
| Notifications.NotificationService.RegisterSuccess | src/lib/utils/notifications.ts:233 | appends the REGISTER_SUCCESS message as a success |
| Notifications.NotificationService.RegisterError | src/lib/utils/notifications.ts:234-237 | appends an error with the REGISTER_ERROR title and the given message or the table's description |
| Notifications.NotificationService.PasswordResetSent | src/lib/utils/notifications.ts:238 | appends the PASSWORD_RESET_SENT message as info |
| Notifications.NotificationService.PasswordResetError | src/lib/utils/notifications.ts:239 | appends the PASSWORD_RESET_ERROR message as an error |
| Notifications.NotificationService.EmailVerificationNeeded | src/lib/utils/notifications.ts:240 | appends the EMAIL_VERIFICATION_NEEDED message as a warning |
| Notifications.NotificationService.ProfileUpdated | src/lib/utils/notifications.ts:247 | appends the PROFILE_UPDATED message as a success |
| Notifications.NotificationService.ProfileUpdateError | src/lib/utils/notifications.ts:248-251 | appends an error with the PROFILE_UPDATE_ERROR title and the given message or the table's description |

## Left out

- HTTP transport of the identity service: `fetch`, headers (`getHeaders`), URLs, environment variables and the constructor's check of them. Each service call is an input result. The 15-second timeout appears only as the AbortError kind of thrown value.
- Error bodies that are JSON but not an object. A body is either a parsed record of optional string fields or unparseable.
- `generateSecureRandomString`: it depends on `Math.random`.
- `parseJwtPayload`: it depends on `atob`, `decodeURIComponent` and `JSON.parse`.
- UserUtils.Initial: takes the first Unicode character of the name. `charAt(0)` takes the first UTF-16 code unit, so for a name that starts outside the Basic Multilingual Plane JavaScript yields a lone high surrogate, which the model does not.
- AuthErrors.Body: the body kind and the status are independent inputs, so a JSON error body on a 2xx status and a parsed payload on an error status can be written, though the service sends neither. `HandleResponse` gives the first the stock success message and treats the second like an unreadable error body. In JavaScript both are one parsed JSON value read either way.
- Astro's `defineMiddleware`/`defineAction`, `context.redirect` and `next()`. A redirect is a returned value, and `next()` is the outcome Next.
- Session persistence. `context.session` is assumed present, and `set` and `destroy` are assumed never to throw.
- Exceptions in the middleware's main block other than a failed session load. The failed load is the only thrower modelled; it reaches the catch block.
- Thrown values in the action handlers that are not an `Error`. The identity service only ever throws an AuthError.
- Zod's own email and URL checks. They are input flags of the schema predicates.
- JsStrings.JsNumber: models `Number()` only for a blank string and for unsigned decimal digit runs, with surrounding whitespace allowed. Signed, hexadecimal, exponent and fractional numerals read as NaN in the model. The time fields the helpers read are digit runs.
- Record lookups with object-prototype keys such as `constructor` or `__proto__`. Lookups see only the table's own keys.
- `AuthHelpers.GroupPermissionsByCategory`: the key order is insertion order. JavaScript would list integer-like category keys first.
- `UserUtils.GroupPermissionsByCategory`: the same key-order simplification.
- Console logging everywhere.
- The notification service's document handling: the toaster element, event listeners, retry timers, the `CustomEvent` dispatch, the `initialized` flag and the singleton `instance`. `show` outside a browser, where it only logs, is not modelled either.
- The notification options `category`, `showCancel`, `actionLabel` and `actionHandler`: the builders never read them and never set the action button.
- An action error message that is not a string.
- Floating point: the rating sort, the rating, experience and price averages, `Math.round`, and the utilization percentage of the week statistics.
- `getWeekNumber` and `isCurrentWeek`: the first uses `Date.UTC` millisecond arithmetic and the second reads the clock.
- The day names of the week view: they come from `toLocaleDateString`.
- Dates and times of day: days are integer day numbers, and the `createdAt`/`updatedAt` timestamps are not kept.
- Case mapping beyond ASCII and Latin-1 letters, and Unicode normalisation.
- Object identity in conflict groups. Groups hold positions in the schedule list, which tell apart entries with equal contents as identity does.
- Doctor contact details, avatars, ratings, qualifications and languages.
- The sidebar's icons, header and profile constants, and the `children` and `active` item fields: nothing in the filters reads them.
- `getDisplayName` and `getUserInitials` of the identity service: they are the same code as the user utilities' `getFullName` and `getInitials` and are modelled once, in `UserUtils`.
- The seed queries read the lists they are given, instead of module constants. The application passes the seeds, and `ScheduleData.SeedsResolve` shows that the seed join is defined.
- `ScheduleData.Attach`: requires that the doctor and the location are found. This is what the TypeScript non-null assertions take for granted.
