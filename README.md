# SAML login endpoint of Moodle's `auth_saml` plugin

This project models `index.php`, the script a browser reaches after the
SimpleSAMLphp identity provider has authenticated it. It covers the following steps:

- the logout branch and its return target;
- the hand-off to the identity provider when there is no valid SAML session;
- the username extraction (`trim(strtolower(first value))` of a configurable attribute);
- the provisioning gate (`disablejit`, the optional `saml_hook_user_exists`);
- the course-attribute check;
- the authorization gate (course activity, then the optional `saml_hook_authorize_user`, which can only veto);
- the login;
- the system-role sync. Every assignable role gets exactly one `role_assign` or `role_unassign`, tagged with component `auth_saml`;
- the redirect target, with its guard against redirecting back to the endpoint;
- the final error check, where `dontdisplaytouser` sends the `course_enrollment` errors to the log instead of the page.

The files:

- `saml_types.dfy`: the values involved. These are the settings, the request, the results of the collaborators, the error map, the outcome and the calls made. An error-map key is `login`, `course_enrollment`, or another category whose name is neither of those two.
- `php_strings.dfy`: the PHP string primitives the script relies on: `trim` (default character set), ASCII `strtolower`, `strpos(...) !== false`, `str_replace` with an empty replacement, and `empty()` of a string.
- `identity.dfy`: the username and the provisioning gate.
- `authorization.dfy`: the authorization verdict.
- `role_sync.dfy`: the role-claim mapping, the planned `role_assign`/`role_unassign` calls, and their effect on the role-assignment table. The table is a `RoleStore` object updated in place. The nested loops are methods proved against the functions.
- `redirects.dfy`: the logout target, the post-login target and the self-redirect guard.
- `error_report.dfy`: the final error check.
- `login.dfy`: the whole request.
  - `Pipeline` is the specification, built from stage functions (`ValidSession`, `ProvisionAndCourses`, `AuthorizeAndComplete`, `CompleteLogin`). It gives a `Run` holding four parts:
    - how the request ended (`Halt` with the error shown, `Redirect`, `SingleLogout` or `RequireAuth`);
    - the lookups and hook calls listed in `Step`, in order;
    - the role operations issued;
    - the messages logged.
  - `HandleLogin` and its stage methods are the script itself, step by step, with early returns where `auth_saml_error` stops the script. They are proved to produce what `Pipeline` says and to leave the role store as those operations leave it.

Collaborators outside the script are inputs (the `Environment` record):

- the directory lookup and `authenticate_user_login`;
- the hooks;
- the course-mapping include;
- `get_saml_assignable_role_names`;
- `get_complete_user_data`;
- the session's `wantsurl`;
- any exception `requireAuth` throws.

Behaviours of the code worth knowing, which the model follows:

- An empty value list for the username attribute gives the username "" (PHP reads `null` at `[0]`). The code does not require the username to be non-empty.
- A hook answer of `true` cannot overturn a denial from the course check: it only leaves the verdict as it was.
- `role_assign` is called for every wanted role on every login, whether or not the row is already there. The store's insert semantics make that harmless.
- A configured course attribute that is absent from the assertion halts with `auth_saml_courses_not_found` before any authorization.
- A session `wantsurl` that is set and not `empty()` overrides the request `wantsurl` after the login.
- The self-redirect guard replaces the target by `wwwroot` exactly, without the trailing slash.

## Model

| member | source | states |
|---|---|---|
| PhpStrings.LeadingTrimCount | index.php:177 | The count of leading characters `trim` removes: all of them are trim characters and the next one is not |
| PhpStrings.IsTrimChar | index.php:177 | The characters `trim` strips by default: space, tab, line feed, carriage return, NUL and vertical tab (a definition, used by the `Trim` contracts) |
| PhpStrings.TrailingTrimCount | index.php:177 | The same for the trailing characters |
| PhpStrings.Trim | index.php:177 | The result is a contiguous slice of the input with no trim character at either end, and everything cut off on both sides is a trim character |
| PhpStrings.TrimOfTrimmed | index.php:177 | Trimming a trimmed string changes nothing |
| PhpStrings.ToLower | index.php:177 | Same length; every ASCII upper-case letter is shifted to lower case and every other character is kept; no upper-case letter remains |
| PhpStrings.ToLowerOfLower | index.php:177 | A string without upper-case letters is its own lower-case form |
| PhpStrings.RemoveAll | index.php:66 | `str_replace(path, '', s)`: never longer than the input, and the identity when the path does not occur |
| PhpStrings.RemoveAllLeading | index.php:66 | An occurrence at the front is dropped and the scan resumes after it |
| PhpStrings.RemoveAllKeepsPrefix | index.php:66 | A prefix in which no occurrence starts is kept verbatim |
| PhpStrings.Contains | index.php:301 | `strpos($urltogo, path) !== false`: the path occurs at the front or further along |
| PhpStrings.ContainsAt | index.php:301 | `Contains` holds exactly when the needle starts at some offset of the haystack |
| PhpStrings.IsEmptyString | index.php:297 | `empty()` of a string: true exactly for "" and "0" |
| Identity.UsernameField | index.php:166-170 | The attribute name is the `username` setting when it is set and non-empty, else `eduPersonPrincipalName`; it is never empty |
| Identity.FirstValue | index.php:176 | The first value of the attribute, or "" when it has none |
| Identity.NormaliseUsername | index.php:177 | The username has no upper-case letter, no leading or trailing trim character, and is no longer than the raw value |
| Identity.NormaliseUsernameIdempotent | index.php:176-177 | Normalising an already normalised username changes nothing |
| Identity.UserExists | index.php:180-184 | The user counts as present only if the directory found them; the exists hook, when defined, can only disown a found user |
| Identity.ExistsHookCalled | index.php:183 | The `&&` short-circuit: the exists hook is called only when it is defined and the lookup found the user; it is never called for a user the lookup did not find |
| Identity.JitRefused | index.php:186 | The gate condition: the user is not present and `disablejit` is set (its cases are stated by `ProvisioningGate`) |
| Identity.ProvisioningGate | index.php:180-190 | The JIT gate refuses a user exactly when `disablejit` is set and the directory did not find them or the exists hook disowned them |
| Authorization.CourseVerdict | index.php:212-219 | Denied exactly when the user is unknown and the course mapping ran and found no active course, with reason `auth_saml_not_authorize` for the username |
| Authorization.ApplyAuthorizeHook | index.php:221-227 | The hook can only turn a verdict into a denial: anything but `true` denies with the hook's answer as reason, `true` or no hook leaves the verdict unchanged |
| Authorization.AuthorizationVerdict | index.php:212-229 | The user is authorized exactly when the course check does not deny and the hook, if defined, answers `true`; a refusing hook's answer is the reason, otherwise `auth_saml_not_authorize` for the username |
| Authorization.HookOnlyVetoes | index.php:212-227 | An unknown user with no active course is refused whatever the hook answers; an approving hook leaves the course verdict; a refusing hook always denies with its reason |
| Authorization.AuthorizedWithoutVeto | index.php:212-227 | Without a course denial and without a hook veto the user is authorized |
| RoleSync.MatchesOf | index.php:254-258 | The shortnames the inner loop appends for one claim are exactly those of the table rows listing that claim |
| RoleSync.Wanted | index.php:252-259 | The independent definition of a wanted shortname: some claim value is listed by some table row with that shortname (a definition; `SystemRolesFor` is proved against it) |
| RoleSync.SystemRolesFor | index.php:252-259 | `$usersystemroles` contains a shortname iff some claim is listed by some table row with that shortname |
| RoleSync.CollectSystemRoles | index.php:252-259 | The nested loops build exactly `SystemRolesFor`, so the result holds exactly the wanted shortnames |
| RoleSync.RoleOpFor | index.php:265-280 | One call per role, on the `auth_saml` row of that role, user and system context: an assign iff the lower-cased shortname is wanted |
| RoleSync.PlannedOps | index.php:265-281 | One call per assignable role, in list order, each the call `RoleOpFor` gives |
| RoleSync.LastEffect | index.php:265-281 | No last effect on a row iff no call targets it; a last effect is that of some call targeting the row (assign gives true, unassign false) after which no call targets it |
| RoleSync.ApplyOp | index.php:270-276 | The set semantics assumed for one call: `role_assign` adds its row (line 270, no duplicate), `role_unassign` removes exactly that row (line 276); an explicit assumption about Moodle, whose code is not part of this model |
| RoleSync.ApplyOps | index.php:265-281 | The role-assignment table after the calls, made in order (its membership is stated by `ApplyOpsMembership`) |
| RoleSync.ApplyOpsMembership | index.php:268-280 | After the calls a row is present iff the last call touching it was an assign, or no call touched it and it was present before |
| RoleSync.ApplyOpsIdempotent | index.php:269 | Making the same calls twice leaves the table as making them once does |
| RoleSync.SyncIdempotent | index.php:265-281 | Running the role sync twice with the same inputs gives the table one run gives |
| RoleSync.SyncLeavesOtherRows | index.php:275-276 | Rows made by another component, or for another user or context, are neither added nor removed |
| RoleSync.SyncReflectsWanted | index.php:265-281 | With distinct role ids, the plugin's row for each assignable role is present afterwards exactly when its lower-cased shortname is wanted |
| RoleSync.LastEffectIsOnlyTouch | index.php:265-281 | When a single call touches a row, that call decides whether the row is present |
| RoleSync.SecondRunChangesNothing | index.php:269 | With distinct role ids, every call of a repeated sync leaves the table as the first sync left it |
| RoleSync.StaffClaimExample | index.php:247-281 | A "staff" claim with table {editingteacher: [staff], student: [learner]} and a prior student row: assign(editingteacher) then unassign(student), leaving only the editingteacher row |
| RoleSync.StaffClaimWanted | index.php:252-259 | In that example only editingteacher is wanted |
| RoleSync.StaffClaimOps | index.php:265-281 | In that example the calls are assign(editingteacher) then unassign(student) |
| RoleSync.RoleStore.constructor | index.php:265-281 | The role-assignment table the `role_assign`/`role_unassign` calls at lines 270 and 276 act on, holding the rows it had before the sync |
| RoleSync.RoleStore.RoleAssign | index.php:270 | `role_assign` adds its row and never duplicates it |
| RoleSync.RoleStore.RoleUnassign | index.php:276 | `role_unassign` removes exactly the row tagged with the component, if present |
| RoleSync.SyncSystemRoles | index.php:261-281 | The loop makes exactly the planned calls, and the table ends as those calls leave it |
| Redirects.LogoutTarget | index.php:63-71 | SCRIPT_URI with every occurrence of `auth/saml/index.php` removed, else HTTP_REFERER, else "/" |
| Redirects.LogoutTargetStripsEndpoint | index.php:64-66 | `<base>auth/saml/index.php<rest>` logs out to `<base>` followed by rest with its occurrences removed |
| Redirects.LoginPage | index.php:174 | `$CFG->wwwroot.'/auth/saml/login.php'`, the link every `auth_saml_error` before the login offers (also lines 189, 196, 231, 238 and 288) |
| Redirects.SiteRootTarget | index.php:122-125 | wwwroot extended to end in '/', by at most one character |
| Redirects.SiteRootTargetKeepsSlash | index.php:123 | A wwwroot already ending in '/' is kept as is |
| Redirects.RequestTarget | index.php:127-130 | A request `wantsurl`, even an empty one, replaces the site root |
| Redirects.SessionTargetApplies | index.php:297 | The session `wantsurl` is used only when it is set and not `empty()`, so neither "" nor "0" |
| Redirects.FinalTarget | index.php:297-303 | The candidate is the usable session `wantsurl`, else the earlier target; the result is the candidate when it does not contain the endpoint path, and wwwroot otherwise |
| Redirects.RedirectPrecedence | index.php:122-130 | A usable session `wantsurl` beats the request `wantsurl`, which beats the site root (index.php:297-303 for the guard) |
| Redirects.NoSelfRedirect | index.php:301-303 | When wwwroot does not contain the endpoint path, the final target never does |
| ErrorReport.Messages | index.php:312-314 | A single message is treated as a one-element list |
| ErrorReport.DivertedMessages | index.php:315-317 | The messages the foreach logs: the `course_enrollment` entry's messages, in order, when `dontdisplaytouser` is set; nothing when the flag is off or the key absent |
| ErrorReport.ShownErrors | index.php:310-320 | Every category except `course_enrollment` keeps its messages; `course_enrollment` is dropped exactly when `dontdisplaytouser` is set |
| ErrorReport.SuppressCourseEnrollment | index.php:310-320 | Logs each `course_enrollment` message once, in order, and removes that key; every other key is unchanged |
| ErrorReport.ReportErrors | index.php:309-325 | Halts showing the remaining errors with the target iff any remain, else redirects to the target; the logged messages are the diverted ones |
| ErrorReport.WithoutFlagAllReported | index.php:309-325 | Without the flag every error is shown and nothing is logged |
| ErrorReport.WithFlagDivertsCourseEnrollment | index.php:310-325 | With the flag, `course_enrollment` messages are logged and never shown, and a map holding only them lets the redirect happen |
| ErrorReport.SuppressionExample | index.php:309-325 | {course_enrollment: [e1, e2], login: [e3]} with the flag shows only login [e3] and logs e1, e2 |
| Login.CourseClaimsOf | index.php:192-199 | With course support on and the course attribute configured: missing when the assertion lacks it, else exactly its values; otherwise the empty claim list |
| Login.RoleSyncOps | index.php:245-282 | No role calls unless the `role` setting is set and its attribute present; then one call per assignable role |
| Login.CourseMappingRuns | index.php:202 | The course mapping runs only for a non-empty claim list with course support on |
| Login.RoleSyncRuns | index.php:247 | The role sync runs only when the `role` setting is set and the assertion carries that attribute |
| Login.UsernameOf | index.php:176-177 | The username the rest of the script uses: `trim(strtolower(...))` of the first value, so it has no upper-case letter and no leading or trailing trim character |
| Login.InitialSteps | index.php:180-184 | The directory lookup of the username first, then the exists-hook call exactly when the lookup found the user and the hook is defined |
| Login.CourseErrors | index.php:202-210 | `$err` after the course-mapping include: the mapping's error map when the mapping runs, else empty; `CompletedLoginRedirects` is stated over it |
| Login.Pipeline | index.php:63-326 | The whole request: logout, no-session hand-off, then the valid-session stages; its properties are the `Login` lemmas below |
| Login.ValidSession | index.php:166-199 | Username extraction, the lookup and the exists hook, then the gates; a missing username attribute halts with no call made |
| Login.ProvisionAndCourses | index.php:186-199 | The JIT gate, then the course-attribute check, then authorization with the course claims |
| Login.AuthorizeAndComplete | index.php:201-243 | Course mapping, authorization verdict, denial halt, `authenticate_user_login`, then the completion |
| Login.CompleteLogin | index.php:245-325 | Role sync, the complete user record, the redirect target and the final error check |
| Login.HandleLogin | index.php:63-146 | The script's result (outcome, calls, role operations, log) is `Pipeline`'s, and the role store ends as those operations leave it |
| Login.HandleValidSession | index.php:166-184 | The same, for the valid-session branch |
| Login.HandleGates | index.php:186-199 | The same, from the provisioning gate on |
| Login.HandleAuthorization | index.php:201-239 | The same, from the course mapping on |
| Login.HandleCompletion | index.php:245-325 | The same, from the role sync on |
| Login.UsernameMissingHaltsBeforeLookup | index.php:172-175 | A missing username attribute halts with `auth_saml_username_not_found` for the attribute name, before any lookup, hook or role change |
| Login.UsernameLookedUpNormalised | index.php:176-180 | Otherwise the first call is the directory lookup of the normalised first value |
| Login.JitDisabledHalts | index.php:186-190 | An unknown user under `disablejit` halts with the `auth_saml_jit_not_active` paragraph; no mapping, authorize hook, login or role change follows |
| Login.ExistingUserReachesLogin | index.php:180-235 | A present user whose course attribute is present when required, and whom no hook refuses, reaches `authenticate_user_login` |
| Login.DenialHalts | index.php:212-232 | Every denial halts, showing the reason as a paragraph in the `login` entry of the error map, before the login and before any role change |
| Login.NoActiveCourseRefused | index.php:215-232 | An unknown user for whom the mapping found no active course is refused and never logged in, whatever the authorize hook answers |
| Login.RoleSyncSkipped | index.php:247 | Without the `role` setting or its attribute, no role call is made |
| Login.RoleSyncOnlyAfterLogin | index.php:235-282 | Role calls are made exactly when `authenticate_user_login` returned a user, and they are the planned ones for that user |
| Login.RoleSyncIssued | index.php:247-281 | With the role attribute present, a successful login makes exactly the planned role calls |
| Login.CompletedLoginRedirects | index.php:297-325 | A completed login halts exactly when errors remain after the `course_enrollment` suppression of the mapping's and later errors, showing those errors with the resolved target; otherwise it redirects to that target; the diverted messages are logged; the URL never points at the endpoint unless wwwroot does |
| Login.PipelineReachesGates | index.php:136-180 | A request with a valid session and a username attribute reaches the provisioning gate, after the lookup and the exists hook when consulted |
| Login.PipelineReachesAuthorization | index.php:186-212 | One the provisioning gate lets through and whose course claims are present reaches the course mapping and the authorization gate |
| Login.CompleteLoginStage | index.php:245-325 | After the login: one more call, the role sync's calls, and, when the user record is complete, the final error check over the errors so far and the later ones at the resolved target |
| Login.AuthorizeStage | index.php:201-243 | From the course mapping on: calls are appended, role calls only after a successful login, and a completed login ends with the final error check over the mapping's errors |
| Login.ProvisionStage | index.php:186-199 | The same from the provisioning gate on |
| Login.ValidSessionStages | index.php:166-199 | The same from the username on, with the lookup of the normalised username first |
| Login.LogoutOutcome | index.php:63-80 | Logout goes to the logout target, through the identity provider when single logout is on, and touches nothing else |
| Login.UnknownUserWithActiveCourseLogsIn | index.php:192-235 | An unknown user under JIT with one active claimed course runs the mapping and reaches `authenticate_user_login` |
| Login.CourseAttributeMissingHalts | index.php:192-197 | A missing course attribute halts with `auth_saml_courses_not_found` before the mapping and the authorization gate |

## Left out

- Configuration bootstrap and the SimpleSAMLphp library loading (lines 1-61) are not modelled: file reading, JSON decoding and the autoloader are I/O.
- The first `requireAuth` call (lines 82-87) and its exception handler (lines 88-108) are not modelled: they belong to the identity-provider library. The session flag and the attributes are inputs, and a failing `requireAuth` is modelled only in the no-session branch (lines 136-145).
- `saml_hook_attribute_filter` (lines 154-156) may rewrite the attributes. The model takes the attributes after that hook as its input.
- The session settings at lines 159 and 164, `complete_user_login`, the `$USER` fields (lines 291, 305-306), `set_moodle_cookie` and `saml_hook_post_user_created` are not modelled: they have no bearing on the outcome modelled here.
- The course-mapping include (line 204) is an input: whether any course is active, and the error map it leaves.
- `auth_saml_error` is modelled as the end of the request with its report and link. The page it renders and the error log it writes are not modelled.
- `logextrainfo` info logging (lines 241-243, 271-273, 277-279) is not modelled. Only the error-log writes of the final error check are.
- `in_array` (lines 255 and 266) is modelled as exact string comparison, not PHP's loose comparison, and `strtolower` as ASCII-only lower-casing, without locale.
- The calls `get_role_mapping_for_sync` (line 250), `get_saml_assignable_role_names` (line 261) and `context_system::instance()` (line 264) are not recorded as steps: their results are inputs. The role calls are recorded apart from the steps, so the model does not state their position between `authenticate_user_login` and `get_complete_user_data` in one sequence; `Login.RoleSyncOnlyAfterLogin` states only that they are made after a successful login.
- PHP warnings and notices (an undefined offset at `[0]`, the offset `$CFG->wwwroot[-1]` of an empty wwwroot) are not modelled beyond the values they produce.
- `Login.UsernameLookedUpNormalised`: states the lookup of `NormaliseUsername(FirstValue(values))` rather than spelling out trim and strtolower, whose properties are stated on `PhpStrings.Trim` and `PhpStrings.ToLower`.
