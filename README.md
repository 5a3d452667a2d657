# Society management front end: access guards, redirect policy and create flows

This project models the decision logic of a multi-tenant society management
web application. Super admins create societies and their society admins.
Society admins and admins add admins and tenants to their own society.
Tenants see their society's information. Authentication and storage belong to
a hosted service; this model treats every call to it as an outcome supplied
from outside.

The model has these parts:

- `Types` (types.dfy): users, societies, roles and statuses. It also holds
  the outcome of a page request (`Page<T>`: `Allowed(value)`,
  `Redirect(path)`, `Error(message)`). A call to the hosted service resolves
  with a value, resolves with an error, or throws (`Step<T>`). Committed
  writes are kept in a log (`Write`).
- `Store` (store.dfy): the two query shapes used. `.eq(...)` and
  `Array.filter` become `Where`. `.single()` becomes `Single`, which yields a
  row only when exactly one row matched.
- `Auth` (auth.dfy): the session resolver `getUser`, the guards
  `requireAuth`, `requireRole`, `requireSuperAdmin`, `requireSocietyAdmin`
  and `requireAdminOrAbove`, and the redirect policy `getRedirectPath`.
  Each of them is a pure function. A guard's `redirect` becomes a returned
  `Redirect(path)`.
- `ChangePassword` (change_password.dfy): the first-login password change
  page. It is a class holding the component state. `Mount` is the mount
  effect and `HandleChangePassword` is the submit handler. Both are proved
  against the pure functions `MountEntry` and `SubmitOutcome`, and the
  properties are proved about those functions.
- `TenantPage` and `SuperAdminPage` (tenant_page.dfy, super_admin_page.dfy):
  how the two server pages compose the guards with their queries.
- `SocietyDashboard` and `SuperAdminDashboard` (society_dashboard.dfy,
  super_admin_dashboard.dfy): the badge lookup tables and the stat-card
  counts. Each also holds its create flow as a class whose handler is proved
  against a pure flow function (`CreateMemberFlow`, `CreateSocietyFlow`).
  That function lists the writes committed, in order, and says how the flow
  ended.
- `TenantDashboard` (tenant_dashboard.dfy): the status badge, the
  description line, and the contact-address slug
  `toLowerCase().replace(/\s+/g, '')`. The slug is modelled as the regex
  reads: each maximal whitespace run is replaced. It is then proved equal to
  removing every whitespace character.

Modelling choices:

- A role is the datatype `Role`, with an `Other(name)` case so that every
  switch's default branch stays reachable. Stored rows use the subset type
  `UserRole`. In it an `Other` name is never one of the four known role
  strings. So equality of roles is equality of their strings, which is what
  the source compares. Society statuses work the same way.
- `.single()` on the users and societies tables yields a row only when
  exactly one row matches. Lemmas show that with unique ids (a primary key),
  an existing row is found.
- An insert that is followed by `.select().single()` returns the inserted
  record plus the columns the store generates. For a user that is the id,
  and the first login starts as not completed. For a society it is the id and
  the default status.
- A failed step commits nothing. A thrown step is caught and shows
  "An unexpected error occurred"; it is assumed to commit nothing.
- `/society/${society_id}` with a null society id reads `/society/null`, as
  a JavaScript template literal does. The tenant page's `.eq('id', null)`
  matches no society.

## Model

| member | source | states |
|---|---|---|
| `Types.ParseRole` | src/types/database.ts:35 | reading a role string and printing it back gives the same string |
| `Types.ParseStatus` | src/types/database.ts:10 | reading a status string and printing it back gives the same string |
| `Store.Where` | src/components/SocietyDashboard.tsx:163 | the filter keeps exactly the rows that satisfy the predicate, each as many times as it occurs, and never grows the list |
| `Store.Single` | src/lib/auth.ts:14-18 | `.single()` yields a row exactly when one row matched, and then yields that row |
| `Store.WhereUnique` | src/lib/auth.ts:14-18 | a filter that at most one row can satisfy returns exactly that row |
| `Store.DisjointWhereBound` | src/components/SocietyDashboard.tsx:153-174 | two filters that no row satisfies together select at most all rows between them |
| `Auth.GetUser` | src/lib/auth.ts:5-21 | no identity gives null; a resolved user is a row of the table with the identity's id; no row with that id gives null |
| `Auth.GetUserFindsRow` | src/lib/auth.ts:14-20 | with unique ids, an identity whose row exists resolves to exactly that row |
| `Auth.RequireAuth` | src/lib/auth.ts:23-31 | passes the user through unchanged exactly when resolved, otherwise redirects to `/login`; never yields null |
| `Auth.RequireRole` | src/lib/auth.ts:33-41 | passes the user unchanged iff authenticated with exactly the required role; unauthenticated goes to `/login`, a wrong role to `/unauthorized` |
| `Auth.RequireSuperAdmin` | src/lib/auth.ts:43-45 | is `requireRole('super_admin')`: passes iff the role is super_admin |
| `Auth.RequireSocietyAdmin` | src/lib/auth.ts:47-49 | is `requireRole('society_admin')`: passes iff the role is society_admin |
| `Auth.RequireAdminOrAbove` | src/lib/auth.ts:51-59 | passes iff the role is super_admin, society_admin or admin; unauthenticated goes to `/login`; every other role (tenant or unknown) goes to `/unauthorized`; never an error |
| `Auth.RedirectPath` | src/lib/auth.ts:61-77 | the path is `/change-password` iff the first login is not completed, whatever the role; a completed user lands on `/super-admin`, `/tenant`, `/unauthorized` or a path under `/society/` |
| `Auth.CompletedUserDestination` | src/lib/auth.ts:66-76 | for completed users: super_admin gives `/super-admin`, society_admin and admin give `/society/` + society id, tenant gives `/tenant`, any other role `/unauthorized` |
| `Auth.RedirectPathDependsOnlyOnRole` | src/lib/auth.ts:66-76 | for completed users the path depends only on the role, plus the society id for the two administrative roles |
| `Auth.RedirectTargetAdmits` | src/lib/auth.ts:43-76 | each completed user with a known role is sent to a route whose guard admits them; an unknown role goes to `/unauthorized`, which no role guard admits |
| `ChangePassword.DashboardPath` | src/app/change-password/page.tsx:38-51 | the page's role switch never leads back to `/change-password`; it gives `/unauthorized` iff the role is unknown, and a path under `/society/` iff the role is society_admin or admin |
| `ChangePassword.DashboardPathAgreesWithRedirect` | src/app/change-password/page.tsx:106-119 | the page's hand-written role switch equals `getRedirectPath` of the same user with the first login completed |
| `ChangePassword.MountEntry` | src/app/change-password/page.tsx:22-59 | no identity goes to `/login`; a completed user goes to `getRedirectPath` of that user; an uncompleted row shows the form; no row shows no form |
| `ChangePassword.MountShowsFormIffRedirectHere` | src/app/change-password/page.tsx:36-55 | the form is shown to a resolved user exactly when the redirect policy sends that user to `/change-password` |
| `ChangePassword.Validate` | src/app/change-password/page.tsx:66-76 | input is accepted iff both fields are equal and at least 6 long; a mismatch is reported first, even for short input |
| `ChangePassword.ValidationExamples` | src/app/change-password/page.tsx:66-76 | four sample inputs: ("abc12","abc12") is too short, ("abcdef","abcdex") and ("abc","abd") mismatch, ("abcdef","abcdef") is accepted |
| `ChangePassword.SubmitOutcome` | src/app/change-password/page.tsx:61-125 | a validation failure writes nothing and does not navigate; navigation happens iff both provider steps succeed for a held user, and its target is `getRedirectPath` of that user completed; a failed credential update shows its message and writes nothing; a thrown credential update shows "An unexpected error occurred" and writes nothing; once the credential is updated it is the first write; with no held user the page shows "User not found" and keeps the credential change; a failed flag update shows "Failed to update user status" and a thrown one "An unexpected error occurred", both keeping the credential change; the flag is only written after the credential |
| `ChangePassword.ChangePasswordPage.constructor` | src/app/change-password/page.tsx:14-18 | empty fields, not loading, no error, no user, nothing pushed or written |
| `ChangePassword.ChangePasswordPage.Mount` | src/app/change-password/page.tsx:22-59 | applies `MountEntry`: pushes the path without taking the user, or takes the row (or null) without pushing; from a page holding no user, the form is shown exactly when `MountEntry` shows it |
| `ChangePassword.ChangePasswordPage.SetNewPassword` | src/app/change-password/page.tsx:155 | the new-password field takes the typed value |
| `ChangePassword.ChangePasswordPage.SetConfirmPassword` | src/app/change-password/page.tsx:167 | the confirm field takes the typed value |
| `ChangePassword.ChangePasswordPage.HandleChangePassword` | src/app/change-password/page.tsx:61-125 | sets the error, appends the committed writes and pushes as `SubmitOutcome` says; loading is false after every outcome; fields and user unchanged |
| `TenantPage.FindSociety` | src/app/tenant/page.tsx:14-19 | a found society is a row of the table whose id is the user's society id; a null society id finds nothing |
| `TenantPage.Load` | src/app/tenant/page.tsx:5-29 | unauthenticated goes to `/login`; a non-tenant gets the error "Unauthorized access" (never `/unauthorized`); a missing society gets "Society not found"; renders iff tenant and society found, with the user unchanged and that user's society |
| `TenantPage.TenantSeesOwnSociety` | src/app/tenant/page.tsx:14-28 | with unique society ids, a tenant whose society exists is rendered with exactly that society |
| `SuperAdminPage.Load` | src/app/super-admin/page.tsx:5-19 | unauthenticated goes to `/login`, any other role to `/unauthorized`; the rendered user is a super_admin; a null query result becomes the empty list, a non-null one is passed unchanged |
| `SuperAdminPage.GuardBeforeQuery` | src/app/super-admin/page.tsx:6-14 | a denied request ends in the same redirect whatever the societies query would return |
| `SuperAdminPage.TenantIsUnauthorized` | src/app/super-admin/page.tsx:6 | a completed tenant asking for this route is sent to `/unauthorized`, though their own destination is `/tenant` |
| `SocietyDashboard.RoleColor` | src/components/SocietyDashboard.tsx:89-100 | purple, blue, green for society_admin, admin, tenant; gray iff the role is none of those three |
| `SocietyDashboard.RoleLabel` | src/components/SocietyDashboard.tsx:102-113 | fixed labels for the three roles; any other role is shown as its own string |
| `SocietyDashboard.RoleLabelsDistinct` | src/components/SocietyDashboard.tsx:102-113 | the three fixed labels are pairwise different and none is a raw role string |
| `SocietyDashboard.AdminCount` | src/components/SocietyDashboard.tsx:163 | the "Admins" card is at most the member count, and zero iff no member is an admin |
| `SocietyDashboard.TenantCount` | src/components/SocietyDashboard.tsx:174 | the "Tenants" card is at most the member count, and zero iff no member is a tenant |
| `SocietyDashboard.AdminsAndTenantsWithinTotal` | src/components/SocietyDashboard.tsx:153-174 | admin count plus tenant count is at most the member count |
| `SocietyDashboard.PrependedMemberCounted` | src/components/SocietyDashboard.tsx:77 | prepending a member raises exactly its own role's count, by one |
| `SocietyDashboard.MemberRole.ToRole` | src/components/SocietyDashboard.tsx:34 | the form's role is admin or tenant |
| `SocietyDashboard.CreateMemberFlow` | src/components/SocietyDashboard.tsx:37-87 | success iff both steps succeed; a failed insert writes nothing; a failed identity creation keeps the inserted row (no rollback); on success the new member has the store's generated id, the form's name, email and role (admin or tenant), this society, this creator and an uncompleted first login |
| `SocietyDashboard.MemberInsertsScoped` | src/components/SocietyDashboard.tsx:44-52 | every user row written has this society's id, this creator's id and role admin or tenant |
| `SocietyDashboard.Dashboard.constructor` | src/components/SocietyDashboard.tsx:23-35 | the list is the initial list; dialog closed, not loading, no error, empty form with role tenant |
| `SocietyDashboard.Dashboard.SetShowCreateForm` | src/components/SocietyDashboard.tsx:194 | opens or closes the dialog |
| `SocietyDashboard.Dashboard.EditForm` | src/components/SocietyDashboard.tsx:267-285 | the form takes the edited fields |
| `SocietyDashboard.Dashboard.HandleCreateUser` | src/components/SocietyDashboard.tsx:37-87 | appends the flow's writes; on success prepends the member, closes the dialog, resets the form and clears the error; otherwise keeps list, dialog and form and shows the step's message; loading is false after every outcome |
| `SuperAdminDashboard.StatusColor` | src/components/SuperAdminDashboard.tsx:103-114 | green iff active, red iff suspended, gray for inactive and every other status |
| `SuperAdminDashboard.ActiveCount` | src/components/SuperAdminDashboard.tsx:164 | the "Active Societies" card is at most the society count, and zero iff no society is active |
| `SuperAdminDashboard.SuspendedCount` | src/components/SuperAdminDashboard.tsx:175 | the "Suspended Societies" card is at most the society count, and zero iff no society is suspended |
| `SuperAdminDashboard.ActiveAndSuspendedWithinTotal` | src/components/SuperAdminDashboard.tsx:154-175 | active count plus suspended count is at most the society count |
| `SuperAdminDashboard.CreateSocietyFlow` | src/components/SuperAdminDashboard.tsx:37-101 | success iff all three steps succeed; the society row is written first with this creator; the admin row second with role society_admin and the new society's id; each failure stops further steps and keeps earlier rows; on success the society added is the store's id, the form's name and description, this creator and the store's default status |
| `SuperAdminDashboard.AdminRowFollowsItsSociety` | src/components/SuperAdminDashboard.tsx:44-68 | any admin row written is the second write, points at the society the first write created and has the same creator |
| `SuperAdminDashboard.LakeviewAuthFailureKeepsRows` | src/components/SuperAdminDashboard.tsx:75-88 | creating "Lakeview" with admin Alice when identity creation fails leaves the society row and the admin row written, with the provider's message |
| `SuperAdminDashboard.Dashboard.constructor` | src/components/SuperAdminDashboard.tsx:22-35 | the list is the initial list; dialog closed, not loading, no error, all four form fields empty |
| `SuperAdminDashboard.Dashboard.SetShowCreateForm` | src/components/SuperAdminDashboard.tsx:184 | opens or closes the dialog |
| `SuperAdminDashboard.Dashboard.EditForm` | src/components/SuperAdminDashboard.tsx:251-278 | the form takes the edited fields |
| `SuperAdminDashboard.Dashboard.HandleCreateSociety` | src/components/SuperAdminDashboard.tsx:37-101 | appends the flow's writes; on success prepends the society, closes the dialog, resets all four fields and clears the error; otherwise keeps list, dialog and form and shows the step's message; loading is false after every outcome |
| `TenantDashboard.StatusBadge` | src/components/TenantDashboard.tsx:73 | green iff the status is active; red for inactive, suspended and any other status |
| `TenantDashboard.ShowsDescription` | src/components/TenantDashboard.tsx:66-70 | the description line shows iff the description is non-null and non-empty |
| `TenantDashboard.ReplaceSpaceRuns` | src/components/TenantDashboard.tsx:238 | `replace(/\s+/g, x)`: every character of the result is a non-whitespace character of the input or one of `x`; input without whitespace comes back unchanged; a replacement of at most one character never lengthens the string |
| `TenantDashboard.Slug` | src/components/TenantDashboard.tsx:238 | the slug is no longer than the name and holds no whitespace and no upper-case letter |
| `TenantDashboard.ReplaceRunsErasesSpaces` | src/components/TenantDashboard.tsx:238 | replacing every whitespace run with nothing is removing every whitespace character |
| `TenantDashboard.SlugShape` | src/components/TenantDashboard.tsx:238 | the slug is the lower-cased name without whitespace, and holds no whitespace and no upper-case letter |
| `TenantDashboard.LowerThenRemoveCommute` | src/components/TenantDashboard.tsx:238 | lower-casing and removing whitespace can be done in either order |
| `TenantDashboard.SlugIdempotent` | src/components/TenantDashboard.tsx:238 | the slug of a slug is itself |
| `TenantDashboard.AdminContact` | src/components/TenantDashboard.tsx:238 | the society admin contact starts with `admin@`, ends with `.com` and holds no whitespace |
| `TenantDashboard.EmergencyContact` | src/components/TenantDashboard.tsx:243 | the emergency contact starts with `emergency@`, ends with `.com` and holds no whitespace |
| `TenantDashboard.ContactsShareDomain` | src/components/TenantDashboard.tsx:238-243 | the admin address is `admin@` + slug + `.com`, the emergency address `emergency@` + the same slug + `.com`, and neither holds whitespace |

## Left out

- Calls to the hosted auth and storage service (`createClient`, `auth.getUser`, `auth.updateUser`, `auth.admin.createUser`, `from().select/insert/update`) are not modelled as behaviour. Each is an outcome passed in as a parameter, or a table passed in as a list.
- Next.js `redirect` and `router.push` are not control-flow exceptions here. A guard returns `Redirect(path)` and a pushed path is appended to `pushed`.
- React rendering, hooks and JSX markup are not modelled. The same goes for the Tailwind class strings outside the badge tables and the icons.
- Async scheduling is not modelled. Each handler runs its steps one after another, with nothing concurrent.
- `created_at` and the `toLocaleDateString` formatting are not modelled (they depend on the locale). The query ordering by `created_at` is done by the store and is not modelled either.
- The fixed figures and sample text of the tenant dashboard are static content and are not modelled.
- `TenantDashboard.Slug`: lower-casing covers ASCII letters only; the rest of Unicode case mapping is not modelled.
- `ChangePassword.Validate`: the length is counted in Unicode scalar values, not in JavaScript's UTF-16 code units. A password with characters outside the Basic Multilingual Plane can therefore be counted shorter than JavaScript counts it.
- `SocietyDashboard.CreateMemberFlow`, `SuperAdminDashboard.CreateSocietyFlow`, `ChangePassword.SubmitOutcome`: a step that throws is assumed to have committed nothing, though a real provider call could throw after its write landed.
- `SocietyDashboard.CreateMemberFlow`: the row put into the list is the inserted record plus the store's generated id, with the first login not completed. The store's actual reply is not modelled.
- The new society's status is a store-side column default; it is an input here (`Generated.status`).
- `SocietyDashboard.StoredMember`: a new member's first-login flag is taken to be false, as the data model says it starts; the store's actual column default is not read.
- The society route `src/app/society/[id]/page.tsx`, `src/app/unauthorized/page.tsx`, `scripts/setup.js` and the type-only `src/types/database.ts` are not part of this model. The last one supplies only the role and status enumerations.
- `SocietyDashboard.Dashboard.HandleCreateUser`, `SuperAdminDashboard.Dashboard.HandleCreateSociety`: the submit button sits inside the dialog's action element, whose click also closes the dialog (as `SetShowCreateForm(false)` before the handler). That close is not modelled, so the handlers' "keeps the dialog" on failure describes the handler alone; in the running page a failure message lands in a closed dialog.
- Sign-out (`useAuth().signOut`) belongs to an auth context that is not part of this model.
