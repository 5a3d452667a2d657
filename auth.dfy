/** The session resolver, the access guards and the redirect policy of the
    server-side auth helper. A guard that calls `redirect` ends the request;
    here it returns `Redirect(path)` instead, and `Allowed(user)` when the
    request may go on. */
module Auth {
  import opened Types
  import Store

  const LoginPath: string := "/login"
  const UnauthorizedPath: string := "/unauthorized"
  const ChangePasswordPath: string := "/change-password"
  const SuperAdminPath: string := "/super-admin"
  const TenantPath: string := "/tenant"
  const SocietyPathPrefix: string := "/society/"

  /** A nullable string spliced into a template literal: null reads "null". */
  function TemplateText(s: Option<string>): string {
    match s
    case Some(v) => v
    case None => "null"
  }

  /** `/society/${society_id}`. */
  function SocietyPath(societyId: Option<string>): (p: string)
    ensures |p| >= |SocietyPathPrefix| && p[..|SocietyPathPrefix|] == SocietyPathPrefix
  {
    SocietyPathPrefix + TemplateText(societyId)
  }

  /** The `users` row filter `.eq('id', id)`. */
  function UserIdIs(id: string): User -> bool {
    (u: User) => u.id == id
  }

  /** The users table has `id` as its primary key. */
  ghost predicate IdsUnique(users: seq<User>) {
    forall i, j :: 0 <= i < j < |users| ==> users[i].id != users[j].id
  }

  /** `getUser`: nothing without an auth identity; otherwise the single row
      of `users` whose id is the identity's id, or nothing. */
  function GetUser(authId: Option<string>, users: seq<User>): (r: Option<User>)
    ensures authId.None? ==> r.None?
    ensures r.Some? ==> r.value in users && r.value.id == authId.value
    ensures authId.Some? && (forall u :: u in users ==> u.id != authId.value) ==> r.None?
  {
    match authId
    case None => None
    case Some(id) => Store.Single(Store.Where(users, UserIdIs(id)))
  }

  /** An identity whose row exists resolves to that row. */
  lemma GetUserFindsRow(users: seq<User>, u: User)
    requires IdsUnique(users)
    requires u in users
    ensures GetUser(Some(u.id), users) == Some(u)
  {
    assert Store.AtMostOne(users, UserIdIs(u.id));
    Store.WhereUnique(users, UserIdIs(u.id), u);
  }

  /** `requireAuth`: passes a resolved user through unchanged, otherwise sends the caller to the login page. */
  function RequireAuth(resolved: Option<User>): (r: Page<User>)
    ensures r.Allowed? <==> resolved.Some?
    ensures r.Allowed? ==> r.value == resolved.value
    ensures resolved.None? ==> r == Redirect(LoginPath)
  {
    match resolved
    case None => Redirect(LoginPath)
    case Some(u) => Allowed(u)
  }

  /** `requireRole`: authentication first, then an exact role match. */
  function RequireRole(resolved: Option<User>, role: UserRole): (r: Page<User>)
    ensures r.Allowed? <==> resolved.Some? && resolved.value.role == role
    ensures r.Allowed? ==> r.value == resolved.value
    ensures resolved.None? ==> r == Redirect(LoginPath)
    ensures resolved.Some? && resolved.value.role != role ==> r == Redirect(UnauthorizedPath)
  {
    match RequireAuth(resolved)
    case Allowed(u) => if u.role != role then Redirect(UnauthorizedPath) else Allowed(u)
    case Redirect(p) => Redirect(p)
    case Error(m) => Error(m)
  }

  /** `requireSuperAdmin`. */
  function RequireSuperAdmin(resolved: Option<User>): (r: Page<User>)
    ensures r == RequireRole(resolved, SuperAdmin)
    ensures r.Allowed? <==> resolved.Some? && resolved.value.role == SuperAdmin
    ensures r.Allowed? ==> r.value == resolved.value
  {
    RequireRole(resolved, SuperAdmin)
  }

  /** `requireSocietyAdmin`. */
  function RequireSocietyAdmin(resolved: Option<User>): (r: Page<User>)
    ensures r == RequireRole(resolved, SocietyAdmin)
    ensures r.Allowed? <==> resolved.Some? && resolved.value.role == SocietyAdmin
    ensures r.Allowed? ==> r.value == resolved.value
  {
    RequireRole(resolved, SocietyAdmin)
  }

  predicate IsAdminOrAbove(role: UserRole) {
    role in {SuperAdmin, SocietyAdmin, Admin}
  }

  /** `requireAdminOrAbove`: authentication first, then one of the three administrative roles. */
  function RequireAdminOrAbove(resolved: Option<User>): (r: Page<User>)
    ensures r.Allowed? <==> resolved.Some? && resolved.value.role in {SuperAdmin, SocietyAdmin, Admin}
    ensures r.Allowed? ==> r.value == resolved.value
    ensures resolved.None? ==> r == Redirect(LoginPath)
    ensures resolved.Some? && !IsAdminOrAbove(resolved.value.role) ==> r == Redirect(UnauthorizedPath)
    ensures !r.Error?
  {
    match RequireAuth(resolved)
    case Allowed(u) => if !IsAdminOrAbove(u.role) then Redirect(UnauthorizedPath) else Allowed(u)
    case Redirect(p) => Redirect(p)
    case Error(m) => Error(m)
  }

  /** A path under `/society/`. */
  predicate IsSocietyPath(p: string) {
    |p| >= |SocietyPathPrefix| && p[..|SocietyPathPrefix|] == SocietyPathPrefix
  }

  /** `getRedirectPath`: the one path a user must land on. The password change
      overrides every role, and only it leads to the password form; a user
      whose first login is completed lands on a dashboard or on
      `/unauthorized`. */
  function RedirectPath(u: User): (p: string)
    ensures p == ChangePasswordPath <==> !u.firstLoginCompleted
    ensures u.firstLoginCompleted ==> p in {SuperAdminPath, TenantPath, UnauthorizedPath} || IsSocietyPath(p)
  {
    if !u.firstLoginCompleted then ChangePasswordPath
    else
      var society := SocietyPath(u.societyId);
      assert society[1] == 's' && ChangePasswordPath[1] == 'c';
      match u.role
      case SuperAdmin => SuperAdminPath
      case SocietyAdmin => society
      case Admin => society
      case Tenant => TenantPath
      case Other(_) => UnauthorizedPath
  }

  /** The destination of a user whose first login is completed, by role. */
  lemma CompletedUserDestination(u: User)
    requires u.firstLoginCompleted
    ensures u.role == SuperAdmin ==> RedirectPath(u) == "/super-admin"
    ensures u.role in {SocietyAdmin, Admin} ==> RedirectPath(u) == "/society/" + TemplateText(u.societyId)
    ensures u.role == Tenant ==> RedirectPath(u) == "/tenant"
    ensures u.role.Other? ==> RedirectPath(u) == "/unauthorized"
  {
  }

  /** Two completed users with the same role (and, for the administrative
      roles, the same society) land on the same path. */
  lemma RedirectPathDependsOnlyOnRole(u: User, v: User)
    requires u.firstLoginCompleted && v.firstLoginCompleted && u.role == v.role
    requires u.role in {SocietyAdmin, Admin} ==> u.societyId == v.societyId
    ensures RedirectPath(u) == RedirectPath(v)
  {
  }

  /** Every completed user with a known role is sent to a route whose guard
      admits them: the super-admin page checks `requireSuperAdmin`, the
      society page `requireAdminOrAbove`, the tenant page `requireAuth`; a
      user with an unknown role is sent to `/unauthorized` and no role guard
      admits them. */
  lemma RedirectTargetAdmits(u: User)
    requires u.firstLoginCompleted
    ensures RedirectPath(u) == SuperAdminPath ==> RequireSuperAdmin(Some(u)) == Allowed(u)
    ensures RedirectPath(u) == TenantPath ==> RequireAuth(Some(u)) == Allowed(u) && u.role == Tenant
    ensures u.role in {SocietyAdmin, Admin} ==> RequireAdminOrAbove(Some(u)) == Allowed(u)
    ensures RedirectPath(u) == UnauthorizedPath ==>
      u.role.Other? && !RequireAdminOrAbove(Some(u)).Allowed? && !RequireSuperAdmin(Some(u)).Allowed?
  {
    if u.role in {SocietyAdmin, Admin} {
      var p := SocietyPath(u.societyId);
      assert p[1] == 's' && SuperAdminPath[2] == 'u' && p[2] == 'o';
      assert TenantPath[1] == 't' && UnauthorizedPath[1] == 'u';
    }
  }
}
