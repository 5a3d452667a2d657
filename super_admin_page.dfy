/** The super-admin route: `requireSuperAdmin`, then the societies query,
    whose null result is handed on as an empty list. */
module SuperAdminPage {
  import opened Types
  import Auth

  /** What the super-admin dashboard is rendered with. */
  datatype SuperAdminView = SuperAdminView(user: User, societies: seq<Society>)

  /** `SuperAdminPage`, given the resolved user and the result of the
      societies query (null when the query failed). */
  function Load(resolved: Option<User>, query: Option<seq<Society>>): (r: Page<SuperAdminView>)
    ensures resolved.None? ==> r == Redirect(Auth.LoginPath)
    ensures resolved.Some? && resolved.value.role != SuperAdmin ==> r == Redirect(Auth.UnauthorizedPath)
    ensures r.Allowed? <==> resolved.Some? && resolved.value.role == SuperAdmin
    ensures r.Allowed? ==> r.value.user == resolved.value && r.value.user.role == SuperAdmin
    ensures r.Allowed? && query.None? ==> r.value.societies == []
    ensures r.Allowed? && query.Some? ==> r.value.societies == query.value
    ensures !r.Error?
  {
    match Auth.RequireSuperAdmin(resolved)
    case Redirect(p) => Redirect(p)
    case Error(m) => Error(m)
    case Allowed(user) => Allowed(SuperAdminView(user, query.GetOr([])))
  }

  /** The guard decides before the query: a denied request ends the same
      way whatever the query would have returned. */
  lemma GuardBeforeQuery(resolved: Option<User>, q1: Option<seq<Society>>, q2: Option<seq<Society>>)
    requires !Auth.RequireSuperAdmin(resolved).Allowed?
    ensures Load(resolved, q1) == Load(resolved, q2)
    ensures Load(resolved, q1).Redirect?
  {
  }

  /** A tenant who has completed the first login and asks for this route is
      sent to `/unauthorized`, not to the tenant dashboard. */
  lemma TenantIsUnauthorized(u: User, query: Option<seq<Society>>)
    requires u.role == Tenant && u.firstLoginCompleted
    ensures Load(Some(u), query) == Redirect("/unauthorized")
    ensures Auth.RedirectPath(u) == "/tenant"
  {
  }
}
