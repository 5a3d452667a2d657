/** The tenant route: authentication through `requireAuth`, then a role
    check that throws instead of redirecting, then the society lookup. */
module TenantPage {
  import opened Types
  import Store
  import Auth

  const UnauthorizedAccessError: string := "Unauthorized access"
  const SocietyNotFoundError: string := "Society not found"

  /** What the tenant dashboard is rendered with. */
  datatype TenantView = TenantView(user: User, society: Society)

  /** The `societies` row filter `.eq('id', id)`. */
  function SocietyIdIs(id: string): Society -> bool {
    (s: Society) => s.id == id
  }

  /** `.eq('id', user.society_id).single()`: a null society id matches no row. */
  function FindSociety(societies: seq<Society>, societyId: Option<string>): (r: Option<Society>)
    ensures societyId.None? ==> r.None?
    ensures r.Some? ==> r.value in societies && Some(r.value.id) == societyId
  {
    match societyId
    case None => None
    case Some(id) => Store.Single(Store.Where(societies, SocietyIdIs(id)))
  }

  /** `TenantPage`, given the resolved user and the societies table. */
  function Load(resolved: Option<User>, societies: seq<Society>): (r: Page<TenantView>)
    ensures resolved.None? ==> r == Redirect(Auth.LoginPath)
    ensures resolved.Some? && resolved.value.role != Tenant ==> r == Error(UnauthorizedAccessError)
    ensures (resolved.Some? && resolved.value.role == Tenant &&
             FindSociety(societies, resolved.value.societyId).None?) ==> r == Error(SocietyNotFoundError)
    ensures r.Allowed? <==>
      resolved.Some? && resolved.value.role == Tenant && FindSociety(societies, resolved.value.societyId).Some?
    ensures r.Allowed? ==>
      r.value.user == resolved.value && r.value.society in societies &&
      Some(r.value.society.id) == r.value.user.societyId
    ensures r != Redirect(Auth.UnauthorizedPath)
  {
    match Auth.RequireAuth(resolved)
    case Redirect(p) => Redirect(p)
    case Error(m) => Error(m)
    case Allowed(user) =>
      if user.role != Tenant then Error(UnauthorizedAccessError)
      else
        match FindSociety(societies, user.societyId)
        case None => Error(SocietyNotFoundError)
        case Some(society) => Allowed(TenantView(user, society))
  }

  /** A tenant whose society row exists is rendered with exactly that row. */
  lemma TenantSeesOwnSociety(u: User, societies: seq<Society>, s: Society)
    requires u.role == Tenant
    requires s in societies && u.societyId == Some(s.id)
    requires forall i, j :: 0 <= i < j < |societies| ==> societies[i].id != societies[j].id
    ensures Load(Some(u), societies) == Allowed(TenantView(u, s))
  {
    assert Store.AtMostOne(societies, SocietyIdIs(s.id));
    Store.WhereUnique(societies, SocietyIdIs(s.id), s);
  }
}
