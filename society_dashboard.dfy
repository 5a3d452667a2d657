/** The society dashboard: the member list with its role badges and counts,
    and the create-member flow (insert the user row, then create the auth
    identity; stop at the first failure; no rollback). */
module SocietyDashboard {
  import opened Types
  import Store

  const PurpleBadge: string := "bg-purple-100 text-purple-800"
  const BlueBadge: string := "bg-blue-100 text-blue-800"
  const GreenBadge: string := "bg-green-100 text-green-800"
  const GrayBadge: string := "bg-gray-100 text-gray-800"

  /** The temporary password every new auth identity receives. */
  const TempPassword: string := "temp_password_123"

  // ------------------------------------------------------- badges, counts

  /** `getRoleColor`. */
  function RoleColor(role: UserRole): (c: string)
    ensures c == GrayBadge <==> role !in {SocietyAdmin, Admin, Tenant}
    ensures role == SocietyAdmin ==> c == PurpleBadge
    ensures role == Admin ==> c == BlueBadge
    ensures role == Tenant ==> c == GreenBadge
  {
    match role
    case SocietyAdmin => PurpleBadge
    case Admin => BlueBadge
    case Tenant => GreenBadge
    case _ => GrayBadge
  }

  /** `getRoleLabel`. */
  function RoleLabel(role: UserRole): (l: string)
    ensures role !in {SocietyAdmin, Admin, Tenant} ==> l == RoleName(role)
    ensures role == SocietyAdmin ==> l == "Society Admin"
    ensures role == Admin ==> l == "Admin"
    ensures role == Tenant ==> l == "Tenant"
  {
    match role
    case SocietyAdmin => "Society Admin"
    case Admin => "Admin"
    case Tenant => "Tenant"
    case _ => RoleName(role)
  }

  /** The three roles a society shows by name get three different labels,
      none of which is a raw role string. */
  lemma RoleLabelsDistinct(a: UserRole, b: UserRole)
    requires a in {SocietyAdmin, Admin, Tenant} && b in {SocietyAdmin, Admin, Tenant}
    ensures RoleLabel(a) == RoleLabel(b) <==> a == b
    ensures RoleLabel(a) !in KnownRoleNames
  {
  }

  /** The `users.filter(u => u.role === role)` predicate. */
  function HasRole(role: UserRole): User -> bool {
    (u: User) => u.role == role
  }

  /** The "Admins" card: at most every member, and zero exactly when no
      member is an admin. */
  function AdminCount(users: seq<User>): (c: nat)
    ensures c <= |users|
    ensures c == 0 <==> forall u :: u in users ==> u.role != Admin
  {
    |Store.Where(users, HasRole(Admin))|
  }

  /** The "Tenants" card: at most every member, and zero exactly when no
      member is a tenant. */
  function TenantCount(users: seq<User>): (c: nat)
    ensures c <= |users|
    ensures c == 0 <==> forall u :: u in users ==> u.role != Tenant
  {
    |Store.Where(users, HasRole(Tenant))|
  }

  /** The two role cards never add up to more than the "Total Members" card. */
  lemma AdminsAndTenantsWithinTotal(users: seq<User>)
    ensures AdminCount(users) + TenantCount(users) <= |users|
  {
    Store.DisjointWhereBound(users, HasRole(Admin), HasRole(Tenant));
  }

  /** Prepending a member raises exactly the card of its role, by one. */
  lemma PrependedMemberCounted(m: User, users: seq<User>)
    ensures AdminCount([m] + users) == AdminCount(users) + (if m.role == Admin then 1 else 0)
    ensures TenantCount([m] + users) == TenantCount(users) + (if m.role == Tenant then 1 else 0)
  {
    Store.WherePrepend(m, users, HasRole(Admin));
    Store.WherePrepend(m, users, HasRole(Tenant));
  }

  // ---------------------------------------------------- create-member flow

  /** The two roles the form offers. */
  datatype MemberRole = AdminMember | TenantMember {
    function ToRole(): (r: UserRole)
      ensures r == Admin || r == Tenant
    {
      match this
      case AdminMember => Admin
      case TenantMember => Tenant
    }
  }

  /** The "Add New Member" form. */
  datatype MemberForm = MemberForm(name: string, email: string, role: MemberRole)

  const EmptyMemberForm: MemberForm := MemberForm("", "", TenantMember)

  /** The row the flow inserts: the form's fields, the dashboard's society and
      the signed-in user as creator. */
  function MemberInsert(form: MemberForm, society: Society, creator: User): UserInsert {
    UserInsert(form.name, form.email, form.role.ToRole(), society.id, creator.id)
  }

  /** The inserted row as the store hands it back (`.select().single()`):
      the record with the id the store generated and the first login not yet
      completed. */
  function StoredMember(rec: UserInsert, id: string): User {
    User(id, rec.email, rec.name, rec.role, Some(rec.societyId), Some(rec.createdById), false)
  }

  /** `handleCreateUser`, given the outcome of the insert (the generated id)
      and of the auth-identity creation. */
  function CreateMemberFlow(form: MemberForm, society: Society, creator: User,
                            insert: Step<string>, auth: Step<()>): (r: Flow<User>)
    ensures r.outcome.Committed? <==> insert.Done? && auth.Done?
    ensures !insert.Done? ==> r == Flow([], Aborted(FailureMessage(insert)))
    ensures insert.Done? && !auth.Done? ==>
      r == Flow([InsertUser(MemberInsert(form, society, creator))], Aborted(FailureMessage(auth)))
    ensures r.outcome.Committed? ==>
      r.writes == [InsertUser(MemberInsert(form, society, creator)),
                   CreateAuthIdentity(form.email, TempPassword, form.name)]
    ensures r.outcome.Committed? ==>
      var m := r.outcome.row;
      m.id == insert.value && m.role == form.role.ToRole() && m.role in {Admin, Tenant} &&
      m.societyId == Some(society.id) && m.createdById == Some(creator.id) &&
      m.name == form.name && m.email == form.email && !m.firstLoginCompleted
  {
    match insert
    case Failed(_) => Flow([], Aborted(FailureMessage(insert)))
    case Threw => Flow([], Aborted(FailureMessage(insert)))
    case Done(id) =>
      var rec := MemberInsert(form, society, creator);
      match auth
      case Failed(_) => Flow([InsertUser(rec)], Aborted(FailureMessage(auth)))
      case Threw => Flow([InsertUser(rec)], Aborted(FailureMessage(auth)))
      case Done(_) =>
        Flow([InsertUser(rec), CreateAuthIdentity(form.email, TempPassword, form.name)],
             Committed(StoredMember(rec, id)))
  }

  /** Every user row this flow writes belongs to the dashboard's society, is
      created by the signed-in user and has one of the two offered roles. */
  lemma MemberInsertsScoped(form: MemberForm, society: Society, creator: User,
                            insert: Step<string>, auth: Step<()>)
    ensures forall w :: w in CreateMemberFlow(form, society, creator, insert, auth).writes && w.InsertUser? ==>
      w.user.societyId == society.id && w.user.createdById == creator.id && w.user.role in {Admin, Tenant}
  {
  }

  /** The dashboard's component state. */
  class Dashboard {
    const user: User
    const society: Society
    var users: seq<User>
    var showCreateForm: bool
    var loading: bool
    var error: string
    var newUser: MemberForm
    /** Every write the hosted service committed on behalf of this dashboard, in order. */
    var writes: seq<Write>

    constructor (user: User, society: Society, initialUsers: seq<User>)
      ensures this.user == user && this.society == society && users == initialUsers
      ensures !showCreateForm && !loading && error == "" && newUser == EmptyMemberForm && writes == []
    {
      this.user := user;
      this.society := society;
      users := initialUsers;
      showCreateForm := false;
      loading := false;
      error := "";
      newUser := EmptyMemberForm;
      writes := [];
    }

    /** The dialog's open state (the "Add New Member" button and the dialog's own close). */
    method SetShowCreateForm(open: bool)
      modifies this`showCreateForm
      ensures showCreateForm == open
    {
      showCreateForm := open;
    }

    /** The form fields' change handlers. */
    method EditForm(form: MemberForm)
      modifies this`newUser
      ensures newUser == form
    {
      newUser := form;
    }

    /** `handleCreateUser`. */
    method HandleCreateUser(insert: Step<string>, auth: Step<()>)
      modifies this
      ensures var r := CreateMemberFlow(old(newUser), society, user, insert, auth);
        writes == old(writes) + r.writes &&
        (r.outcome.Committed? ==>
          users == [r.outcome.row] + old(users) && !showCreateForm && newUser == EmptyMemberForm && error == "") &&
        (r.outcome.Aborted? ==>
          users == old(users) && showCreateForm == old(showCreateForm) && newUser == old(newUser) &&
          error == r.outcome.message)
      ensures !loading
    {
      loading := true;
      error := "";

      var rec := MemberInsert(newUser, society, user);
      var id: string;
      match insert {
        case Failed(m) =>
          error := m;
          loading := false;
          return;
        case Threw =>
          error := UnexpectedError;
          loading := false;
          return;
        case Done(generated) =>
          id := generated;
      }
      writes := writes + [InsertUser(rec)];

      match auth {
        case Failed(m) =>
          error := m;
          loading := false;
          return;
        case Threw =>
          error := UnexpectedError;
          loading := false;
          return;
        case Done(_) =>
      }
      writes := writes + [CreateAuthIdentity(newUser.email, TempPassword, newUser.name)];

      users := [StoredMember(rec, id)] + users;
      showCreateForm := false;
      newUser := EmptyMemberForm;
      loading := false;
    }
  }
}
