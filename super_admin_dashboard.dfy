/** The super-admin dashboard: the society list with its status badges and
    counts, and the create-society flow (insert the society row, insert its
    society-admin user row, create that admin's auth identity; stop at the
    first failure; no rollback). */
module SuperAdminDashboard {
  import opened Types
  import Store

  const GreenBadge: string := "bg-green-100 text-green-800"
  const GrayBadge: string := "bg-gray-100 text-gray-800"
  const RedBadge: string := "bg-red-100 text-red-800"

  /** The temporary password every new auth identity receives. */
  const TempPassword: string := "temp_password_123"

  // ------------------------------------------------------- badges, counts

  /** `getStatusColor`. */
  function StatusColor(status: SocietyStatus): (c: string)
    ensures c == GreenBadge <==> status == Active
    ensures c == RedBadge <==> status == Suspended
    ensures c == GrayBadge <==> status != Active && status != Suspended
  {
    match status
    case Active => GreenBadge
    case Inactive => GrayBadge
    case Suspended => RedBadge
    case _ => GrayBadge
  }

  /** The `societies.filter(s => s.status === status)` predicate. */
  function HasStatus(status: SocietyStatus): Society -> bool {
    (s: Society) => s.status == status
  }

  /** The "Active Societies" card: at most every society, and zero exactly
      when none is active. */
  function ActiveCount(societies: seq<Society>): (c: nat)
    ensures c <= |societies|
    ensures c == 0 <==> forall s :: s in societies ==> s.status != Active
  {
    |Store.Where(societies, HasStatus(Active))|
  }

  /** The "Suspended Societies" card: at most every society, and zero
      exactly when none is suspended. */
  function SuspendedCount(societies: seq<Society>): (c: nat)
    ensures c <= |societies|
    ensures c == 0 <==> forall s :: s in societies ==> s.status != Suspended
  {
    |Store.Where(societies, HasStatus(Suspended))|
  }

  /** The two status cards never add up to more than the "Total Societies" card. */
  lemma ActiveAndSuspendedWithinTotal(societies: seq<Society>)
    ensures ActiveCount(societies) + SuspendedCount(societies) <= |societies|
  {
    Store.DisjointWhereBound(societies, HasStatus(Active), HasStatus(Suspended));
  }

  // --------------------------------------------------- create-society flow

  /** The "Create New Society" form. */
  datatype SocietyForm = SocietyForm(name: string, description: string, adminEmail: string, adminName: string)

  const EmptySocietyForm: SocietyForm := SocietyForm("", "", "", "")

  /** What the store generates for a new society row: its id and the default status. */
  datatype Generated = Generated(id: string, status: SocietyStatus)

  function SocietyRecord(form: SocietyForm, creator: User): SocietyInsert {
    SocietyInsert(form.name, form.description, creator.id)
  }

  /** The inserted society as the store hands it back (`.select().single()`). */
  function StoredSociety(rec: SocietyInsert, g: Generated): Society {
    Society(g.id, rec.name, Some(rec.description), rec.createdBySuperAdminId, g.status)
  }

  /** The society's first admin: role `society_admin`, in the new society,
      created by the signed-in super admin. */
  function AdminRecord(form: SocietyForm, societyId: string, creator: User): UserInsert {
    UserInsert(form.adminName, form.adminEmail, SocietyAdmin, societyId, creator.id)
  }

  /** `handleCreateSociety`, given the outcome of each of its three steps. */
  function CreateSocietyFlow(form: SocietyForm, creator: User, insertSociety: Step<Generated>,
                             insertAdmin: Step<()>, auth: Step<()>): (r: Flow<Society>)
    ensures r.outcome.Committed? <==> insertSociety.Done? && insertAdmin.Done? && auth.Done?
    ensures !insertSociety.Done? ==> r == Flow([], Aborted(FailureMessage(insertSociety)))
    ensures insertSociety.Done? ==>
      |r.writes| >= 1 && r.writes[0] == InsertSociety(SocietyInsert(form.name, form.description, creator.id))
    ensures insertSociety.Done? && !insertAdmin.Done? ==>
      |r.writes| == 1 && r.outcome == Aborted(FailureMessage(insertAdmin))
    ensures insertSociety.Done? && insertAdmin.Done? ==>
      |r.writes| >= 2 &&
      r.writes[1] == InsertUser(UserInsert(form.adminName, form.adminEmail, SocietyAdmin,
                                           insertSociety.value.id, creator.id))
    ensures insertSociety.Done? && insertAdmin.Done? && !auth.Done? ==>
      |r.writes| == 2 && r.outcome == Aborted(FailureMessage(auth))
    ensures r.outcome.Committed? ==>
      |r.writes| == 3 && r.writes[2] == CreateAuthIdentity(form.adminEmail, TempPassword, form.adminName) &&
      r.outcome.row.id == insertSociety.value.id && r.outcome.row.name == form.name &&
      r.outcome.row.createdBySuperAdminId == creator.id
    ensures r.outcome.Committed? ==>
      r.outcome.row == Society(insertSociety.value.id, form.name, Some(form.description), creator.id,
                               insertSociety.value.status)
  {
    match insertSociety
    case Failed(_) => Flow([], Aborted(FailureMessage(insertSociety)))
    case Threw => Flow([], Aborted(FailureMessage(insertSociety)))
    case Done(g) =>
      var society := StoredSociety(SocietyRecord(form, creator), g);
      var first := [InsertSociety(SocietyRecord(form, creator))];
      match insertAdmin
      case Failed(_) => Flow(first, Aborted(FailureMessage(insertAdmin)))
      case Threw => Flow(first, Aborted(FailureMessage(insertAdmin)))
      case Done(_) =>
        var second := first + [InsertUser(AdminRecord(form, society.id, creator))];
        match auth
        case Failed(_) => Flow(second, Aborted(FailureMessage(auth)))
        case Threw => Flow(second, Aborted(FailureMessage(auth)))
        case Done(_) =>
          Flow(second + [CreateAuthIdentity(form.adminEmail, TempPassword, form.adminName)], Committed(society))
  }

  /** Whenever the flow writes an admin row, that row points at the society
      row the same flow wrote just before it. */
  lemma AdminRowFollowsItsSociety(form: SocietyForm, creator: User, insertSociety: Step<Generated>,
                                  insertAdmin: Step<()>, auth: Step<()>, k: nat)
    requires var w := CreateSocietyFlow(form, creator, insertSociety, insertAdmin, auth).writes;
      k < |w| && w[k].InsertUser?
    ensures var w := CreateSocietyFlow(form, creator, insertSociety, insertAdmin, auth).writes;
      k == 1 && w[0].InsertSociety? && insertSociety.Done? &&
      w[k].user.societyId == insertSociety.value.id && w[k].user.role == SocietyAdmin &&
      w[k].user.createdById == w[0].society.createdBySuperAdminId
  {
  }

  /** A super admin creating "Lakeview" with admin Alice <a@x.com>: if the
      auth identity cannot be created, the society row and the admin row stay
      written and nothing is added to the list. */
  lemma LakeviewAuthFailureKeepsRows(creator: User, g: Generated, message: string)
    ensures var form := SocietyForm("Lakeview", "", "a@x.com", "Alice");
      CreateSocietyFlow(form, creator, Done(g), Done(()), Failed(message)) ==
      Flow([InsertSociety(SocietyInsert("Lakeview", "", creator.id)),
            InsertUser(UserInsert("Alice", "a@x.com", SocietyAdmin, g.id, creator.id))],
           Aborted(message))
  {
  }

  /** The dashboard's component state. */
  class Dashboard {
    const user: User
    var societies: seq<Society>
    var showCreateForm: bool
    var loading: bool
    var error: string
    var newSociety: SocietyForm
    /** Every write the hosted service committed on behalf of this dashboard, in order. */
    var writes: seq<Write>

    constructor (user: User, initialSocieties: seq<Society>)
      ensures this.user == user && societies == initialSocieties
      ensures !showCreateForm && !loading && error == "" && newSociety == EmptySocietyForm && writes == []
    {
      this.user := user;
      societies := initialSocieties;
      showCreateForm := false;
      loading := false;
      error := "";
      newSociety := EmptySocietyForm;
      writes := [];
    }

    /** The dialog's open state (the "Create New Society" button and the dialog's own close). */
    method SetShowCreateForm(open: bool)
      modifies this`showCreateForm
      ensures showCreateForm == open
    {
      showCreateForm := open;
    }

    /** The form fields' change handlers. */
    method EditForm(form: SocietyForm)
      modifies this`newSociety
      ensures newSociety == form
    {
      newSociety := form;
    }

    /** `handleCreateSociety`. */
    method HandleCreateSociety(insertSociety: Step<Generated>, insertAdmin: Step<()>, auth: Step<()>)
      modifies this
      ensures var r := CreateSocietyFlow(old(newSociety), user, insertSociety, insertAdmin, auth);
        writes == old(writes) + r.writes &&
        (r.outcome.Committed? ==>
          societies == [r.outcome.row] + old(societies) && !showCreateForm &&
          newSociety == EmptySocietyForm && error == "") &&
        (r.outcome.Aborted? ==>
          societies == old(societies) && showCreateForm == old(showCreateForm) &&
          newSociety == old(newSociety) && error == r.outcome.message)
      ensures !loading
    {
      loading := true;
      error := "";

      var rec := SocietyRecord(newSociety, user);
      var society: Society;
      match insertSociety {
        case Failed(m) =>
          error := m;
          loading := false;
          return;
        case Threw =>
          error := UnexpectedError;
          loading := false;
          return;
        case Done(g) =>
          society := StoredSociety(rec, g);
      }
      writes := writes + [InsertSociety(rec)];

      match insertAdmin {
        case Failed(m) =>
          error := m;
          loading := false;
          return;
        case Threw =>
          error := UnexpectedError;
          loading := false;
          return;
        case Done(_) =>
      }
      writes := writes + [InsertUser(AdminRecord(newSociety, society.id, user))];

      match auth {
        case Failed(m) =>
          error := m;
          loading := false;
          return;
        case Threw =>
          error := UnexpectedError;
          loading := false;
          return;
        case Done(_) =>
      }
      writes := writes + [CreateAuthIdentity(newSociety.adminEmail, TempPassword, newSociety.adminName)];

      societies := [society] + societies;
      showCreateForm := false;
      newSociety := EmptySocietyForm;
      loading := false;
    }
  }
}
