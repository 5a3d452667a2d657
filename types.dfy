/** Shared vocabulary of the society management front end: the two stored
    entities (users and societies), their enumerated columns, the outcome of
    a page request, the outcome of one call to the hosted auth/storage
    service, and the log of writes that service has committed. */
module Types {

  datatype Option<T> = None | Some(value: T) {
    /** `x || fallback` on a value that is either a row list or null. */
    function GetOr(fallback: T): T {
      match this
      case Some(v) => v
      case None => fallback
    }
  }

  // ---------------------------------------------------------------- roles

  /** The `role` column. The store only admits the four known strings, but
      the pages switch on plain strings, so every switch has a default
      branch; `Other` keeps that branch reachable. */
  datatype Role = SuperAdmin | SocietyAdmin | Admin | Tenant | Other(name: string) {
    /** An `Other` role never spells one of the four known names, so that two
        roles are equal exactly when their strings are. */
    predicate Canonical() {
      Other? ==> name !in KnownRoleNames
    }
  }

  const KnownRoleNames: set<string> := {"super_admin", "society_admin", "admin", "tenant"}

  type UserRole = r: Role | r.Canonical() witness Tenant

  function RoleName(r: Role): string {
    match r
    case SuperAdmin => "super_admin"
    case SocietyAdmin => "society_admin"
    case Admin => "admin"
    case Tenant => "tenant"
    case Other(n) => n
  }

  /** Reads a role string as stored. */
  function ParseRole(s: string): (r: UserRole)
    ensures RoleName(r) == s
  {
    if s == "super_admin" then SuperAdmin
    else if s == "society_admin" then SocietyAdmin
    else if s == "admin" then Admin
    else if s == "tenant" then Tenant
    else Other(s)
  }

  lemma ParseRoleName(r: UserRole)
    ensures ParseRole(RoleName(r)) == r
  {
  }

  /** Comparing canonical roles is comparing their strings, as the source does. */
  lemma RoleNameInjective(a: UserRole, b: UserRole)
    ensures a == b <==> RoleName(a) == RoleName(b)
  {
  }

  // ------------------------------------------------------------- statuses

  /** The `status` column of a society. */
  datatype Status = Active | Inactive | Suspended | OtherStatus(name: string) {
    predicate Canonical() {
      OtherStatus? ==> name !in KnownStatusNames
    }
  }

  const KnownStatusNames: set<string> := {"active", "inactive", "suspended"}

  type SocietyStatus = s: Status | s.Canonical() witness Active

  function StatusName(s: Status): string {
    match s
    case Active => "active"
    case Inactive => "inactive"
    case Suspended => "suspended"
    case OtherStatus(n) => n
  }

  function ParseStatus(s: string): (r: SocietyStatus)
    ensures StatusName(r) == s
  {
    if s == "active" then Active
    else if s == "inactive" then Inactive
    else if s == "suspended" then Suspended
    else OtherStatus(s)
  }

  // ------------------------------------------------------------- entities

  /** A row of the `users` table (its `created_at` timestamp is not modelled). */
  datatype User = User(
    id: string,
    email: string,
    name: string,
    role: UserRole,
    societyId: Option<string>,
    createdById: Option<string>,
    firstLoginCompleted: bool)

  /** A row of the `societies` table (its `created_at` timestamp is not modelled). */
  datatype Society = Society(
    id: string,
    name: string,
    description: Option<string>,
    createdBySuperAdminId: string,
    status: SocietyStatus)

  /** The record a dashboard hands to `from('users').insert(...)`. */
  datatype UserInsert = UserInsert(
    name: string,
    email: string,
    role: UserRole,
    societyId: string,
    createdById: string)

  /** The record the super-admin dashboard hands to `from('societies').insert(...)`. */
  datatype SocietyInsert = SocietyInsert(
    name: string,
    description: string,
    createdBySuperAdminId: string)

  // ------------------------------------------------- outcomes and effects

  /** How a page request ends: rendered with a value, sent elsewhere by
      `redirect`, or aborted by a thrown `Error`. */
  datatype Page<T> = Allowed(value: T) | Redirect(path: string) | Error(message: string)

  /** The outcome of one awaited call to the hosted service: it resolves with
      a value, resolves with an error object, or throws. */
  datatype Step<T> = Done(value: T) | Failed(message: string) | Threw

  /** A write the hosted service has committed. */
  datatype Write =
    | UpdateCredential(password: string)
    | MarkFirstLoginCompleted(userId: string)
    | InsertUser(user: UserInsert)
    | InsertSociety(society: SocietyInsert)
    | CreateAuthIdentity(email: string, password: string, displayName: string)

  /** What every `catch` block of the components shows. */
  const UnexpectedError: string := "An unexpected error occurred"

  /** The message shown for a step that did not succeed. */
  function FailureMessage<T>(s: Step<T>): (m: string)
    requires !s.Done?
    ensures s.Failed? ==> m == s.message
    ensures s.Threw? ==> m == UnexpectedError
  {
    match s
    case Failed(msg) => msg
    case Threw => UnexpectedError
  }

  /** How a multi-step create flow ended. */
  datatype Created<T> = Committed(row: T) | Aborted(message: string)

  /** The writes a create flow committed, in order, and how it ended. */
  datatype Flow<T> = Flow(writes: seq<Write>, outcome: Created<T>)
}
