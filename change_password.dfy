/** The first-login password change page: on mount it resolves the signed-in
    user and either leaves (to the login page or to the user's dashboard) or
    shows the form; on submit it validates the two fields locally, updates
    the credential, marks the first login as completed and only then
    navigates. Each `router.push` is recorded in `pushed`; each write the
    hosted service commits is recorded in `writes`. */
module ChangePassword {
  import opened Types
  import Store
  import Auth

  const MismatchError: string := "New passwords do not match"
  const TooShortError: string := "Password must be at least 6 characters long"
  const UserNotFoundError: string := "User not found"
  const FlagUpdateError: string := "Failed to update user status"
  const MinPasswordLength: nat := 6

  /** The role switch written out in this page (twice, identically: once on
      mount and once after a successful change). It never leads back to this
      page; only an unknown role leads to `/unauthorized`, and exactly the two
      administrative society roles lead under `/society/`. */
  function DashboardPath(role: UserRole, societyId: Option<string>): (p: string)
    ensures p != Auth.ChangePasswordPath
    ensures p == Auth.UnauthorizedPath <==> role.Other?
    ensures Auth.IsSocietyPath(p) <==> role in {SocietyAdmin, Admin}
  {
    assert Auth.ChangePasswordPath[1] == 'c' && Auth.UnauthorizedPath[1] == 'u';
    assert Auth.SocietyPathPrefix[1] == 's' && "/super-admin"[1] == 's' && "/super-admin"[2] == 'u';
    match role
    case SuperAdmin => "/super-admin"
    case SocietyAdmin => "/society/" + Auth.TemplateText(societyId)
    case Admin => "/society/" + Auth.TemplateText(societyId)
    case Tenant => "/tenant"
    case Other(_) => "/unauthorized"
  }

  /** The page's own switch sends a user where the shared redirect policy
      sends the same user once their first login is completed. */
  lemma DashboardPathAgreesWithRedirect(u: User)
    ensures DashboardPath(u.role, u.societyId) == Auth.RedirectPath(u.(firstLoginCompleted := true))
  {
  }

  // ----------------------------------------------------------------- mount

  /** Where the mount effect leaves the page. */
  datatype Entry = GoTo(path: string) | ShowForm(user: User) | NoUser

  /** The mount effect: no identity goes to the login page; a row whose first
      login is completed goes to its dashboard; any other row is kept and the
      form is shown; no row leaves the page waiting with no form. */
  function MountEntry(authId: Option<string>, users: seq<User>): (r: Entry)
    ensures authId.None? ==> r == GoTo(Auth.LoginPath)
    ensures authId.Some? ==>
      match Auth.GetUser(authId, users)
      case None => r == NoUser
      case Some(u) =>
        if u.firstLoginCompleted then r == GoTo(Auth.RedirectPath(u)) else r == ShowForm(u)
    ensures r.ShowForm? ==> r.user in users && !r.user.firstLoginCompleted
  {
    match authId
    case None => GoTo(Auth.LoginPath)
    case Some(id) =>
      match Store.Single(Store.Where(users, Auth.UserIdIs(id)))
      case None => NoUser
      case Some(row) =>
        if row.firstLoginCompleted then GoTo(DashboardPath(row.role, row.societyId)) else ShowForm(row)
  }

  /** The form is shown exactly to the users the redirect policy sends to this page. */
  lemma MountShowsFormIffRedirectHere(authId: Option<string>, users: seq<User>)
    requires Auth.GetUser(authId, users).Some?
    ensures MountEntry(authId, users).ShowForm? <==>
      Auth.RedirectPath(Auth.GetUser(authId, users).value) == Auth.ChangePasswordPath
  {
  }

  // ---------------------------------------------------------------- submit

  /** The two local checks, mismatch first: the message to show, or nothing. */
  function Validate(newPassword: string, confirmPassword: string): (r: Option<string>)
    ensures r.None? <==> newPassword == confirmPassword && |newPassword| >= MinPasswordLength
    ensures newPassword != confirmPassword ==> r == Some(MismatchError)
    ensures newPassword == confirmPassword && |newPassword| < MinPasswordLength ==> r == Some(TooShortError)
  {
    if newPassword != confirmPassword then Some(MismatchError)
    else if |newPassword| < MinPasswordLength then Some(TooShortError)
    else None
  }

  /** Four validation examples: too short, mismatched (twice), accepted. */
  lemma ValidationExamples()
    ensures Validate("abc12", "abc12") == Some(TooShortError)
    ensures Validate("abcdef", "abcdex") == Some(MismatchError)
    ensures Validate("abc", "abd") == Some(MismatchError)
    ensures Validate("abcdef", "abcdef") == None
  {
  }

  /** How one submit ends: the message shown, the writes committed and the
      page pushed, if any. */
  datatype Submitted = Submitted(error: string, writes: seq<Write>, push: Option<string>)

  /** `handleChangePassword`, given the page's fields and the outcome of each
      of its two provider calls. */
  function SubmitOutcome(newPassword: string, confirmPassword: string, user: Option<User>,
                         credential: Step<()>, flag: Step<()>): (r: Submitted)
    ensures Validate(newPassword, confirmPassword).Some? ==>
      r == Submitted(Validate(newPassword, confirmPassword).value, [], None)
    ensures r.push.Some? <==>
      Validate(newPassword, confirmPassword).None? && credential.Done? && user.Some? && flag.Done?
    ensures r.push.Some? ==>
      r.push.value == Auth.RedirectPath(user.value.(firstLoginCompleted := true)) && r.error == ""
    ensures !credential.Done? ==> r.writes == []
    ensures credential.Failed? && Validate(newPassword, confirmPassword).None? ==> r.error == credential.message
    ensures r.writes == [] || r.writes == [UpdateCredential(newPassword)] ||
      (user.Some? && r.writes == [UpdateCredential(newPassword), MarkFirstLoginCompleted(user.value.id)])
    ensures |r.writes| == 2 <==> r.push.Some?
    ensures Validate(newPassword, confirmPassword).None? && credential.Threw? ==>
      r == Submitted(UnexpectedError, [], None)
    ensures Validate(newPassword, confirmPassword).None? && credential.Done? ==>
      |r.writes| >= 1 && r.writes[0] == UpdateCredential(newPassword)
    ensures Validate(newPassword, confirmPassword).None? && credential.Done? && user.None? ==>
      r == Submitted(UserNotFoundError, [UpdateCredential(newPassword)], None)
    ensures Validate(newPassword, confirmPassword).None? && credential.Done? && user.Some? && flag.Failed? ==>
      r == Submitted(FlagUpdateError, [UpdateCredential(newPassword)], None)
    ensures Validate(newPassword, confirmPassword).None? && credential.Done? && user.Some? && flag.Threw? ==>
      r == Submitted(UnexpectedError, [UpdateCredential(newPassword)], None)
  {
    match Validate(newPassword, confirmPassword)
    case Some(msg) => Submitted(msg, [], None)
    case None =>
      match credential
      case Failed(m) => Submitted(m, [], None)
      case Threw => Submitted(UnexpectedError, [], None)
      case Done(_) =>
        var changed := [UpdateCredential(newPassword)];
        match user
        case None => Submitted(UserNotFoundError, changed, None)
        case Some(u) =>
          match flag
          case Failed(_) => Submitted(FlagUpdateError, changed, None)
          case Threw => Submitted(UnexpectedError, changed, None)
          case Done(_) =>
            DashboardPathAgreesWithRedirect(u);
            Submitted("", changed + [MarkFirstLoginCompleted(u.id)], Some(DashboardPath(u.role, u.societyId)))
  }

  /** The page's component state. */
  class ChangePasswordPage {
    var newPassword: string
    var confirmPassword: string
    var loading: bool
    var error: string
    var user: Option<User>
    /** Every `router.push`, in order. */
    var pushed: seq<string>
    /** Every write the hosted service committed on behalf of this page, in order. */
    var writes: seq<Write>

    /** The form is rendered only once a user is held; until then a spinner. */
    predicate FormShown()
      reads this
    {
      user.Some?
    }

    constructor ()
      ensures newPassword == "" && confirmPassword == "" && !loading && error == ""
      ensures user == None && pushed == [] && writes == []
    {
      newPassword := "";
      confirmPassword := "";
      loading := false;
      error := "";
      user := None;
      pushed := [];
      writes := [];
    }

    /** The mount effect. */
    method Mount(authId: Option<string>, users: seq<User>)
      modifies this
      ensures var e := MountEntry(authId, users);
        (e.GoTo? ==> pushed == old(pushed) + [e.path] && user == old(user)) &&
        (e.ShowForm? ==> pushed == old(pushed) && user == Some(e.user)) &&
        (e.NoUser? ==> pushed == old(pushed) && user == None) &&
        (old(user).None? ==> (FormShown() <==> e.ShowForm?))
      ensures newPassword == old(newPassword) && confirmPassword == old(confirmPassword)
      ensures loading == old(loading) && error == old(error) && writes == old(writes)
    {
      if authId.None? {
        pushed := pushed + [Auth.LoginPath];
        return;
      }
      var userData := Store.Single(Store.Where(users, Auth.UserIdIs(authId.value)));
      if userData.Some? && userData.value.firstLoginCompleted {
        pushed := pushed + [DashboardPath(userData.value.role, userData.value.societyId)];
        return;
      }
      user := userData;
    }

    /** The two input fields' change handlers. */
    method SetNewPassword(s: string)
      modifies this`newPassword
      ensures newPassword == s
    {
      newPassword := s;
    }

    method SetConfirmPassword(s: string)
      modifies this`confirmPassword
      ensures confirmPassword == s
    {
      confirmPassword := s;
    }

    /** `handleChangePassword`; `credential` and `flag` are the outcomes of
        the credential update and of the flag update, when they are made. */
    method HandleChangePassword(credential: Step<()>, flag: Step<()>)
      modifies this
      ensures var r := SubmitOutcome(old(newPassword), old(confirmPassword), old(user), credential, flag);
        error == r.error && writes == old(writes) + r.writes &&
        pushed == old(pushed) + (if r.push.Some? then [r.push.value] else [])
      ensures !loading
      ensures newPassword == old(newPassword) && confirmPassword == old(confirmPassword) && user == old(user)
    {
      loading := true;
      error := "";

      if newPassword != confirmPassword {
        error := MismatchError;
        loading := false;
        return;
      }

      if |newPassword| < MinPasswordLength {
        error := TooShortError;
        loading := false;
        return;
      }

      match credential {
        case Failed(m) =>
          error := m;
          loading := false;
          return;
        case Threw =>
          error := UnexpectedError;
          loading := false;
          return;
        case Done(_) =>
      }
      writes := writes + [UpdateCredential(newPassword)];

      if user.None? {
        error := UserNotFoundError;
        loading := false;
        return;
      }

      match flag {
        case Failed(_) =>
          error := FlagUpdateError;
          loading := false;
          return;
        case Threw =>
          error := UnexpectedError;
          loading := false;
          return;
        case Done(_) =>
      }
      writes := writes + [MarkFirstLoginCompleted(user.value.id)];

      pushed := pushed + [DashboardPath(user.value.role, user.value.societyId)];
      loading := false;
    }
  }
}
