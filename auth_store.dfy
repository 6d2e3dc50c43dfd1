/** The session: who is logged in. Logging in and out replace both fields
    together, so `isAuthenticated` holds exactly when there is a user. */
module AuthStore {
  import opened Wrappers
  import opened Auth

  class AuthState {
    var user: Option<User>
    var isAuthenticated: bool

    /** The session invariant. */
    ghost predicate Valid()
      reads this
    {
      isAuthenticated <==> user.Some?
    }

    /** Nobody logged in. */
    constructor ()
      ensures Valid()
      ensures user == None && !isAuthenticated
    {
      user, isAuthenticated := None, false;
    }

    /** `login`. */
    method Login(u: User)
      modifies this
      ensures Valid()
      ensures user == Some(u) && isAuthenticated
    {
      user, isAuthenticated := Some(u), true;
    }

    /** `logout`. */
    method Logout()
      modifies this
      ensures Valid()
      ensures user == None && !isAuthenticated
    {
      user, isAuthenticated := None, false;
    }

    /** `useIsAdmin`. */
    function IsAdmin(): (b: bool)
      reads this
      ensures b ==> user.Some?
    {
      match user
      case Some(u) => u.role == Admin
      case None => false
    }

    /** `useIsStudent`. */
    function IsStudent(): (b: bool)
      reads this
      ensures b ==> user.Some?
    {
      match user
      case Some(u) => u.role == StudentRole
      case None => false
    }

    /** `useCurrentStudentId`: `user?.studentId || null`, so an empty id
        counts as none. */
    function CurrentStudentId(): (r: Option<string>)
      reads this
      ensures r.Some? ==> r.value != "" && user.Some? && user.value.studentId == r
      ensures r.None? ==> user.None? || user.value.studentId.None? || user.value.studentId == Some("")
    {
      match user
      case Some(u) => if u.studentId.Some? && u.studentId.value != "" then u.studentId else None
      case None => None
    }
  }

  /** A logged-out session is neither administrator nor student and has no
      student id; a logged-in user is exactly one of the two roles, and
      the role the hooks report is the user's own. */
  lemma SessionRoles(s: AuthState)
    requires s.Valid()
    ensures !s.isAuthenticated ==> !s.IsAdmin() && !s.IsStudent() && s.CurrentStudentId().None?
    ensures s.isAuthenticated ==> s.IsAdmin() != s.IsStudent()
    ensures s.user.Some? ==> (s.IsAdmin() <==> s.user.value.role == Admin) && (s.IsStudent() <==> s.user.value.role == StudentRole)
  {
  }

  /** A seed student who logs in is a student whose id is their own. */
  lemma SeedStudentSession(s: AuthState, i: nat)
    requires s.Valid() && 1 <= i < |Users| && s.user == Some(Users[i])
    ensures s.IsStudent() && !s.IsAdmin()
    ensures s.CurrentStudentId() == Users[i].studentId
  {
    SeedStudentAccounts();
    assert Users[i].studentId.value != "";
  }
}
