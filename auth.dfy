/** The built-in accounts and the credential check of the login page. */
module Auth {
  import opened Wrappers
  import opened Seqs
  import opened Text

  datatype UserRole = Admin | StudentRole

  /** An account; only student accounts name the student they belong to. */
  datatype User = User(id: string, email: string, password: string, role: UserRole,
                       studentId: Option<string>, name: string)

  /** `users`: one administrator and six students. */
  const Users: seq<User> := [
    User("admin-1", "admin@universidad.edu", "admin123", Admin, None, "Administrador"),
    User("student-1", "maria.garcia@universidad.edu", "estudiante123", StudentRole, Some("1"), "María García López"),
    User("student-2", "carlos.martinez@universidad.edu", "estudiante123", StudentRole, Some("2"), "Carlos Martínez Ruiz"),
    User("student-3", "ana.rodriguez@universidad.edu", "estudiante123", StudentRole, Some("3"), "Ana Rodríguez Fernández"),
    User("student-4", "pablo.sanchez@universidad.edu", "estudiante123", StudentRole, Some("4"), "Pablo Sánchez Torres"),
    User("student-6", "diego.lopez@universidad.edu", "estudiante123", StudentRole, Some("6"), "Diego López Moreno"),
    User("student-8", "adrian.ruiz@universidad.edu", "estudiante123", StudentRole, Some("8"), "Adrián Ruiz Navarro")
  ]

  /** The login test: e-mail equal up to case, password exactly equal. */
  predicate Matches(u: User, emailKey: string, password: string) {
    LowerCase(u.email) == emailKey && u.password == password
  }

  /** `users.find(...) || null` over any list of accounts: the first account
      that matches, or nothing. */
  function AuthenticateIn(users: seq<User>, email: string, password: string): (r: Option<User>)
    ensures r.Some? ==> r.value in users && r.value.password == password
                        && LowerCase(r.value.email) == LowerCase(email)
    ensures r.None? <==> forall i :: 0 <= i < |users| ==> !Matches(users[i], LowerCase(email), password)
    ensures r.Some? ==> exists i :: 0 <= i < |users| && users[i] == r.value
                          && forall j :: 0 <= j < i ==> !Matches(users[j], LowerCase(email), password)
  {
    var key := LowerCase(email);
    match FindIndex(users, (u: User) => Matches(u, key, password))
    case Some(i) => Some(users[i])
    case None => None
  }

  /** `authenticateUser`: the login test over the built-in accounts. */
  function AuthenticateUser(email: string, password: string): (r: Option<User>)
    ensures r.Some? ==> r.value in Users && r.value.password == password
                        && LowerCase(r.value.email) == LowerCase(email)
    ensures r.None? <==> forall i :: 0 <= i < |Users| ==> !Matches(Users[i], LowerCase(email), password)
  {
    AuthenticateIn(Users, email, password)
  }

  /** When the e-mails start with pairwise different heads of three small
      letters, each account logs in with its own e-mail and password and is
      the account found. */
  lemma OwnCredentialsFindOwnAccount(users: seq<User>, heads: seq<string>, k: nat)
    requires k < |users| == |heads| && NoDuplicates(heads)
    requires forall i :: 0 <= i < |users| ==> |heads[i]| == 3 && 3 <= |users[i].email|
    requires forall i :: 0 <= i < |users| ==> users[i].email[..3] == heads[i]
    requires forall i, m :: 0 <= i < |heads| && 0 <= m < |heads[i]| ==> 'a' <= heads[i][m] <= 'z'
    ensures AuthenticateIn(users, users[k].email, users[k].password) == Some(users[k])
  {
    var u := users[k];
    var r := AuthenticateIn(users, u.email, u.password);
    assert Matches(users[k], LowerCase(u.email), u.password);
    var i :| 0 <= i < |users| && users[i] == r.value
             && forall j :: 0 <= j < i ==> !Matches(users[j], LowerCase(u.email), u.password);
    if i < k {
      LowerKeepsHead(users[i].email, heads[i]);
      LowerKeepsHead(u.email, heads[k]);
    }
  }

  /** Every built-in account logs in with its own e-mail and password and
      is the account found. */
  lemma SeedAccountLogsIn(k: nat)
    requires k < |Users|
    ensures AuthenticateUser(Users[k].email, Users[k].password) == Some(Users[k])
  {
    UserEmailHeads();
    EmailHeadsLower();
    EmailHeadsDistinct();
    OwnCredentialsFindOwnAccount(Users, EmailHeads, k);
  }

  /** A password no built-in account has never logs in. */
  lemma UnknownPasswordFails(email: string, password: string)
    requires password != "admin123" && password != "estudiante123"
    ensures AuthenticateUser(email, password) == None
  {
    SeedPasswords();
  }

  lemma SeedPasswords()
    ensures forall i :: 0 <= i < |Users| ==> Users[i].password == "admin123" || Users[i].password == "estudiante123"
  {
  }

  /** Typing the e-mail in capitals or small letters gives the same answer. */
  lemma AuthenticateIgnoresCase(users: seq<User>, email: string, password: string)
    ensures AuthenticateIn(users, UpperCase(email), password) == AuthenticateIn(users, email, password)
    ensures AuthenticateIn(users, LowerCase(email), password) == AuthenticateIn(users, email, password)
  {
    LowerCaseIgnoresCase(email);
  }

  /** `getUserByStudentId` over any list of accounts. */
  function UserByStudentIdIn(users: seq<User>, studentId: string): (r: Option<User>)
    ensures r.Some? ==> r.value in users && r.value.studentId == Some(studentId)
    ensures r.None? <==> forall i :: 0 <= i < |users| ==> users[i].studentId != Some(studentId)
    ensures r.Some? ==> exists i :: 0 <= i < |users| && users[i] == r.value && forall j :: 0 <= j < i ==> users[j].studentId != Some(studentId)
  {
    Find(users, (u: User) => u.studentId == Some(studentId))
  }

  /** `getUserByStudentId` over the built-in accounts. */
  function UserByStudentId(studentId: string): (r: Option<User>)
    ensures r.Some? ==> r.value in Users && r.value.studentId == Some(studentId)
    ensures r.None? <==> forall i :: 0 <= i < |Users| ==> Users[i].studentId != Some(studentId)
  {
    UserByStudentIdIn(Users, studentId)
  }

  /** An account that names a student no earlier account names is the one
      found by that student id. */
  lemma FirstWithStudentId(users: seq<User>, k: nat)
    requires k < |users| && users[k].studentId.Some?
    requires forall j :: 0 <= j < k ==> users[j].studentId != users[k].studentId
    ensures UserByStudentIdIn(users, users[k].studentId.value) == Some(users[k])
  {
    var r := UserByStudentIdIn(users, users[k].studentId.value);
    var i :| 0 <= i < |users| && users[i] == r.value
             && forall j :: 0 <= j < i ==> users[j].studentId != users[k].studentId;
    assert i <= k;
  }

  /** No two built-in accounts name the same student. */
  lemma SeedStudentIdsDistinct()
    ensures forall i, j :: 0 <= i < j < |Users| ==> Users[i].studentId != Users[j].studentId
  {
  }

  /** Each built-in student account is the one found by its own student id. */
  lemma SeedStudentFound(k: nat)
    requires 0 < k < |Users|
    ensures UserByStudentId(Users[k].studentId.value) == Some(Users[k])
  {
    SeedStudentIdsDistinct();
    FirstWithStudentId(Users, k);
  }

  /** An account without a student, such as the administrator's, is never
      found by student id. */
  lemma AdminNotFoundByStudentId(studentId: string)
    ensures UserByStudentId(studentId) != Some(Users[0])
    ensures UserByStudentId(studentId).Some? ==> UserByStudentId(studentId).value.role == StudentRole
  {
    SeedStudentAccounts();
  }

  predicate IsAdminUser(u: User) {
    u.role == Admin
  }

  /** Exactly the student accounts of the seed name a student. */
  lemma SeedStudentAccounts()
    ensures forall i :: 0 <= i < |Users| ==> (Users[i].role == StudentRole <==> Users[i].studentId.Some?)
  {
  }

  /** The seed has one administrator, its first account. */
  lemma SeedOneAdmin()
    ensures Count(Users, IsAdminUser) == 1
  {
    assert Users[0].role == Admin && forall i :: 1 <= i < |Users| ==> Users[i].role == StudentRole;
    CountOnlyFirst(Users, IsAdminUser);
  }

  /** The first three letters of each seed e-mail. */
  const EmailHeads: seq<string> := ["adm", "mar", "car", "ana", "pab", "die", "adr"]

  /** No two seed accounts share an e-mail. */
  lemma SeedEmailsDistinct()
    ensures forall i, j :: 0 <= i < j < |Users| ==> Users[i].email != Users[j].email
  {
    UserEmailHeads();
    EmailHeadsDistinct();
    forall i, j | 0 <= i < j < |Users|
      ensures Users[i].email != Users[j].email
    {
      assert Users[i].email[..3] != Users[j].email[..3];
    }
  }

  lemma UserEmailHeads()
    ensures |Users| == 7
    ensures forall i :: 0 <= i < 7 ==> |Users[i].email| >= 3 && Users[i].email[..3] == EmailHeads[i]
  {
  }

  /** Lowering a string keeps a head made of small letters. */
  lemma LowerKeepsHead(e: string, h: string)
    requires |h| <= |e| && e[..|h|] == h
    requires forall m :: 0 <= m < |h| ==> 'a' <= h[m] <= 'z'
    ensures LowerCase(e)[..|h|] == h
  {
    forall m | 0 <= m < |h|
      ensures LowerCase(e)[m] == h[m]
    {
      assert e[m] == h[m];
    }
  }

  lemma EmailHeadsLower()
    ensures |EmailHeads| == 7
    ensures forall i, m :: 0 <= i < 7 && 0 <= m < |EmailHeads[i]| ==> 'a' <= EmailHeads[i][m] <= 'z'
    ensures forall i :: 0 <= i < 7 ==> |EmailHeads[i]| == 3
  {
  }

  lemma EmailHeadsDistinct()
    ensures NoDuplicates(EmailHeads)
  {
  }
}
