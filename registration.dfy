/**
 * Account registration: the register serializer's field rules, its two
 * uniqueness checks against the user table, and `create`, which inserts the
 * user and then an empty profile for it. Django's password strength check
 * is a parameter (`passwordAccepted`); the database's choice of a new id is
 * the parameter `newId`.
 */
module Registration {
  import opened Wrappers
  import opened Text

  const NAME_MAX_LENGTH: nat := 150

  const EMAIL_TAKEN: string := "A user with this email already exists."
  const USERNAME_TAKEN: string := "A user with this username already exists."

  /** The fields of the register form, which also key its error report. */
  datatype RegisterField = Email | Username | Password | FirstName | LastName

  /** A register request; `None` for a field it leaves out. */
  datatype RegisterRequest = RegisterRequest(
    email: Option<string>,
    username: Option<string>,
    password: Option<string>,
    firstName: Option<string>,
    lastName: Option<string>)

  /** Why a field was refused. */
  datatype RegisterIssue = Required | Refused(reason: FieldError) | Taken(message: string) | WeakPassword

  /** A row of the user table. */
  datatype User = User(email: string, username: string, password: string, firstName: string, lastName: string)

  predicate EmailTaken(users: map<nat, User>, email: string) {
    exists id :: id in users && users[id].email == email
  }

  predicate UsernameTaken(users: map<nat, User>, username: string) {
    exists id :: id in users && users[id].username == username
  }

  /**
   * A text field's own rules, then the serializer's extra check, which runs
   * only on a value that passed them; `refused` is that check's verdict on
   * the cleaned value.
   */
  function CheckedText(raw: string, maxLength: Option<nat>, refused: bool, issue: RegisterIssue): (r: Result<string, RegisterIssue>)
    ensures r.Success? <==> CharField(raw, maxLength).Success? && !refused
    ensures r.Success? ==> r.value == Strip(raw)
    ensures CharField(raw, maxLength).Failure? ==> r == Failure(Refused(CharField(raw, maxLength).error))
    ensures CharField(raw, maxLength).Success? && refused ==> r == Failure(issue)
  {
    match CharField(raw, maxLength)
    case Failure(e) => Failure(Refused(e))
    case Success(v) => if refused then Failure(issue) else Success(v)
  }

  /** An optional name: absent means empty, present means a non-blank name of at most 150 characters. */
  function OptionalName(raw: Option<string>): (r: Result<string, RegisterIssue>)
    ensures raw.None? ==> r == Success("")
    ensures raw.Some? ==> (r.Success? <==> CharField(raw.value, Some(NAME_MAX_LENGTH)).Success?)
    ensures raw.Some? && r.Success? ==> r.value == Strip(raw.value)
    ensures raw.Some? && r.Failure? ==> r.error == Refused(CharField(raw.value, Some(NAME_MAX_LENGTH)).error)
    ensures r.Success? ==> |r.value| <= NAME_MAX_LENGTH
  {
    if raw.None? then Success("") else CheckedText(raw.value, Some(NAME_MAX_LENGTH), false, Required)
  }

  /** The outcome of one field: its cleaned value or why it was refused. */
  function FieldResult(users: map<nat, User>, req: RegisterRequest, passwordAccepted: bool, f: RegisterField): Result<string, RegisterIssue> {
    match f
    case Email =>
      if req.email.None? then Failure(Required)
      else CheckedText(req.email.value, None, EmailTaken(users, Strip(req.email.value)), Taken(EMAIL_TAKEN))
    case Username =>
      if req.username.None? then Failure(Required)
      else CheckedText(req.username.value, Some(NAME_MAX_LENGTH), UsernameTaken(users, Strip(req.username.value)), Taken(USERNAME_TAKEN))
    case Password =>
      if req.password.None? then Failure(Required)
      else CheckedText(req.password.value, None, !passwordAccepted, WeakPassword)
    case FirstName => OptionalName(req.firstName)
    case LastName => OptionalName(req.lastName)
  }

  const REGISTER_FIELDS: set<RegisterField> := {Email, Username, Password, FirstName, LastName}

  /** Every refused field with its reason. */
  function RegisterIssues(users: map<nat, User>, req: RegisterRequest, passwordAccepted: bool): map<RegisterField, RegisterIssue> {
    map f | f in REGISTER_FIELDS && FieldResult(users, req, passwordAccepted, f).Failure? ::
      FieldResult(users, req, passwordAccepted, f).error
  }

  /** A field is reported exactly when it is refused, and with its reason. */
  lemma IssueAt(users: map<nat, User>, req: RegisterRequest, passwordAccepted: bool, f: RegisterField)
    ensures f in RegisterIssues(users, req, passwordAccepted) <==> FieldResult(users, req, passwordAccepted, f).Failure?
  {
    assert f in REGISTER_FIELDS;
  }

  /** With an empty report every field passed. */
  lemma NoIssuesMeansFieldsPass(users: map<nat, User>, req: RegisterRequest, passwordAccepted: bool)
    requires RegisterIssues(users, req, passwordAccepted) == map[]
    ensures forall f :: FieldResult(users, req, passwordAccepted, f).Success?
  {
    forall f ensures FieldResult(users, req, passwordAccepted, f).Success? {
      IssueAt(users, req, passwordAccepted, f);
    }
  }

  /** An accepted email or username is the stripped input, non-empty, and not already stored. */
  lemma CredentialsAccepted(users: map<nat, User>, req: RegisterRequest, passwordAccepted: bool)
    requires FieldResult(users, req, passwordAccepted, Email).Success?
    requires FieldResult(users, req, passwordAccepted, Username).Success?
    ensures var email := FieldResult(users, req, passwordAccepted, Email).value;
      req.email.Some? && email == Strip(req.email.value) && email != [] && !EmailTaken(users, email)
    ensures var username := FieldResult(users, req, passwordAccepted, Username).value;
      && req.username.Some? && username == Strip(req.username.value)
      && username != [] && |username| <= NAME_MAX_LENGTH && !UsernameTaken(users, username)
  {
  }

  /** An accepted password is the stripped input. */
  lemma PasswordFieldAccepted(users: map<nat, User>, req: RegisterRequest, passwordAccepted: bool)
    requires FieldResult(users, req, passwordAccepted, Password).Success?
    ensures req.password.Some? && FieldResult(users, req, passwordAccepted, Password).value == Strip(req.password.value)
  {
    var c := CheckedText(req.password.value, None, !passwordAccepted, WeakPassword);
    assert FieldResult(users, req, passwordAccepted, Password) == c;
  }

  /** The two name fields follow the optional-name rule. */
  lemma NameFields(users: map<nat, User>, req: RegisterRequest, passwordAccepted: bool)
    ensures FieldResult(users, req, passwordAccepted, FirstName) == OptionalName(req.firstName)
    ensures FieldResult(users, req, passwordAccepted, LastName) == OptionalName(req.lastName)
  {
  }

  /** The register serializer: the new user's row, or the error report. */
  function ValidateRegister(users: map<nat, User>, req: RegisterRequest, passwordAccepted: bool): (r: Result<User, map<RegisterField, RegisterIssue>>)
    ensures r.Failure? <==> RegisterIssues(users, req, passwordAccepted) != map[]
    ensures r.Failure? ==> r.error == RegisterIssues(users, req, passwordAccepted)
    ensures r.Success? ==>
      && req.email.Some? && r.value.email == Strip(req.email.value) && r.value.email != []
      && req.username.Some? && r.value.username == Strip(req.username.value)
      && r.value.username != [] && |r.value.username| <= NAME_MAX_LENGTH
      && req.password.Some? && r.value.password == Strip(req.password.value)
      && (req.firstName.None? ==> r.value.firstName == "")
      && (req.firstName.Some? ==> r.value.firstName == Strip(req.firstName.value))
      && (req.lastName.None? ==> r.value.lastName == "")
      && (req.lastName.Some? ==> r.value.lastName == Strip(req.lastName.value))
      && |r.value.firstName| <= NAME_MAX_LENGTH && |r.value.lastName| <= NAME_MAX_LENGTH
      && !EmailTaken(users, r.value.email) && !UsernameTaken(users, r.value.username)
  {
    var issues := RegisterIssues(users, req, passwordAccepted);
    if issues != map[] then Failure(issues)
    else
      NoIssuesMeansFieldsPass(users, req, passwordAccepted);
      CredentialsAccepted(users, req, passwordAccepted);
      PasswordFieldAccepted(users, req, passwordAccepted);
      NameFields(users, req, passwordAccepted);
      Success(User(
        FieldResult(users, req, passwordAccepted, Email).value,
        FieldResult(users, req, passwordAccepted, Username).value,
        FieldResult(users, req, passwordAccepted, Password).value,
        FieldResult(users, req, passwordAccepted, FirstName).value,
        FieldResult(users, req, passwordAccepted, LastName).value))
  }

  /** The two uniqueness checks: a request that reuses a stored email or username is refused, and says which. */
  lemma DuplicatesRefused(users: map<nat, User>, req: RegisterRequest, passwordAccepted: bool, id: nat)
    requires id in users
    ensures req.email.Some? && CharField(req.email.value, None).Success? && users[id].email == Strip(req.email.value) ==>
      && ValidateRegister(users, req, passwordAccepted).Failure?
      && RegisterIssues(users, req, passwordAccepted)[Email] == Taken(EMAIL_TAKEN)
    ensures req.username.Some? && CharField(req.username.value, Some(NAME_MAX_LENGTH)).Success?
            && users[id].username == Strip(req.username.value) ==>
      && ValidateRegister(users, req, passwordAccepted).Failure?
      && RegisterIssues(users, req, passwordAccepted)[Username] == Taken(USERNAME_TAKEN)
  {
    if req.email.Some? && CharField(req.email.value, None).Success? && users[id].email == Strip(req.email.value) {
      assert EmailTaken(users, Strip(req.email.value));
      assert Email in RegisterIssues(users, req, passwordAccepted);
    }
    if req.username.Some? && CharField(req.username.value, Some(NAME_MAX_LENGTH)).Success?
       && users[id].username == Strip(req.username.value) {
      assert UsernameTaken(users, Strip(req.username.value));
      assert Username in RegisterIssues(users, req, passwordAccepted);
    }
  }

  /** No two users share an email or a username. */
  ghost predicate Unique(users: map<nat, User>) {
    && (forall a, b :: a in users && b in users && users[a].email == users[b].email ==> a == b)
    && (forall a, b :: a in users && b in users && users[a].username == users[b].username ==> a == b)
  }

  /** Adding a user whose email and username are both free keeps the table unique. */
  lemma InsertKeepsUnique(users: map<nat, User>, newId: nat, user: User)
    requires Unique(users) && newId !in users
    requires !EmailTaken(users, user.email) && !UsernameTaken(users, user.username)
    ensures Unique(users[newId := user])
  {
  }

  /** The user table and the ids that have a profile. */
  class Accounts {
    var users: map<nat, User>
    var profiles: set<nat>

    constructor ()
      ensures users == map[] && profiles == {}
    {
      users := map[];
      profiles := {};
    }

    /** Emails and usernames identify users, and every profile belongs to a user. */
    ghost predicate Valid()
      reads this
    {
      Unique(users) && profiles <= users.Keys
    }

    /** Validates the request; on success inserts exactly one user under `newId` and one profile for it. */
    method Register(req: RegisterRequest, passwordAccepted: bool, newId: nat)
      returns (r: Result<User, map<RegisterField, RegisterIssue>>)
      requires Valid() && newId !in users
      modifies this
      ensures Valid()
      ensures r == ValidateRegister(old(users), req, passwordAccepted)
      ensures r.Failure? ==> users == old(users) && profiles == old(profiles)
      ensures r.Success? ==> users == old(users)[newId := r.value] && profiles == old(profiles) + {newId}
    {
      r := ValidateRegister(users, req, passwordAccepted);
      if r.Success? {
        InsertKeepsUnique(users, newId, r.value);
        users := users[newId := r.value];
        profiles := profiles + {newId};
      }
    }
  }
}
