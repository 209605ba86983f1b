/** The login page: the form schema, the default form, and how a submitted
    form or a quick-role button becomes the session user. */
module Login {
  import opened Wrappers
  import opened Types
  import opened Auth
  import opened ProtectedRoute

  /** The raw form values; the role is whatever string the select holds. */
  datatype LoginForm = LoginForm(username: string, password: string, role: string)

  /** The values the form starts with: empty name and password, role VIEWER. */
  const DefaultForm: LoginForm := LoginForm("", "", "VIEWER")

  /** The values that passed the schema. */
  datatype Credentials = Credentials(username: string, password: string, role: Role)

  /** One schema violation per field. */
  datatype FormError = UsernameTooShort | PasswordTooShort | InvalidRole

  /** The messages the schema attaches to the two length rules; the role
      enumeration uses the validator library's own message, not modelled. */
  function Message(e: FormError): (r: Option<string>)
    ensures r.Some? <==> e != InvalidRole
    ensures e == UsernameTooShort ==> r == Some("Username must be at least 2 characters")
    ensures e == PasswordTooShort ==> r == Some("Password must be at least 4 characters")
  {
    match e
    case UsernameTooShort => Some("Username must be at least 2 characters")
    case PasswordTooShort => Some("Password must be at least 4 characters")
    case InvalidRole => None
  }

  /** The schema: username of length at least 2, password of length at least
      4, role one of the four names. All violations are reported, field by
      field. */
  function Validate(form: LoginForm): (r: Result<Credentials, seq<FormError>>)
    ensures r.Success? <==> |form.username| >= 2 && |form.password| >= 4 && ParseRole(form.role).Some?
    ensures r.Success? ==> r.value.username == form.username && r.value.password == form.password
                           && RoleName(r.value.role) == form.role
    ensures r.Failure? ==> 0 < |r.error| <= 3
    ensures r.Failure? ==> (UsernameTooShort in r.error <==> |form.username| < 2)
    ensures r.Failure? ==> (PasswordTooShort in r.error <==> |form.password| < 4)
    ensures r.Failure? ==> (InvalidRole in r.error <==> ParseRole(form.role).None?)
  {
    var errors :=
      (if |form.username| < 2 then [UsernameTooShort] else []) +
      (if |form.password| < 4 then [PasswordTooShort] else []) +
      (if ParseRole(form.role).None? then [InvalidRole] else []);
    if errors == [] then Success(Credentials(form.username, form.password, ParseRole(form.role).value))
    else Failure(errors)
  }

  /** A short username or password rejects the form and reports the
      schema's message for that field. */
  lemma ShortFieldsReportTheirMessages(form: LoginForm)
    ensures |form.username| < 2 ==>
      Validate(form).Failure? && exists e :: e in Validate(form).error && Message(e) == Some("Username must be at least 2 characters")
    ensures |form.password| < 4 ==>
      Validate(form).Failure? && exists e :: e in Validate(form).error && Message(e) == Some("Password must be at least 4 characters")
  {
  }

  /** The untouched default form is rejected for both lengths, not its role. */
  lemma DefaultFormRejected()
    ensures Validate(DefaultForm) == Failure([UsernameTooShort, PasswordTooShort])
  {
    ParseRoleName(Viewer);
    assert ParseRole(DefaultForm.role).Some?;
    assert [UsernameTooShort] + [PasswordTooShort] + [] == [UsernameTooShort, PasswordTooShort];
  }

  /** The session id: `crypto.randomUUID` when it exists and gives a
      non-empty string, otherwise "u1". */
  function SessionId(uuid: Option<string>): (id: string)
    ensures id != ""
    ensures uuid.Some? && uuid.value != "" ==> id == uuid.value
    ensures uuid.None? || uuid.value == "" ==> id == "u1"
  {
    if uuid.Some? && uuid.value != "" then uuid.value else "u1"
  }

  /** Where both login paths navigate. */
  const DashboardPath: string := "/dashboard"

  /** The submit handler proper: log in as the form's name and role (the
      password is not kept) and go to the dashboard. */
  method OnSubmit(auth: AuthStore, values: Credentials, uuid: Option<string>) returns (path: string)
    modifies auth
    ensures auth.user == Some(User(SessionId(uuid), values.username, values.role, None))
    ensures path == DashboardPath
  {
    auth.Login(User(SessionId(uuid), values.username, values.role, None));
    path := DashboardPath;
  }

  datatype SubmitResult = Rejected(errors: seq<FormError>) | Navigated(path: string)

  /** Submitting the form: the schema runs first; a rejected form shows its
      errors and leaves the session alone, a valid one goes to `OnSubmit`. */
  method Submit(auth: AuthStore, form: LoginForm, uuid: Option<string>) returns (r: SubmitResult)
    modifies auth
    ensures Validate(form).Failure? ==> r == Rejected(Validate(form).error) && auth.user == old(auth.user)
    ensures Validate(form).Success? ==>
      r == Navigated(DashboardPath) &&
      auth.user == Some(User(SessionId(uuid), form.username, ParseRole(form.role).value, None))
  {
    var checked := Validate(form);
    if checked.Failure? {
      r := Rejected(checked.error);
    } else {
      var path := OnSubmit(auth, checked.value, uuid);
      r := Navigated(path);
    }
  }

  /** The quick-role buttons, in page order: a fixed name for each role. */
  const QuickRoles: seq<(string, Role)> :=
    [("alice.admin", Admin), ("ben.broker", Broker), ("amy.analyst", Analyst), ("vic.viewer", Viewer)]

  /** A quick-role button logs in directly, with no validation. */
  method QuickLogin(auth: AuthStore, name: string, role: Role, uuid: Option<string>) returns (path: string)
    modifies auth
    ensures auth.user == Some(User(SessionId(uuid), name, role, None))
    ensures path == DashboardPath
  {
    auth.Login(User(SessionId(uuid), name, role, None));
    path := DashboardPath;
  }

  /** The `i`-th quick-role button: logs in with that button's fixed name
      and role and goes to the dashboard. */
  method QuickRoleButton(auth: AuthStore, i: nat, uuid: Option<string>) returns (path: string)
    requires i < |QuickRoles|
    modifies auth
    ensures auth.user == Some(User(SessionId(uuid), QuickRoles[i].0, QuickRoles[i].1, None))
    ensures path == DashboardPath
  {
    path := QuickLogin(auth, QuickRoles[i].0, QuickRoles[i].1, uuid);
  }

  /** Each role has exactly one quick-role button. */
  lemma QuickRolesCoverEveryRole(role: Role)
    ensures exists i :: 0 <= i < |QuickRoles| && QuickRoles[i].1 == role
    ensures forall i, j :: 0 <= i < j < |QuickRoles| ==> QuickRoles[i].1 != QuickRoles[j].1
  {
    match role
    case Admin => assert QuickRoles[0].1 == role;
    case Broker => assert QuickRoles[1].1 == role;
    case Analyst => assert QuickRoles[2].1 == role;
    case Viewer => assert QuickRoles[3].1 == role;
  }

  /** A quick-role button is a shortcut for a form the schema would accept:
      its name passes the username rule, and with any password of length at
      least 4 the form yields the same name and role. */
  lemma QuickLoginIsAValidForm(i: nat, password: string)
    requires i < |QuickRoles| && |password| >= 4
    ensures Validate(LoginForm(QuickRoles[i].0, password, RoleName(QuickRoles[i].1))) ==
            Success(Credentials(QuickRoles[i].0, password, QuickRoles[i].1))
  {
  }

  /** The authentication flows of the end-to-end suite on a fresh session:
      the dashboard redirects to login, a quick Admin login reaches it, and
      after logout it redirects to login again. The logout button the suite
      clicks is not part of this model; the store's `Logout` is called directly. */
  method QuickLoginThenLogout(uuid: Option<string>) returns (before: Outcome, during: Outcome, after: Outcome)
    ensures before == RedirectToLogin
    ensures during == Allow
    ensures after == RedirectToLogin
  {
    var auth := new AuthStore();
    before := Guard(auth.user, DashboardRoles);
    var path := QuickRoleButton(auth, 0, uuid);
    during := Guard(auth.user, DashboardRoles);
    auth.Logout();
    after := Guard(auth.user, DashboardRoles);
  }

  /** A valid form submission always reaches the dashboard, whatever role
      was chosen. */
  lemma ValidSubmissionReachesDashboard(form: LoginForm, uuid: Option<string>)
    requires Validate(form).Success?
    ensures Guard(Some(User(SessionId(uuid), form.username, Validate(form).value.role, None)), DashboardRoles) == Allow
  {
  }
}
