/** The login page: it validates the two fields, calls the provider's
    `login`, and reports the outcome; a signed-in visitor is sent home. */
module LoginPage {
  import opened Values
  import opened Numbers
  import opened AuthContext

  const MissingFields: string := "Please enter both username and password"
  const InvalidCredentials: string := "Invalid username or password"
  const LoginFailed: string := "Failed to log in. Please try again."

  /** What the page renders. */
  datatype Screen = RedirectHome | LoginForm

  /** `if (currentUser) return <Navigate to="/" />`. */
  function View(a: AuthState): (v: Screen)
    ensures v == RedirectHome <==> a.currentUser.Some?
  {
    if a.currentUser.Some? then RedirectHome else LoginForm
  }

  /** The form's state; `attempts` records each username passed to `login`. */
  datatype FormState = FormState(
    username: string, password: string, error: string, loading: bool,
    navigatedTo: Option<string>, attempts: seq<string>)

  /** `!username.trim() || !password`: nothing but whitespace, or no password. */
  predicate Blank(username: string, password: string) {
    (forall i :: 0 <= i < |username| ==> IsSpace(JsBlanks, username[i])) || password == ""
  }

  /** The validation is exactly the trimmed-empty test. */
  lemma BlankIsTrimmedEmpty(username: string, password: string)
    ensures Blank(username, password) <==> Trim(JsBlanks, username) == "" || password == ""
  {
    TrimBlank(JsBlanks, username);
  }

  /** A username of Unicode spaces alone is blank too: `trim` removes the
      no-break space and the ideographic space. */
  lemma UnicodeSpacesBlank(password: string)
    ensures Blank("\U{00A0}\U{3000}", password)
  {
  }

  /** `handleSubmit`, with `writable` deciding whether the provider's
      storage write succeeds. */
  function Submit(f: FormState, a: AuthState, writable: bool): (r: (FormState, AuthState))
    ensures Blank(f.username, f.password) ==> r == (f.(error := MissingFields), a)
    ensures !Blank(f.username, f.password) ==>
      && !r.0.loading
      && r.0.attempts == f.attempts + [f.username]
      && r.1 == LoginAuth(a, f.username, f.password, writable).1
  {
    if Blank(f.username, f.password) then (f.(error := MissingFields), a)
    else
      var r := LoginAuth(a, f.username, f.password, writable);
      (Report(f.(attempts := f.attempts + [f.username], loading := false), r.0), r.1)
  }

  /** The message or navigation for a `login` outcome. */
  function Report(f: FormState, outcome: LoginOutcome): FormState {
    match outcome
    case Accepted => f.(error := "", navigatedTo := Some("/"))
    case Rejected => f.(error := InvalidCredentials)
    case Threw => f.(error := LoginFailed)
  }

  /** A filled-in submit ends in exactly one of three ways: home for the
      administrator's credentials over a writable store, the invalid
      message for other credentials, the failure message when the store
      throws. */
  lemma SubmitOutcomes(f: FormState, a: AuthState, writable: bool)
    requires !Blank(f.username, f.password)
    ensures var (g, _) := Submit(f, a, writable);
      && (g.navigatedTo == Some("/") && g.error == "" <==> ValidCredentials(f.username, f.password) && writable)
      && (g.error == InvalidCredentials <==> !ValidCredentials(f.username, f.password))
      && (g.error == LoginFailed <==> ValidCredentials(f.username, f.password) && !writable)
      && (!ValidCredentials(f.username, f.password) || !writable ==> g.navigatedTo == f.navigatedTo)
  {
  }

  /** Validation trims, `login` does not: a padded administrator name
      passes validation and is then refused. */
  lemma PaddedUsernameRefused(f: FormState, a: AuthState, writable: bool)
    requires f.username == " admin" && f.password == AdminPassword
    ensures !Blank(f.username, f.password)
    ensures Submit(f, a, writable).0.error == InvalidCredentials
    ensures Submit(f, a, writable).1 == a
  {
    assert !IsSpace(JsBlanks, f.username[1]);
  }

  /** A successful submit leaves the visitor signed in, so the page now
      redirects home; so does one whose storage write threw, because the
      user was set before the write. */
  lemma SignedInAfterLogin(f: FormState, a: AuthState, writable: bool)
    requires !Blank(f.username, f.password) && ValidCredentials(f.username, f.password)
    ensures View(Submit(f, a, writable).1) == RedirectHome
  {
  }

  /** The page's component state. */
  class LoginPage {
    var username: string
    var password: string
    var error: string
    var loading: bool
    var navigatedTo: Option<string>
    var attempts: seq<string>

    function State(): FormState
      reads this
    {
      FormState(username, password, error, loading, navigatedTo, attempts)
    }

    constructor ()
      ensures State() == FormState("", "", "", false, None, [])
    {
      username, password, error, loading, navigatedTo, attempts := "", "", "", false, None, [];
    }

    method SetUsername(v: string)
      modifies this
      ensures State() == old(State()).(username := v)
    {
      username := v;
    }

    method SetPassword(v: string)
      modifies this
      ensures State() == old(State()).(password := v)
    {
      password := v;
    }

    /** `handleSubmit`: validation, then `login`, then the message, with
        `loading` cleared in the `finally` clause. */
    method HandleSubmit(auth: AuthProvider, writable: bool)
      modifies this, auth
      ensures (State(), auth.State()) == Submit(old(State()), old(auth.State()), writable)
    {
      if Blank(username, password) {
        error := MissingFields;
        return;
      }
      ghost var f0 := State();
      error := "";
      loading := true;
      attempts := attempts + [username];
      var outcome := auth.Login(username, password, writable);
      ghost var f2 := f0.(attempts := f0.attempts + [f0.username], loading := false);
      match outcome {
        case Accepted => navigatedTo := Some("/");
        case Rejected => error := InvalidCredentials;
        case Threw => error := LoginFailed;
      }
      loading := false;
      assert State() == Report(f2, outcome);
    }
  }
}
