/**
 * The login form: the checks `handleSubmit` makes before it sends
 * anything, in their fixed order, and the switch between signing in and
 * registering.
 */
module LoginPage {
  import opened Common

  /** The form's state. */
  datatype Form = Form(
    isRegistering: bool,
    username: string,
    password: string,
    confirmPassword: string,
    error: string,
    loading: bool)

  const MIN_PASSWORD_LENGTH := 6

  /** The first failing check, if any: a blank username, then an empty
      password, then (only when registering) a short password, then a
      confirmation that differs. */
  function ValidationError(f: Form): (r: Option<string>)
    ensures r.None? <==> && !IsBlank(f.username)
                         && f.password != ""
                         && (f.isRegistering ==> |f.password| >= MIN_PASSWORD_LENGTH && f.password == f.confirmPassword)
  {
    TrimEmptyIffBlank(f.username);
    if Trim(f.username) == "" then Some("Username is required")
    else if f.password == "" then Some("Password is required")
    else if f.isRegistering && |f.password| < MIN_PASSWORD_LENGTH then Some("Password must be at least 6 characters")
    else if f.isRegistering && f.password != f.confirmPassword then Some("Passwords do not match")
    else None
  }

  /** The username check comes first, whatever else is wrong. */
  lemma BlankUsernameReportedFirst(f: Form)
    requires IsBlank(f.username)
    ensures ValidationError(f) == Some("Username is required")
  {
    TrimEmptyIffBlank(f.username);
  }

  /** With a username given, an empty password is reported, in either mode. */
  lemma EmptyPasswordReported(f: Form)
    requires !IsBlank(f.username) && f.password == ""
    ensures ValidationError(f) == Some("Password is required")
  {
    TrimEmptyIffBlank(f.username);
  }

  /** A short password is reported before a mismatched confirmation. */
  lemma ShortPasswordBeforeMismatch(f: Form)
    requires !IsBlank(f.username) && f.isRegistering && 0 < |f.password| < MIN_PASSWORD_LENGTH
    ensures ValidationError(f) == Some("Password must be at least 6 characters")
  {
    TrimEmptyIffBlank(f.username);
  }

  /** When registering with a long enough password, a confirmation that
      differs is reported. */
  lemma MismatchReported(f: Form)
    requires !IsBlank(f.username) && f.isRegistering
    requires |f.password| >= MIN_PASSWORD_LENGTH && f.password != f.confirmPassword
    ensures ValidationError(f) == Some("Passwords do not match")
  {
    TrimEmptyIffBlank(f.username);
  }

  /** Signing in checks neither the length nor the confirmation. */
  lemma SignInSkipsRegisterChecks(f: Form)
    requires !f.isRegistering && !IsBlank(f.username) && f.password != ""
    ensures ValidationError(f).None?
  {
  }

  /** A request the form sends. */
  datatype Request = Register(username: string, password: string) | SignIn(username: string, password: string)

  /** `handleSubmit` up to the first network call: on a failed check the
      error is shown and nothing is sent; otherwise the form goes into its
      loading state and sends registration (when registering) and sign-in. */
  function HandleSubmit(f: Form): (r: (Form, seq<Request>))
    ensures r.1 == [] <==> ValidationError(f).Some?
    ensures ValidationError(f).Some? ==> r.0 == f.(error := ValidationError(f).value)
    ensures ValidationError(f).None? ==>
              && r.0 == f.(error := "", loading := true)
              && r.1 == (if f.isRegistering then [Register(f.username, f.password)] else [])
                        + [SignIn(f.username, f.password)]
  {
    match ValidationError(f)
    case Some(message) => (f.(error := message), [])
    case None =>
      var signIn := SignIn(f.username, f.password);
      (f.(error := "", loading := true),
       if f.isRegistering then [Register(f.username, f.password), signIn] else [signIn])
  }

  /** `toggleMode`. */
  function ToggleMode(f: Form): (r: Form)
    ensures r.isRegistering == !f.isRegistering
    ensures r.error == "" && r.password == "" && r.confirmPassword == ""
    ensures r.username == f.username && r.loading == f.loading
  {
    f.(isRegistering := !f.isRegistering, error := "", password := "", confirmPassword := "")
  }

  /** Right after a switch of mode, submitting asks for the password again
      (the username is kept). */
  lemma ToggleThenSubmit(f: Form)
    requires !IsBlank(f.username)
    ensures ValidationError(ToggleMode(f)) == Some("Password is required")
    ensures HandleSubmit(ToggleMode(f)).1 == []
  {
    TrimEmptyIffBlank(f.username);
  }
}
