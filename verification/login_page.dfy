/** The login screen: a two-field form with a password-length rule and a
    mock authenticator that accepts exactly one e-mail address after a
    simulated delay. The submission is split into its two halves: the
    click, which clears the error and starts loading, and the reply, which
    ends loading with either success or an error message. */
module LoginPage {
  import opened Options

  datatype Credentials = Credentials(email: string, password: string)

  const DemoEmail := "test@example.com"
  const WrongEmailMessage := "Invalid email or password. Try test@example.com"
  const EmailMessage := "Please enter a valid email address"
  const PasswordMessage := "Password must be at least 6 characters"
  const MinPasswordLength := 6

  datatype LoginState = LoginState(
    serverError: Option<string>,
    loading: bool,
    isSuccess: bool,
    showPassword: bool,
    /** the credentials the pending request carries */
    pending: Option<Credentials>)

  const InitialState := LoginState(None, false, false, false, None)

  datatype Event =
    | Submitted(credentials: Credentials)
    | ReplyArrived
    | PasswordVisibilityToggled

  function PasswordIssue(password: string): Option<string> {
    if |password| < MinPasswordLength then Some(PasswordMessage) else None
  }

  /** The form passes validation; the e-mail grammar is a parameter. */
  predicate FormValid(c: Credentials, isEmail: string -> bool) {
    isEmail(c.email) && PasswordIssue(c.password) == None
  }

  /** Once login succeeds the screen shows only the success card, so no
      form control exists; the submit button is disabled while loading, and
      the submit handler runs only for a valid form. */
  predicate Enabled(s: LoginState, e: Event, isEmail: string -> bool) {
    match e
    case Submitted(c) => !s.isSuccess && !s.loading && FormValid(c, isEmail)
    case ReplyArrived => s.pending.Some?
    case PasswordVisibilityToggled => !s.isSuccess
  }

  function Apply(s: LoginState, e: Event): LoginState {
    match e
    case Submitted(c) => s.(serverError := None, loading := true, pending := Some(c))
    case ReplyArrived =>
      if s.pending.None? then s
      else if s.pending.value.email != DemoEmail then
        s.(serverError := Some(WrongEmailMessage), loading := false, pending := None)
      else
        s.(isSuccess := true, loading := false, pending := None)
    case PasswordVisibilityToggled => s.(showPassword := !s.showPassword)
  }

  function Step(s: LoginState, e: Event, isEmail: string -> bool): LoginState {
    if Enabled(s, e, isEmail) then Apply(s, e) else s
  }

  function Run(s: LoginState, es: seq<Event>, isEmail: string -> bool): LoginState
    decreases |es|
  {
    if es == [] then s else Run(Step(s, es[0], isEmail), es[1..], isEmail)
  }

  /** A request is pending exactly while loading. */
  predicate Invariant(s: LoginState) {
    s.loading <==> s.pending.Some?
  }

  // ---------------------------------------------------------------------
  // Properties

  /** The password rule: at least six characters. */
  lemma PasswordRule(password: string)
    ensures PasswordIssue(password) == None <==> |password| >= 6
  {
  }

  lemma StepPreservesInvariant(s: LoginState, e: Event, isEmail: string -> bool)
    requires Invariant(s)
    ensures Invariant(Step(s, e, isEmail))
  {
  }

  /** While the request is pending the error is cleared and the screen is
      loading. */
  lemma SubmissionStartsLoading(s: LoginState, c: Credentials, isEmail: string -> bool)
    requires Enabled(s, Submitted(c), isEmail)
    ensures var t := Step(s, Submitted(c), isEmail);
            t.loading && t.serverError == None && t.isSuccess == s.isSuccess
  {
  }

  /** A completed submission succeeds iff the e-mail is the demo address;
      otherwise it shows the wrong-credentials message. Either way loading
      ends, and success leaves no error. */
  lemma SubmissionOutcome(s: LoginState, c: Credentials, isEmail: string -> bool)
    requires Enabled(s, Submitted(c), isEmail)
    ensures var t := Step(Step(s, Submitted(c), isEmail), ReplyArrived, isEmail);
            && (t.isSuccess <==> c.email == DemoEmail)
            && (t.serverError == if c.email == DemoEmail then None else Some(WrongEmailMessage))
            && !t.loading
  {
  }

  /** Success is absorbing: no event turns it off. */
  lemma SuccessIsAbsorbing(s: LoginState, e: Event, isEmail: string -> bool)
    requires s.isSuccess
    ensures Step(s, e, isEmail).isSuccess
  {
  }

  /** Success is never lost over any sequence of events. */
  lemma {:induction false} SuccessPersists(s: LoginState, es: seq<Event>, isEmail: string -> bool)
    requires s.isSuccess
    ensures Run(s, es, isEmail).isSuccess
    decreases |es|
  {
    if es != [] {
      SuccessIsAbsorbing(s, es[0], isEmail);
      SuccessPersists(Step(s, es[0], isEmail), es[1..], isEmail);
    }
  }

  /** Success comes only from a reply to a request that carried the demo
      address. */
  lemma SuccessOnlyFromDemoEmail(s: LoginState, e: Event, isEmail: string -> bool)
    requires !s.isSuccess && Step(s, e, isEmail).isSuccess
    ensures e == ReplyArrived && s.pending.Some? && s.pending.value.email == DemoEmail
  {
  }
}
