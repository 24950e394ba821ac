// The registration page: its field rules and where a successful registration
// leads — agents back to sign-in with a message, everyone else to the
// customer dashboard.
module SignUpPage {
  import opened Common
  import opened ClientRecords
  import opened AuthSession
  import opened SignInPage
  import opened AppRoutes

  /** A character the contact-number pattern admits: a digit, '+', '-', white space
      or a parenthesis. */
  predicate IsContactChar(c: char)
  {
    IsDigit(c) || c == '+' || c == '-' || IsJsSpace(c) || c == '(' || c == ')'
  }

  datatype SignUpForm = SignUpForm(name: string, email: string, contactNumber: string, role: string,
                                   password: string, confirmPassword: string)

  /** The name rule: required, at least 2 UTF-16 code units. */
  function NameError(name: string): (r: Option<FieldError>)
    ensures r.None? <==> Utf16Length(name) >= 2
    ensures name == "" ==> r == Some(Required)
  {
    if name == "" then Some(Required) else if Utf16Length(name) < 2 then Some(TooShort) else None
  }

  /** The contact-number rule: required, and at least 10 characters, all admitted. */
  function ContactError(contact: string): (r: Option<FieldError>)
    ensures r.None? <==> |contact| >= 10 && AllOf(contact, IsContactChar)
  {
    if contact == "" then Some(Required)
    else if !(|contact| >= 10 && AllOf(contact, IsContactChar)) then Some(BadPattern)
    else None
  }

  /** The account type must be chosen; its first option has the empty value. */
  function RoleError(role: string): (r: Option<FieldError>)
    ensures r.None? <==> role != ""
  {
    if role == "" then Some(Required) else None
  }

  /** The password rule: required, at least 8 UTF-16 code units. */
  function PasswordError(password: string): (r: Option<FieldError>)
    ensures r.None? <==> Utf16Length(password) >= 8
    ensures password == "" ==> r == Some(Required)
  {
    if password == "" then Some(Required) else if Utf16Length(password) < 8 then Some(TooShort) else None
  }

  /** The confirmation: required, and equal to the password. */
  function ConfirmError(confirm: string, password: string): (r: Option<FieldError>)
    ensures r.None? <==> confirm != "" && confirm == password
  {
    if confirm == "" then Some(Required) else if confirm != password then Some(Mismatch) else None
  }

  predicate SignUpFormValid(f: SignUpForm)
  {
    NameError(f.name).None? && EmailError(f.email).None? && ContactError(f.contactNumber).None?
    && RoleError(f.role).None? && PasswordError(f.password).None? && ConfirmError(f.confirmPassword, f.password).None?
  }

  /** A valid form has a password of at least 8 code units (4 characters at
      the least) that the confirmation repeats, and a contact number of at least
      10 characters. */
  lemma ValidFormShape(f: SignUpForm)
    requires SignUpFormValid(f)
    ensures f.confirmPassword == f.password && Utf16Length(f.password) >= 8 && |f.password| >= 4
    ensures |f.contactNumber| >= 10
    ensures SignInPasswordError(f.password).None?
  {
  }

  /** Where a registration leads. */
  datatype SignUpStep =
    | ToSignIn(message: string)
    | ToDashboard(message: string)
    | SignUpFailed(message: string)

  const AgentSubmitted := "Agent registration submitted! Please wait for admin approval before signing in."

  /** onSubmit's reaction to the outcome of register. */
  function AfterSignUp(formRole: string, outcome: RegisterOutcome): (r: SignUpStep)
    ensures outcome.RegisterRejected? ==> r.SignUpFailed?
    ensures !outcome.RegisterRejected? && formRole == "agent" ==> r.ToSignIn?
    ensures !outcome.RegisterRejected? && formRole != "agent" ==> r.ToDashboard?
    ensures outcome.SignedUp? ==> r.message == outcome.note
  {
    match outcome
    case RegisterRejected(err) => SignUpFailed(OrElse(err, "Registration failed. Please try again."))
    case SignedUp(_, note) =>
      if formRole == "agent" then ToSignIn(note) else ToDashboard(note)
    case SignedUpAndIn(_, m) =>
      if formRole == "agent" then ToSignIn(OrElse(m, AgentSubmitted))
      else ToDashboard(OrElse(m, "Registration successful! You are now logged in."))
  }

  /** A registered agent always lands on the sign-in page unsigned-in: the session
      changes only for the customer role. */
  lemma AgentNeverSignedIn(reply: Reply<AuthData>)
    ensures !(reply.Success? && AutoLogin(Some("agent"), reply.data.token))
  {
  }

  /** A customer registration whose reply carries no token is still sent to the
      customer dashboard, which a visitor who was not signed in before sees only
      as a redirect to /signin. */
  lemma TokenlessCustomerBounces(data: AuthData, user: Option<ClientUser>)
    requires !Truthy(data.token)
    ensures AfterSignUp("customer", SignedUp(data.user, SignedUpMessage(data.message))).ToDashboard?
    ensures !AutoLogin(Some("customer"), data.token)
    ensures Route("/user-dashboard", false, user) == Redirect("/signin")
  {
  }

  class Page {
    var navigatedTo: Option<string>
    var carriedMessage: Option<string>

    constructor ()
      ensures navigatedTo == None && carriedMessage == None
    {
      navigatedTo := None;
      carriedMessage := None;
    }

    /** onSubmit: a valid form is registered; a success navigates, to /signin with
        the message for an agent and to /user-dashboard otherwise. */
    method Submit(f: SignUpForm, session: Session, reply: Reply<AuthData>)
      returns (sent: Option<RegisterRequest>, step: Option<SignUpStep>)
      requires session.Valid()
      modifies this, session, session.storage
      ensures session.Valid()
      ensures sent.Some? <==> SignUpFormValid(f)
      ensures sent.Some? ==> sent.value == RegisterPayload(Some(f.name), Some(f.email), Some(f.password),
                                                           Some(f.role), Some(f.contactNumber))
      ensures sent.None? ==> step.None? && navigatedTo == old(navigatedTo) && carriedMessage == old(carriedMessage)
                             && session.isAuthenticated == old(session.isAuthenticated)
                             && session.currentUser == old(session.currentUser)
      ensures sent.Some? && reply.Success? && f.role == "agent" ==>
                step.Some? && navigatedTo == Some("/signin") && carriedMessage == Some(step.value.message)
                && session.isAuthenticated == old(session.isAuthenticated)
      ensures sent.Some? && reply.Success? && f.role != "agent" ==>
                navigatedTo == Some("/user-dashboard") && carriedMessage == old(carriedMessage)
      ensures sent.Some? && reply.Failure? ==>
                step == Some(SignUpFailed(OrElse(reply.error, "Registration failed. Please try again.")))
                && navigatedTo == old(navigatedTo)
    {
      if !SignUpFormValid(f) {
        sent := None;
        step := None;
        return;
      }
      sent := Some(RegisterPayload(Some(f.name), Some(f.email), Some(f.password), Some(f.role), Some(f.contactNumber)));
      var outcome := session.Register(Some(f.role), reply);
      var s := AfterSignUp(f.role, outcome);
      step := Some(s);
      match s
      case ToSignIn(m) =>
        navigatedTo := Some("/signin");
        carriedMessage := Some(m);
      case ToDashboard(_) =>
        navigatedTo := Some("/user-dashboard");
      case SignUpFailed(_) =>
    }
  }
}
