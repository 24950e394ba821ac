// The sign-in page: its two field rules, and what a submitted login leads to —
// the pending-agent stop, the role's landing page, or the failure toast.
module SignInPage {
  import opened Common
  import opened ClientRecords
  import opened AuthSession

  predicate IsLocalChar(c: char)
  {
    IsAsciiLetter(c) || IsDigit(c) || c == '.' || c == '_' || c == '%' || c == '+' || c == '-'
  }

  predicate IsDomainChar(c: char)
  {
    IsAsciiLetter(c) || IsDigit(c) || c == '.' || c == '-'
  }

  predicate AllOf(s: string, p: char -> bool)
  {
    forall i :: 0 <= i < |s| ==> p(s[i])
  }

  /** The part after '@': one or more domain characters, a dot, then a top-level
      name of at least two letters. */
  predicate IsDomain(t: string)
  {
    exists d :: 0 < d < |t| - 2 && t[d] == '.' && AllOf(t[..d], IsDomainChar) && AllOf(t[d + 1..], IsAsciiLetter)
  }

  /** The case-insensitive pattern local@domain.tld both auth forms use. */
  predicate IsEmail(s: string)
  {
    exists a :: 0 < a < |s| && s[a] == '@' && AllOf(s[..a], IsLocalChar) && IsDomain(s[a + 1..])
  }

  lemma DomainShape(t: string)
    requires IsDomain(t)
    ensures '@' !in t && IsAsciiLetter(t[|t| - 1])
  {
    var d :| 0 < d < |t| - 2 && t[d] == '.' && AllOf(t[..d], IsDomainChar) && AllOf(t[d + 1..], IsAsciiLetter);
    assert t[|t| - 1] == t[d + 1..][|t| - d - 2];
    assert t == t[..d] + [t[d]] + t[d + 1..];
    assert '@' !in t[..d];
    assert '@' !in t[d + 1..];
  }

  /** In a matching address, the '@' the pattern splits at is the only one, and
      the last character is a letter. */
  lemma {:induction false} EmailShape(s: string)
    requires IsEmail(s)
    ensures exists a :: 0 < a < |s| && s[a] == '@' && '@' !in s[..a] && '@' !in s[a + 1..]
    ensures IsAsciiLetter(s[|s| - 1])
  {
    var a :| 0 < a < |s| && s[a] == '@' && AllOf(s[..a], IsLocalChar) && IsDomain(s[a + 1..]);
    DomainShape(s[a + 1..]);
    assert s[|s| - 1] == s[a + 1..][|s| - a - 2];
    assert '@' !in s[..a];
  }

  /** A one-letter top-level name does not match. */
  lemma ShortTopLevelRejected()
    ensures !IsEmail("a@b.c")
  {
    var s := "a@b.c";
    forall a | 0 < a < |s| && s[a] == '@' ensures !IsDomain(s[a + 1..]) {
      assert s[a + 1..] == "b.c";
    }
  }

  lemma TypicalAddressAccepted()
    ensures IsEmail("Ann.Lee@mail.example.com")
  {
    var s := "Ann.Lee@mail.example.com";
    var t := s[8..];
    assert t == "mail.example.com";
    assert t[12] == '.' && t[..12] == "mail.example" && t[13..] == "com";
    assert IsDomain(t);
    assert s[7] == '@' && s[..7] == "Ann.Lee";
  }

  datatype FieldError = Required | BadPattern | TooShort | Mismatch

  /** The email rule: required, then the pattern. */
  function EmailError(email: string): (r: Option<FieldError>)
    ensures r.None? <==> IsEmail(email)
    ensures email == "" ==> r == Some(Required)
  {
    if email == "" then Some(Required)
    else if !IsEmail(email) then Some(BadPattern)
    else None
  }

  /** The sign-in password rule: required, at least 6 UTF-16 code units. */
  function SignInPasswordError(password: string): (r: Option<FieldError>)
    ensures r.None? <==> Utf16Length(password) >= 6
    ensures password == "" ==> r == Some(Required)
  {
    if password == "" then Some(Required)
    else if Utf16Length(password) < 6 then Some(TooShort)
    else None
  }

  /** The form submits only when both fields pass. */
  predicate SignInFormValid(email: string, password: string)
  {
    EmailError(email).None? && SignInPasswordError(password).None?
  }

  /** Where a submitted login leads. */
  datatype SignInStep = PendingAgentStopped | Welcome(to: string) | Rejected(message: string)

  /** The landing page for a role read from the lower-case `role` field only. */
  function LandingFor(role: Option<string>): (r: string)
    ensures role == Some("admin") ==> r == "/admin-dashboard"
    ensures role == Some("agent") ==> r == "/agent-dashboard"
    ensures role != Some("admin") && role != Some("agent") ==> r == "/user-dashboard"
  {
    if role == Some("admin") then "/admin-dashboard"
    else if role == Some("agent") then "/agent-dashboard"
    else "/user-dashboard"
  }

  function AfterSignIn(outcome: LoginOutcome): (r: SignInStep)
    ensures outcome.LoginRejected? ==> r == Rejected(LoginText(outcome))
    ensures r == PendingAgentStopped <==>
              outcome.LoggedIn? && outcome.user.role == Some("agent") && outcome.user.approval != Some("approved")
    ensures r.Welcome? ==> outcome.LoggedIn? && r.to == LandingFor(outcome.user.role)
    ensures r.Welcome? && r.to == "/agent-dashboard" ==> outcome.user.approval == Some("approved")
  {
    match outcome
    case LoginRejected(_) => Rejected(LoginText(outcome))
    case LoggedIn(u) =>
      if u.role == Some("agent") && u.approval != Some("approved") then PendingAgentStopped
      else Welcome(LandingFor(u.role))
  }

  /** The page's own state: where it navigated, if anywhere. */
  class Page {
    var navigatedTo: Option<string>

    constructor ()
      ensures navigatedTo == None
    {
      navigatedTo := None;
    }

    /** onSubmit. The session is written by login before the approval gate runs,
        so a pending agent is stopped here while already signed in. */
    method Submit(email: string, password: string, session: Session, reply: Reply<AuthData>)
      returns (loginCalled: bool, step: Option<SignInStep>)
      requires session.Valid()
      modifies this, session, session.storage
      ensures session.Valid()
      ensures loginCalled == SignInFormValid(email, password)
      ensures !loginCalled ==> step.None? && navigatedTo == old(navigatedTo)
                               && session.currentUser == old(session.currentUser)
                               && session.isAuthenticated == old(session.isAuthenticated)
                               && session.storage.currentUser == old(session.storage.currentUser)
                               && session.storage.authToken == old(session.storage.authToken)
      ensures loginCalled && reply.Success? ==>
                session.isAuthenticated && session.currentUser == Some(WithToken(reply.data.user, reply.data.token))
      ensures loginCalled ==> step.Some?
      ensures loginCalled && reply.Success? && step == Some(PendingAgentStopped) ==> session.isAuthenticated
      ensures step.Some? && step.value.Welcome? ==> navigatedTo == Some(step.value.to)
      ensures !(step.Some? && step.value.Welcome?) ==> navigatedTo == old(navigatedTo)
    {
      loginCalled := SignInFormValid(email, password);
      if !loginCalled {
        step := None;
        return;
      }
      var outcome := session.Login(reply);
      var s := AfterSignIn(outcome);
      step := Some(s);
      if s.Welcome? {
        navigatedTo := Some(s.to);
      }
    }
  }
}
