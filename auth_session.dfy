// The client session: the signed-in user and the authenticated flag, kept in
// step with two browser-storage keys. Start-up restores a saved user; login,
// register, logout, updateUser and refreshUserData write both.
module AuthSession {
  import opened Common
  import opened ClientRecords

  /** The two storage keys the client uses. The saved user is kept as the record
      its JSON text stands for. */
  class BrowserStorage {
    var currentUser: Option<ClientUser>
    var authToken: Option<string>

    constructor (user: Option<ClientUser>, token: Option<string>)
      ensures currentUser == user && authToken == token
    {
      currentUser := user;
      authToken := token;
    }
  }

  /** What the login and register endpoints answer: a user, a token (null for an
      account that awaits approval) and a message. */
  datatype AuthData = AuthData(user: ClientUser, token: Option<string>, message: Option<string>)

  /** `{...authData.user, token: authData.token}`: the user fields plus the token. */
  function WithToken(u: ClientUser, token: Option<string>): (r: ClientUser)
    ensures r.token == token
    ensures r.(token := u.token) == u
  {
    u.(token := token)
  }

  /** `localStorage.setItem` writes text: a null token is stored as "null". */
  function StoredToken(token: Option<string>): (r: Option<string>)
    ensures r.Some?
    ensures token.Some? ==> r == token
  {
    Some(if token.Some? then token.value else "null")
  }

  /** register signs the new account in only for the customer role chosen in the
      form and only when the reply carries a token. */
  predicate AutoLogin(formRole: Option<string>, token: Option<string>)
  {
    formRole == Some("customer") && Truthy(token)
  }

  datatype LoginOutcome = LoggedIn(user: ClientUser) | LoginRejected(error: Option<string>)

  function LoginText(o: LoginOutcome): string
    requires o.LoginRejected?
  {
    OrElse(o.error, "Invalid email or password")
  }

  datatype RegisterOutcome =
    | SignedUpAndIn(user: ClientUser, message: Option<string>)
    | SignedUp(user: ClientUser, note: string)
    | RegisterRejected(error: Option<string>)

  /** A registration that does not sign in always reports a message. */
  function SignedUpMessage(m: Option<string>): (r: string)
    ensures r != ""
    ensures Truthy(m) ==> r == m.value
  {
    OrElse(m, "Registration successful")
  }

  /** The body of the register call; a missing contact number is sent as ''. */
  datatype RegisterRequest = RegisterRequest(name: Option<string>, email: Option<string>, password: Option<string>,
                                             role: Option<string>, contactNumber: string)

  function RegisterPayload(name: Option<string>, email: Option<string>, password: Option<string>,
                           role: Option<string>, contactNumber: Option<string>): (r: RegisterRequest)
    ensures r.role == role && r.email == email && r.password == password && r.name == name
    ensures Truthy(contactNumber) ==> r.contactNumber == contactNumber.value
    ensures !Truthy(contactNumber) ==> r.contactNumber == ""
  {
    RegisterRequest(name, email, password, role, OrElse(contactNumber, ""))
  }

  /** An agent (or any role but customer) never gets signed in by registering,
      whatever token the reply carries. */
  lemma OnlyCustomersAutoLogin(formRole: Option<string>, token: Option<string>)
    ensures AutoLogin(formRole, token) ==> formRole == Some("customer") && token.Some?
    ensures formRole != Some("customer") ==> !AutoLogin(formRole, token)
  {
  }

  class Session {
    var currentUser: Option<ClientUser>
    var isAuthenticated: bool
    const storage: BrowserStorage

    /** An authenticated session always has a user. */
    ghost predicate Valid()
      reads this
    {
      isAuthenticated ==> currentUser.Some?
    }

    /** Start-up: a saved user is restored and the session is authenticated;
        otherwise nobody is signed in. */
    constructor (s: BrowserStorage)
      ensures storage == s && Valid()
      ensures currentUser == s.currentUser && isAuthenticated == s.currentUser.Some?
    {
      storage := s;
      currentUser := s.currentUser;
      isAuthenticated := s.currentUser.Some?;
    }

    /** login. On success the user is the reply's user plus token, the session is
        authenticated, and both storage keys are written; on failure nothing
        changes and the error is passed on. */
    method Login(reply: Reply<AuthData>) returns (outcome: LoginOutcome)
      requires Valid()
      modifies this, storage
      ensures Valid()
      ensures reply.Success? ==>
                var u := WithToken(reply.data.user, reply.data.token);
                outcome == LoggedIn(u) && currentUser == Some(u) && isAuthenticated
                && storage.currentUser == Some(u) && storage.authToken == StoredToken(reply.data.token)
      ensures reply.Failure? ==>
                outcome == LoginRejected(reply.error)
                && currentUser == old(currentUser) && isAuthenticated == old(isAuthenticated)
                && storage.currentUser == old(storage.currentUser) && storage.authToken == old(storage.authToken)
    {
      match reply
      case Success(data) =>
        var u := WithToken(data.user, data.token);
        currentUser := Some(u);
        isAuthenticated := true;
        storage.currentUser := Some(u);
        storage.authToken := StoredToken(data.token);
        outcome := LoggedIn(u);
      case Failure(err) =>
        outcome := LoginRejected(err);
    }

    /** register. The session changes only for an auto-login; any other success
        still reports success, with the reply's user and message. */
    method Register(formRole: Option<string>, reply: Reply<AuthData>) returns (outcome: RegisterOutcome)
      requires Valid()
      modifies this, storage
      ensures Valid()
      ensures reply.Success? && AutoLogin(formRole, reply.data.token) ==>
                var u := WithToken(reply.data.user, reply.data.token);
                outcome == SignedUpAndIn(u, reply.data.message) && currentUser == Some(u) && isAuthenticated
                && storage.currentUser == Some(u) && storage.authToken == reply.data.token
      ensures !(reply.Success? && AutoLogin(formRole, reply.data.token)) ==>
                currentUser == old(currentUser) && isAuthenticated == old(isAuthenticated)
                && storage.currentUser == old(storage.currentUser) && storage.authToken == old(storage.authToken)
      ensures reply.Success? && !AutoLogin(formRole, reply.data.token) ==>
                outcome == SignedUp(reply.data.user, SignedUpMessage(reply.data.message))
      ensures reply.Failure? ==> outcome == RegisterRejected(reply.error)
    {
      match reply
      case Success(data) =>
        if AutoLogin(formRole, data.token) {
          var u := WithToken(data.user, data.token);
          currentUser := Some(u);
          isAuthenticated := true;
          storage.currentUser := Some(u);
          storage.authToken := data.token;
          outcome := SignedUpAndIn(u, data.message);
        } else {
          outcome := SignedUp(data.user, SignedUpMessage(data.message));
        }
      case Failure(err) =>
        outcome := RegisterRejected(err);
    }

    /** logout: always signs out and removes both keys. */
    method Logout()
      modifies this, storage
      ensures Valid()
      ensures currentUser == None && !isAuthenticated
      ensures storage.currentUser == None && storage.authToken == None
    {
      currentUser := None;
      isAuthenticated := false;
      storage.currentUser := None;
      storage.authToken := None;
    }

    /** The token `currentUser?.token` keeps across an update. */
    function KeptToken(): Option<string>
      reads this
    {
      if currentUser.Some? then currentUser.value.token else None
    }

    /** updateUser: the given record replaces the user but the previous token is
        kept; the authenticated flag and the token key are not touched. */
    method UpdateUser(updated: ClientUser)
      requires Valid()
      modifies this, storage
      ensures Valid()
      ensures currentUser == Some(WithToken(updated, old(KeptToken())))
      ensures storage.currentUser == currentUser
      ensures isAuthenticated == old(isAuthenticated) && storage.authToken == old(storage.authToken)
    {
      var u := WithToken(updated, KeptToken());
      currentUser := Some(u);
      storage.currentUser := Some(u);
    }

    /** refreshUserData: a fresh record replaces the user, keeping the previous
        token; a failed refresh changes nothing. */
    method RefreshUserData(reply: Reply<ClientUser>) returns (ok: bool)
      requires Valid()
      modifies this, storage
      ensures Valid()
      ensures ok == reply.Success?
      ensures ok ==> currentUser == Some(WithToken(reply.data, old(KeptToken()))) && storage.currentUser == currentUser
      ensures !ok ==> currentUser == old(currentUser) && storage.currentUser == old(storage.currentUser)
      ensures isAuthenticated == old(isAuthenticated) && storage.authToken == old(storage.authToken)
    {
      ok := reply.Success?;
      if ok {
        var u := WithToken(reply.data, KeptToken());
        currentUser := Some(u);
        storage.currentUser := Some(u);
      }
    }
  }
}
