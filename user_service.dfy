// The user service: login against the stored password and approval,
// registration that approves customers and admins at once and leaves every
// other role pending, the admin's create, update and delete, and approval or
// rejection of an account. Emails stay unique through every operation.
module UserService {
  import opened Common
  import opened Table
  import opened UserModel

  datatype LoginRequest = LoginRequest(email: string, password: string)

  datatype RegisterRequest = RegisterRequest(name: Option<string>, email: string, password: string,
                                             role: Option<string>, contactNumber: Option<string>)

  /** What login and registration answer; the token is absent for an account
      that still awaits approval. */
  datatype AuthResponse = AuthResponse(token: Option<string>, tokenType: string, user: UserDto, message: string)

  /** What the token is signed over. */
  datatype TokenClaims = TokenClaims(email: string, role: Option<string>, userId: Option<int>, name: Option<string>)

  function ClaimsOf(u: User): TokenClaims
  {
    TokenClaims(u.email, u.role, u.userId, u.name)
  }

  const InvalidCredentials := "Invalid email or password"
  const NotApproved := "Account is not approved or disabled"
  const EmailExists := "Email already exists"
  const UserNotFound := "User not found"
  const DefaultPassword := "defaultPassword123"

  /** login wraps whatever it throws in one more message. */
  function AuthenticationFailed(cause: string): string { "Authentication failed: " + cause }

  function RegistrationFailed(cause: string): string { "Registration failed: " + cause }

  function RegisteredMessage(approved: bool): string
  {
    if approved then "Registration successful" else "Registration successful. Waiting for admin approval."
  }

  /** The roles registration approves at once: customer and admin, in any case. */
  predicate AutoApproved(role: Option<string>)
  {
    role.Some? && (IsWordIgnoringCase(role.value, "CUSTOMER") || IsWordIgnoringCase(role.value, "ADMIN"))
  }

  function ApprovalFor(role: Option<string>): (a: string)
    ensures a == "approved" || a == "pending"
    ensures a == "approved" <==> AutoApproved(role)
  {
    if AutoApproved(role) then "approved" else "pending"
  }

  /** An agent (in any spelling) registers pending; so does a missing role. */
  lemma AgentsWait(role: string)
    requires IsWordIgnoringCase(role, "AGENT")
    ensures !AutoApproved(Some(role)) && !AutoApproved(None)
    ensures AutoApproved(Some("Customer")) && AutoApproved(Some("ADMIN"))
  {
  }

  class UserStore {
    var rows: map<int, User>
    var nextId: int

    /** Keys run from 1 below the next id and every row carries its own key; no
        operation clears the enabled flag; and no two rows share an email (the
        column is unique). */
    ghost predicate Valid()
      reads this
    {
      nextId >= 1
      && (forall k :: k in rows ==> 1 <= k < nextId && rows[k].userId == Some(k) && rows[k].enabled)
      && forall j, k :: j in rows && k in rows && rows[j].email == rows[k].email ==> j == k
    }

    constructor ()
      ensures Valid() && rows == map[] && nextId == 1
    {
      rows := map[];
      nextId := 1;
    }

    /** existsByEmail */
    predicate EmailTaken(email: string)
      reads this
    {
      exists k :: k in rows && rows[k].email == email
    }

    /** findByEmail: the one user with that email, if there is one. */
    function ByEmail(email: string): (r: Option<User>)
      requires Valid()
      reads this
      ensures r.Some? <==> EmailTaken(email)
      ensures r.Some? ==> r.value.email == email && r.value.userId.Some? && r.value.userId.value in rows
                          && rows[r.value.userId.value] == r.value
    {
      var found := Filter(Listing(rows, nextId), (u: User) => u.email == email);
      if found == [] then
        assert !EmailTaken(email) by {
          forall k | k in rows ensures rows[k].email != email {
            var s := Listing(rows, nextId);
            assert rows[k] in s;
            var i :| 0 <= i < |s| && s[i] == rows[k];
          }
        }
        None
      else
        assert found[0] in Listing(rows, nextId);
        Some(found[0])
    }

    /** loadUserByUsername: the user whose username is the given email. */
    function LoadUserByUsername(email: string): (r: Result<User>)
      requires Valid()
      reads this
      ensures r.Ok? <==> EmailTaken(email)
      ensures r.Ok? ==> Username(r.value) == email && r.value in rows.Values
      ensures r.Err? ==> r.error == "User not found with email: " + email
    {
      var u := ByEmail(email);
      if u.None? then Err("User not found with email: " + email) else Ok(u.value)
    }

    /** getUserById */
    function ById(id: int): (r: Option<UserDto>)
      reads this
      ensures r.Some? <==> id in rows
      ensures r.Some? ==> r.value == ToDto(rows[id])
    {
      if id in rows then Some(ToDto(rows[id])) else None
    }

    /** login: an unknown email and a wrong password fail alike; a matching
        password on an account that is not enabled fails with its own message;
        otherwise the answer carries a token signed over the user's claims. */
    function Login(req: LoginRequest, matches: (string, string) -> bool, sign: TokenClaims -> string): (r: Result<AuthResponse>)
      requires Valid()
      reads this
      ensures r.Ok? <==> exists k :: k in rows && rows[k].email == req.email && matches(req.password, rows[k].password)
                                     && IsEnabled(rows[k])
      ensures r.Ok? ==> var u := r.value.user;
                        u.userId.Some? && u.userId.value in rows && u == ToDto(rows[u.userId.value])
                        && u.email == req.email
                        && r.value.token == Some(sign(ClaimsOf(rows[u.userId.value])))
      ensures !EmailTaken(req.email) ==> r == Err(AuthenticationFailed(InvalidCredentials))
      ensures r.Err? ==> r.error == AuthenticationFailed(InvalidCredentials) || r.error == AuthenticationFailed(NotApproved)
    {
      var found := ByEmail(req.email);
      if found.None? || !matches(req.password, found.value.password) then
        Err(AuthenticationFailed(InvalidCredentials))
      else if !IsEnabled(found.value) then Err(AuthenticationFailed(NotApproved))
      else Ok(AuthResponse(Some(sign(ClaimsOf(found.value))), "Bearer", ToDto(found.value), "Login successful"))
    }

    /** register: a new row with the approval the role earns; a token only for
        an account that is enabled at once. */
    method Register(req: RegisterRequest, now: int, encode: string -> string, sign: TokenClaims -> string)
      returns (r: Result<AuthResponse>)
      requires Valid()
      modifies this
      ensures Valid()
      ensures r.Err? <==> old(EmailTaken(req.email))
      ensures r.Err? ==> r.error == RegistrationFailed(EmailExists) && rows == old(rows) && nextId == old(nextId)
      ensures r.Ok? ==>
                var u := NewUser(req.name, req.email, encode(req.password), req.role, req.contactNumber, Some(now))
                           .(userId := Some(old(nextId)), approval := Some(ApprovalFor(req.role)));
                rows == old(rows)[old(nextId) := u] && nextId == old(nextId) + 1
                && r.value.user == ToDto(u)
                && (IsEnabled(u) <==> AutoApproved(req.role))
                && (r.value.token.Some? <==> AutoApproved(req.role))
                && (r.value.token.Some? ==> r.value.token.value == sign(ClaimsOf(u)))
                && r.value.message == RegisteredMessage(AutoApproved(req.role))
    {
      if EmailTaken(req.email) {
        return Err(RegistrationFailed(EmailExists));
      }
      var u := NewUser(req.name, req.email, encode(req.password), req.role, req.contactNumber, Some(now));
      u := u.(approval := Some(ApprovalFor(req.role)), userId := Some(nextId));
      assert UpperCase("pending") != UpperCase("approved");
      Insert(u);
      var token := if IsEnabled(u) then Some(sign(ClaimsOf(u))) else None;
      r := Ok(AuthResponse(token, "Bearer", ToDto(u), RegisteredMessage(IsEnabled(u))));
    }

    /** The repository's insert of a user with a new email under the next id. */
    method Insert(u: User)
      requires Valid() && u.userId == Some(nextId) && u.enabled && !EmailTaken(u.email)
      modifies this
      ensures Valid() && rows == old(rows)[old(nextId) := u] && nextId == old(nextId) + 1
    {
      rows := rows[nextId := u];
      nextId := nextId + 1;
    }

    /** createUser: the admin's new user, with the default password and the
        approval as sent; an id that is stored already is merged into. */
    method Create(dto: UserDto, now: int, encode: string -> string) returns (r: Result<UserDto>)
      requires Valid()
      modifies this
      ensures Valid()
      ensures r.Err? <==> old(EmailTaken(dto.email))
      ensures r.Err? ==> r.error == EmailExists && rows == old(rows) && nextId == old(nextId)
      ensures r.Ok? ==>
                var k := SaveKey(old(rows), old(nextId), dto.userId);
                var u := ToEntity(dto, encode(DefaultPassword)).(userId := Some(k), registrationDate := Some(now));
                r.value == ToDto(u) && rows == old(rows)[k := u]
                && nextId == if k == old(nextId) then old(nextId) + 1 else old(nextId)
    {
      if EmailTaken(dto.email) {
        return Err(EmailExists);
      }
      var k := SaveKey(rows, nextId, dto.userId);
      var u := ToEntity(dto, encode(DefaultPassword)).(userId := Some(k), registrationDate := Some(now));
      rows := rows[k := u];
      if k == nextId {
        nextId := nextId + 1;
      }
      r := Ok(ToDto(u));
    }

    /** updateUser: name, contact, role and approval as sent; the email only
        when it changes to one nobody has (a taken one throws and nothing is
        saved); the password, date and flag stay. */
    method Update(id: int, dto: UserDto) returns (r: Result<UserDto>)
      requires Valid()
      modifies this
      ensures Valid() && nextId == old(nextId)
      ensures id !in old(rows) ==> r == Err(UserNotFound)
      ensures id in old(rows) && old(rows)[id].email != dto.email && old(EmailTaken(dto.email)) ==> r == Err(EmailExists)
      ensures r.Err? ==> rows == old(rows)
      ensures r.Ok? <==> id in old(rows) && (old(rows)[id].email == dto.email || !old(EmailTaken(dto.email)))
      ensures r.Ok? ==> var p := old(rows)[id];
                        var u := p.(name := dto.name, contactNumber := dto.contactNumber, role := dto.role,
                                    approval := dto.approval, email := dto.email);
                        r.value == ToDto(u) && rows == old(rows)[id := u]
                        && u.password == p.password && u.registrationDate == p.registrationDate
    {
      if id !in rows {
        return Err(UserNotFound);
      }
      var u := rows[id].(name := dto.name, contactNumber := dto.contactNumber, role := dto.role,
                         approval := dto.approval);
      if rows[id].email != dto.email {
        if EmailTaken(dto.email) {
          return Err(EmailExists);
        }
        u := u.(email := dto.email);
      }
      rows := rows[id := u];
      r := Ok(ToDto(u));
    }

    /** deleteUser */
    method Delete(id: int) returns (r: Result<()>)
      requires Valid()
      modifies this
      ensures Valid() && nextId == old(nextId)
      ensures r.Ok? <==> id in old(rows)
      ensures r.Ok? ==> rows == old(rows) - {id}
      ensures r.Err? ==> r.error == UserNotFound && rows == old(rows)
    {
      if id !in rows {
        return Err(UserNotFound);
      }
      rows := rows - {id};
      r := Ok(());
    }

    /** approveUser and rejectUser: only the approval changes. */
    method SetApproval(id: int, approval: string) returns (r: Result<UserDto>)
      requires Valid()
      modifies this
      ensures Valid() && nextId == old(nextId)
      ensures r.Ok? <==> id in old(rows)
      ensures r.Ok? ==> var u := old(rows)[id].(approval := Some(approval));
                        r.value == ToDto(u) && rows == old(rows)[id := u]
      ensures r.Err? ==> r.error == UserNotFound && rows == old(rows)
    {
      if id !in rows {
        return Err(UserNotFound);
      }
      var u := rows[id].(approval := Some(approval));
      rows := rows[id := u];
      r := Ok(ToDto(u));
    }

    /** approveUser: the account becomes enabled. */
    method Approve(id: int) returns (r: Result<UserDto>)
      requires Valid()
      modifies this
      ensures Valid() && nextId == old(nextId)
      ensures r.Ok? <==> id in old(rows)
      ensures r.Ok? ==> rows == old(rows)[id := old(rows)[id].(approval := Some("approved"))] && IsEnabled(rows[id])
                        && r.value == ToDto(rows[id])
      ensures r.Err? ==> r.error == UserNotFound && rows == old(rows)
    {
      r := SetApproval(id, "approved");
      ApprovedIsTheWord();
    }

    /** rejectUser: the account can no longer log in. */
    method Reject(id: int) returns (r: Result<UserDto>)
      requires Valid()
      modifies this
      ensures Valid() && nextId == old(nextId)
      ensures r.Ok? <==> id in old(rows)
      ensures r.Ok? ==> rows == old(rows)[id := old(rows)[id].(approval := Some("rejected"))] && !IsEnabled(rows[id])
                        && r.value == ToDto(rows[id])
      ensures r.Err? ==> r.error == UserNotFound && rows == old(rows)
    {
      r := SetApproval(id, "rejected");
      if r.Ok? {
        ApprovalDecidesEnabled(old(rows)[id], "rejected");
      }
    }
  }

  /** An enabled account logs in with any password the encoder matches against
      the stored one, and gets a token over its own claims; an account that is
      not enabled never does. */
  lemma EnabledAccountsLogIn(store: UserStore, k: int, password: string,
                             matches: (string, string) -> bool, sign: TokenClaims -> string)
    requires store.Valid() && k in store.rows
    ensures IsEnabled(store.rows[k]) && matches(password, store.rows[k].password) ==>
              store.Login(LoginRequest(store.rows[k].email, password), matches, sign)
                == Ok(AuthResponse(Some(sign(ClaimsOf(store.rows[k]))), "Bearer", ToDto(store.rows[k]), "Login successful"))
    ensures !IsEnabled(store.rows[k]) ==>
              store.Login(LoginRequest(store.rows[k].email, password), matches, sign).Err?
  {
    var found := store.ByEmail(store.rows[k].email);
    assert found == Some(store.rows[k]);
  }
}
