// The user endpoints: the admin-only ones refuse with 403 before touching the
// service, a user lookup is open to admins, agents and internal service calls,
// and the profile endpoints act on the user the gateway's headers name.
module UserController {
  import opened Common
  import opened Http
  import opened Table
  import opened UserModel
  import opened UserService

  /** The headers the gateway sets from the token, and the one a service sets
      on an internal call. */
  datatype Headers = Headers(userId: Option<string>, email: Option<string>, role: Option<string>,
                             serviceCall: Option<string>)

  /** isAdmin: the role header is 'admin' in any case. */
  predicate IsAdmin(h: Headers)
  {
    h.role.Some? && IsWordIgnoringCase(h.role.value, "ADMIN")
  }

  /** isAdminOrAgent: an internal call whatever the role, else an admin or an
      agent. */
  predicate IsAdminOrAgent(h: Headers)
  {
    (h.serviceCall.Some? && IsWordIgnoringCase(h.serviceCall.value, "INTERNAL"))
    || (h.role.Some? && (IsWordIgnoringCase(h.role.value, "ADMIN") || IsWordIgnoringCase(h.role.value, "AGENT")))
  }

  /** Everyone who passes the admin check passes the wider one, and an internal
      call passes it with no role at all. */
  lemma AdminPassesWiderCheck(h: Headers)
    ensures IsAdmin(h) ==> IsAdminOrAgent(h)
    ensures IsAdminOrAgent(h.(serviceCall := Some("Internal"), role := None))
    ensures !IsAdminOrAgent(h.(serviceCall := None, role := None))
  {
  }

  datatype UserRefusal =
    | AdminRequired
    | AdminOrAgentRequired
    | MissingUserInfo
    | InvalidUserId
    | ProfileUserNotFound
    | ProfileUpdateFailed(cause: string)
    | NoBody

  /** The error text of each refusal; None for an answer with an empty body. */
  function Message(r: UserRefusal): Option<string>
  {
    match r
    case AdminRequired => Some("Access denied. Admin role required.")
    case AdminOrAgentRequired => Some("Access denied. Admin or Agent role required.")
    case MissingUserInfo => Some("Authentication required. Missing user information.")
    case InvalidUserId => Some("Invalid user ID format")
    case ProfileUserNotFound => Some("User not found")
    case ProfileUpdateFailed(cause) => Some("Failed to update profile: " + cause)
    case NoBody => None
  }

  /** The 403 every admin-only endpoint answers first. */
  function AdminGate<T>(h: Headers): (r: Option<Response<T, UserRefusal>>)
    ensures r.None? <==> IsAdmin(h)
    ensures r.Some? ==> r.value == Refused(StatusForbidden, AdminRequired)
  {
    if IsAdmin(h) then None else Some(Refused(StatusForbidden, AdminRequired))
  }

  /** getAllUsers: every stored user, in id order. */
  function AllUsers(store: UserStore, h: Headers): (r: Response<seq<UserDto>, UserRefusal>)
    requires store.Valid()
    reads store
    ensures !IsAdmin(h) ==> r == Refused(StatusForbidden, AdminRequired)
    ensures IsAdmin(h) ==> r.Answer? && r.status == StatusOk
                           && forall d :: d in r.data <==> exists k :: k in store.rows && ToDto(store.rows[k]) == d
  {
    if !IsAdmin(h) then Refused(StatusForbidden, AdminRequired)
    else
      var us := Listing(store.rows, store.nextId);
      var ds := Dtos(us);
      assert forall d :: d in ds ==> exists k :: k in store.rows && ToDto(store.rows[k]) == d by {
        forall d | d in ds ensures exists k :: k in store.rows && ToDto(store.rows[k]) == d {
          var u :| u in us && ToDto(u) == d;
        }
      }
      Answer(StatusOk, ds)
  }

  /** The public view `getUserById` sends: no approval and no date. */
  datatype PublicUser = PublicUser(userId: Option<int>, name: Option<string>, email: string,
                                   contactNumber: Option<string>, role: Option<string>)

  /** getUserById: for admins, agents and internal calls, the user's public
      fields; 404 with no body for an unknown id. */
  function UserById(store: UserStore, id: int, h: Headers): (r: Response<PublicUser, UserRefusal>)
    reads store
    ensures !IsAdminOrAgent(h) ==> r == Refused(StatusForbidden, AdminOrAgentRequired)
    ensures IsAdminOrAgent(h) && id !in store.rows ==> r == Refused(StatusNotFound, NoBody)
    ensures IsAdminOrAgent(h) && id in store.rows ==>
              var u := store.rows[id];
              r == Answer(StatusOk, PublicUser(u.userId, u.name, u.email, u.contactNumber, u.role))
  {
    if !IsAdminOrAgent(h) then Refused(StatusForbidden, AdminOrAgentRequired)
    else match store.ById(id)
      case None => Refused(StatusNotFound, NoBody)
      case Some(u) => Answer(StatusOk, PublicUser(u.userId, u.name, u.email, u.contactNumber, u.role))
  }

  /** createUser: 403 for a non-admin; a failed create is a 400 with no body. */
  method CreateUser(store: UserStore, dto: UserDto, h: Headers, now: int, encode: string -> string)
    returns (r: Response<UserDto, UserRefusal>)
    requires store.Valid()
    modifies store
    ensures store.Valid()
    ensures !IsAdmin(h) ==> r == Refused(StatusForbidden, AdminRequired)
    ensures !IsAdmin(h) || old(store.EmailTaken(dto.email)) ==>
              store.rows == old(store.rows) && store.nextId == old(store.nextId)
    ensures IsAdmin(h) && old(store.EmailTaken(dto.email)) ==> r == Refused(StatusBadRequest, NoBody)
    ensures IsAdmin(h) && !old(store.EmailTaken(dto.email)) ==>
              var k := SaveKey(old(store.rows), old(store.nextId), dto.userId);
              var u := ToEntity(dto, encode(DefaultPassword)).(userId := Some(k), registrationDate := Some(now));
              r == Answer(StatusOk, ToDto(u)) && store.rows == old(store.rows)[k := u]
              && r.data.email == dto.email && r.data.approval == dto.approval
  {
    var gate := AdminGate<UserDto>(h);
    if gate.Some? {
      return gate.value;
    }
    var c := store.Create(dto, now, encode);
    if c.Err? {
      return Refused(StatusBadRequest, NoBody);
    }
    r := Answer(StatusOk, c.value);
  }

  /** updateUser: 403 for a non-admin; a failed update is a 400 with no body. */
  method UpdateUser(store: UserStore, id: int, dto: UserDto, h: Headers) returns (r: Response<UserDto, UserRefusal>)
    requires store.Valid()
    modifies store
    ensures store.Valid() && store.nextId == old(store.nextId)
    ensures !IsAdmin(h) ==> r == Refused(StatusForbidden, AdminRequired) && store.rows == old(store.rows)
    ensures IsAdmin(h) ==> (r.Answer? <==> id in old(store.rows) && (old(store.rows)[id].email == dto.email || !old(store.EmailTaken(dto.email))))
    ensures IsAdmin(h) && !r.Answer? ==> r == Refused(StatusBadRequest, NoBody) && store.rows == old(store.rows)
    ensures r.Answer? ==> var p := old(store.rows)[id];
                          var u := p.(name := dto.name, contactNumber := dto.contactNumber, role := dto.role,
                                      approval := dto.approval, email := dto.email);
                          r == Answer(StatusOk, ToDto(u)) && store.rows == old(store.rows)[id := u]
                          && u.password == p.password
  {
    var gate := AdminGate<UserDto>(h);
    if gate.Some? {
      return gate.value;
    }
    var u := store.Update(id, dto);
    if u.Err? {
      return Refused(StatusBadRequest, NoBody);
    }
    r := Answer(StatusOk, u.value);
  }

  /** deleteUser: 403 for a non-admin; an unknown id is a 404 with no body. */
  method DeleteUser(store: UserStore, id: int, h: Headers) returns (r: Response<(), UserRefusal>)
    requires store.Valid()
    modifies store
    ensures store.Valid() && store.nextId == old(store.nextId)
    ensures !IsAdmin(h) ==> r == Refused(StatusForbidden, AdminRequired) && store.rows == old(store.rows)
    ensures IsAdmin(h) && id !in old(store.rows) ==> r == Refused(StatusNotFound, NoBody) && store.rows == old(store.rows)
    ensures IsAdmin(h) && id in old(store.rows) ==> r == Answer(StatusOk, ()) && store.rows == old(store.rows) - {id}
  {
    var gate := AdminGate<()>(h);
    if gate.Some? {
      return gate.value;
    }
    var d := store.Delete(id);
    if d.Err? {
      return Refused(StatusNotFound, NoBody);
    }
    r := Answer(StatusOk, ());
  }

  /** approveUser (approve) and rejectUser: 403 for a non-admin; an unknown id
      is a 404 with no body. */
  method DecideApproval(store: UserStore, id: int, approve: bool, h: Headers) returns (r: Response<UserDto, UserRefusal>)
    requires store.Valid()
    modifies store
    ensures store.Valid() && store.nextId == old(store.nextId)
    ensures !IsAdmin(h) ==> r == Refused(StatusForbidden, AdminRequired) && store.rows == old(store.rows)
    ensures IsAdmin(h) && id !in old(store.rows) ==> r == Refused(StatusNotFound, NoBody) && store.rows == old(store.rows)
    ensures IsAdmin(h) && id in old(store.rows) ==>
              var u := old(store.rows)[id].(approval := Some(if approve then "approved" else "rejected"));
              r == Answer(StatusOk, ToDto(u)) && store.rows == old(store.rows)[id := u]
              && (IsEnabled(u) <==> approve)
  {
    var gate := AdminGate<UserDto>(h);
    if gate.Some? {
      return gate.value;
    }
    var a;
    if approve {
      a := store.Approve(id);
    } else {
      a := store.Reject(id);
    }
    if a.Err? {
      return Refused(StatusNotFound, NoBody);
    }
    r := Answer(StatusOk, a.value);
  }

  /** The checks both profile endpoints make, in order: both identity headers
      (401), a numeric id (400), a stored user (404). */
  function ProfileGate<T>(store: UserStore, h: Headers): (r: Option<Response<T, UserRefusal>>)
    reads store
    ensures r.None? <==> h.userId.Some? && h.email.Some? && ParseLong(h.userId.value).Some?
                         && ParseLong(h.userId.value).value in store.rows
    ensures h.userId.None? || h.email.None? ==> r == Some(Refused(StatusUnauthorized, MissingUserInfo))
    ensures h.userId.Some? && h.email.Some? && ParseLong(h.userId.value).None? ==>
              r == Some(Refused(StatusBadRequest, InvalidUserId))
    ensures h.userId.Some? && h.email.Some? && ParseLong(h.userId.value).Some?
            && ParseLong(h.userId.value).value !in store.rows ==>
              r == Some(Refused(StatusNotFound, ProfileUserNotFound))
  {
    if h.userId.None? || h.email.None? then Some(Refused(StatusUnauthorized, MissingUserInfo))
    else match ParseLong(h.userId.value)
      case None => Some(Refused(StatusBadRequest, InvalidUserId))
      case Some(id) => if store.ById(id).None? then Some(Refused(StatusNotFound, ProfileUserNotFound)) else None
  }

  /** getCurrentUserProfile */
  function CurrentProfile(store: UserStore, h: Headers): (r: Response<UserDto, UserRefusal>)
    reads store
    ensures ProfileGate<UserDto>(store, h).Some? ==> r == ProfileGate<UserDto>(store, h).value
    ensures ProfileGate<UserDto>(store, h).None? ==>
              r == Answer(StatusOk, ToDto(store.rows[ParseLong(h.userId.value).value]))
  {
    var gate := ProfileGate<UserDto>(store, h);
    if gate.Some? then gate.value
    else Answer(StatusOk, store.ById(ParseLong(h.userId.value).value).value)
  }

  /** The body updateOwnProfile saves: the id and email from the headers, the
      role from its header when there is one, and the stored approval. */
  function OwnProfileBody(dto: UserDto, id: int, email: string, role: Option<string>, stored: User): (b: UserDto)
    ensures b.userId == Some(id) && b.email == email && b.approval == stored.approval
    ensures role.Some? ==> b.role == role
    ensures role.None? ==> b.role == dto.role
    ensures b.name == dto.name && b.contactNumber == dto.contactNumber
  {
    dto.(userId := Some(id), email := email, role := if role.Some? then role else dto.role,
         approval := stored.approval)
  }

  /** updateOwnProfile: past the profile checks, the user's own row is updated
      with the headers' identity and its stored approval, so no user changes
      their own approval (or, with a role header, their role); an update that
      throws is a 400 with its message. */
  method UpdateOwnProfile(store: UserStore, dto: UserDto, h: Headers) returns (r: Response<UserDto, UserRefusal>)
    requires store.Valid()
    modifies store
    ensures store.Valid() && store.nextId == old(store.nextId)
    ensures old(ProfileGate<UserDto>(store, h)).Some? ==>
              r == old(ProfileGate<UserDto>(store, h)).value && store.rows == old(store.rows)
    ensures !r.Answer? ==> store.rows == old(store.rows)
    ensures old(ProfileGate<UserDto>(store, h)).None? ==>
              var id := ParseLong(h.userId.value).value;
              var b := OwnProfileBody(dto, id, h.email.value, h.role, old(store.rows)[id]);
              (r.Answer? <==> old(store.rows)[id].email == b.email || !old(store.EmailTaken(b.email)))
              && (r.Refused? ==> r == Refused(StatusBadRequest, ProfileUpdateFailed(EmailExists)))
              && (r.Answer? ==> r.status == StatusOk && id in store.rows && r.data == ToDto(store.rows[id])
                                && store.rows == old(store.rows)[id := store.rows[id]]
                                && store.rows[id].approval == old(store.rows)[id].approval
                                && store.rows[id].email == h.email.value
                                && store.rows[id].password == old(store.rows)[id].password
                                && (h.role.Some? ==> store.rows[id].role == h.role))
  {
    var gate := ProfileGate<UserDto>(store, h);
    if gate.Some? {
      return gate.value;
    }
    var id := ParseLong(h.userId.value).value;
    var b := OwnProfileBody(dto, id, h.email.value, h.role, store.rows[id]);
    var u := store.Update(id, b);
    if u.Err? {
      return Refused(StatusBadRequest, ProfileUpdateFailed(u.error));
    }
    r := Answer(StatusOk, u.value);
  }
}
