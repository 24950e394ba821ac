// The user entity of the user service: its defaults, when Spring Security
// treats the account as enabled, its single authority, and the transfer
// record the endpoints exchange.
module UserModel {
  import opened Common

  /** The stored user. The password is the encoder's output; the registration
      date is a clock reading. The email column is NOT NULL, so it is always
      present. */
  datatype User = User(userId: Option<int>, name: Option<string>, email: string, password: string,
                       role: Option<string>, contactNumber: Option<string>, approval: Option<string>,
                       registrationDate: Option<int>, enabled: bool)

  /** `isEnabled`: the enabled flag and an approval of 'approved' in any case. */
  predicate IsEnabled(u: User)
  {
    u.enabled && u.approval.Some? && IsWordIgnoringCase(u.approval.value, "APPROVED")
  }

  /** `new User()` and the setters of the given fields: no id yet, and the
      field initialisers' approval 'approved' and enabled flag. */
  function NewUser(name: Option<string>, email: string, password: string, role: Option<string>,
                   contactNumber: Option<string>, registrationDate: Option<int>): (u: User)
    ensures u.userId.None? && u.email == email && u.password == password && u.role == role
    ensures u.name == name && u.contactNumber == contactNumber && u.registrationDate == registrationDate
    ensures IsEnabled(u)
  {
    User(None, name, email, password, role, contactNumber, Some("approved"), registrationDate, true)
  }

  /** The approval the services write is the word the check looks for. */
  lemma ApprovedIsTheWord()
    ensures IsWordIgnoringCase("approved", "APPROVED")
  {
    var up := UpperCase("approved");
    assert forall i :: 0 <= i < 8 ==> up[i] == "APPROVED"[i];
  }

  /** Only the approval decides whether an account that has its flag set is
      enabled: any spelling of 'approved' enables it, 'pending', 'rejected' or
      no approval at all does not. */
  lemma ApprovalDecidesEnabled(u: User, approval: string)
    requires u.enabled
    ensures IsEnabled(u.(approval := Some(approval))) <==> IsWordIgnoringCase(approval, "APPROVED")
    ensures !IsEnabled(u.(approval := Some("pending")))
    ensures !IsEnabled(u.(approval := Some("rejected")))
    ensures !IsEnabled(u.(approval := None))
  {
    assert UpperCase("rejected")[0] == 'R';
  }

  /** `getAuthorities`: the one authority 'ROLE_' and the upper-cased role; a
      missing role fails with a null dereference (None). */
  function Authority(u: User): (r: Option<string>)
    ensures r.Some? <==> u.role.Some?
    ensures r.Some? ==> StartsWith(r.value, "ROLE_") && |r.value| == 5 + |u.role.value|
                        && forall i :: 5 <= i < |r.value| ==> !('a' <= r.value[i] <= 'z')
  {
    if u.role.None? then None else Some("ROLE_" + UpperCase(u.role.value))
  }

  /** Roles that differ only in case give the same authority. */
  lemma AuthorityIgnoresCase(u: User, v: User)
    requires u.role.Some? && v.role.Some? && EqualsIgnoreCase(u.role.value, v.role.value)
    ensures Authority(u) == Authority(v)
  {
  }

  lemma CustomerAuthority(u: User)
    requires u.role == Some("customer")
    ensures Authority(u) == Some("ROLE_CUSTOMER")
  {
    var up := UpperCase("customer");
    assert |up| == 8;
    assert forall i :: 0 <= i < 8 ==> up[i] == "CUSTOMER"[i];
    assert up == "CUSTOMER";
    assert "ROLE_" + "CUSTOMER" == "ROLE_CUSTOMER";
  }

  /** `getUsername`: the email is the login name. */
  function Username(u: User): string
  {
    u.email
  }

  /** The user as the endpoints send and receive it: no password, no flag. */
  datatype UserDto = UserDto(userId: Option<int>, name: Option<string>, email: string, role: Option<string>,
                             contactNumber: Option<string>, approval: Option<string>,
                             registrationDate: Option<int>)

  function ToDto(u: User): UserDto
  {
    UserDto(u.userId, u.name, u.email, u.role, u.contactNumber, u.approval, u.registrationDate)
  }

  /** The view of each user of a list, in order. */
  function Dtos(us: seq<User>): (r: seq<UserDto>)
    ensures forall u :: u in us ==> ToDto(u) in r
    ensures forall d :: d in r ==> exists u :: u in us && ToDto(u) == d
  {
    if us == [] then []
    else
      var rest := Dtos(us[1..]);
      assert forall u :: u in us[1..] ==> u in us;
      [ToDto(us[0])] + rest
  }

  /** `convertToEntity` followed by `setPassword`: the enabled flag keeps its
      initial value. */
  function ToEntity(d: UserDto, password: string): User
  {
    User(d.userId, d.name, d.email, password, d.role, d.contactNumber, d.approval, d.registrationDate, true)
  }

  /** The conversions are inverse: a transfer record survives the trip through
      an entity, and an enabled entity survives the trip through its record when
      its password is put back. */
  lemma ConversionsInverse(d: UserDto, password: string, u: User)
    ensures ToDto(ToEntity(d, password)) == d
    ensures u.enabled ==> ToEntity(ToDto(u), u.password) == u
  {
  }
}
