// The profile page: the edit form over the signed-in user, the update it sends
// (keeping the user's role and approval), and the refresh from the server.
module ProfilePage {
  import opened Common
  import opened ClientRecords
  import opened AuthSession

  /** The field getters, each with its fallback. */
  function ProfileName(u: Option<ClientUser>): (r: string)
    ensures r != ""
  {
    if u.None? then "Unknown User" else OrElse(Or(u.value.name, u.value.Name), "Unknown User")
  }

  function ProfileEmail(u: Option<ClientUser>): string
  {
    if u.None? then "" else OrElse(Or(u.value.email, u.value.Email), "")
  }

  function ProfileContact(u: Option<ClientUser>): string
  {
    if u.None? then "" else OrElse(Or(u.value.contactNumber, u.value.ContactNumber), "")
  }

  function ProfileRole(u: Option<ClientUser>): (r: string)
    ensures r != ""
    ensures u.Some? && Truthy(RoleOf(u.value)) ==> r == RoleOf(u.value).value
  {
    if u.None? then "customer" else OrElse(RoleOf(u.value), "customer")
  }

  function ProfileApproval(u: Option<ClientUser>): (r: string)
    ensures r != ""
    ensures u.Some? && Truthy(ApprovalOf(u.value)) ==> r == ApprovalOf(u.value).value
  {
    if u.None? then "approved" else OrElse(ApprovalOf(u.value), "approved")
  }

  datatype ProfileForm = ProfileForm(name: string, email: string, contactNumber: string,
                                     password: string, confirmPassword: string)

  /** The form as the page fills it from a user: both password fields empty. */
  function FormFor(u: Option<ClientUser>): (f: ProfileForm)
    ensures f.password == "" && f.confirmPassword == ""
    ensures f.name == ProfileName(u) && f.email == ProfileEmail(u) && f.contactNumber == ProfileContact(u)
  {
    ProfileForm(ProfileName(u), ProfileEmail(u), ProfileContact(u), "", "")
  }

  /** The update body; `password` is present only when one was typed. */
  datatype ProfileUpdate = ProfileUpdate(name: string, email: string, contactNumber: string,
                                         role: string, approval: string, password: Option<string>)

  function UpdateFor(f: ProfileForm, u: Option<ClientUser>): (r: ProfileUpdate)
    ensures r.name == f.name && r.email == f.email && r.contactNumber == f.contactNumber
    ensures r.role == ProfileRole(u) && r.approval == ProfileApproval(u)
    ensures r.password.Some? <==> f.password != ""
    ensures r.password.Some? ==> r.password.value == f.password
  {
    ProfileUpdate(f.name, f.email, f.contactNumber, ProfileRole(u), ProfileApproval(u),
                  if f.password != "" then Some(f.password) else None)
  }

  /** One property of a JSON object as JavaScript spreads it: a property the
      object does not have at all, or one it has, whose value may be null. */
  datatype Prop<T> = Absent | Present(value: Option<T>)

  /** The user record the server answers with. The transfer object writes
      every field, null ones included, so a property is absent only when that
      spelling is not one the server uses. */
  datatype UserPatch = UserPatch(
    userId: Prop<int>, UserID: Prop<int>,
    name: Prop<string>, Name: Prop<string>,
    email: Prop<string>, Email: Prop<string>,
    contactNumber: Prop<string>, ContactNumber: Prop<string>,
    role: Prop<string>, Role: Prop<string>,
    approval: Prop<string>, Approval: Prop<string>,
    token: Prop<string>)

  /** One property of a spread: the later object's, null included, if it has
      the property at all; else the earlier one's. */
  function Pick<T>(later: Prop<T>, earlier: Option<T>): (r: Option<T>)
    ensures later.Present? ==> r == later.value
    ensures later == Present(None) ==> r.None?
    ensures later.Absent? ==> r == earlier
  {
    match later
    case Absent => earlier
    case Present(v) => v
  }

  /** `{...base, ...patch}`: every property the response has replaces the
      user's, a null one included; only properties it lacks are kept. */
  function Overlay(base: ClientUser, patch: UserPatch): (r: ClientUser)
    ensures patch.name.Present? ==> r.name == patch.name.value
    ensures patch.name.Absent? ==> r.name == base.name
    ensures patch.contactNumber.Present? ==> r.contactNumber == patch.contactNumber.value
    ensures patch.contactNumber.Absent? ==> r.contactNumber == base.contactNumber
    ensures patch.role.Present? ==> r.role == patch.role.value
    ensures patch.role.Absent? ==> r.role == base.role
    ensures patch.approval.Absent? ==> r.approval == base.approval
  {
    ClientUser(
      Pick(patch.userId, base.userId),
      Pick(patch.UserID, base.UserID),
      Pick(patch.name, base.name),
      Pick(patch.Name, base.Name),
      Pick(patch.email, base.email),
      Pick(patch.Email, base.Email),
      Pick(patch.contactNumber, base.contactNumber),
      Pick(patch.ContactNumber, base.ContactNumber),
      Pick(patch.role, base.role),
      Pick(patch.Role, base.Role),
      Pick(patch.approval, base.approval),
      Pick(patch.Approval, base.Approval),
      Pick(patch.token, base.token))
  }

  /** `{...null, ...patch}`: the response alone, absent and null both read as
      no value. */
  function AsUser(patch: UserPatch): (r: ClientUser)
    ensures forall base: ClientUser :: AllPresent(patch) ==> Overlay(base, patch) == r
    ensures patch.name.Present? ==> r.name == patch.name.value
    ensures patch.name.Absent? ==> r.name.None?
  {
    Overlay(ClientUser(None, None, None, None, None, None, None, None, None, None, None, None, None), patch)
  }

  /** Every spelling is a property of the response. */
  predicate AllPresent(p: UserPatch)
  {
    p.userId.Present? && p.UserID.Present? && p.name.Present? && p.Name.Present?
    && p.email.Present? && p.Email.Present? && p.contactNumber.Present? && p.ContactNumber.Present?
    && p.role.Present? && p.Role.Present? && p.approval.Present? && p.Approval.Present?
    && p.token.Present?
  }

  const NoProperties: UserPatch := UserPatch(Absent, Absent, Absent, Absent, Absent, Absent,
                                             Absent, Absent, Absent, Absent, Absent, Absent, Absent)

  /** Overlaying is idempotent, an empty response leaves the user as it was,
      and a null contact number in the response wipes the user's. */
  lemma OverlayLaws(base: ClientUser, patch: UserPatch)
    ensures Overlay(Overlay(base, patch), patch) == Overlay(base, patch)
    ensures Overlay(base, NoProperties) == base
    ensures patch.contactNumber == Present(None) ==> Overlay(base, patch).contactNumber.None?
  {
  }

  /** getBookingStatus: the four known statuses have their own class. */
  function BookingStatusClass(status: Option<string>): (r: string)
    ensures status == Some("confirmed") ==> r == "status-confirmed"
    ensures status == Some("completed") ==> r == "status-completed"
    ensures status == Some("cancelled") ==> r == "status-cancelled"
    ensures !(status in {Some("confirmed"), Some("completed"), Some("cancelled")}) ==> r == "status-pending"
  {
    if status == Some("confirmed") then "status-confirmed"
    else if status == Some("completed") then "status-completed"
    else if status == Some("cancelled") then "status-cancelled"
    else "status-pending"
  }

  /** The toast a handler ends with, failures with the text shown. */
  datatype ProfileNotice = PasswordsDiffer | ProfileSaved | SaveFailed(message: string)
                         | ProfileRefreshed | RefreshFailed(message: string)

  /** A failed update reply carries no `message`, so the page's own text shows. */
  const UpdateFailedText := "Failed to update profile"

  /** refreshUserData answers a failure with the reply's error, or its own text;
      the page shows that answer's message. */
  function RefreshFailedText(error: Option<string>): (r: string)
    ensures Truthy(error) ==> r == error.value
    ensures !Truthy(error) ==> r == "Failed to refresh user data"
  {
    OrElse(error, "Failed to refresh user data")
  }

  class Page {
    var form: ProfileForm
    var isEditing: bool

    constructor (session: Session)
      ensures form == FormFor(session.currentUser) && !isEditing
    {
      form := FormFor(session.currentUser);
      isEditing := false;
    }

    /** The effect on `currentUser`: whenever a user is set, the form is filled
        from it again and both password fields are emptied. */
    method UserChanged(session: Session)
      modifies this
      ensures session.currentUser.Some? ==> form == FormFor(session.currentUser)
      ensures session.currentUser.None? ==> form == old(form)
      ensures isEditing == old(isEditing)
    {
      if session.currentUser.Some? {
        form := FormFor(session.currentUser);
      }
    }

    /** handleSubmit: differing passwords stop it with no call; a saved profile
        becomes the signed-in user (overlaid on the previous one, token kept),
        the effect on the new user refills the form and editing ends. */
    method Submit(session: Session, reply: Reply<UserPatch>) returns (sent: Option<ProfileUpdate>, notice: ProfileNotice)
      requires session.Valid()
      modifies this, session, session.storage
      ensures session.Valid()
      ensures sent.Some? <==> old(form).password == old(form).confirmPassword
      ensures sent.Some? ==> sent.value == UpdateFor(old(form), old(session.currentUser))
      ensures sent.None? ==> notice == PasswordsDiffer
      ensures sent.Some? && reply.Success? && old(session.currentUser).Some? ==>
                session.currentUser == Some(WithToken(Overlay(old(session.currentUser).value, reply.data),
                                                      old(session.currentUser).value.token))
      ensures sent.Some? && reply.Success? && old(session.currentUser).None? ==>
                session.currentUser == Some(WithToken(AsUser(reply.data), None))
      ensures sent.Some? && reply.Success? ==> !isEditing && notice == ProfileSaved
      ensures !(sent.Some? && reply.Success?) ==>
                session.currentUser == old(session.currentUser) && isEditing == old(isEditing)
                && session.storage.currentUser == old(session.storage.currentUser)
      ensures sent.Some? && reply.Failure? ==> notice == SaveFailed(UpdateFailedText)
      ensures sent.Some? && reply.Success? ==> form == FormFor(session.currentUser)
                                               && form.password == "" && form.confirmPassword == ""
      ensures !(sent.Some? && reply.Success?) ==> form == old(form)
      ensures session.isAuthenticated == old(session.isAuthenticated)
      ensures session.storage.authToken == old(session.storage.authToken)
    {
      if form.password != form.confirmPassword {
        sent := None;
        notice := PasswordsDiffer;
        return;
      }
      sent := Some(UpdateFor(form, session.currentUser));
      if reply.Success? {
        var merged := if session.currentUser.Some? then Overlay(session.currentUser.value, reply.data) else AsUser(reply.data);
        session.UpdateUser(merged);
        UserChanged(session);
        isEditing := false;
        notice := ProfileSaved;
      } else {
        notice := SaveFailed(UpdateFailedText);
      }
    }

    /** handleRefreshUserData: without a user nothing is asked. A fresh record
        becomes the user; the handler refills the form from the record's
        lower-case fields, and the effect on the new user, which runs after the
        handler's own update, fills it from the new user and empties both
        password fields. */
    method Refresh(session: Session, reply: Reply<ClientUser>) returns (asked: bool, notice: Option<ProfileNotice>)
      requires session.Valid()
      modifies this, session, session.storage
      ensures session.Valid()
      ensures asked == old(session.currentUser).Some?
      ensures asked && reply.Success? ==>
                form == FormFor(Some(WithToken(reply.data, old(session.currentUser).value.token)))
                && session.currentUser == Some(WithToken(reply.data, old(session.currentUser).value.token))
                && notice == Some(ProfileRefreshed)
      ensures !(asked && reply.Success?) ==> form == old(form) && session.currentUser == old(session.currentUser)
      ensures asked && reply.Failure? ==> notice == Some(RefreshFailed(RefreshFailedText(reply.error)))
      ensures !asked ==> notice.None?
      ensures session.isAuthenticated == old(session.isAuthenticated)
      ensures isEditing == old(isEditing)
    {
      if session.currentUser.None? {
        asked := false;
        notice := None;
        return;
      }
      asked := true;
      var before := session.currentUser;
      var ok := session.RefreshUserData(reply);
      if ok {
        form := ProfileForm(OrElse(reply.data.name, ProfileName(before)), OrElse(reply.data.email, ProfileEmail(before)),
                            OrElse(reply.data.contactNumber, ProfileContact(before)), "", "");
        UserChanged(session);
        notice := Some(ProfileRefreshed);
      } else {
        notice := Some(RefreshFailed(RefreshFailedText(reply.error)));
      }
    }
  }
}
