// The site header: the signed-in user's name and role, the dashboard link
// that role leads to, and the drop-down menu with its logout button.
module Header {
  import opened Common
  import opened ClientRecords
  import opened AuthSession
  import opened AppRoutes

  /** getUserName */
  function UserName(user: Option<ClientUser>): (r: string)
    ensures user.None? ==> r == "Guest"
    ensures user.Some? && Truthy(user.value.name) ==> r == user.value.name.value
    ensures user.Some? && !Truthy(user.value.name) && Truthy(user.value.Name) ==> r == user.value.Name.value
    ensures user.Some? && !Truthy(user.value.name) && !Truthy(user.value.Name) && Truthy(user.value.email)
            ==> r == user.value.email.value
    ensures user.Some? && !Truthy(user.value.name) && !Truthy(user.value.Name) && !Truthy(user.value.email) ==> r == "User"
    ensures r != ""
  {
    if user.None? then "Guest"
    else OrElse(Or(Or(user.value.name, user.value.Name), user.value.email), "User")
  }

  /** getUserRole: 'guest' without a user, and 'customer' when neither spelling is set. */
  function UserRole(user: Option<ClientUser>): (r: string)
    ensures user.None? ==> r == "guest"
    ensures user.Some? ==> (if RoleOf(user.value).Some? && RoleOf(user.value).value != "" then r == RoleOf(user.value).value else r == "customer")
  {
    if user.None? then "guest" else OrElse(RoleOf(user.value), "customer")
  }

  /** getUserApprovalStatus */
  function ApprovalStatus(user: Option<ClientUser>): (r: Option<string>)
    ensures user.None? ==> r.None?
    ensures user.Some? && Truthy(user.value.approval) ==> r == user.value.approval
    ensures user.Some? && !Truthy(user.value.approval) ==> r == user.value.Approval
  {
    if user.None? then None else ApprovalOf(user.value)
  }

  /** isAgentPendingApproval */
  predicate AgentPending(user: Option<ClientUser>)
  {
    UserRole(user) == "agent" && ApprovalStatus(user) == Some("pending")
  }

  /** getDashboardLink: none without a user or for a pending agent; every role
      other than admin and agent leads to the customer dashboard. */
  function DashboardLink(user: Option<ClientUser>): (r: Option<string>)
    ensures r.None? <==> user.None? || AgentPending(user)
    ensures r.Some? ==> r.value in {"/admin-dashboard", "/agent-dashboard", "/user-dashboard"}
    ensures r == Some("/admin-dashboard") <==> user.Some? && UserRole(user) == "admin"
    ensures r == Some("/agent-dashboard") <==> user.Some? && UserRole(user) == "agent" && !AgentPending(user)
  {
    if user.None? || AgentPending(user) then None
    else
      var role := UserRole(user);
      if role == "admin" then Some("/admin-dashboard")
      else if role == "agent" then Some("/agent-dashboard")
      else Some("/user-dashboard")
  }

  /** getDashboardLabel */
  function DashboardLabel(user: Option<ClientUser>): (r: string)
    ensures user.None? ==> r == "Dashboard"
    ensures user.Some? && UserRole(user) == "admin" ==> r == "Admin Dashboard"
    ensures user.Some? && UserRole(user) == "agent" ==> r == "Agent Dashboard"
    ensures user.Some? && UserRole(user) == "customer" ==> r == "My Dashboard"
    ensures user.Some? && UserRole(user) !in {"admin", "agent", "customer"} ==> r == "Dashboard"
  {
    if user.None? then "Dashboard"
    else
      var role := UserRole(user);
      if role == "admin" then "Admin Dashboard"
      else if role == "agent" then "Agent Dashboard"
      else if role == "customer" then "My Dashboard"
      else "Dashboard"
  }

  datatype MenuItem = DashboardItem(to: string, caption: string) | PendingNotice | ProfileItem | LogoutItem

  /** The open drop-down: the dashboard link if there is one, the pending notice for
      a pending agent, then Profile and Logout. */
  function MenuItems(user: Option<ClientUser>): (r: seq<MenuItem>)
    ensures |r| >= 2 && r[|r| - 2] == ProfileItem && r[|r| - 1] == LogoutItem
    ensures DashboardLink(user).Some? ==> r == [DashboardItem(DashboardLink(user).value, DashboardLabel(user)), ProfileItem, LogoutItem]
    ensures AgentPending(user) ==> r == [PendingNotice, ProfileItem, LogoutItem]
    ensures user.None? ==> r == [ProfileItem, LogoutItem]
  {
    (if DashboardLink(user).Some? then [DashboardItem(DashboardLink(user).value, DashboardLabel(user))] else [])
    + (if AgentPending(user) then [PendingNotice] else [])
    + [ProfileItem, LogoutItem]
  }

  /** The header's own state: whether the drop-down is open and where it last navigated. */
  class Menu {
    var isDropdownOpen: bool
    var navigatedTo: Option<string>

    constructor ()
      ensures !isDropdownOpen && navigatedTo == None
    {
      isDropdownOpen := false;
      navigatedTo := None;
    }

    /** The menu trigger flips the drop-down. */
    method Toggle()
      modifies this
      ensures isDropdownOpen == !old(isDropdownOpen) && navigatedTo == old(navigatedTo)
    {
      isDropdownOpen := !isDropdownOpen;
    }

    /** A mouse-down outside the menu closes it. */
    method ClickOutside(inside: bool)
      modifies this
      ensures isDropdownOpen == (old(isDropdownOpen) && inside) && navigatedTo == old(navigatedTo)
    {
      if !inside {
        isDropdownOpen := false;
      }
    }

    /** handleLogout: signs out, goes to / and closes the drop-down. */
    method Logout(session: AuthSession.Session)
      modifies this, session, session.storage
      ensures session.currentUser == None && !session.isAuthenticated && session.Valid()
      ensures session.storage.currentUser == None && session.storage.authToken == None
      ensures navigatedTo == Some("/") && !isDropdownOpen
    {
      session.Logout();
      navigatedTo := Some("/");
      isDropdownOpen := false;
    }
  }

  /** The role-less user the header calls a customer: its dashboard link leads to
      /user-dashboard, where the route guard, which has no default role, sends it
      back to /. */
  lemma RoleLessLinkBounces(user: ClientUser)
    requires !Truthy(user.role) && !Truthy(user.Role)
    ensures DashboardLink(Some(user)) == Some("/user-dashboard")
    ensures Route("/user-dashboard", true, Some(user)) == Redirect("/")
  {
    assert UserRole(Some(user)) == "customer";
  }

  /** A pending agent gets no dashboard link, but the route guard never reads the
      approval, so typing /agent-dashboard still shows the agent dashboard. */
  lemma PendingAgentNotGuarded(user: ClientUser)
    requires RoleOf(user) == Some("agent") && ApprovalOf(user) == Some("pending")
    ensures DashboardLink(Some(user)).None?
    ensures Route("/agent-dashboard", true, Some(user)) == Show(AgentDashboard)
  {
    assert UserRole(Some(user)) == "agent";
  }

  /** For a user with an admin, agent or customer role, the header's link is the
      dashboard the route guard lets it see (pending agents aside). */
  lemma LinkAgreesWithGuard(user: ClientUser)
    requires RoleOf(user) in {Some("admin"), Some("agent"), Some("customer")}
    requires !AgentPending(Some(user))
    ensures DashboardLink(Some(user)).Some?
    ensures Route(DashboardLink(Some(user)).value, true, Some(user)).Show?
  {
    assert UserRole(Some(user)) == RoleOf(user).value;
    KeyOfPattern("/admin-dashboard");
    KeyOfPattern("/agent-dashboard");
    KeyOfPattern("/user-dashboard");
  }
}
