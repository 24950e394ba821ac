// The route table of the client and its guard: a protected route sends a
// visitor who is not signed in to /signin, and a signed-in user whose role is
// not allowed to /. Approval status is never consulted.
module AppRoutes {
  import opened Common
  import opened ClientRecords

  datatype View =
    | Landing | SignIn | Register | Reviews | Assistance | Packages
    | UserDashboard | AgentDashboard | AdminDashboard | Profile

  datatype Render = Show(view: View) | Redirect(to: string)

  /** ProtectedRoute. `allowed` is the allowedRoles list, if the route gives one. */
  function Protected(allowed: Option<seq<string>>, isAuthenticated: bool, user: Option<ClientUser>, view: View): (r: Render)
    ensures !isAuthenticated ==> r == Redirect("/signin")
    ensures isAuthenticated && allowed.Some? ==>
              (r == Show(view) <==> user.Some? && RoleOf(user.value).Some? && RoleOf(user.value).value in allowed.value)
    ensures isAuthenticated && allowed.Some? && r != Show(view) ==> r == Redirect("/")
    ensures isAuthenticated && allowed.None? ==> r == Show(view)
  {
    if !isAuthenticated then Redirect("/signin")
    else
      var role := if user.Some? then RoleOf(user.value) else None;
      if allowed.Some? && !(role.Some? && role.value in allowed.value) then Redirect("/")
      else Show(view)
  }

  /** The path without its trailing slashes; a path made only of slashes keeps
      its first one. */
  function DropTrailingSlashes(path: string): (r: string)
    ensures |r| <= |path| && r == path[..|r|]
    ensures |r| > 1 ==> r[|r| - 1] != '/'
    ensures |path| > 0 ==> |r| > 0
  {
    if |path| > 1 && path[|path| - 1] == '/' then DropTrailingSlashes(path[..|path| - 1]) else path
  }

  function ToLower(c: char): char { if 'A' <= c <= 'Z' then (c as int + 32) as char else c }

  function LowerCase(s: string): (r: string)
    ensures |r| == |s| && forall i :: 0 <= i < |s| ==> r[i] == ToLower(s[i])
  {
    seq(|s|, i requires 0 <= i < |s| => ToLower(s[i]))
  }

  /** What the router compares with a route's pattern: the path with its ASCII
      letters in lower case and its trailing slashes dropped, since the patterns
      are lower-case and matching ignores case and trailing slashes. */
  function Key(path: string): string
  {
    LowerCase(DropTrailingSlashes(path))
  }

  /** The `<Routes>` table; any other path redirects to /. */
  function Route(path: string, isAuthenticated: bool, user: Option<ClientUser>): (r: Render)
    ensures !IsKnown(path) ==> r == Redirect("/")
    ensures IsKnown(path) && !IsGuarded(path) ==> r.Show?
    ensures IsGuarded(path) && !isAuthenticated ==> r == Redirect("/signin")
    ensures Key(path) == "/profile" ==> r == Protected(None, isAuthenticated, user, Profile)
  {
    var k := Key(path);
    if k == "/" then Show(Landing)
    else if k == "/signin" then Show(SignIn)
    else if k == "/register" then Show(Register)
    else if k == "/reviews" then Show(Reviews)
    else if k == "/assistance" then Show(Assistance)
    else if k == "/packages" then Show(Packages)
    else if k == "/user-dashboard" then Protected(Some(["customer"]), isAuthenticated, user, UserDashboard)
    else if k == "/agent-dashboard" then Protected(Some(["agent"]), isAuthenticated, user, AgentDashboard)
    else if k == "/admin-dashboard" then Protected(Some(["admin"]), isAuthenticated, user, AdminDashboard)
    else if k == "/profile" then Protected(None, isAuthenticated, user, Profile)
    else Redirect("/")
  }

  /** The main area: a spinner while the catalogue loads, the error page when it
      failed, and the routed view otherwise. */
  datatype Main = Spinner | Unavailable(error: string) | Routed(render: Render)

  function MainContent(loading: bool, error: Option<string>, path: string, isAuthenticated: bool,
                       user: Option<ClientUser>): (r: Main)
    ensures loading ==> r == Spinner
    ensures !loading && Truthy(error) ==> r == Unavailable(error.value)
    ensures r.Routed? <==> !loading && !Truthy(error)
    ensures r.Routed? ==> r.render == Route(path, isAuthenticated, user)
  {
    if loading then Spinner
    else if Truthy(error) then Unavailable(error.value)
    else Routed(Route(path, isAuthenticated, user))
  }

  predicate IsGuarded(path: string)
  {
    var k := Key(path);
    k == "/user-dashboard" || k == "/agent-dashboard" || k == "/admin-dashboard" || k == "/profile"
  }

  predicate IsKnown(path: string)
  {
    var k := Key(path);
    IsGuarded(path) || k == "/" || k == "/signin" || k == "/register"
    || k == "/reviews" || k == "/assistance" || k == "/packages"
  }

  /** A path with no upper-case ASCII letter and no trailing slash is its own
      key, as every pattern of the table is. */
  lemma KeyOfPattern(pattern: string)
    requires forall i :: 0 <= i < |pattern| ==> !('A' <= pattern[i] <= 'Z')
    requires |pattern| <= 1 || pattern[|pattern| - 1] != '/'
    ensures Key(pattern) == pattern
  {
    assert LowerCase(pattern) == pattern;
  }

  /** Every guarded route sends a visitor who is not signed in to /signin. */
  lemma GuardedNeedsSignIn(path: string, user: Option<ClientUser>)
    requires IsGuarded(path)
    ensures Route(path, false, user) == Redirect("/signin")
  {
  }

  /** Each dashboard admits exactly one role. */
  lemma DashboardsAdmitOneRole(user: ClientUser)
    ensures Route("/user-dashboard", true, Some(user)) == Show(UserDashboard) <==> RoleOf(user) == Some("customer")
    ensures Route("/agent-dashboard", true, Some(user)) == Show(AgentDashboard) <==> RoleOf(user) == Some("agent")
    ensures Route("/admin-dashboard", true, Some(user)) == Show(AdminDashboard) <==> RoleOf(user) == Some("admin")
  {
    KeyOfPattern("/user-dashboard");
    KeyOfPattern("/agent-dashboard");
    KeyOfPattern("/admin-dashboard");
    assert Some(["customer"]).value == ["customer"];
  }

  /** /profile admits any signed-in session. */
  lemma ProfileAdmitsAnyone(user: Option<ClientUser>)
    ensures Route("/profile", true, user) == Show(Profile)
  {
    KeyOfPattern("/profile");
  }

  /** Lower-casing leaves slashes where they were and makes no new ones, so it
      commutes with dropping the trailing slashes. */
  lemma {:induction false} LowerCaseDropsSameSlashes(path: string)
    ensures LowerCase(DropTrailingSlashes(path)) == DropTrailingSlashes(LowerCase(path))
    decreases |path|
  {
    var l := LowerCase(path);
    if |path| > 1 && path[|path| - 1] == '/' {
      assert LowerCase(path[..|path| - 1]) == l[..|l| - 1];
      LowerCaseDropsSameSlashes(path[..|path| - 1]);
    } else if |path| > 1 {
      assert l[|l| - 1] != '/';
    }
  }

  /** Two paths that differ only in the case of ASCII letters are routed the
      same way. */
  lemma CaseIgnored(p: string, q: string, isAuthenticated: bool, user: Option<ClientUser>)
    requires LowerCase(p) == LowerCase(q)
    ensures Route(p, isAuthenticated, user) == Route(q, isAuthenticated, user)
  {
    LowerCaseDropsSameSlashes(p);
    LowerCaseDropsSameSlashes(q);
  }

  /** A trailing slash never changes the route. */
  lemma TrailingSlashIgnored(path: string, isAuthenticated: bool, user: Option<ClientUser>)
    requires path != ""
    ensures Route(path + "/", isAuthenticated, user) == Route(path, isAuthenticated, user)
  {
    assert (path + "/")[..|path|] == path;
  }

  /** "/Profile" and "/user-dashboard/" are guarded routes: a visitor who is not
      signed in is sent to /signin, not home. */
  lemma VariantPathsGuarded(user: Option<ClientUser>)
    ensures Route("/Profile", false, user) == Redirect("/signin")
    ensures Route("/user-dashboard/", false, user) == Redirect("/signin")
  {
    assert Key("/Profile") == "/profile";
    TrailingSlashIgnored("/user-dashboard", false, user);
    KeyOfPattern("/user-dashboard");
  }

  /** Any path outside the table redirects to /. */
  lemma UnknownPathsGoHome(path: string, isAuthenticated: bool, user: Option<ClientUser>)
    requires !IsKnown(path)
    ensures Route(path, isAuthenticated, user) == Redirect("/")
  {
  }

  /** Changing only the approval fields never changes what a route renders. */
  lemma ApprovalNeverConsulted(path: string, isAuthenticated: bool, user: ClientUser, a: Option<string>, b: Option<string>)
    ensures Route(path, isAuthenticated, Some(user)) == Route(path, isAuthenticated, Some(user.(approval := a, Approval := b)))
  {
    assert RoleOf(user) == RoleOf(user.(approval := a, Approval := b));
  }
}
