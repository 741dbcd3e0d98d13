/**
 * The route table and the guard around signed-in pages: while the session is
 * loading a placeholder shows, a visitor is sent to the login page, and a user
 * of the wrong role is sent to their own dashboard.
 */
module AppRoutes {
  import opened Wrappers
  import opened Types

  /** What the guard renders. */
  datatype GuardOutcome = ShowLoading | RedirectTo(path: string) | Render

  /** `ProtectedRoute`: `required` is the role the route demands, if any. */
  function Guard(user: Option<User>, loading: bool, required: Option<UserRole>): (r: GuardOutcome)
    ensures loading ==> r == ShowLoading
    ensures !loading && user.None? ==> r == RedirectTo(LOGIN)
    ensures r == Render <==> !loading && user.Some? && (required.None? || user.value.role == required.value)
    ensures r.RedirectTo? && user.Some? ==> r.path == HomeOf(user.value.role)
  {
    if loading then ShowLoading
    else if user.None? then RedirectTo(LOGIN)
    else if required.Some? && user.value.role != required.value then RedirectTo(HomeOf(user.value.role))
    else Render
  }

  /** The dashboard of a role; a user without a role goes to the landing page. */
  function HomeOf(role: UserRole): (r: string)
    ensures role != NoRole ==> RouteAccess(r) == Some(RoleOnly(role))
    ensures role == NoRole ==> RouteAccess(r) == Some(Public)
  {
    match role
    case Farmer => FARMER_DASHBOARD
    case Buyer => BUYER_DASHBOARD
    case NoRole => LANDING
  }

  /** Who may open a route. */
  datatype Access = Public | SignedIn | RoleOnly(role: UserRole)

  /** The route table; a path with a parameter is given by its prefix. Unknown paths show "not found". */
  function RouteAccess(path: string): Option<Access> {
    if path in [LANDING, REGISTER, LOGIN, ABOUT_US, HELP, MARKETPLACE, PRODUCE_DETAIL, FARMER_PROFILE] then Some(Public)
    else if path in [FARMER_DASHBOARD, MY_PRODUCE, ADD_PRODUCE, EDIT_PRODUCE, FARMER_MARKET_INSIGHTS, FARMER_CONNECTIONS] then Some(RoleOnly(Farmer))
    else if path in [BUYER_DASHBOARD, BUYER_CONNECTIONS] then Some(RoleOnly(Buyer))
    else if path in [PROFILE, NOTIFICATIONS, MESSAGES] then Some(SignedIn)
    else None
  }

  /** What visiting a route renders for the current session. */
  function Visit(path: string, user: Option<User>, loading: bool): Option<GuardOutcome> {
    match RouteAccess(path)
    case None => None
    case Some(Public) => Some(Render)
    case Some(SignedIn) => Some(Guard(user, loading, None))
    case Some(RoleOnly(role)) => Some(Guard(user, loading, Some(role)))
  }

  /** A farmer page renders only for a signed-in farmer; a buyer page only for a signed-in buyer. */
  lemma RolePagesRenderOnlyForTheirRole(path: string, user: Option<User>, loading: bool)
    requires RouteAccess(path) == Some(RoleOnly(Farmer)) || RouteAccess(path) == Some(RoleOnly(Buyer))
    ensures Visit(path, user, loading) == Some(Render) <==>
      !loading && user.Some? && Some(RoleOnly(user.value.role)) == RouteAccess(path)
  {
  }

  /** Every redirect of the guard lands on a page the user is allowed to see. */
  lemma RedirectsLandOnOpenPages(user: Option<User>, loading: bool, required: Option<UserRole>)
    requires Guard(user, loading, required).RedirectTo?
    ensures var target := Guard(user, loading, required).path;
      Visit(target, user, loading) == Some(Render)
  {
    var target := Guard(user, loading, required).path;
    if user.Some? {
      assert target == HomeOf(user.value.role);
    }
  }

  /** The guard never renders the page to a visitor who is not signed in. */
  lemma VisitorsNeverSeeGuardedPages(path: string, loading: bool)
    requires RouteAccess(path).Some? && RouteAccess(path) != Some(Public)
    ensures Visit(path, None, loading) != Some(Render)
  {
  }
}
