/**
 * The client's page routing: the `ProtectedRoute` wrapper, the role switch
 * of the home page and the table of paths.
 */
module ClientRoutes {
  import opened Common
  import opened Models
  import AuthMiddleware

  /** What the auth context provides. */
  datatype AuthState = AuthState(loading: bool, user: Option<SessionUser>)

  datatype Page = LoginForm | ManagerDashboard | HelperDashboard | BasketPage

  /** What a route renders: the loading view, a redirect, or a page. */
  datatype View = Spinner | Redirect(to: string) | Show(page: Page)

  /** `requiredRole &&`: an absent or empty role asks for nothing. */
  predicate RoleRequired(requiredRole: Option<string>)
  {
    requiredRole.Some? && requiredRole.value != ""
  }

  /** `ProtectedRoute`. */
  function ProtectedRoute(auth: AuthState, requiredRole: Option<string>, child: View): (v: View)
    ensures auth.loading ==> v == Spinner
    ensures !auth.loading && auth.user.None? ==> v == Redirect("/login")
    ensures !auth.loading && auth.user.Some? ==>
              v == (if RoleRequired(requiredRole) && auth.user.value.role != requiredRole.value
                    then Redirect("/") else child)
  {
    if auth.loading then Spinner
    else if auth.user.None? then Redirect("/login")
    else if RoleRequired(requiredRole) && auth.user.value.role != requiredRole.value then Redirect("/")
    else child
  }

  /** `Dashboard`: the manager view for the role `manager`, the helper view
      for any other role. */
  function Dashboard(user: Option<SessionUser>): (v: View)
    ensures user.None? ==> v == Redirect("/login")
    ensures user.Some? ==> (v == Show(ManagerDashboard) <==> user.value.role == MANAGER)
    ensures user.Some? ==> (v == Show(HelperDashboard) <==> user.value.role != MANAGER)
  {
    if user.None? then Redirect("/login")
    else if user.value.role == MANAGER then Show(ManagerDashboard) else Show(HelperDashboard)
  }

  /** The route table: `/login`, `/` (any signed-in user), `/basket`
      (helpers) and everything else redirected home. */
  function Navigate(path: string, auth: AuthState): (v: View)
    ensures v == Show(LoginForm) <==> path == "/login"
    ensures v.Show? && v.page != LoginForm ==> !auth.loading && auth.user.Some?
    ensures v == Spinner ==> auth.loading
  {
    if path == "/login" then Show(LoginForm)
    else if path == "/" then ProtectedRoute(auth, None, Dashboard(auth.user))
    else if path == "/basket" then ProtectedRoute(auth, Some(HELPER), Show(BasketPage))
    else Redirect("/")
  }

  /** The basket page is shown only to a signed-in helper, exactly the
      sessions the server's basket routes let through. */
  lemma BasketPageOnlyForHelpers(path: string, auth: AuthState)
    ensures Navigate(path, auth) == Show(BasketPage) <==>
              && path == "/basket" && !auth.loading && auth.user.Some?
              && AuthMiddleware.HelperOnly(SignedIn(auth.user.value)).Next?
  {
  }

  /** The manager view is shown only on the home page to a manager, exactly
      the sessions the server lets change needs. */
  lemma ManagerViewOnlyForManagers(path: string, auth: AuthState)
    ensures Navigate(path, auth) == Show(ManagerDashboard) <==>
              && path == "/" && !auth.loading && auth.user.Some?
              && AuthMiddleware.ManagerOnly(SignedIn(auth.user.value)).Next?
  {
  }

  /** While the auth state loads, both protected pages show the spinner; an
      unknown path always goes home. */
  lemma LoadingAndUnknownPaths(path: string, auth: AuthState)
    ensures auth.loading && (path == "/" || path == "/basket") ==> Navigate(path, auth) == Spinner
    ensures path != "/login" && path != "/" && path != "/basket" ==> Navigate(path, auth) == Redirect("/")
    ensures !auth.loading && auth.user.None? && path != "/login" ==> Navigate(path, auth).Redirect?
  {
  }
}
