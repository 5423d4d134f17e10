/** The two route guards of the client: signed-in pages and admin pages. */
module RouteGuards {
  import opened Base
  import UserRecord

  /** A guard either renders the page it wraps or navigates elsewhere. */
  datatype Decision = Render | Redirect(to: string, replace: bool)

  /** The client's stored authentication: a token and the user it was issued for, each possibly absent. */
  datatype AuthState = AuthState(token: Option<string>, user: Option<UserRecord.PublicUser>)

  /** `AdminRoute`: no user goes to the login page, a non-admin to the home page. */
  function AdminRoute(auth: AuthState): (d: Decision)
    ensures d == Render <==> auth.user.Some? && auth.user.value.isAdmin
    ensures auth.user.None? ==> d == Redirect("/login", false)
    ensures auth.user.Some? && !auth.user.value.isAdmin ==> d == Redirect("/", false)
  {
    if auth.user.None? then Redirect("/login", false)
    else if !auth.user.value.isAdmin then Redirect("/", false)
    else Render
  }

  /** `PrivateRoute`: a non-empty token renders the page, anything else replaces it by the login page. */
  function PrivateRoute(auth: AuthState): (d: Decision)
    ensures d == Render <==> auth.token.Some? && auth.token.value != ""
    ensures d != Render ==> d == Redirect("/login", true)
  {
    if auth.token.Some? && auth.token.value != "" then Render else Redirect("/login", true)
  }

  /** The signed-in guard looks at the token only: the stored user makes no difference. */
  lemma PrivateRouteIgnoresUser(auth: AuthState, other: Option<UserRecord.PublicUser>)
    ensures PrivateRoute(auth) == PrivateRoute(auth.(user := other))
  {
  }

  /** The admin guard looks at the user only: a stored admin passes even without a token. */
  lemma AdminRouteIgnoresToken(auth: AuthState, other: Option<string>)
    ensures AdminRoute(auth) == AdminRoute(auth.(token := other))
  {
  }
}
