/** The guard wrapped around protected pages: it reads the session and decides
    between the login page, the root page and the wrapped child. */
module PrivateRoute {
  import opened Wrappers

  datatype Decision = RedirectLogin | RedirectRoot | RenderChild

  /** `isAuthenticated` and `user?.role` come from the session; `role` is the optional
      role the route demands. Not being signed in wins over any role mismatch. */
  function Decide(isAuthenticated: bool, userRole: Option<string>, role: Option<string>): (d: Decision)
    ensures !isAuthenticated ==> d == RedirectLogin
    ensures d == RedirectRoot <==> isAuthenticated && Truthy(role) && userRole != role
    ensures d == RenderChild <==> isAuthenticated && (!Truthy(role) || userRole == role)
  {
    if !isAuthenticated then RedirectLogin
    else if Truthy(role) && userRole != role then RedirectRoot
    else RenderChild
  }
}
