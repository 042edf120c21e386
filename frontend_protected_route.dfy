/** The guard of the pages that need a session (frontend/src/components/ProtectedRoute.jsx). */
module ProtectedRoute {
  import opened Common
  import opened Routing

  /**
   * Spinner while the session is loading; otherwise a replacing redirect to
   * /login that remembers where the visitor was going, or the page itself.
   */
  function Guard(loading: bool, isAuthenticated: bool, location: Location): (e: Element)
    ensures e == Spinner <==> loading
    ensures e == Children <==> !loading && isAuthenticated
    ensures e.Navigate? <==> !loading && !isAuthenticated
    ensures e.Navigate? ==> e.to == "/login" && e.replace && e.state == Some(NavState(Some(location)))
  {
    if loading then Spinner
    else if !isAuthenticated then Navigate("/login", Some(NavState(Some(location))), true)
    else Children
  }
}
