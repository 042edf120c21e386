/** The guard of the pages meant for visitors without a session (frontend/src/components/PublicRoute.jsx). */
module PublicRoute {
  import opened Common
  import opened Routing
  import ProtectedRoute

  /**
   * Spinner while the session is loading; otherwise a replacing redirect to
   * /dashboard, without state, for a signed-in user, or the page itself.
   */
  function Guard(loading: bool, isAuthenticated: bool): (e: Element)
    ensures e == Spinner <==> loading
    ensures e == Children <==> !loading && !isAuthenticated
    ensures e.Navigate? <==> !loading && isAuthenticated
    ensures e.Navigate? ==> e == Navigate("/dashboard", None, true)
  {
    if loading then Spinner
    else if isAuthenticated then Navigate("/dashboard", None, true)
    else Children
  }

  /** Once loading is over, exactly one of the two guards renders its page, and the other redirects. */
  lemma ExactlyOneGuardRenders(isAuthenticated: bool, location: Location)
    ensures (Guard(false, isAuthenticated) == Children) != (ProtectedRoute.Guard(false, isAuthenticated, location) == Children)
    ensures Guard(false, isAuthenticated).Navigate? != ProtectedRoute.Guard(false, isAuthenticated, location).Navigate?
  {
  }

  /** While loading, both guards show the spinner and neither page is rendered, so nothing flashes. */
  lemma BothWaitWhileLoading(isAuthenticated: bool, location: Location)
    ensures Guard(true, isAuthenticated) == Spinner == ProtectedRoute.Guard(true, isAuthenticated, location)
  {
  }
}
