/** The route guard (src/components/ProtectedRoute.js): one of four outcomes
    from the session flags and the route's `requireAuth`. */
module ProtectedRoute {
  import opened Wrappers

  /** A route as the router reports it. */
  datatype Location = Location(pathname: string)

  datatype Outcome =
    | Spinner
    | RedirectToLogin(from: Location)
    | RedirectToPos
    | RenderChildren

  /** The decision chain: the session check first, then a protected route
      without a session, then a guest-only route with one, else the page. */
  function Decide(isAuthenticated: bool, isInitialized: bool, isLoading: bool, location: Location, requireAuth: bool := true): (r: Outcome)
    ensures r == Spinner <==> !isInitialized || isLoading
    ensures r.RedirectToLogin? <==> isInitialized && !isLoading && requireAuth && !isAuthenticated
    ensures r.RedirectToLogin? ==> r.from == location
    ensures r == RedirectToPos <==> isInitialized && !isLoading && !requireAuth && isAuthenticated
    ensures r == RenderChildren <==> isInitialized && !isLoading && requireAuth == isAuthenticated
  {
    if !isInitialized || isLoading then Spinner
    else if requireAuth && !isAuthenticated then RedirectToLogin(location)
    else if !requireAuth && isAuthenticated then RedirectToPos
    else RenderChildren
  }
}
