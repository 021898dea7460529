/** The three route wrappers, each a decision over the auth state. */
module RouteGuards {
  import opened Common

  /** What a guard renders: a spinner, a redirect (`<Navigate>`), or its children. */
  datatype GuardView = Spinner | Redirect(to: string, replace: bool) | Children

  /** `ProtectedRoute`: a spinner while loading, then the login page (replacing the history
      entry) without a user, else the children. */
  function ProtectedRoute(auth: AuthState): (view: GuardView)
    ensures auth.loading ==> view == Spinner
    ensures !auth.loading && auth.user.None? ==> view == Redirect("/login", true)
    ensures view == Children <==> !auth.loading && auth.user.Some?
  {
    if auth.loading then Spinner
    else if auth.user.None? then Redirect("/login", true)
    else Children
  }

  /** `PublicRoute`: the dashboard for a signed-in user, else the children. */
  function PublicRoute(auth: AuthState): (view: GuardView)
    ensures auth.user.Some? ==> view == Redirect("/dashboard", false)
    ensures auth.user.None? ==> view == Children
  {
    if auth.user.Some? then Redirect("/dashboard", false) else Children
  }

  /** `GuestOnlyRoute`: the same test written as an if statement. */
  function GuestOnlyRoute(auth: AuthState): (view: GuardView)
    ensures auth.user.Some? ==> view == Redirect("/dashboard", false)
    ensures auth.user.None? ==> view == Children
  {
    if auth.user.Some? then
      Redirect("/dashboard", false)
    else
      Children
  }

  /** The two guest guards decide alike for every auth state, and neither looks at the
      loading flag. */
  lemma GuestGuardsAgree(auth: AuthState, other: AuthState)
    ensures GuestOnlyRoute(auth) == PublicRoute(auth)
    ensures auth.user == other.user ==> PublicRoute(auth) == PublicRoute(other)
    ensures auth.user == other.user ==> GuestOnlyRoute(auth) == GuestOnlyRoute(other)
  {
  }

  /** The guest guard never sends anyone to login, and it and the protected guard never both
      redirect: no auth state bounces between the two. */
  lemma GuardsNeverBothRedirect(auth: AuthState)
    ensures PublicRoute(auth) != Redirect("/login", false) && PublicRoute(auth) != Redirect("/login", true)
    ensures !(ProtectedRoute(auth).Redirect? && PublicRoute(auth).Redirect?)
  {
  }
}
