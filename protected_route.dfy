/** The route gate of client/src/components/ProtectedRoute.jsx: what a
    protected page renders for the authentication state and the caller's
    role. */
module ProtectedRoute {
  import opened Common
  import opened RedirectByRole

  /** What the gate renders: nothing yet, a redirect (`<Navigate replace>`),
      or the protected page. */
  datatype Outcome = RenderNothing | RedirectTo(path: string) | RenderChildren

  /** `ProtectedRoute({ allowedRoles, children })`. While authentication is
      loading nothing renders; an unauthenticated visitor is sent home; a
      caller whose role is not allowed is sent to their own landing page (an
      owner or administrator to their dashboard, a renter home). Anyone else
      sees the page, an allowed role and also a role outside the three that
      the page does not allow, which no redirect catches. `role` is
      `user.role`, `None` when the user carries none. */
  function Gate(loading: bool, isAuthenticated: bool, role: Option<Role>, allowedRoles: seq<Role>): (r: Outcome)
    ensures loading ==> r == RenderNothing
    ensures !loading && !isAuthenticated ==> r == RedirectTo("/")
    ensures r == RenderChildren <==>
      (&& !loading && isAuthenticated
       && (role.None? || role.value in allowedRoles || role.value.Unrecognised?))
    ensures (!loading && isAuthenticated && role.Some? && role.value !in allowedRoles) ==>
      && (role.value == Owner ==> r == RedirectTo("/dashboard/owner"))
      && (role.value == Admin ==> r == RedirectTo("/dashboard/admin"))
      && (role.value == Renter ==> r == RedirectTo("/"))
  {
    if loading then RenderNothing
    else if !isAuthenticated then RedirectTo("/")
    else if role.None? || role.value !in allowedRoles then
      if role == Some(Owner) then RedirectTo("/dashboard/owner")
      else if role == Some(Admin) then RedirectTo("/dashboard/admin")
      else if role == Some(Renter) then RedirectTo("/")
      else RenderChildren
    else RenderChildren
  }

  /** A refused known role lands where logging in would send it: the gate's
      redirect is the post-login redirect in its default context. */
  lemma GateAgreesWithLoginRedirect(role: Role, allowedRoles: seq<Role>)
    requires role !in allowedRoles && !role.Unrecognised?
    ensures Gate(false, true, Some(role), allowedRoles) == RedirectTo(RedirectsDefault(Some(role))[0])
  {
  }

  /** The gate is monotone in the allowed roles: allowing more roles never
      takes the page away from anyone who could see it. */
  lemma MoreRolesShowMore(role: Option<Role>, allowed: seq<Role>, more: seq<Role>)
    requires forall x :: x in allowed ==> x in more
    requires Gate(false, true, role, allowed) == RenderChildren
    ensures Gate(false, true, role, more) == RenderChildren
  {
  }
}
