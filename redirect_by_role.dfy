/** The post-login redirect of client/src/utils/redirectByRole.js. It calls
    `navigate` from up to three independent tests of the role; the model
    collects the paths passed to `navigate`, in call order. */
module RedirectByRole {
  import opened Common

  const DASHBOARD_CONTEXT: string := "dashboard"
  const HOME_CONTEXT: string := "home"

  /** The dashboard of each role the application knows. */
  function Dashboard(role: Role): string {
    match role
    case Renter => "/dashboard/renter"
    case Owner => "/dashboard/owner"
    case Admin => "/dashboard/admin"
    case Unrecognised(_) => ""
  }

  /** `redirectByRole(user, navigate, context)`. `role` is `user?.role`, with
      `None` for a missing user or an empty role. With no role nothing is
      navigated to. In the "dashboard" context each known role goes to its
      dashboard; in any other context a renter goes to the home page and an
      owner or administrator to their dashboard. At most one navigation
      happens, and an unrecognised role causes none. */
  function Redirects(role: Option<Role>, context: string): (r: seq<string>)
    ensures |r| <= 1
    ensures role.None? ==> r == []
    ensures role.Some? && role.value.Unrecognised? ==> r == []
    ensures context == DASHBOARD_CONTEXT && role.Some? && !role.value.Unrecognised? ==>
      r == [Dashboard(role.value)]
    ensures context != DASHBOARD_CONTEXT && role == Some(Renter) ==> r == ["/"]
    ensures context != DASHBOARD_CONTEXT && (role == Some(Owner) || role == Some(Admin)) ==>
      r == [Dashboard(role.value)]
  {
    if role.None? then []
    else
      var rl := role.value;
      if context == DASHBOARD_CONTEXT then
        (if rl == Renter then ["/dashboard/renter"] else [])
        + (if rl == Owner then ["/dashboard/owner"] else [])
        + (if rl == Admin then ["/dashboard/admin"] else [])
      else
        (if rl == Renter then ["/"] else [])
        + (if rl == Owner then ["/dashboard/owner"] else [])
        + (if rl == Admin then ["/dashboard/admin"] else [])
  }

  /** `redirectByRole(user, navigate)`: the context defaults to "home". */
  function RedirectsDefault(role: Option<Role>): (r: seq<string>)
    ensures role == Some(Renter) ==> r == ["/"]
  {
    Redirects(role, HOME_CONTEXT)
  }

  /** The context matters to renters only: owners and administrators land on
      the same page in every context. */
  lemma ContextMattersOnlyToRenters(role: Role, c: string, c': string)
    requires role != Renter
    ensures Redirects(Some(role), c) == Redirects(Some(role), c')
  {
  }
}
