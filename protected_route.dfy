/** The route guard wrapped around the dashboard: a three-way decision over
    the session user and an optional list of required roles. */
module ProtectedRoute {
  import opened Wrappers
  import opened Types
  import opened Auth

  datatype Outcome = RedirectToLogin | RedirectToUnauthorized | Allow

  /** The login check comes first; the role check applies only to a
      non-empty role list, and asks the session's `hasRole`. */
  function Guard(user: Option<User>, roles: Option<seq<Role>>): (o: Outcome)
    ensures user.None? ==> o == RedirectToLogin
    ensures o == RedirectToUnauthorized <==>
      user.Some? && roles.Some? && |roles.value| > 0 && user.value.role !in roles.value
    ensures o == Allow <==>
      user.Some? && (roles.None? || |roles.value| == 0 || user.value.role in roles.value)
  {
    if user.None? then RedirectToLogin
    else if roles.Some? && |roles.value| > 0 && !UserHasRole(user, roles.value) then RedirectToUnauthorized
    else Allow
  }

  /** The role list the router puts on the dashboard route: all four roles. */
  const DashboardRoles: Option<seq<Role>> := Some(AllRoles)

  /** Every logged-in user reaches the dashboard, whatever their role. */
  lemma DashboardAdmitsEveryUser(u: User)
    ensures Guard(Some(u), DashboardRoles) == Allow
  {
    AllRolesComplete(u.role);
  }

  /** Visiting the dashboard without a session redirects to the login page. */
  lemma AnonymousDashboardRedirectsToLogin()
    ensures Guard(None, DashboardRoles) == RedirectToLogin
  {
  }

  /** For a non-empty role list the guard reads the session exactly as the
      store's `hasRole` does, with or without a logged-in user. */
  lemma GuardAgreesWithStore(store: AuthStore, roles: seq<Role>)
    requires |roles| > 0
    ensures Guard(store.user, Some(roles)) == Allow <==> store.HasRole(roles)
  {
  }
}
