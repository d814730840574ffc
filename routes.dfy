/**
 * The two route guards of the client. Each reads the session from the
 * authentication context and either shows a loading view, renders the
 * nested routes (the outlet), or redirects.
 *
 * PrivateRoute (the guard the application's route table uses) sends a
 * signed-in user without a listed role to "/unauthorized". ProtectedRoute
 * makes the role list optional and sends such a user home.
 */
module Routes {
  import opened Common
  import Auth

  datatype View = LoadingView | Outlet | Redirect(to: string)

  /** PrivateRoute: loading first, then the outlet, "/unauthorized" or "/login". */
  function PrivateRoute(s: Auth.Session, allowedRoles: seq<string>): (v: View)
    ensures s.isLoading <==> v == LoadingView
    ensures v == Outlet <==> !s.isLoading && s.isAuthenticated && Auth.HasRole(s.user, allowedRoles)
    ensures v == Redirect("/unauthorized") <==> !s.isLoading && s.isAuthenticated && !Auth.HasRole(s.user, allowedRoles)
    ensures v == Redirect("/login") <==> !s.isLoading && !s.isAuthenticated
  {
    if s.isLoading then LoadingView
    else if s.isAuthenticated && Auth.HasRole(s.user, allowedRoles) then Outlet
    else if s.isAuthenticated && !Auth.HasRole(s.user, allowedRoles) then Redirect("/unauthorized")
    else Redirect("/login")
  }

  /**
   * ProtectedRoute: loading first, then "/login" for a guest; a given role
   * list (even an empty one) that the user matches in no entry sends the
   * user to "/"; otherwise the outlet.
   */
  function ProtectedRoute(s: Auth.Session, allowedRoles: Option<seq<string>>): (v: View)
    ensures s.isLoading <==> v == LoadingView
    ensures v == Redirect("/login") <==> !s.isLoading && !s.isAuthenticated
    ensures v == Redirect("/") <==>
      !s.isLoading && s.isAuthenticated && allowedRoles.Some? && !Auth.HasRole(s.user, allowedRoles.value)
    ensures v == Outlet <==>
      !s.isLoading && s.isAuthenticated && (allowedRoles.None? || Auth.HasRole(s.user, allowedRoles.value))
  {
    if s.isLoading then LoadingView
    else if !s.isAuthenticated then Redirect("/login")
    else if allowedRoles.Some? && !Auth.HasRole(s.user, allowedRoles.value) then Redirect("/")
    else Outlet
  }

  /** The two guards agree on who gets through when a role list is given. */
  lemma GuardsAdmitTheSameCallers(s: Auth.Session, allowedRoles: seq<string>)
    ensures PrivateRoute(s, allowedRoles) == Outlet <==> ProtectedRoute(s, Some(allowedRoles)) == Outlet
  {
  }

  /** An empty role list locks every session out of either guard. */
  lemma EmptyRoleListAdmitsNobody(s: Auth.Session)
    ensures PrivateRoute(s, []) != Outlet
    ensures ProtectedRoute(s, Some([])) != Outlet
  {
  }

  /** The admin pages, guarded by ['ROLE_ADMIN'], open exactly to sessions whose roles include it. */
  lemma AdminPagesNeedAdminRole(s: Auth.Session)
    requires !s.isLoading && s.isAuthenticated
    ensures PrivateRoute(s, ["ROLE_ADMIN"]) == Outlet <==>
      s.user.Some? && s.user.value.roles.Some? && "ROLE_ADMIN" in s.user.value.roles.value
  {
    if s.user.Some? && s.user.value.roles.Some? && "ROLE_ADMIN" in s.user.value.roles.value {
      assert ["ROLE_ADMIN"][0] in s.user.value.roles.value;
    }
  }

  /** Once the mount effect has run, logging out sends every guarded page to the login page. */
  lemma LoggedOutGoesToLogin(s: Auth.Session, allowedRoles: seq<string>)
    ensures var after := Auth.Logout(Auth.Restore(s));
      PrivateRoute(after, allowedRoles) == Redirect("/login")
  {
  }

  /**
   * A login reply whose roles include a listed role opens the guarded pages;
   * one without a roles array is authenticated yet redirected to
   * "/unauthorized".
   */
  lemma {:induction false} LoginOpensGuardedPages(s: Auth.Session, u: Auth.SessionUser, allowedRoles: seq<string>)
    ensures var after := Auth.Login(s, Some(u)).1;
      && (u.roles.Some? && (exists i :: 0 <= i < |allowedRoles| && allowedRoles[i] in u.roles.value) ==>
            PrivateRoute(after, allowedRoles) == Outlet)
      && (u.roles.None? ==> PrivateRoute(after, allowedRoles) == Redirect("/unauthorized"))
  {
    var after := Auth.Login(s, Some(u)).1;
    assert after.user == Some(u) && after.isAuthenticated && !after.isLoading;
  }
}
