/** `ProtectedRoute`: from the session state, the page's allowed roles and the
    current path, the redirect its effect issues and what it renders. */
module ProtectedRoute {
  import opened Wrappers
  import opened AuthContext
  import Uri

  /** Allowed roles of the dashboard layout. */
  const DashboardRoles: seq<string> := [AdminRole, ClientRole]
  /** Allowed roles of the businesses (clients) layout, nested inside the dashboard. */
  const ClientsRoles: seq<string> := [AdminRole]

  datatype View = LoadingPlaceholder | Nothing | Children

  /** The navigation the effect requests, if any, and the rendered branch. */
  datatype Verdict = Verdict(redirect: Option<string>, view: View)

  const LoginPrefix := "/login?next="

  /** The login page with the current path as its `next` parameter. */
  function LoginRedirect(pathname: string): string
  {
    "/login?next=" + Uri.EncodeUriComponent(pathname)
  }

  /** The redirect is the login page followed by the encoded path, which holds
      no raw `&`, `#` or `?` and so stays a single parameter value. */
  lemma LoginRedirectShape(pathname: string)
    ensures |LoginRedirect(pathname)| >= |LoginPrefix| + |pathname|
    ensures LoginRedirect(pathname)[..|LoginPrefix|] == LoginPrefix
    ensures Uri.WellEscaped(LoginRedirect(pathname)[|LoginPrefix|..])
  {
    var encoded := Uri.EncodeUriComponent(pathname);
    assert LoginRedirect(pathname)[|LoginPrefix|..] == encoded;
  }

  function Decide(loading: bool, user: Option<User>, allowedRoles: Option<seq<string>>, pathname: string): (v: Verdict)
    // while loading: the placeholder, no redirect
    ensures loading ==> v == Verdict(None, LoadingPlaceholder)
    // loaded without a session: back to the login page, placeholder meanwhile
    ensures !loading && user.None? ==> v == Verdict(Some(LoginRedirect(pathname)), LoadingPlaceholder)
    // children exactly when loaded, authenticated and the role (if any) fits
    ensures v.view == Children <==>
              !loading && user.Some? && (allowedRoles.None? || HasRole(user, AnyOf(allowedRoles.value)))
    ensures v.view == Children ==> v.redirect.None?
    // a session with a refused role: to the dashboard, rendering nothing
    ensures v.view == Nothing <==> !loading && user.Some? && allowedRoles.Some? && !HasRole(user, AnyOf(allowedRoles.value))
    ensures v.view == Nothing ==> v.redirect == Some("/dashboard")
  {
    var authenticated := IsAuthenticated(user);
    var redirect :=
      if loading then None
      else if !authenticated then Some(LoginRedirect(pathname))
      else if allowedRoles.Some? && !HasRole(user, AnyOf(allowedRoles.value)) then Some("/dashboard")
      else None;
    var view :=
      if loading || !authenticated then LoadingPlaceholder
      else if allowedRoles.Some? && user.Some? && !HasRole(user, AnyOf(allowedRoles.value)) then Nothing
      else Children;
    Verdict(redirect, view)
  }

  /** The dashboard layout refuses every role other than admin and client,
      `super_admin` and `user` included. */
  lemma DashboardRefusesOtherRoles(u: User, pathname: string)
    requires u.role != AdminRole && u.role != ClientRole
    ensures Decide(false, Some(u), Some(DashboardRoles), pathname) == Verdict(Some("/dashboard"), Nothing)
  {
  }

  /** Inside the dashboard, the businesses pages admit only admins. */
  lemma ClientsPagesAdmitOnlyAdmins(u: User, pathname: string)
    ensures Decide(false, Some(u), Some(ClientsRoles), pathname).view == Children <==> u.role == AdminRole
  {
  }

  /** Any role but admin, `super_admin` included, is sent from the
      businesses pages back to the dashboard. */
  lemma ClientsPagesRefuseOthers(u: User, pathname: string)
    requires u.role != AdminRole
    ensures Decide(false, Some(u), Some(ClientsRoles), pathname) == Verdict(Some("/dashboard"), Nothing)
  {
  }

  /** Without a role list, any session sees the children. */
  lemma NoRoleListAdmitsEverySession(u: User, pathname: string)
    ensures Decide(false, Some(u), None, pathname) == Verdict(None, Children)
  {
  }
}
