/** The access check of `ProtectedRoute` (client/src/components/auth/ProtectedRoute.tsx): render the
    protected page, or replace the location with "/unauthorized". */
module ProtectedRoute {
  import opened Wrappers

  /** The signed-in user as the auth slice of the client store holds it; only the role matters. */
  datatype AuthUser = AuthUser(email: string, name: string, role: string)

  datatype Rendered = Children | RedirectTo(path: string)

  const UnauthorizedPath := "/unauthorized"

  /** What the route renders for the auth state and the role it demands. */
  function Render(isAuthenticated: bool, user: Option<AuthUser>, requiredRole: string): (r: Rendered)
    ensures r == Children || r == RedirectTo(UnauthorizedPath)
    ensures r == Children <==> isAuthenticated && user.Some? && user.value.role == requiredRole
  {
    if !isAuthenticated || user.None? || user.value.role != requiredRole then RedirectTo(UnauthorizedPath)
    else Children
  }

  /** Routes guarded by different roles never both open for the same state: an organizer page and
      a user page are exclusive. */
  lemma RolesExclusive(isAuthenticated: bool, user: Option<AuthUser>, role1: string, role2: string)
    requires role1 != role2
    ensures Render(isAuthenticated, user, role1) == Children ==> Render(isAuthenticated, user, role2) != Children
  {
  }

  /** Whether the page opens depends on the user's role only, not on the rest of the record. */
  lemma OnlyRoleMatters(isAuthenticated: bool, u: AuthUser, v: AuthUser, requiredRole: string)
    requires u.role == v.role
    ensures Render(isAuthenticated, Some(u), requiredRole) == Render(isAuthenticated, Some(v), requiredRole)
  {
  }
}
