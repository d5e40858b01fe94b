/** The route guard (src/routes/ProtectedRoute.tsx): render the protected view or
    redirect to the required role's login page. The guard reads `isAuthenticated`
    and `userRole` from the auth state, which the slice does not define, so both
    read `undefined` and the guard as written admits nobody (`WrittenGuard`). The
    evidently intended binding, "a token is present" and the slice's `role`, is
    `SessionGuard`; the rest of the model uses it. */
module ProtectedRoute {
  import opened Optional
  import opened Roles
  import AuthSlice

  /** What the guard returns: its children, or a `<Navigate replace>` carrying the
      current location as `state.from`. */
  datatype Outcome = RenderChildren | Redirect(to: string, from: string, replace: bool)

  function LoginPath(role: string): string
  {
    "/login/" + role
  }

  /** `ProtectedRoute({children, role})` at `location`. */
  function Guard(isAuthenticated: bool, userRole: Option<string>, role: string, location: string): (o: Outcome)
    ensures o.RenderChildren? <==> isAuthenticated && userRole == Some(role)
    ensures o.Redirect? ==> o.to == LoginPath(role) && o.from == location && o.replace
  {
    if !isAuthenticated || userRole != Some(role) then Redirect(LoginPath(role), location, true)
    else RenderChildren
  }

  /** An unauthenticated visitor is redirected whatever role value is present. */
  lemma UnauthenticatedRedirected(userRole: Option<string>, role: string, location: string)
    ensures Guard(false, userRole, role, location) == Redirect(LoginPath(role), location, true)
  {
  }

  /** No hierarchy: a session of one role is redirected on every other role's view,
      and to that other role's login page, not its own. */
  lemma NoRoleHierarchy(session: Role, required: Role, location: string)
    requires session != required
    ensures Guard(true, Some(RoleName(session)), RoleName(required), location)
            == Redirect(LoginPath(RoleName(required)), location, true)
    ensures LoginPath(RoleName(required)) != LoginPath(RoleName(session))
  {
    RoleNameInjective(session, required);
    assert LoginPath(RoleName(required))[7..] == RoleName(required);
    assert LoginPath(RoleName(session))[7..] == RoleName(session);
  }

  /** The guard as written over the slice's state: `state.auth` is `{token, role}`,
      so `isAuthenticated` and `userRole` are both `undefined`, which is falsy and
      equal to no role string. */
  function WrittenGuard(s: AuthSlice.AuthState, role: string, location: string): Outcome
  {
    Guard(false, None, role, location)
  }

  /** As written, every visitor is redirected on every guarded view, whatever the
      state. */
  lemma WrittenGuardAdmitsNobody(s: AuthSlice.AuthState, role: string, location: string)
    ensures WrittenGuard(s, role, location) == Redirect(LoginPath(role), location, true)
  {
  }

  /** The discrepancy: in the state `loginSuccess(r, t)` installs, the guard as
      written redirects on r's own view, where the intended binding admits it. */
  lemma WrittenGuardRefusesFreshLogin(r: Role, t: string, location: string)
    ensures WrittenGuard(AuthSlice.SignedIn(r, t), RoleName(r), location).Redirect?
    ensures SessionGuard(AuthSlice.SignedIn(r, t), RoleName(r), location).RenderChildren?
  {
  }

  /** The guard over the slice's state under the intended binding, taking `isAuthenticated` to be "a token is
      present" and `userRole` to be the slice's `role`. */
  function SessionGuard(s: AuthSlice.AuthState, role: string, location: string): Outcome
  {
    Guard(s.token.Some?, s.role, role, location)
  }

  /** Under that assumption the guard is exactly the rule "token present and role equal". */
  lemma SessionGuardRule(s: AuthSlice.AuthState, isAuthenticated: bool, userRole: Option<string>,
                         role: string, location: string)
    requires isAuthenticated == s.token.Some? && userRole == s.role
    ensures Guard(isAuthenticated, userRole, role, location).RenderChildren?
            <==> s.token.Some? && s.role == Some(role)
  {
  }

  /** A stored role that names no role is redirected on every role's view: an
      unchecked role string fails safe. */
  lemma UnknownRoleRedirected(s: AuthSlice.AuthState, required: Role, location: string)
    requires s.role.Some? && ParseRole(s.role.value).None?
    ensures SessionGuard(s, RoleName(required), location).Redirect?
  {
  }

  /** After `loginSuccess(r, t)` and a reload from the snapshot, the guard admits
      the session on role `required`'s view exactly when `required` is `r`. */
  lemma GuardAfterLoginReload(storage: map<string, string>, r: Role, t: string, required: Role, location: string)
    ensures SessionGuard(AuthSlice.LoadState(AuthSlice.StoreLogin(storage, r, t)), RoleName(required), location).RenderChildren?
            <==> required == r
  {
    AuthSlice.LoginRoundTrip(storage, r, t);
    RoleNameInjective(r, required);
  }

  /** After `logout` and a reload, the guard redirects on every role's view. */
  lemma GuardAfterLogoutReload(storage: map<string, string>, required: Role, location: string)
    ensures SessionGuard(AuthSlice.LoadState(AuthSlice.StoreLogout(storage)), RoleName(required), location)
            == Redirect(LoginPath(RoleName(required)), location, true)
  {
    AuthSlice.LogoutRoundTrip(storage);
  }
}
