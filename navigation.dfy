/** The public navigation bar (src/components/layout/Navigation.tsx): the link list
    chosen by the optional `userRole` prop, the role badge variant, and its own
    logout, which clears five profile keys of the storage snapshot. */
module Navigation {
  import opened Optional
  import opened Roles
  import opened Badges
  import AuthSlice
  import ProtectedRoute

  datatype NavLink = NavLink(href: string, title: string)

  const HomeLink := NavLink("/", "Home")

  /** The login link and the dashboard link of a role, as the bar labels them. */
  function LoginLink(r: Role): NavLink
  {
    match r
    case Admin => NavLink("/login/admin", "Admin Login")
    case Merchant => NavLink("/login/merchant", "Merchant Login")
    case Member => NavLink("/login/member", "Member Login")
  }

  function DashboardLink(r: Role): NavLink
  {
    match r
    case Admin => NavLink("/dashboard/admin", "Admin Dashboard")
    case Merchant => NavLink("/dashboard/merchant", "Merchant Dashboard")
    case Member => NavLink("/dashboard/member", "Member Dashboard")
  }

  /** `roleSpecificItems[role]`, written out as in the component. */
  function RoleSpecificItems(r: Role): seq<NavLink>
  {
    match r
    case Admin => [
      NavLink("/dashboard/admin", "Admin Dashboard"),
      NavLink("/login/merchant", "Merchant Login"),
      NavLink("/login/member", "Member Login")]
    case Merchant => [
      NavLink("/dashboard/merchant", "Merchant Dashboard"),
      NavLink("/login/admin", "Admin Login"),
      NavLink("/login/member", "Member Login")]
    case Member => [
      NavLink("/dashboard/member", "Member Dashboard"),
      NavLink("/login/admin", "Admin Login"),
      NavLink("/login/merchant", "Merchant Login")]
  }

  /** `getNavigationItems()`: Home, then the role's items, or the three login
      links when no role is given. */
  function NavigationItems(userRole: Option<Role>): seq<NavLink>
  {
    [HomeLink] +
    if userRole.Some? then RoleSpecificItems(userRole.value)
    else [
      NavLink("/login/admin", "Admin Login"),
      NavLink("/login/merchant", "Merchant Login"),
      NavLink("/login/member", "Member Login")]
  }

  /** There are always four links and the first is Home. */
  lemma FourLinksHomeFirst(userRole: Option<Role>)
    ensures |NavigationItems(userRole)| == 4 && NavigationItems(userRole)[0] == HomeLink
  {
  }

  /** With a role, the second link is that role's dashboard and the last two are
      the login links of exactly the two other roles, in role order. */
  lemma SignedInLinks(r: Role)
    ensures var items := NavigationItems(Some(r));
            items[1] == DashboardLink(r) &&
            (forall other :: other != r <==> LoginLink(other) in items[2..]) &&
            LoginLink(r) !in items
  {
    var items := NavigationItems(Some(r));
    match r
    case Admin =>
      assert items[2..] == [LoginLink(Merchant), LoginLink(Member)];
    case Merchant =>
      assert items[2..] == [LoginLink(Admin), LoginLink(Member)];
    case Member =>
      assert items[2..] == [LoginLink(Admin), LoginLink(Merchant)];
  }

  /** Without a role, the bar offers Home and every login, admin first. */
  lemma SignedOutLinks()
    ensures NavigationItems(None) == [HomeLink, LoginLink(Admin), LoginLink(Merchant), LoginLink(Member)]
  {
  }

  /** Every login link the bar shows is a path the router guards' redirects use. */
  lemma LoginLinksMatchGuard(r: Role)
    ensures LoginLink(r).href == ProtectedRoute.LoginPath(RoleName(r))
  {
  }

  /** `getRoleBadgeVariant`: the navigation bar falls back to outline. */
  function RoleBadgeVariant(role: string): (v: Variant)
    ensures role == "admin" ==> v == Destructive
    ensures role == "merchant" ==> v == Default
    ensures role == "member" ==> v == Secondary
    ensures ParseRole(role).None? ==> v == Outline
  {
    match role
    case "admin" => Destructive
    case "merchant" => Default
    case "member" => Secondary
    case _ => Outline
  }

  /** The five profile keys the bar's logout removes. */
  const ProfileKeys: set<string> := {"userRole", "userEmail", "userPhone", "storeName", "storeId"}

  /** `handleLogout`: the five profile keys are removed one by one and the router
      is sent home. The session keys `token` and `role` are not among them, so the
      slice's state and its snapshot still agree and still hold the session. */
  method HandleLogout(store: AuthSlice.AuthStore) returns (target: string)
    requires store.Valid()
    modifies store
    ensures store.storage == old(store.storage) - ProfileKeys
    ensures store.State() == old(store.State()) && store.Valid()
    ensures target == "/"
  {
    store.storage := store.storage - {"userRole"};
    store.storage := store.storage - {"userEmail"};
    store.storage := store.storage - {"userPhone"};
    store.storage := store.storage - {"storeName"};
    store.storage := store.storage - {"storeId"};
    target := "/";
  }

  /** The startup read ignores the profile keys: reloading after this logout gives
      back the same session. */
  lemma LogoutKeepsSessionOnReload(storage: map<string, string>)
    ensures AuthSlice.LoadState(storage - ProfileKeys) == AuthSlice.LoadState(storage)
  {
  }

  /** Consequently a signed-in user who logs out through this bar is still admitted
      to their dashboard after a reload. */
  lemma LogoutStillAdmitted(storage: map<string, string>, r: Role, t: string, location: string)
    ensures var after := AuthSlice.StoreLogin(storage, r, t) - ProfileKeys;
            ProtectedRoute.SessionGuard(AuthSlice.LoadState(after), RoleName(r), location)
              == ProtectedRoute.RenderChildren
  {
    LogoutKeepsSessionOnReload(AuthSlice.StoreLogin(storage, r, t));
    AuthSlice.LoginRoundTrip(storage, r, t);
  }
}
