/**
 * The protected-route wrapper: which screen a route shows given the session, the loading
 * flag and the fetched profile, and the two effects that hydrate the session and fetch the
 * profile on mount.
 */
module App {
  import opened Wrappers
  import opened Permissions
  import opened Profile
  import AuthStore

  const ADMIN_EMAIL: string := "admin@admin.com"
  const LOGIN_PATH: string := "/login"
  const HOME_PATH: string := "/"

  /** What the wrapper renders. */
  datatype Screen =
    | RedirectToLogin
    | InitialisingScreen
    | LoadingProfileScreen
    | RedirectToHome
    | AdminLayoutScreen
    | UserLayoutScreen

  /**
   * The administration-space predicate: the fixed administrator email, or a role field that
   * names ROLE_ADMIN, ROLE_MANAGER or ROLE_STAFF, whether it is a list or a single role.
   */
  function HasAdminAccess(profile: UserProfile): (b: bool)
    ensures b <==> profile.email == ADMIN_EMAIL || RolesInclude(profile.roles, ADMIN)
                   || RolesInclude(profile.roles, MANAGER) || RolesInclude(profile.roles, STAFF)
  {
    profile.email == ADMIN_EMAIL ||
    match profile.roles
    case NoRoles => false
    case ScalarRole(r) => r != "" && (r == ADMIN || r == MANAGER || r == STAFF)
    case RoleList(rs) => ADMIN in rs || MANAGER in rs || STAFF in rs
  }

  /** The decision chain of the wrapper, in the order the checks are made. */
  function ProtectedLayout(isAuthenticated: bool, loading: bool, profile: Option<UserProfile>, requireAdmin: bool): (screen: Screen)
    ensures !isAuthenticated <==> screen == RedirectToLogin
    ensures screen == InitialisingScreen <==> isAuthenticated && loading
    ensures screen == LoadingProfileScreen <==> isAuthenticated && !loading && profile.None?
    ensures screen == RedirectToHome <==> isAuthenticated && !loading && profile.Some? && requireAdmin && !HasAdminAccess(profile.value)
    ensures screen == AdminLayoutScreen <==> isAuthenticated && !loading && profile.Some? && HasAdminAccess(profile.value)
  {
    if !isAuthenticated then RedirectToLogin
    else if loading then InitialisingScreen
    else if profile.None? then LoadingProfileScreen
    else if requireAdmin && !HasAdminAccess(profile.value) then RedirectToHome
    else if HasAdminAccess(profile.value) then AdminLayoutScreen
    else UserLayoutScreen
  }

  /** How the route table treats a path. */
  datatype Route = PublicRoute | ProtectedRoute(requireAdmin: bool) | RedirectRoute(target: string)

  /** The route table, for paths written exactly as declared. */
  function RouteFor(path: string): (route: Route)
    ensures StartsWith(path, "/admin/") ==> route == ProtectedRoute(true)
    ensures route.ProtectedRoute? && !route.requireAdmin ==> path == HOME_PATH
    ensures route.RedirectRoute? ==> route.target == HOME_PATH || StartsWith(route.target, "/admin/")
  {
    if StartsWith(path, "/admin/") then ProtectedRoute(true)
    else if path == "/login" || path == "/register" || path == "/auth/callback" then PublicRoute
    else if path == HOME_PATH then ProtectedRoute(false)
    else if path == "/admin" then RedirectRoute("/admin/dashboard")
    else RedirectRoute(HOME_PATH)
  }

  /** Every redirect of the route table lands on a protected route, so no path bypasses the wrapper. */
  lemma RedirectsLandOnProtectedRoutes(path: string)
    requires RouteFor(path).RedirectRoute?
    ensures RouteFor(RouteFor(path).target).ProtectedRoute?
  {
    var target := RouteFor(path).target;
    if target == HOME_PATH {
      assert !StartsWith(target, "/admin/");
    }
  }

  // ---------------------------------------------------------------------------------------
  // Properties of the decision chain
  // ---------------------------------------------------------------------------------------

  /**
   * Leaving the email aside, the administration-space predicate is the minimum-role check
   * against ROLE_STAFF over the normalised roles, for every profile.
   */
  lemma AdminAccessIsStaffRank(profile: UserProfile)
    requires profile.email != ADMIN_EMAIL
    ensures HasAdminAccess(profile) <==> HasMinimumRole(Many(NormalisedRoles(Some(profile))), STAFF)
  {
    var roles := NormalisedRoles(Some(profile));
    RolesIncludeIsNormalisedMembership(profile, ADMIN);
    RolesIncludeIsNormalisedMembership(profile, MANAGER);
    RolesIncludeIsNormalisedMembership(profile, STAFF);
    if HasMinimumRole(Many(roles), STAFF) {
      var i :| 0 <= i < |roles| && Known(roles[i]) && Rank(roles[i]).value >= RoleHierarchy[STAFF];
      assert roles[i] == Some(ADMIN) || roles[i] == Some(MANAGER) || roles[i] == Some(STAFF);
    }
    if HasAdminAccess(profile) {
      var i :| 0 <= i < |roles| && (roles[i] == Some(ADMIN) || roles[i] == Some(MANAGER) || roles[i] == Some(STAFF));
      assert Known(roles[i]) && Rank(roles[i]).value >= RoleHierarchy[STAFF];
    }
  }

  /** A profile whose only role is ROLE_USER, and not the administrator email, never reaches an administration route. */
  lemma UserRoleNeverReachesAdmin(isAuthenticated: bool, loading: bool, profile: UserProfile, path: string)
    requires profile.email != ADMIN_EMAIL
    requires profile.roles == ScalarRole(USER) || (profile.roles.RoleList? && forall r :: r in profile.roles.roles ==> r == USER)
    requires RouteFor(path).ProtectedRoute? && RouteFor(path).requireAdmin
    ensures ProtectedLayout(isAuthenticated, loading, Some(profile), RouteFor(path).requireAdmin)
              !in {AdminLayoutScreen, UserLayoutScreen}
  {
  }

  /** Past the loading checks and the admin gate, the layout follows the administration-space predicate. */
  lemma LayoutFollowsAdminAccess(profile: UserProfile, requireAdmin: bool)
    requires !requireAdmin || HasAdminAccess(profile)
    ensures ProtectedLayout(true, false, Some(profile), requireAdmin)
              == (if HasAdminAccess(profile) then AdminLayoutScreen else UserLayoutScreen)
  {
  }

  // ---------------------------------------------------------------------------------------
  // The wrapper's state and effects
  // ---------------------------------------------------------------------------------------

  /** The wrapper's local state over the shared session store. */
  class ProtectedLayoutState {
    var profile: Option<UserProfile>
    var loading: bool
    const store: AuthStore.Store
    const requireAdmin: bool

    ghost predicate Valid()
      reads this, store
    {
      store.Valid()
    }

    constructor(store: AuthStore.Store, requireAdmin: bool)
      requires store.Valid()
      ensures Valid()
      ensures profile.None? && loading
      ensures this.store == store && this.requireAdmin == requireAdmin
    {
      profile := None;
      loading := true;
      this.store := store;
      this.requireAdmin := requireAdmin;
    }

    function Current(): Screen
      reads this, store
    {
      ProtectedLayout(store.isAuthenticated, loading, profile, requireAdmin)
    }

    /** The mount effect: hydrate the session from storage. */
    method Mount()
      requires Valid()
      modifies store
      ensures Valid()
      ensures store.Snapshot() == AuthStore.InitializeAuthSpec(old(store.Snapshot()), store.decode)
    {
      store.InitializeAuth();
    }

    /**
     * The effect that runs when the authenticated flag changes. `fetched` is the outcome of
     * the profile request, None when it fails; the result is the hard navigation the failure
     * path performs.
     */
    method OnAuthenticationChange(fetched: Option<UserProfile>) returns (navigation: Option<string>)
      requires Valid()
      modifies this, store
      ensures Valid() && !loading
      ensures !old(store.isAuthenticated) ==>
                profile == old(profile) && store.Snapshot() == old(store.Snapshot()) && navigation.None?
      ensures old(store.isAuthenticated) && fetched.Some? ==>
                && profile == fetched
                && store.Snapshot() == AuthStore.SetUserProfileSpec(old(store.Snapshot()), fetched.value, store.encode(fetched.value))
                && navigation.None?
      ensures old(store.isAuthenticated) && fetched.None? ==>
                && profile == old(profile)
                && store.Snapshot() == AuthStore.ClearStorageSpec(old(store.Snapshot()))
                && navigation == Some(LOGIN_PATH)
    {
      navigation := None;
      if !store.isAuthenticated {
        loading := false;
        return;
      }
      if fetched.Some? {
        profile := fetched;
        store.SetUserProfile(fetched.value);
      } else {
        store.ClearStorage();
        navigation := Some(LOGIN_PATH);
      }
      loading := false;
    }
  }

  /** Both tokens survive in storage, so initializeAuth signs the session in. */
  predicate TokensPersisted(persisted: map<string, string>) {
    Truthy(AuthStore.Stored(persisted, AuthStore.ACCESS_TOKEN_KEY)) && Truthy(AuthStore.Stored(persisted, AuthStore.REFRESH_TOKEN_KEY))
  }

  /**
   * What a fresh page load of a protected route shows once the session has been hydrated and
   * the profile effect has run, given the storage that survived and the outcome of the
   * profile request: the decision chain with loading over.
   */
  function ScreenAfterLoad(persisted: map<string, string>, fetched: Option<UserProfile>, requireAdmin: bool): (screen: Screen)
    ensures screen == ProtectedLayout(TokensPersisted(persisted), false, fetched, requireAdmin)
    ensures screen == RedirectToLogin <==> !TokensPersisted(persisted)
  {
    if !TokensPersisted(persisted) then RedirectToLogin
    else if fetched.None? then LoadingProfileScreen
    else if requireAdmin && !HasAdminAccess(fetched.value) then RedirectToHome
    else if HasAdminAccess(fetched.value) then AdminLayoutScreen
    else UserLayoutScreen
  }

  /**
   * A whole page load as intended: a store over the persisted storage, the session hydrated
   * before the wrapper first decides, and the profile effect run once. Without both stored
   * tokens the user is sent to the login page; a failed profile request clears the storage
   * and navigates to the login page.
   */
  method LoadPage(persisted: map<string, string>, fetched: Option<UserProfile>, requireAdmin: bool,
                  encode: UserProfile -> string, decode: string -> Option<UserProfile>)
    returns (screen: Screen, navigation: Option<string>)
    requires AuthStore.RoundTrips(encode, decode)
    requires Truthy(AuthStore.Stored(persisted, AuthStore.USER_PROFILE_KEY)) ==> decode(persisted[AuthStore.USER_PROFILE_KEY]).Some?
    ensures screen == ScreenAfterLoad(persisted, fetched, requireAdmin)
    ensures navigation.Some? <==> screen != RedirectToLogin && fetched.None?
    ensures navigation.Some? ==> navigation.value == LOGIN_PATH
  {
    var store := new AuthStore.Store(persisted, encode, decode);
    var layout := new ProtectedLayoutState(store, requireAdmin);
    layout.Mount();
    navigation := layout.OnAuthenticationChange(fetched);
    screen := layout.Current();
  }

  // ---------------------------------------------------------------------------------------
  // The first render, as written
  // ---------------------------------------------------------------------------------------

  /**
   * The first render of a freshly loaded wrapper, as written: the store starts signed out and
   * is hydrated only by the mount effect, so the first decision is made before it.
   */
  function FirstScreenAsWritten(persisted: map<string, string>, requireAdmin: bool): (screen: Screen)
    ensures screen == RedirectToLogin
  {
    ProtectedLayout(AuthStore.Reloaded(persisted).session.isAuthenticated, true, None, requireAdmin)
  }

  /**
   * A page load as written. The first render returns the redirect to the login page; its
   * navigation effect, a child's, runs before the wrapper's own mount effect, so the load
   * ends on the login page even though the mount effect then signs the session in.
   */
  method LoadPageAsWritten(persisted: map<string, string>, requireAdmin: bool,
                           encode: UserProfile -> string, decode: string -> Option<UserProfile>)
    returns (screen: Screen, navigation: Option<string>, signedIn: bool)
    requires AuthStore.RoundTrips(encode, decode)
    requires Truthy(AuthStore.Stored(persisted, AuthStore.USER_PROFILE_KEY)) ==> decode(persisted[AuthStore.USER_PROFILE_KEY]).Some?
    ensures screen == FirstScreenAsWritten(persisted, requireAdmin)
    ensures navigation == Some(LOGIN_PATH)
    ensures signedIn <==> TokensPersisted(persisted)
  {
    var store := new AuthStore.Store(persisted, encode, decode);
    var layout := new ProtectedLayoutState(store, requireAdmin);
    screen := layout.Current();
    navigation := if screen == RedirectToLogin then Some(LOGIN_PATH) else None;
    layout.Mount();
    signedIn := store.isAuthenticated;
  }

  /**
   * Reloading a protected route with both tokens stored and an administrator's profile: the
   * intended load shows the admin layout, but as written the first render has already sent
   * the user to the login page.
   */
  lemma ReloadOfSignedInSessionLandsOnLogin(persisted: map<string, string>, profile: UserProfile, requireAdmin: bool)
    requires TokensPersisted(persisted) && HasAdminAccess(profile)
    ensures ScreenAfterLoad(persisted, Some(profile), requireAdmin) == AdminLayoutScreen
    ensures FirstScreenAsWritten(persisted, requireAdmin) == RedirectToLogin
  {
  }
}
