/** The OAuth callback page: the second way into the session, after the password login. */
module AuthCallback {
  import opened Wrappers
  import AuthStore
  import opened Profile

  const HOME_PATH: string := "/"
  const FAILURE_PATH: string := "/login?error=oauth_failed"

  /**
   * Reads the two tokens from the query string (None when a parameter is missing). With both
   * truthy, the store receives exactly those tokens and the user goes home; otherwise the
   * store is left as it was and the user goes to the failure page.
   */
  method HandleCallback(store: AuthStore.Store, accessToken: Option<string>, refreshToken: Option<string>)
    returns (target: string)
    requires store.Valid()
    modifies store
    ensures store.Valid()
    ensures Truthy(accessToken) && Truthy(refreshToken) ==>
              && store.Snapshot() == AuthStore.SetTokensSpec(old(store.Snapshot()), accessToken.value, refreshToken.value)
              && target == HOME_PATH
    ensures !(Truthy(accessToken) && Truthy(refreshToken)) ==>
              store.Snapshot() == old(store.Snapshot()) && target == FAILURE_PATH
  {
    if Truthy(accessToken) && Truthy(refreshToken) {
      store.SetTokens(accessToken.value, refreshToken.value);
      target := HOME_PATH;
    } else {
      target := FAILURE_PATH;
    }
  }

  /**
   * A callback run on a fresh page load: with both tokens it leaves a session from which the
   * getters return those tokens, and from which a reload is signed in with them.
   */
  method CallbackOnFreshLoad(persisted: map<string, string>, accessToken: Option<string>, refreshToken: Option<string>,
                             encode: UserProfile -> string, decode: string -> Option<UserProfile>)
    returns (target: string, access: Option<string>, refresh: Option<string>, signedInAfterReload: bool)
    requires AuthStore.RoundTrips(encode, decode)
    requires Truthy(AuthStore.Stored(persisted, AuthStore.USER_PROFILE_KEY)) ==> decode(persisted[AuthStore.USER_PROFILE_KEY]).Some?
    ensures Truthy(accessToken) && Truthy(refreshToken) ==>
              target == HOME_PATH && access == accessToken && refresh == refreshToken && signedInAfterReload
    ensures !(Truthy(accessToken) && Truthy(refreshToken)) ==>
              target == FAILURE_PATH && access == AuthStore.TokenLookup(None, persisted, AuthStore.ACCESS_TOKEN_KEY)
  {
    var store := new AuthStore.Store(persisted, encode, decode);
    target := HandleCallback(store, accessToken, refreshToken);
    access := store.GetAccessToken();
    refresh := store.GetRefreshToken();
    var reloaded := new AuthStore.Store(store.storage, encode, decode);
    reloaded.InitializeAuth();
    signedInAfterReload := reloaded.isAuthenticated;
  }
}
