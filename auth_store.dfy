/**
 * The session store: five in-memory fields and the browser's durable key/value storage.
 * Each action is specified by a function from the old state to the new one; the class
 * `Store` performs the actions in place and is proved to follow those functions.
 *
 * The profile is persisted as text through an `encode`/`decode` pair that the store is
 * given. Three facts are assumed: the round trip `decode(encode(p)) == Some(p)`,
 * `encode(p) != ""`, and that a truthy text stored under `userProfile` decodes (the
 * store's `Valid` and its constructor's precondition). The third holds because only
 * the store writes that key; any other text would make `JSON.parse` throw.
 */
module AuthStore {
  import opened Wrappers
  import opened Profile

  const ACCESS_TOKEN_KEY: string := "accessToken"
  const REFRESH_TOKEN_KEY: string := "refreshToken"
  const USER_PROFILE_KEY: string := "userProfile"

  /** The five in-memory fields; None is `null`. */
  datatype Session = Session(
    accessToken: Option<string>,
    refreshToken: Option<string>,
    userProfile: Option<UserProfile>,
    isAuthenticated: bool,
    isInitialized: bool
  )

  /** The memory fields a fresh page load starts from. */
  const InitialSession: Session := Session(None, None, None, false, false)

  /** Memory together with the durable storage. */
  datatype State = State(session: Session, storage: map<string, string>)

  /** The state of a fresh page load over whatever storage survived. */
  function Reloaded(storage: map<string, string>): State {
    State(InitialSession, storage)
  }

  /** `localStorage.getItem(key)`, truthy or not. */
  function Stored(storage: map<string, string>, key: string): Option<string> {
    if key in storage then Some(storage[key]) else None
  }

  /** The invariant every action keeps: an authenticated session holds both tokens. */
  predicate AuthenticatedHasTokens(s: Session) {
    s.isAuthenticated ==> s.accessToken.Some? && s.refreshToken.Some?
  }

  /** `memory || localStorage.getItem(key) || null` */
  function TokenLookup(memory: Option<string>, storage: map<string, string>, key: string): (t: Option<string>)
    ensures Truthy(memory) ==> t == memory
    ensures !Truthy(memory) && Truthy(Stored(storage, key)) ==> t == Stored(storage, key)
    ensures !Truthy(memory) && !Truthy(Stored(storage, key)) ==> t.None?
    ensures t.Some? ==> t.value != ""
  {
    if Truthy(memory) then memory
    else if Truthy(Stored(storage, key)) then Stored(storage, key)
    else None
  }

  function GetAccessTokenSpec(s: State): Option<string> {
    TokenLookup(s.session.accessToken, s.storage, ACCESS_TOKEN_KEY)
  }

  function GetRefreshTokenSpec(s: State): Option<string> {
    TokenLookup(s.session.refreshToken, s.storage, REFRESH_TOKEN_KEY)
  }

  function SetTokensSpec(s: State, accessToken: string, refreshToken: string): State {
    State(
      s.session.(accessToken := Some(accessToken), refreshToken := Some(refreshToken), isAuthenticated := true),
      s.storage[ACCESS_TOKEN_KEY := accessToken][REFRESH_TOKEN_KEY := refreshToken]
    )
  }

  function SetUserProfileSpec(s: State, profile: UserProfile, encoded: string): State {
    State(s.session.(userProfile := Some(profile)), s.storage[USER_PROFILE_KEY := encoded])
  }

  function LogoutSpec(s: State): State {
    State(
      Session(None, None, None, false, true),
      s.storage - {ACCESS_TOKEN_KEY, REFRESH_TOKEN_KEY, USER_PROFILE_KEY}
    )
  }

  /** Hydration from storage when both stored tokens are truthy; otherwise only the flag. */
  function InitializeAuthSpec(s: State, decode: string -> Option<UserProfile>): State {
    var accessToken := Stored(s.storage, ACCESS_TOKEN_KEY);
    var refreshToken := Stored(s.storage, REFRESH_TOKEN_KEY);
    var profile := Stored(s.storage, USER_PROFILE_KEY);
    if Truthy(accessToken) && Truthy(refreshToken) then
      State(
        Session(accessToken, refreshToken, if Truthy(profile) then decode(profile.value) else None, true, true),
        s.storage
      )
    else
      State(s.session.(isInitialized := true), s.storage)
  }

  /** The storage wipe of the sign-out service: every key goes, memory is not touched. */
  function ClearStorageSpec(s: State): State {
    State(s.session, map[])
  }

  // ---------------------------------------------------------------------------------------
  // What each action promises
  // ---------------------------------------------------------------------------------------

  /**
   * setTokens writes both keys and both memory tokens and sets the authenticated flag; the
   * profile, the initialised flag and every other key are unchanged.
   */
  lemma SetTokensEffect(s: State, accessToken: string, refreshToken: string)
    ensures var t := SetTokensSpec(s, accessToken, refreshToken);
      && Stored(t.storage, ACCESS_TOKEN_KEY) == Some(accessToken)
      && Stored(t.storage, REFRESH_TOKEN_KEY) == Some(refreshToken)
      && t.session.accessToken == Some(accessToken) && t.session.refreshToken == Some(refreshToken)
      && t.session.isAuthenticated
      && t.session.userProfile == s.session.userProfile
      && t.session.isInitialized == s.session.isInitialized
      && (forall k :: k != ACCESS_TOKEN_KEY && k != REFRESH_TOKEN_KEY ==> Stored(t.storage, k) == Stored(s.storage, k))
  {
  }

  /** With non-empty tokens, both getters return exactly what setTokens was given. */
  lemma GetAfterSetTokens(s: State, accessToken: string, refreshToken: string)
    requires accessToken != "" && refreshToken != ""
    ensures GetAccessTokenSpec(SetTokensSpec(s, accessToken, refreshToken)) == Some(accessToken)
    ensures GetRefreshTokenSpec(SetTokensSpec(s, accessToken, refreshToken)) == Some(refreshToken)
  {
  }

  /** An empty token is not remembered: the getter falls back to a truthy stored one, else null. */
  lemma EmptyTokenReadsAsNull(s: State, refreshToken: string)
    ensures GetAccessTokenSpec(SetTokensSpec(s, "", refreshToken)).None?
  {
  }

  /** setUserProfile changes the profile and its key alone. */
  lemma SetUserProfileEffect(s: State, profile: UserProfile, encoded: string)
    ensures var t := SetUserProfileSpec(s, profile, encoded);
      && t.session.userProfile == Some(profile)
      && Stored(t.storage, USER_PROFILE_KEY) == Some(encoded)
      && t.session.accessToken == s.session.accessToken && t.session.refreshToken == s.session.refreshToken
      && t.session.isAuthenticated == s.session.isAuthenticated
      && t.session.isInitialized == s.session.isInitialized
      && (forall k :: k != USER_PROFILE_KEY ==> Stored(t.storage, k) == Stored(s.storage, k))
  {
  }

  /** After logout the three keys are gone, the session is signed out, and both getters return null. */
  lemma LogoutEffect(s: State)
    ensures var t := LogoutSpec(s);
      && Stored(t.storage, ACCESS_TOKEN_KEY).None?
      && Stored(t.storage, REFRESH_TOKEN_KEY).None?
      && Stored(t.storage, USER_PROFILE_KEY).None?
      && t.session.userProfile.None? && !t.session.isAuthenticated && t.session.isInitialized
      && GetAccessTokenSpec(t).None? && GetRefreshTokenSpec(t).None?
      && (forall k :: k !in {ACCESS_TOKEN_KEY, REFRESH_TOKEN_KEY, USER_PROFILE_KEY} ==> Stored(t.storage, k) == Stored(s.storage, k))
  {
  }

  /**
   * initializeAuth with both stored tokens truthy signs the session in with them; otherwise it
   * changes nothing but the initialised flag. Either way the storage is only read.
   */
  lemma InitializeAuthEffect(s: State, decode: string -> Option<UserProfile>)
    ensures var t := InitializeAuthSpec(s, decode);
      && t.storage == s.storage && t.session.isInitialized
      && (Truthy(Stored(s.storage, ACCESS_TOKEN_KEY)) && Truthy(Stored(s.storage, REFRESH_TOKEN_KEY)) ==>
            t.session.isAuthenticated
            && t.session.accessToken == Stored(s.storage, ACCESS_TOKEN_KEY)
            && t.session.refreshToken == Stored(s.storage, REFRESH_TOKEN_KEY)
            && (!Truthy(Stored(s.storage, USER_PROFILE_KEY)) ==> t.session.userProfile.None?))
      && (!(Truthy(Stored(s.storage, ACCESS_TOKEN_KEY)) && Truthy(Stored(s.storage, REFRESH_TOKEN_KEY))) ==>
            t.session == s.session.(isInitialized := true))
  {
  }

  /** Running initializeAuth twice is the same as running it once. */
  lemma InitializeAuthIdempotent(s: State, decode: string -> Option<UserProfile>)
    ensures InitializeAuthSpec(InitializeAuthSpec(s, decode), decode) == InitializeAuthSpec(s, decode)
  {
  }

  /** Every action, and the storage wipe, keeps the authenticated-has-tokens invariant. */
  lemma ActionsKeepInvariant(s: State, accessToken: string, refreshToken: string, profile: UserProfile,
                             encoded: string, decode: string -> Option<UserProfile>)
    requires AuthenticatedHasTokens(s.session)
    ensures AuthenticatedHasTokens(SetTokensSpec(s, accessToken, refreshToken).session)
    ensures AuthenticatedHasTokens(SetUserProfileSpec(s, profile, encoded).session)
    ensures AuthenticatedHasTokens(LogoutSpec(s).session)
    ensures AuthenticatedHasTokens(InitializeAuthSpec(s, decode).session)
    ensures AuthenticatedHasTokens(ClearStorageSpec(s).session)
  {
  }

  /**
   * Reload round trip: after setTokens with non-empty tokens, a fresh page load over the same
   * storage followed by initializeAuth is signed in with those tokens.
   */
  lemma ReloadRestoresTokens(s: State, accessToken: string, refreshToken: string, decode: string -> Option<UserProfile>)
    requires accessToken != "" && refreshToken != ""
    ensures var t := InitializeAuthSpec(Reloaded(SetTokensSpec(s, accessToken, refreshToken).storage), decode);
      && t.session.isAuthenticated && t.session.isInitialized
      && t.session.accessToken == Some(accessToken) && t.session.refreshToken == Some(refreshToken)
      && GetAccessTokenSpec(t) == Some(accessToken) && GetRefreshTokenSpec(t) == Some(refreshToken)
  {
  }

  /**
   * With a codec that round-trips, signing in and storing a profile survive a reload: the
   * profile comes back equal to the one stored.
   */
  lemma ReloadRestoresProfile(s: State, accessToken: string, refreshToken: string, profile: UserProfile,
                              encode: UserProfile -> string, decode: string -> Option<UserProfile>)
    requires accessToken != "" && refreshToken != ""
    requires encode(profile) != "" && decode(encode(profile)) == Some(profile)
    ensures var stored := SetUserProfileSpec(SetTokensSpec(s, accessToken, refreshToken), profile, encode(profile)).storage;
      InitializeAuthSpec(Reloaded(stored), decode).session
        == Session(Some(accessToken), Some(refreshToken), Some(profile), true, true)
  {
  }

  /** After logout a reload stays signed out: the stored tokens are gone. */
  lemma ReloadAfterLogoutStaysSignedOut(s: State, decode: string -> Option<UserProfile>)
    ensures InitializeAuthSpec(Reloaded(LogoutSpec(s).storage), decode).session
              == InitialSession.(isInitialized := true)
  {
  }

  /**
   * The storage wipe used by the sign-out service leaves an authenticated session in memory,
   * while a reload then comes back signed out.
   */
  lemma ClearStorageKeepsMemory(s: State, decode: string -> Option<UserProfile>)
    requires s.session.isAuthenticated
    ensures ClearStorageSpec(s).session.isAuthenticated
    ensures !InitializeAuthSpec(Reloaded(ClearStorageSpec(s).storage), decode).session.isAuthenticated
  {
  }

  // ---------------------------------------------------------------------------------------
  // The store, updated in place
  // ---------------------------------------------------------------------------------------

  /** The codec is faithful: every profile encodes to non-empty text that decodes back to it. */
  ghost predicate RoundTrips(encode: UserProfile -> string, decode: string -> Option<UserProfile>) {
    forall p :: encode(p) != "" && decode(encode(p)) == Some(p)
  }

  class Store {
    var accessToken: Option<string>
    var refreshToken: Option<string>
    var userProfile: Option<UserProfile>
    var isAuthenticated: bool
    var isInitialized: bool
    /** The browser's durable key/value storage. */
    var storage: map<string, string>
    const encode: UserProfile -> string
    const decode: string -> Option<UserProfile>

    function Snapshot(): State
      reads this
    {
      State(Session(accessToken, refreshToken, userProfile, isAuthenticated, isInitialized), storage)
    }

    /** A stored profile, when truthy, is one the store wrote, so it decodes. */
    ghost predicate Valid()
      reads this
    {
      && RoundTrips(encode, decode)
      && (Truthy(Stored(storage, USER_PROFILE_KEY)) ==> decode(storage[USER_PROFILE_KEY]).Some?)
      && AuthenticatedHasTokens(Snapshot().session)
    }

    /** A page load: empty memory over the storage that survived. */
    constructor(persisted: map<string, string>, encode: UserProfile -> string, decode: string -> Option<UserProfile>)
      requires RoundTrips(encode, decode)
      requires Truthy(Stored(persisted, USER_PROFILE_KEY)) ==> decode(persisted[USER_PROFILE_KEY]).Some?
      ensures Valid()
      ensures Snapshot() == Reloaded(persisted)
      ensures this.encode == encode && this.decode == decode
    {
      accessToken := None;
      refreshToken := None;
      userProfile := None;
      isAuthenticated := false;
      isInitialized := false;
      storage := persisted;
      this.encode := encode;
      this.decode := decode;
    }

    method SetTokens(newAccessToken: string, newRefreshToken: string)
      requires Valid()
      modifies this
      ensures Valid()
      ensures Snapshot() == SetTokensSpec(old(Snapshot()), newAccessToken, newRefreshToken)
    {
      storage := storage[ACCESS_TOKEN_KEY := newAccessToken];
      storage := storage[REFRESH_TOKEN_KEY := newRefreshToken];
      accessToken, refreshToken, isAuthenticated := Some(newAccessToken), Some(newRefreshToken), true;
    }

    method SetUserProfile(profile: UserProfile)
      requires Valid()
      modifies this
      ensures Valid()
      ensures Snapshot() == SetUserProfileSpec(old(Snapshot()), profile, encode(profile))
    {
      storage := storage[USER_PROFILE_KEY := encode(profile)];
      userProfile := Some(profile);
    }

    function GetAccessToken(): (t: Option<string>)
      reads this
      ensures t == GetAccessTokenSpec(Snapshot())
    {
      TokenLookup(accessToken, storage, ACCESS_TOKEN_KEY)
    }

    function GetRefreshToken(): (t: Option<string>)
      reads this
      ensures t == GetRefreshTokenSpec(Snapshot())
    {
      TokenLookup(refreshToken, storage, REFRESH_TOKEN_KEY)
    }

    method Logout()
      requires Valid()
      modifies this
      ensures Valid()
      ensures Snapshot() == LogoutSpec(old(Snapshot()))
    {
      storage := storage - {ACCESS_TOKEN_KEY};
      storage := storage - {REFRESH_TOKEN_KEY};
      storage := storage - {USER_PROFILE_KEY};
      accessToken, refreshToken, userProfile := None, None, None;
      isAuthenticated, isInitialized := false, true;
      assert storage == old(storage) - {ACCESS_TOKEN_KEY, REFRESH_TOKEN_KEY, USER_PROFILE_KEY};
    }

    method InitializeAuth()
      requires Valid()
      modifies this
      ensures Valid()
      ensures Snapshot() == InitializeAuthSpec(old(Snapshot()), decode)
      ensures Truthy(Stored(storage, ACCESS_TOKEN_KEY)) && Truthy(Stored(storage, REFRESH_TOKEN_KEY)) ==>
                (userProfile.Some? <==> Truthy(Stored(storage, USER_PROFILE_KEY)))
    {
      var storedAccess := Stored(storage, ACCESS_TOKEN_KEY);
      var storedRefresh := Stored(storage, REFRESH_TOKEN_KEY);
      var storedProfile := Stored(storage, USER_PROFILE_KEY);
      if Truthy(storedAccess) && Truthy(storedRefresh) {
        accessToken, refreshToken := storedAccess, storedRefresh;
        userProfile := if Truthy(storedProfile) then decode(storedProfile.value) else None;
        isAuthenticated, isInitialized := true, true;
      } else {
        isInitialized := true;
      }
    }

    /** The sign-out service's `localStorage.clear()`: memory is left as it was. */
    method ClearStorage()
      requires Valid()
      modifies this
      ensures Valid()
      ensures Snapshot() == ClearStorageSpec(old(Snapshot()))
    {
      storage := map[];
    }
  }
}
