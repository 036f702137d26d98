/**
 * The profile page: the avatar file checks, the avatar URL taken from an upload reply, the
 * delayed re-synchronisation with the server, avatar deletion, and what the page displays.
 */
module ProfilePage {
  import opened Wrappers
  import opened Profile
  import opened Files
  import AuthStore
  import UserManagement
  import Permissions

  const AVATAR_LIMIT: nat := 5 * MiB
  const DEFAULT_USERNAME: string := "Người dùng"
  const ROLE_PREFIX: string := "ROLE_"

  // ---------------------------------------------------------------------------------------
  // Choosing a file
  // ---------------------------------------------------------------------------------------

  /** The verdict on a chosen file. */
  datatype AvatarCheck = TooLarge | NotAnImage | Accepted

  /** The size is checked first (at most 5 MiB), then the type must start with `image/`. */
  function ValidateAvatar(file: FileInfo): (check: AvatarCheck)
    ensures check == TooLarge <==> file.size > AVATAR_LIMIT
    ensures check == NotAnImage <==> file.size <= AVATAR_LIMIT && !StartsWith(file.mimeType, "image/")
    ensures check == Accepted <==> file.size <= AVATAR_LIMIT && StartsWith(file.mimeType, "image/")
  {
    if file.size > AVATAR_LIMIT then TooLarge
    else if !StartsWith(file.mimeType, "image/") then NotAnImage
    else Accepted
  }

  /** A file this page accepts is also accepted by the user page's avatar dialog, whose limit is 10 MiB. */
  lemma AcceptedHereAcceptedByAdmin(file: FileInfo)
    requires ValidateAvatar(file) == Accepted
    ensures UserManagement.AvatarAccepted(file)
  {
  }

  // ---------------------------------------------------------------------------------------
  // Uploading
  // ---------------------------------------------------------------------------------------

  /** The upload reply's fields; both are missing when the reply has no body. */
  datatype UploadReply = UploadReply(avatarUrl: Option<string>, fileName: Option<string>)

  /** `data?.avatarUrl || data?.fileName`. */
  function NewAvatarUrl(reply: UploadReply): (url: Option<string>)
    ensures Truthy(reply.avatarUrl) ==> url == reply.avatarUrl
    ensures !Truthy(reply.avatarUrl) ==> url == reply.fileName
  {
    if Truthy(reply.avatarUrl) then reply.avatarUrl else reply.fileName
  }

  /** The profile right after an upload: the new URL if there is one, otherwise no change (None). */
  function AfterUpload(profile: UserProfile, newUrl: Option<string>): (updated: Option<UserProfile>)
    ensures updated.Some? <==> Truthy(newUrl)
    ensures updated.Some? ==> updated.value == profile.(avatarUrl := newUrl)
  {
    if Truthy(newUrl) then Some(profile.(avatarUrl := newUrl)) else None
  }

  /**
   * The delayed re-synchronisation: a server profile whose avatar is set and differs from the
   * new URL is taken as it is; any other server profile is taken with the new URL as its
   * avatar; no profile in the reply (None) changes nothing.
   */
  function Resync(server: Option<UserProfile>, newUrl: Option<string>): (synced: Option<UserProfile>)
    ensures synced.Some? <==> server.Some?
    ensures server.Some? && Truthy(server.value.avatarUrl) && server.value.avatarUrl != newUrl ==> synced == server
    ensures server.Some? && !(Truthy(server.value.avatarUrl) && server.value.avatarUrl != newUrl) ==>
              synced == Some(server.value.(avatarUrl := newUrl))
  {
    if server.Some? && Truthy(server.value.avatarUrl) && server.value.avatarUrl != newUrl then server
    else if server.Some? then Some(server.value.(avatarUrl := newUrl))
    else None
  }

  /**
   * The re-synchronised profile is the server's in every field but the avatar, which is the
   * server's when the server has one and the new URL otherwise.
   */
  lemma ResyncPrefersServerAvatar(server: UserProfile, newUrl: Option<string>)
    ensures var synced := Resync(Some(server), newUrl).value;
      synced.(avatarUrl := server.avatarUrl) == server
      && synced.avatarUrl == (if Truthy(server.avatarUrl) then server.avatarUrl else newUrl)
  {
  }

  /**
   * When the server has not caught up yet (no avatar, or still the same one), re-synchronising
   * keeps the URL the upload produced.
   */
  lemma ResyncKeepsUploadedAvatar(profile: UserProfile, server: UserProfile, reply: UploadReply)
    requires Truthy(NewAvatarUrl(reply))
    requires !Truthy(server.avatarUrl) || server.avatarUrl == NewAvatarUrl(reply)
    ensures Resync(Some(server), NewAvatarUrl(reply)).value.avatarUrl == AfterUpload(profile, NewAvatarUrl(reply)).value.avatarUrl
  {
  }

  /** Deleting the avatar: the same profile without one. */
  function DeleteAvatar(profile: UserProfile): (updated: UserProfile)
    ensures updated.avatarUrl.None?
    ensures updated.(avatarUrl := profile.avatarUrl) == profile
  {
    profile.(avatarUrl := None)
  }

  /** An upload after a deletion restores exactly the profile with the new avatar. */
  lemma UploadAfterDeleteRestores(profile: UserProfile, url: string)
    requires url != ""
    ensures AfterUpload(DeleteAvatar(profile), Some(url)) == Some(profile.(avatarUrl := Some(url)))
  {
  }

  // ---------------------------------------------------------------------------------------
  // Display
  // ---------------------------------------------------------------------------------------

  /** `pat` occurs in `s` at index `i`. */
  predicate OccursAt(s: string, pat: string, i: int) {
    0 <= i && i + |pat| <= |s| && s[i..i + |pat|] == pat
  }

  /** The first index at or after `from` where `pat` occurs. */
  function IndexFrom(s: string, pat: string, from: nat): (r: Option<nat>)
    ensures r.Some? ==> from <= r.value && OccursAt(s, pat, r.value)
                        && forall j :: from <= j < r.value ==> !OccursAt(s, pat, j)
    ensures r.None? ==> forall j :: from <= j ==> !OccursAt(s, pat, j)
    decreases |s| - from
  {
    if from + |pat| > |s| then None
    else if s[from..from + |pat|] == pat then Some(from)
    else IndexFrom(s, pat, from + 1)
  }

  /** `s.replace(pat, rep)` with a string pattern: only the first occurrence is replaced. */
  function ReplaceFirst(s: string, pat: string, rep: string): (r: string)
    ensures (forall j :: !OccursAt(s, pat, j)) ==> r == s
    ensures forall i :: OccursAt(s, pat, i) && (forall j :: 0 <= j < i ==> !OccursAt(s, pat, j)) ==>
              r == s[..i] + rep + s[i + |pat|..]
  {
    match IndexFrom(s, pat, 0)
    case None => s
    case Some(i) =>
      FirstOccurrenceUnique(s, pat, i);
      s[..i] + rep + s[i + |pat|..]
  }

  /** There is only one first occurrence. */
  lemma FirstOccurrenceUnique(s: string, pat: string, i: int)
    requires OccursAt(s, pat, i) && forall j :: 0 <= j < i ==> !OccursAt(s, pat, j)
    ensures forall k :: OccursAt(s, pat, k) && (forall j :: 0 <= j < k ==> !OccursAt(s, pat, j)) ==> k == i
  {
  }

  /** The badge text of a role: `role.replace('ROLE_', '')`. */
  function RoleBadgeText(role: string): (text: string)
  {
    ReplaceFirst(role, ROLE_PREFIX, "")
  }

  /** A leading prefix is stripped and only that one: "ROLE_ROLE_X" shows as "ROLE_X". */
  lemma LeadingPrefixStripped(rest: string)
    ensures RoleBadgeText(ROLE_PREFIX + rest) == rest
  {
    var s := ROLE_PREFIX + rest;
    assert s[0..|ROLE_PREFIX|] == ROLE_PREFIX;
    assert OccursAt(s, ROLE_PREFIX, 0);
    assert s[|ROLE_PREFIX|..] == rest;
  }

  /** A role written as the prefix followed by a name shows as that name. */
  lemma PrefixedRoleShowsName(role: string, name: string)
    requires role == ROLE_PREFIX + name
    ensures RoleBadgeText(role) == name
  {
    LeadingPrefixStripped(name);
  }

  /** The four known roles show without their prefix: ADMIN, MANAGER, STAFF and USER. */
  lemma KnownRolesShowBareNames()
    ensures forall role :: role in Permissions.RoleHierarchy ==> RoleBadgeText(role) == role[|ROLE_PREFIX|..]
  {
    forall role | role in Permissions.RoleHierarchy
      ensures RoleBadgeText(role) == role[|ROLE_PREFIX|..]
    {
      assert role == ROLE_PREFIX + role[|ROLE_PREFIX|..];
      PrefixedRoleShowsName(role, role[|ROLE_PREFIX|..]);
    }
  }

  /** A role without the prefix is shown unchanged. */
  lemma UnprefixedRoleUnchanged(role: string)
    requires forall j :: !OccursAt(role, ROLE_PREFIX, j)
    ensures RoleBadgeText(role) == role
  {
  }

  /**
   * The roles line: one badge per listed role (none for an empty list), one badge for a role
   * given as a string, and None, shown as "no role", when the field is missing or empty.
   */
  function RoleBadgeTexts(roles: RolesField): (badges: Option<seq<string>>)
    ensures badges.None? <==> roles.NoRoles? || roles == ScalarRole("")
    ensures roles.RoleList? ==> badges.Some? && |badges.value| == |roles.roles|
    ensures roles.RoleList? ==> forall i :: 0 <= i < |roles.roles| ==> badges.value[i] == RoleBadgeText(roles.roles[i])
    ensures roles.ScalarRole? && roles.role != "" ==> badges == Some([RoleBadgeText(roles.role)])
  {
    match roles
    case NoRoles => None
    case ScalarRole(r) => if r == "" then None else Some([RoleBadgeText(r)])
    case RoleList(rs) => Some(seq(|rs|, i requires 0 <= i < |rs| => RoleBadgeText(rs[i])))
  }

  /** A role given as a string is shown like the one-element list holding it. */
  lemma ScalarRoleLikeSingleton(role: string)
    requires role != ""
    ensures RoleBadgeTexts(ScalarRole(role)) == RoleBadgeTexts(RoleList([role]))
  {
    var listed := RoleBadgeTexts(RoleList([role])).value;
    assert |listed| == 1 && listed[0] == RoleBadgeText(role);
    assert listed == [RoleBadgeText(role)];
  }

  /** The profile shown: the page's own copy, else the store's. */
  function DisplayProfile(local: Option<UserProfile>, stored: Option<UserProfile>): (shown: Option<UserProfile>)
    ensures local.Some? ==> shown == local
    ensures local.None? ==> shown == stored
  {
    if local.Some? then local else stored
  }

  /** The name shown: the displayed profile's username, else the default. */
  function DisplayUsername(local: Option<UserProfile>, stored: Option<UserProfile>): (name: string)
    ensures name != ""
    ensures DisplayProfile(local, stored).Some? && DisplayProfile(local, stored).value.username != "" ==>
              name == DisplayProfile(local, stored).value.username
    ensures DisplayProfile(local, stored).None? ==> name == DEFAULT_USERNAME
  {
    var shown := DisplayProfile(local, stored);
    if shown.Some? && shown.value.username != "" then shown.value.username else DEFAULT_USERNAME
  }

  // ---------------------------------------------------------------------------------------
  // The page state
  // ---------------------------------------------------------------------------------------

  /** The page's own state, and the session store it writes every profile change to. */
  class ProfilePageState {
    var profile: Option<UserProfile>
    var loading: bool
    var avatarFile: Option<FileInfo>
    const store: AuthStore.Store

    ghost predicate Valid()
      reads this, store
    {
      store.Valid() && (avatarFile.Some? ==> ValidateAvatar(avatarFile.value) == Accepted)
    }

    constructor(store: AuthStore.Store)
      requires store.Valid()
      ensures Valid() && profile.None? && loading && avatarFile.None? && this.store == store
    {
      profile, loading, avatarFile := None, true, None;
      this.store := store;
    }

    /** The page's username line. */
    function Username(): (name: string)
      reads this, store
      ensures name == DisplayUsername(profile, store.userProfile)
    {
      DisplayUsername(profile, store.userProfile)
    }

    /** The profile request on mount; None when it failed. Loading ends either way. */
    method OnProfileLoaded(fetched: Option<UserProfile>)
      requires Valid()
      modifies this, store
      ensures Valid() && !loading && avatarFile == old(avatarFile)
      ensures fetched.Some? ==> profile == fetched
      ensures fetched.Some? ==>
                store.Snapshot() == AuthStore.SetUserProfileSpec(old(store.Snapshot()), fetched.value, store.encode(fetched.value))
      ensures fetched.None? ==> profile == old(profile) && store.Snapshot() == old(store.Snapshot())
    {
      if fetched.Some? {
        profile := fetched;
        store.SetUserProfile(fetched.value);
      }
      loading := false;
    }

    /** A file chosen in the avatar input; a refused one is not kept. */
    method SelectAvatar(file: FileInfo) returns (check: AvatarCheck)
      requires Valid()
      modifies this
      ensures Valid() && check == ValidateAvatar(file)
      ensures avatarFile == (if check == Accepted then Some(file) else old(avatarFile))
      ensures profile == old(profile) && loading == old(loading)
    {
      check := ValidateAvatar(file);
      if check == Accepted {
        avatarFile := Some(file);
      }
    }

    /**
     * The upload request. `reply` is None when the request failed, which keeps the chosen
     * file. Without a file or a profile nothing happens. The returned URL is the one the
     * delayed re-synchronisation compares against.
     */
    method Upload(reply: Option<UploadReply>) returns (newUrl: Option<string>)
      requires Valid()
      modifies this, store
      ensures Valid() && loading == old(loading)
      ensures old(avatarFile).None? || old(profile).None? || reply.None? ==>
                newUrl.None? && profile == old(profile) && avatarFile == old(avatarFile)
                && store.Snapshot() == old(store.Snapshot())
      ensures old(avatarFile).Some? && old(profile).Some? && reply.Some? ==>
                newUrl == NewAvatarUrl(reply.value) && avatarFile.None?
                && (AfterUpload(old(profile).value, newUrl).None? ==>
                      profile == old(profile) && store.Snapshot() == old(store.Snapshot()))
                && (AfterUpload(old(profile).value, newUrl).Some? ==>
                      profile == AfterUpload(old(profile).value, newUrl)
                      && store.Snapshot() == AuthStore.SetUserProfileSpec(old(store.Snapshot()), profile.value, store.encode(profile.value)))
    {
      newUrl := None;
      if avatarFile.None? || profile.None? || reply.None? {
        return;
      }
      newUrl := NewAvatarUrl(reply.value);
      var updated := AfterUpload(profile.value, newUrl);
      if updated.Some? {
        profile := updated;
        store.SetUserProfile(updated.value);
      }
      avatarFile := None;
    }

    /** The delayed profile request after an upload; None when it failed. */
    method OnResync(newUrl: Option<string>, server: Option<UserProfile>)
      requires Valid()
      modifies this, store
      ensures Valid() && loading == old(loading) && avatarFile == old(avatarFile)
      ensures server.None? ==> profile == old(profile) && store.Snapshot() == old(store.Snapshot())
      ensures server.Some? ==> profile == Resync(server, newUrl)
      ensures server.Some? ==>
                store.Snapshot() == AuthStore.SetUserProfileSpec(old(store.Snapshot()), profile.value, store.encode(profile.value))
    {
      var synced := Resync(server, newUrl);
      if synced.Some? {
        profile := synced;
        store.SetUserProfile(synced.value);
      }
    }

    /**
     * A profile reload: the delayed one after an avatar deletion, and the one after a
     * profile update. A fetched profile replaces the page's and the store's; a failed
     * request changes nothing. The loading flag is not touched.
     */
    method OnProfileReloaded(fetched: Option<UserProfile>)
      requires Valid()
      modifies this, store
      ensures Valid() && loading == old(loading) && avatarFile == old(avatarFile)
      ensures fetched.Some? ==> profile == fetched
      ensures fetched.Some? ==>
                store.Snapshot() == AuthStore.SetUserProfileSpec(old(store.Snapshot()), fetched.value, store.encode(fetched.value))
      ensures fetched.None? ==> profile == old(profile) && store.Snapshot() == old(store.Snapshot())
    {
      if fetched.Some? {
        profile := fetched;
        store.SetUserProfile(fetched.value);
      }
    }

    /** A successful avatar deletion; without a profile nothing happens. */
    method OnAvatarDeleted()
      requires Valid()
      modifies this, store
      ensures Valid() && loading == old(loading) && avatarFile == old(avatarFile)
      ensures old(profile).None? ==> profile.None? && store.Snapshot() == old(store.Snapshot())
      ensures old(profile).Some? ==> profile == Some(DeleteAvatar(old(profile).value))
      ensures old(profile).Some? ==>
                store.Snapshot() == AuthStore.SetUserProfileSpec(old(store.Snapshot()), profile.value, store.encode(profile.value))
    {
      if profile.Some? {
        profile := Some(DeleteAvatar(profile.value));
        store.SetUserProfile(profile.value);
      }
    }
  }
}
