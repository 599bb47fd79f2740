/** The application store (core/store.ts): one mutable state record with
    setters that mirror to the local cache, shallow-merging updates that
    also write to the remote store, and the boot-time initialiser. */
module Store {
  import opened Wrappers
  import opened CoreTypes
  import opened Storage

  /** The one-shot parameter bag passed with a navigation: nothing,
      `{section}` for the "more" menu, or `{savedStudy}` for the generator. */
  datatype ViewParams = NoParams | SectionParams(section: string) | SavedStudyParams(savedStudy: StudyResult) {
    /** `viewParams?.section`. */
    function Section(): Option<string> {
      if SectionParams? then Some(section) else None
    }
  }

  /** `Partial<UserProfile>`: the fields a patch sets. */
  datatype UserPatch = UserPatch(
    id: Option<string>,
    name: Option<string>,
    age: Option<string>,
    church: Option<string>,
    role: Option<string>,
    whatsapp: Option<string>,
    isRegistered: Option<bool>,
    avatarUrl: Option<string>,
    registrationDate: Option<string>)

  const EmptyUserPatch: UserPatch := UserPatch(None, None, None, None, None, None, None, None, None)

  /** `{ ...u, ...p }`. */
  function MergeUser(u: UserProfile, p: UserPatch): UserProfile {
    UserProfile(
      p.id.GetOr(u.id), p.name.GetOr(u.name), p.age.GetOr(u.age), p.church.GetOr(u.church),
      p.role.GetOr(u.role), p.whatsapp.GetOr(u.whatsapp), p.isRegistered.GetOr(u.isRegistered),
      p.avatarUrl.GetOr(u.avatarUrl), p.registrationDate.GetOr(u.registrationDate))
  }

  function Later<T>(first: Option<T>, second: Option<T>): Option<T> {
    if second.Some? then second else first
  }

  /** `{ ...p, ...q }`: the patch that applies `p` and then `q`. */
  function ThenUserPatch(p: UserPatch, q: UserPatch): UserPatch {
    UserPatch(
      Later(p.id, q.id), Later(p.name, q.name), Later(p.age, q.age), Later(p.church, q.church),
      Later(p.role, q.role), Later(p.whatsapp, q.whatsapp), Later(p.isRegistered, q.isRegistered),
      Later(p.avatarUrl, q.avatarUrl), Later(p.registrationDate, q.registrationDate))
  }

  /** A patch that sets every field: its values replace the whole record. */
  function FullUserPatch(v: UserProfile): UserPatch {
    UserPatch(Some(v.id), Some(v.name), Some(v.age), Some(v.church), Some(v.role),
              Some(v.whatsapp), Some(v.isRegistered), Some(v.avatarUrl), Some(v.registrationDate))
  }

  /** Merging nothing changes nothing; merging a full record replaces the
      old one; merging twice is merging the combined patch once; merging the
      same patch again changes nothing. */
  lemma MergeUserLaws(u: UserProfile, v: UserProfile, p: UserPatch, q: UserPatch)
    ensures MergeUser(u, EmptyUserPatch) == u
    ensures MergeUser(u, FullUserPatch(v)) == v
    ensures MergeUser(MergeUser(u, p), q) == MergeUser(u, ThenUserPatch(p, q))
    ensures MergeUser(MergeUser(u, p), p) == MergeUser(u, p)
  {
  }

  /** The guest invariant survives every patch that leaves the identity
      and the registration flag alone, and every patch that clears the
      flag; a patch can only produce the guest id if it sets that id or
      the record already had it. */
  lemma MergeUserKeepsGuestInvariant(u: UserProfile, p: UserPatch)
    ensures GuestInvariant(u) && p.id.None? && p.isRegistered.None? ==> GuestInvariant(MergeUser(u, p))
    ensures p.isRegistered == Some(false) ==> GuestInvariant(MergeUser(u, p))
    ensures MergeUser(u, p).id == GuestId ==> p.id == Some(GuestId) || (p.id.None? && u.id == GuestId)
  {
  }

  /** `Partial<AdminConfig>`. */
  datatype ConfigPatch = ConfigPatch(
    coverImageUrl: Option<string>,
    coverTitle: Option<string>,
    libraryDriveUrl: Option<string>,
    announcement: Option<string>,
    maintenanceMode: Option<bool>,
    activeModules: Option<seq<ExegesisModule>>)

  const EmptyConfigPatch: ConfigPatch := ConfigPatch(None, None, None, None, None, None)

  /** `{ ...c, ...p }`. */
  function MergeConfig(c: AdminConfig, p: ConfigPatch): AdminConfig {
    AdminConfig(
      p.coverImageUrl.GetOr(c.coverImageUrl), p.coverTitle.GetOr(c.coverTitle),
      p.libraryDriveUrl.GetOr(c.libraryDriveUrl), p.announcement.GetOr(c.announcement),
      p.maintenanceMode.GetOr(c.maintenanceMode), p.activeModules.GetOr(c.activeModules))
  }

  /** Applying the same configuration patch twice gives the result of one
      application, and an empty patch changes nothing. */
  lemma MergeConfigIdempotent(c: AdminConfig, p: ConfigPatch)
    ensures MergeConfig(MergeConfig(c, p), p) == MergeConfig(c, p)
    ensures MergeConfig(c, EmptyConfigPatch) == c
  {
  }

  /** The observable part of the store. */
  datatype StoreState = StoreState(
    view: AppView,
    viewParams: ViewParams,
    user: UserProfile,
    config: AdminConfig,
    theme: Theme,
    isLoading: bool)

  class AppStore {
    var view: AppView
    var viewParams: ViewParams
    var user: UserProfile
    var config: AdminConfig
    var theme: Theme
    var isLoading: bool
    const cache: LocalCache
    const remote: RemoteStore

    function State(): StoreState
      reads this
    {
      StoreState(view, viewParams, user, config, theme, isLoading)
    }

    /** The store as created: welcome screen, guest user, seed
        configuration, the cached theme, and the boot loader showing. */
    constructor (cache: LocalCache, remote: RemoteStore)
      ensures this.cache == cache && this.remote == remote
      ensures State() == StoreState(Welcome, NoParams, InitialUser, InitialAdminConfig, cache.theme, true)
    {
      this.cache, this.remote := cache, remote;
      view, viewParams := Welcome, NoParams;
      user, config := InitialUser, InitialAdminConfig;
      theme := cache.theme;
      isLoading := true;
    }

    /** `setView(view, params = null)`. */
    method SetView(v: AppView, p: ViewParams := NoParams)
      modifies this
      ensures State() == old(State()).(view := v, viewParams := p)
    {
      view, viewParams := v, p;
    }

    /** `setUser(user)`: state and cache both hold `u`. */
    method SetUser(u: UserProfile)
      modifies this, cache
      ensures State() == old(State()).(user := u)
      ensures cache.Snapshot() == old(cache.Snapshot()).(user := u)
    {
      user := u;
      cache.SaveUser(u);
    }

    /** `setConfig(config)`: state and cache both hold `c`. */
    method SetConfig(c: AdminConfig)
      modifies this, cache
      ensures State() == old(State()).(config := c)
      ensures cache.Snapshot() == old(cache.Snapshot()).(config := c)
    {
      config := c;
      cache.SaveConfig(c);
    }

    /** `setTheme(theme)`: state and cache both hold `t`. */
    method SetTheme(t: Theme)
      modifies this, cache
      ensures State() == old(State()).(theme := t)
      ensures cache.Snapshot() == old(cache.Snapshot()).(theme := t)
    {
      theme := t;
      cache.SaveTheme(t);
    }

    method SetLoading(loading: bool)
      modifies this
      ensures State() == old(State()).(isLoading := loading)
    {
      isLoading := loading;
    }

    /** `init()`. `reachable` is the network's answer to `getAdminConfig()`;
        a rejection is caught and leaves configuration and theme as they
        were. Otherwise the fetched configuration is set and the theme is
        reloaded from the cache. The code's local fallback runs only when
        the fetched value is falsy, which `getAdminConfig` never returns, so
        a missing document gives the seed configuration, not the cached one.
        The loading flag is cleared on every path. */
    method Init(reachable: bool)
      modifies this
      ensures !isLoading
      ensures config == if !reachable then old(config)
                        else if remote.config.Some? then remote.config.value
                        else InitialAdminConfig
      ensures theme == if reachable then cache.theme else old(theme)
      ensures view == old(view) && viewParams == old(viewParams) && user == old(user)
    {
      isLoading := true;
      var fetched := remote.GetAdminConfig(reachable);
      match fetched {
        case Threw =>
        case Done(fbConfig) =>
          config := fbConfig;
          theme := cache.theme;
      }
      isLoading := false;
    }

    /** `init()` with the fallback the code prepares for: a missing
        document yields the cached configuration. */
    method InitWithLocalFallback(reachable: bool)
      modifies this
      ensures !isLoading
      ensures config == if !reachable then old(config)
                        else if remote.config.Some? then remote.config.value
                        else cache.config
      ensures theme == if reachable then cache.theme else old(theme)
      ensures view == old(view) && viewParams == old(viewParams) && user == old(user)
    {
      isLoading := true;
      var fetched := remote.FindAdminConfig(reachable);
      match fetched {
        case Threw =>
        case Done(fbConfig) =>
          if fbConfig.Some? {
            config := fbConfig.value;
          } else {
            config := cache.config;
          }
          theme := cache.theme;
      }
      isLoading := false;
    }

    /** `updateUser(patch)`. The merged record is in the state before any
        remote call; a non-guest record is sent to the remote store, and
        only if that write succeeds (`remoteOk`) does the cache receive it
        (a rejection escapes before the cache write). */
    method UpdateUser(patch: UserPatch, remoteOk: bool) returns (completed: bool)
      modifies this, cache, remote
      ensures State() == old(State()).(user := MergeUser(old(user), patch))
      ensures remote.writes == if user.id != GuestId
                               then old(remote.writes) + [UserWrite(user.id, user)]
                               else old(remote.writes)
      ensures remote.users == if user.id != GuestId && remoteOk
                              then old(remote.users)[user.id := user]
                              else old(remote.users)
      ensures remote.config == old(remote.config)
      ensures completed == (user.id == GuestId || remoteOk)
      ensures cache.Snapshot() == if completed then old(cache.Snapshot()).(user := user)
                                  else old(cache.Snapshot())
    {
      var updated := MergeUser(user, patch);
      user := updated;
      if updated.id != GuestId {
        var ok := remote.SaveUserProfile(updated.id, updated, remoteOk);
        if !ok {
          completed := false;
          return;
        }
      }
      cache.SaveUser(updated);
      completed := true;
    }

    /** `updateConfig(patch)`. The merged configuration is in the state,
        is always sent to the remote store, and reaches the cache only if
        that write succeeds. */
    method UpdateConfig(patch: ConfigPatch, remoteOk: bool) returns (completed: bool)
      modifies this, cache, remote
      ensures State() == old(State()).(config := MergeConfig(old(config), patch))
      ensures remote.writes == old(remote.writes) + [ConfigWrite(config)]
      ensures remote.config == if remoteOk then Some(config) else old(remote.config)
      ensures remote.users == old(remote.users)
      ensures completed == remoteOk
      ensures cache.Snapshot() == if completed then old(cache.Snapshot()).(config := config)
                                  else old(cache.Snapshot())
    {
      var updated := MergeConfig(config, patch);
      config := updated;
      var ok := remote.SaveAdminConfig(updated, remoteOk);
      if !ok {
        completed := false;
        return;
      }
      cache.SaveConfig(updated);
      completed := true;
    }
  }

  /** Booting with no `config/app` document while the cache holds a
      configuration in maintenance: as written the lockout is dropped (the
      seed configuration is open), with the local fallback it is kept. */
  method BootWithoutRemoteDocument(cache: LocalCache, remote: RemoteStore)
    returns (lockedAsWritten: bool, lockedWithFallback: bool)
    requires remote.config.None? && cache.config.maintenanceMode
    ensures !lockedAsWritten && lockedWithFallback
  {
    var asWritten := new AppStore(cache, remote);
    asWritten.Init(true);
    lockedAsWritten := asWritten.config.maintenanceMode;
    var corrected := new AppStore(cache, remote);
    corrected.InitWithLocalFallback(true);
    lockedWithFallback := corrected.config.maintenanceMode;
    InitialAdminConfigEnablesAll(Originals);
  }

  /** Two successive `updateConfig` calls with the same patch leave the
      store, the remote document and the cache as one call does, and both
      writes carry the same value. */
  method UpdateConfigTwice(s: AppStore, patch: ConfigPatch)
    modifies s, s.cache, s.remote
    ensures s.State() == old(s.State()).(config := MergeConfig(old(s.config), patch))
    ensures s.remote.config == Some(s.config) && s.remote.users == old(s.remote.users)
    ensures s.cache.Snapshot() == old(s.cache.Snapshot()).(config := s.config)
    ensures s.remote.writes == old(s.remote.writes) + [ConfigWrite(s.config), ConfigWrite(s.config)]
  {
    var first := s.UpdateConfig(patch, true);
    ghost var once := s.config;
    var second := s.UpdateConfig(patch, true);
    MergeConfigIdempotent(old(s.config), patch);
    assert s.config == once;
  }
}
