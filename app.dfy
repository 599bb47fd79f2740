/** The root component (App.tsx): the fixed-priority render dispatch and
    the identity-provider listener that resolves sign-in and sign-out. */
module App {
  import opened Wrappers
  import opened Text
  import opened CoreTypes
  import opened Storage
  import opened Store

  /** What the root component renders. */
  datatype Screen =
    | LoaderScreen
    | AdminLoginScreen
    | DashboardScreen
    | WelcomeScreen
    | RegistrationScreen
    | MaintenanceScreen
    | HomeScreen
    | ExegesisScreen
    | BibleScreen
    | CommunityScreen
    | ToolsScreen
    | MoreScreen(initialSection: Option<string>)
    | ProfileScreen
    | SettingsScreen

  /** The client shell's `switch (view)`; unknown identifiers render Home. */
  function ClientScreen(view: AppView, params: ViewParams): Screen {
    match view
    case Home => HomeScreen
    case Exegesis => ExegesisScreen
    case Bible => BibleScreen
    case Community => CommunityScreen
    case Tools => ToolsScreen
    case More => MoreScreen(params.Section())
    case Profile => ProfileScreen
    case Settings => SettingsScreen
    case _ => HomeScreen
  }

  /** The render dispatch: loader, admin console, welcome, registration,
      maintenance lockout, then the client shell. */
  function Render(isLoading: bool, view: AppView, params: ViewParams, config: AdminConfig): Screen {
    if isLoading then LoaderScreen
    else if StartsWith(view.Id(), AdminPrefix) then
      (if view == AdminLogin then AdminLoginScreen else DashboardScreen)
    else if view == Welcome then WelcomeScreen
    else if view == Register then RegistrationScreen
    else if config.maintenanceMode then MaintenanceScreen
    else ClientScreen(view, params)
  }

  /** While the store is loading, only the loader is shown. */
  lemma RenderWhileLoading(view: AppView, params: ViewParams, config: AdminConfig)
    ensures Render(true, view, params, config) == LoaderScreen
  {
  }

  /** Once loaded, every admin identifier reaches the admin console: the
      login screen for ADMIN_LOGIN, the dashboard otherwise, whatever the
      configuration says. */
  lemma RenderAdmin(view: AppView, params: ViewParams, config: AdminConfig)
    requires view.IsAdmin()
    ensures Render(false, view, params, config) == if view == AdminLogin then AdminLoginScreen else DashboardScreen
  {
    AdminPrefixExact(view);
  }

  /** Welcome and registration come before the maintenance gate. */
  lemma RenderPreAuth(params: ViewParams, config: AdminConfig)
    ensures Render(false, Welcome, params, config) == WelcomeScreen
    ensures Render(false, Register, params, config) == RegistrationScreen
  {
    AdminPrefixExact(Welcome);
    AdminPrefixExact(Register);
  }

  /** Maintenance gate: every client view is locked out, and nothing else is. */
  lemma RenderMaintenance(view: AppView, params: ViewParams, config: AdminConfig)
    ensures Render(false, view, params, config) == MaintenanceScreen
        <==> config.maintenanceMode && !view.IsAdmin() && view != Welcome && view != Register
  {
    AdminPrefixExact(view);
  }

  /** Without maintenance the client switch decides; MORE receives the
      section parameter and identifiers outside the switch render Home. */
  lemma RenderClient(view: AppView, params: ViewParams, config: AdminConfig)
    requires !view.IsAdmin() && view != Welcome && view != Register && !config.maintenanceMode
    ensures Render(false, view, params, config) == ClientScreen(view, params)
    ensures view == More ==> Render(false, view, params, config) == MoreScreen(params.Section())
    ensures ClientScreen(view, params) == HomeScreen
        <==> view !in {Exegesis, Bible, Community, Tools, More, Profile, Settings}
  {
    AdminPrefixExact(view);
  }

  /** The lockout's only button goes to the admin login. */
  function MaintenanceEscape(): (v: AppView)
    ensures v == AdminLogin && v.IsAdmin() && StartsWith(v.Id(), AdminPrefix)
  {
    AdminPrefixExact(AdminLogin);
    AdminLogin
  }

  /** The escape works under maintenance: the lockout's button renders the
      admin login whatever the configuration and the parameters. */
  lemma MaintenanceEscapeReachesLogin(params: ViewParams, config: AdminConfig)
    ensures Render(false, MaintenanceEscape(), params, config) == AdminLoginScreen
  {
    AdminPrefixExact(AdminLogin);
  }

  /** The welcome screen's "Entrar no Estudo" button. */
  function EnterTarget(user: UserProfile): (v: AppView)
    ensures v == Home <==> user.isRegistered
    ensures v != Home ==> v == Register
  {
    if user.isRegistered then Home else Register
  }

  /** What "Entrar no Estudo" leads to on screen: a registered user gets
      Home, or the lockout under maintenance; anyone else gets the
      registration form, which maintenance does not block. */
  lemma EnterLeadsTo(user: UserProfile, params: ViewParams, config: AdminConfig)
    ensures Render(false, EnterTarget(user), params, config)
         == if !user.isRegistered then RegistrationScreen
            else if config.maintenanceMode then MaintenanceScreen
            else HomeScreen
  {
    AdminPrefixExact(Home);
    AdminPrefixExact(Register);
  }

  /** A notification from the identity provider. */
  datatype AuthEvent =
    | SignedIn(uid: string, profile: Option<UserProfile>)  // profile: what getUserProfile(uid) found
    | SignedOut

  /** What the listener does to the store: the user it sets and, if any,
      the view it navigates to. */
  datatype AuthEffect = AuthEffect(user: UserProfile, navigate: Option<AppView>)

  /** The listener's callback, as a function of the view and user it sees. */
  function AuthTransition(view: AppView, user: UserProfile, ev: AuthEvent): AuthEffect {
    match ev
    case SignedIn(uid, Some(profile)) =>
      AuthEffect(profile, if view == Welcome || view == Register then Some(Home) else None)
    case SignedIn(uid, None) => AuthEffect(user.(id := uid), Some(Register))
    case SignedOut => AuthEffect(user.(id := GuestId, isRegistered := false), None)
  }

  /** Sign-out resets the identity to the guest sentinel without navigating,
      so the guest invariant holds afterwards; every other field is kept. */
  lemma SignOutRestoresGuest(view: AppView, user: UserProfile)
    ensures var e := AuthTransition(view, user, SignedOut);
      e.user == user.(id := GuestId, isRegistered := false)
      && GuestInvariant(e.user) && e.navigate == None
  {
  }

  /** A found profile is adopted, and only the pre-authentication screens
      are redirected, to Home. A missing profile keeps the record, takes the
      identity's id and forces registration. */
  lemma SignInOutcomes(view: AppView, user: UserProfile, uid: string, profile: UserProfile)
    ensures AuthTransition(view, user, SignedIn(uid, Some(profile))).user == profile
    ensures AuthTransition(view, user, SignedIn(uid, Some(profile))).navigate.Some?
        <==> (view == Welcome || view == Register)
    ensures AuthTransition(view, user, SignedIn(uid, None)) == AuthEffect(user.(id := uid), Some(Register))
  {
  }

  /** Applies one listener effect to the store through its setters, as the
      callback does: `setUser`, then `setView` when it navigates. */
  method ApplyAuthEffect(store: AppStore, e: AuthEffect)
    modifies store, store.cache
    ensures store.State() == old(store.State()).(
      user := e.user,
      view := if e.navigate.Some? then e.navigate.value else old(store.view),
      viewParams := if e.navigate.Some? then NoParams else old(store.viewParams))
    ensures store.cache.Snapshot() == old(store.cache.Snapshot()).(user := e.user)
  {
    store.SetUser(e.user);
    if e.navigate.Some? {
      store.SetView(e.navigate.value);
    }
  }

  /** The listener as written: it is registered once, at mount, so its
      callback sees the `view` and `user` of the first render (the welcome
      screen and the initial guest) whatever the store holds when the
      event arrives. */
  method OnAuthStateChangedAsWritten(store: AppStore, ev: AuthEvent)
    modifies store, store.cache
    ensures var e := AuthTransition(Welcome, InitialUser, ev);
      store.State() == old(store.State()).(
        user := e.user,
        view := if e.navigate.Some? then e.navigate.value else old(store.view),
        viewParams := if e.navigate.Some? then NoParams else old(store.viewParams))
      && store.cache.user == e.user
  {
    ApplyAuthEffect(store, AuthTransition(Welcome, InitialUser, ev));
  }

  /** As written, a sign-in with a stored profile always navigates to Home,
      from any screen, and a sign-out replaces the whole record by the
      initial guest: the current view and user play no part. */
  lemma StaleListenerIgnoresCurrentScreen(view: AppView, user: UserProfile, uid: string, profile: UserProfile)
    ensures AuthTransition(Welcome, InitialUser, SignedIn(uid, Some(profile))).navigate == Some(Home)
    ensures AuthTransition(Welcome, InitialUser, SignedOut).user == InitialUser
    ensures AuthTransition(Bible, user, SignedIn(uid, Some(profile))).navigate == None
  {
  }

  /** The listener as evidently intended: the redirect test and the record
      it updates are the store's current ones. */
  method OnAuthStateChanged(store: AppStore, ev: AuthEvent)
    modifies store, store.cache
    ensures var e := AuthTransition(old(store.view), old(store.user), ev);
      store.State() == old(store.State()).(
        user := e.user,
        view := if e.navigate.Some? then e.navigate.value else old(store.view),
        viewParams := if e.navigate.Some? then NoParams else old(store.viewParams))
      && store.cache.user == e.user
    ensures ev.SignedIn? && ev.profile.Some? ==>
      (store.view == Home <==> old(store.view) in {Welcome, Register, Home})
    ensures ev.SignedOut? ==> (store.user.id == GuestId && GuestInvariant(store.user)
      && store.user.name == old(store.user).name && store.view == old(store.view))
  {
    ApplyAuthEffect(store, AuthTransition(store.view, store.user, ev));
  }
}
