/** The shell's view/session state machine as pure transitions
    `(state, event) -> (state, backend calls)`, the render dispatch that picks
    one screen per state, and the properties the handlers promise. */
module Machine {
  import opened Types
  import opened Text

  /** The state slots of the application root. */
  datatype AppState = AppState(
    view: ViewState,
    user: Option<UserProfile>,
    email: string,
    password: string,
    isRegister: bool,
    authError: string,
    hostname: string)

  /** The state after a handler, and the backend requests it issued, in order. */
  datatype Transition = Transition(next: AppState, calls: seq<Call>)

  /** The state before the mount effect has run. */
  function Initial(): AppState {
    AppState(LOADING, None, "", "", false, "", "")
  }

  /** The sentinel profile of the offline demo mode. */
  const DemoUser: UserProfile := UserProfile("demo-user", "Demo User", "demo@example.com")

  /** The profile kept for a resolved session: its id, name and email. */
  function ProfileOf(session: Session): UserProfile {
    UserProfile(session.id, session.name, session.email)
  }

  /** checkSession: ask the backend for the current session. */
  function CheckSession(s: AppState, get: Outcome<Session>, host: string): Transition {
    match get
    case Ok(session) =>
      Transition(s.(user := Some(ProfileOf(session)), view := DASHBOARD), [GetAccount])
    case Err(message) =>
      Transition(s.(authError := SessionErrorText(message, host, s.authError), view := LOGIN), [GetAccount])
  }

  /** The mount effect: record the browser's host, then check the session. */
  function Mount(s: AppState, host: string, get: Outcome<Session>): Transition {
    CheckSession(s.(hostname := host), get, host)
  }

  /** handleAuth: clear the banner, then register (create the account, then
      open a session) or log in (open a session); on success re-run the
      session check, on the first failure show its classified message. */
  function HandleAuth(s: AppState, uniqueId: string, create: Outcome<()>, login: Outcome<()>,
                      get: Outcome<Session>, host: string): Transition
  {
    var cleared := s.(authError := "");
    var createCall := CreateAccount(uniqueId, s.email, s.password, DisplayName(s.email));
    var loginCall := CreateSession(s.email, s.password);
    if s.isRegister && create.Err? then
      Transition(cleared.(authError := AuthErrorText(create.message, host)), [createCall])
    else
      var issued := if s.isRegister then [createCall, loginCall] else [loginCall];
      if login.Err? then
        Transition(cleared.(authError := AuthErrorText(login.message, host)), issued)
      else
        var t := CheckSession(cleared, get, host);
        Transition(t.next, issued + t.calls)
  }

  /** handleDemoLogin: sign in as the local demo user without the backend. */
  function HandleDemoLogin(s: AppState): Transition {
    Transition(s.(user := Some(DemoUser), view := DASHBOARD, authError := ""), [])
  }

  /** Whether logout skips the remote session deletion (`user?.$id === 'demo-user'`). */
  predicate IsDemoUser(user: Option<UserProfile>) {
    user.Some? && user.value.id == DemoUser.id
  }

  /** handleLogout: delete the current remote session unless the user is the
      demo user; whatever the deletion answers, sign out locally. */
  function HandleLogout(s: AppState, delete: Outcome<()>): Transition {
    var calls := if IsDemoUser(s.user) then [] else [DeleteSession("current")];
    match delete
    case Ok(_) => Transition(s.(user := None, view := LOGIN), calls)
    case Err(_) => Transition(s.(user := None, view := LOGIN), calls)
  }

  /** The register/login toggle under the form. */
  function ToggleMode(s: AppState): Transition {
    Transition(s.(isRegister := !s.isRegister, authError := ""), [])
  }

  /** The sidebar's `onChangeView`: `setView` itself. */
  function ChangeView(s: AppState, target: ViewState): Transition {
    Transition(s.(view := target), [])
  }

  /** The email input's `onChange`: `setEmail` with the typed value. */
  function SetEmail(s: AppState, value: string): Transition {
    Transition(s.(email := value), [])
  }

  /** The password input's `onChange`: `setPassword` with the typed value. */
  function SetPassword(s: AppState, value: string): Transition {
    Transition(s.(password := value), [])
  }

  /** The three cards of the dashboard home. */
  datatype Card = NotesCard | AccountsCard | StorageCard

  function CardTarget(c: Card): ViewState {
    match c
    case NotesCard => NOTES
    case AccountsCard => ACCOUNTS
    case StorageCard => STORAGE
  }

  function OpenCard(s: AppState, c: Card): Transition {
    ChangeView(s, CardTarget(c))
  }

  /** What is inside the main area of the shell. */
  datatype Content = Home(greeting: string) | NotesPanel | AccountsPanel | StoragePanel

  /** The one screen rendered for a state; the login screen shows the banner
      and the demo button exactly when there is a banner text. */
  datatype Screen =
    | LoginScreen(registering: bool, banner: Option<string>, demoButton: bool, hostname: string)
    | LoadingScreen
    | AppShell(current: ViewState, userName: string, content: Content)

  /** `user?.name || 'User'`, the name passed to the sidebar. */
  function SidebarName(user: Option<UserProfile>): (r: string)
    ensures r != ""
    ensures user.Some? && user.value.name != "" ==> r == user.value.name
  {
    if user.Some? && user.value.name != "" then user.value.name else "User"
  }

  /** `user?.name`, the name in the dashboard greeting (nothing without a user). */
  function GreetingName(user: Option<UserProfile>): string {
    if user.Some? then user.value.name else ""
  }

  /** The App component's render: LOGIN, else LOADING, else the shell with
      the content selected by the view. */
  function Render(s: AppState): Screen {
    if s.view == LOGIN then
      LoginScreen(s.isRegister, if s.authError != "" then Some(s.authError) else None,
                  s.authError != "", s.hostname)
    else if s.view == LOADING then
      LoadingScreen
    else
      AppShell(s.view, SidebarName(s.user),
        match s.view
        case DASHBOARD => Home(GreetingName(s.user))
        case NOTES => NotesPanel
        case ACCOUNTS => AccountsPanel
        case STORAGE => StoragePanel)
  }

  /** The view a screen stands for. */
  function ScreenView(sc: Screen): ViewState {
    match sc
    case LoginScreen(_, _, _, _) => LOGIN
    case LoadingScreen => LOADING
    case AppShell(v, _, _) => v
  }

  /** Every user or backend event the shell reacts to. */
  datatype Event =
    | MountApp(host: string, get: Outcome<Session>)
    | Submit(uniqueId: string, create: Outcome<()>, login: Outcome<()>, get: Outcome<Session>, host: string)
    | EditEmail(email: string)
    | EditPassword(password: string)
    | Toggle
    | DemoLogin
    | Logout(delete: Outcome<()>)
    | Navigate(target: ViewState)
    | Open(card: Card)

  /** Each control's handler: the form's `onSubmit`, the inputs' `onChange`,
      the toggle, the demo button, the sidebar's `onLogout` and
      `onChangeView`, and the cards' `onClick`. */
  function Step(s: AppState, e: Event): Transition {
    match e
    case MountApp(host, get) => Mount(s, host, get)
    case Submit(id, create, login, get, host) => HandleAuth(s, id, create, login, get, host)
    case EditEmail(v) => SetEmail(s, v)
    case EditPassword(v) => SetPassword(s, v)
    case Toggle => ToggleMode(s)
    case DemoLogin => HandleDemoLogin(s)
    case Logout(delete) => HandleLogout(s, delete)
    case Navigate(v) => ChangeView(s, v)
    case Open(c) => OpenCard(s, c)
  }

  /** Whether the rendered screen offers the control that raises `e`: the
      form and its buttons on the login screen (submission only past the
      `required` and `minLength` guards, the demo button only with a banner),
      the sidebar in the shell, the cards on the dashboard home. */
  predicate Enabled(s: AppState, e: Event) {
    var sc := Render(s);
    match e
    case MountApp(_, _) => sc.LoadingScreen?
    case Submit(_, _, _, _, _) => sc.LoginScreen? && CanSubmit(s.email, s.password)
    case EditEmail(_) => sc.LoginScreen?
    case EditPassword(_) => sc.LoginScreen?
    case Toggle => sc.LoginScreen?
    case DemoLogin => sc.LoginScreen? && sc.demoButton
    case Logout(_) => sc.AppShell?
    case Navigate(_) => sc.AppShell?
    case Open(_) => sc.AppShell? && sc.content.Home?
  }

  /** A run of events, each enabled in the state the previous ones reached. */
  predicate Admissible(s: AppState, events: seq<Event>)
    decreases |events|
  {
    events == [] || (Enabled(s, events[0]) && Admissible(Step(s, events[0]).next, events[1..]))
  }

  function Run(s: AppState, events: seq<Event>): Transition
    decreases |events|
  {
    if events == [] then Transition(s, [])
    else
      var t := Step(s, events[0]);
      var u := Run(t.next, events[1..]);
      Transition(u.next, t.calls + u.calls)
  }

  /** The shell (sidebar, greeting, feature screens) is only shown with a user. */
  predicate Inv(s: AppState) {
    IsShellView(s.view) ==> s.user.Some?
  }

  // ---------------------------------------------------------------------
  // Initial state and session check

  lemma InitialState()
    ensures Initial().view == LOADING && Initial().user == None
    ensures !Initial().isRegister && Initial().authError == ""
    ensures Render(Initial()) == LoadingScreen && Inv(Initial())
  {
  }

  lemma CheckSessionSucceeds(s: AppState, session: Session, host: string)
    ensures var t := CheckSession(s, Ok(session), host);
      && t.next.view == DASHBOARD
      && t.next.user == Some(UserProfile(session.id, session.name, session.email))
      && t.next.authError == s.authError
      && t.calls == [GetAccount]
  {
  }

  /** On failure the view is LOGIN and the user untouched; the banner changes
      only on a network failure, and then names the host. */
  lemma CheckSessionFails(s: AppState, message: string, host: string)
    ensures var t := CheckSession(s, Err(message), host);
      && t.next.view == LOGIN
      && t.next.user == s.user
      && (message == FailedToFetch ==> t.next.authError == ConnectionMessage(host))
      && (message == FailedToFetch ==> Contains(t.next.authError, host))
      && (message != FailedToFetch ==> t.next.authError == s.authError)
      && t.calls == [GetAccount]
  {
  }

  /** The loading screen is left for LOGIN or DASHBOARD once the session check answers. */
  lemma MountLeavesLoading(s: AppState, host: string, get: Outcome<Session>)
    ensures var t := Mount(s, host, get);
      && (t.next.view == LOGIN || t.next.view == DASHBOARD)
      && t.next.hostname == host
      && t.calls == [GetAccount]
  {
  }

  /** Only the mount's session check leaves the loading screen: it offers no
      other control. */
  lemma OnlyMountLeavesLoading(s: AppState, e: Event)
    requires s.view == LOADING && Enabled(s, e)
    ensures e.MountApp?
    ensures Step(s, e).next.view == LOGIN || Step(s, e).next.view == DASHBOARD
  {
  }

  /** From the initial state the first event is the mount, so the session
      check ends before LOGIN or DASHBOARD is first shown. */
  lemma FirstEventIsMount(events: seq<Event>)
    requires events != [] && Admissible(Initial(), events)
    ensures events[0].MountApp?
    ensures var v := Step(Initial(), events[0]).next.view; v == LOGIN || v == DASHBOARD
  {
  }

  // ---------------------------------------------------------------------
  // Login and registration

  /** The first failed answer of a submission, if any. */
  function AuthFailure(s: AppState, create: Outcome<()>, login: Outcome<()>): Option<string> {
    if s.isRegister && create.Err? then Some(create.message)
    else if login.Err? then Some(login.message)
    else None
  }

  /** A failed submission keeps the view and the user and shows the
      classified message, which is never empty, so the demo button appears. */
  lemma HandleAuthFails(s: AppState, uniqueId: string, create: Outcome<()>,
                                           login: Outcome<()>, get: Outcome<Session>, host: string)
    requires AuthFailure(s, create, login).Some?
    ensures var t := HandleAuth(s, uniqueId, create, login, get, host);
      var message := AuthFailure(s, create, login).value;
      && t.next.view == s.view
      && t.next.user == s.user
      && t.next.authError == AuthErrorText(message, host)
      && (message == FailedToFetch ==> t.next.authError == ConnectionMessage(host))
      && (message == FailedToFetch ==> Contains(t.next.authError, host))
      && (message != FailedToFetch && message != "" ==> t.next.authError == message)
      && (message == "" ==> t.next.authError == GenericAuthFailure)
      && (s.view == LOGIN ==> Render(t.next).demoButton)
      && GetAccount !in t.calls
  {
  }

  /** A successful submission ends in whatever the session check produces
      from the state with the banner cleared. */
  lemma HandleAuthSucceeds(s: AppState, uniqueId: string, create: Outcome<()>,
                           login: Outcome<()>, get: Outcome<Session>, host: string)
    requires AuthFailure(s, create, login).None?
    ensures HandleAuth(s, uniqueId, create, login, get, host).next
         == CheckSession(s.(authError := ""), get, host).next
  {
  }

  /** The banner is cleared before any backend call: the outcome does not
      depend on the banner shown before the submission. */
  lemma HandleAuthIgnoresStaleBanner(s: AppState, stale: string, uniqueId: string, create: Outcome<()>,
                                     login: Outcome<()>, get: Outcome<Session>, host: string)
    ensures HandleAuth(s, uniqueId, create, login, get, host)
         == HandleAuth(s.(authError := stale), uniqueId, create, login, get, host)
  {
  }

  /** The requests a submission issues: registering creates the account
      (named after the email's local part) first, and opens a session only
      once the account exists; logging in opens a session directly. */
  lemma HandleAuthCalls(s: AppState, uniqueId: string, create: Outcome<()>,
                        login: Outcome<()>, get: Outcome<Session>, host: string)
    ensures var calls := HandleAuth(s, uniqueId, create, login, get, host).calls;
      var createCall := CreateAccount(uniqueId, s.email, s.password, DisplayName(s.email));
      var loginCall := CreateSession(s.email, s.password);
      && (s.isRegister && create.Err? ==> calls == [createCall])
      && (s.isRegister && create.Ok? && login.Err? ==> calls == [createCall, loginCall])
      && (s.isRegister && create.Ok? && login.Ok? ==> calls == [createCall, loginCall, GetAccount])
      && (!s.isRegister && login.Err? ==> calls == [loginCall])
      && (!s.isRegister && login.Ok? ==> calls == [loginCall, GetAccount])
  {
  }

  /** Registering and then logging in reaches the same end state as logging in. */
  lemma RegisterConvergesWithLogin(s: AppState, uniqueId: string, get: Outcome<Session>, host: string)
    requires s.isRegister
    ensures var reg := HandleAuth(s, uniqueId, Ok(()), Ok(()), get, host);
      var log := HandleAuth(s.(isRegister := false), uniqueId, Ok(()), Ok(()), get, host);
      && reg.next == log.next.(isRegister := true)
      && reg.calls == [CreateAccount(uniqueId, s.email, s.password, DisplayName(s.email))] + log.calls
  {
  }

  /** The display name sent with a registration is the email's local part. */
  lemma RegisterSendsLocalPart(s: AppState, uniqueId: string, create: Outcome<()>,
                               login: Outcome<()>, get: Outcome<Session>, host: string)
    requires s.isRegister
    ensures var calls := HandleAuth(s, uniqueId, create, login, get, host).calls;
      && calls[0].CreateAccount?
      && calls[0].name <= s.email && '@' !in calls[0].name
      && ('@' in s.email ==> s.email[|calls[0].name|] == '@')
      && ('@' !in s.email ==> calls[0].name == s.email)
  {
    DisplayNameIsLocalPart(s.email);
  }

  /** No submission without a non-empty email and an 8-character password. */
  lemma SubmitGuard(s: AppState, e: Event)
    requires e.Submit?
    ensures Enabled(s, e) <==> s.view == LOGIN && s.email != "" && |s.password| >= 8
  {
  }

  // ---------------------------------------------------------------------
  // Demo mode, logout, toggle and navigation

  /** The demo button exists only while a banner is shown. */
  lemma DemoLoginNeedsBanner(s: AppState)
    ensures Enabled(s, DemoLogin) <==> s.view == LOGIN && s.authError != ""
  {
  }

  lemma DemoLoginEffect(s: AppState)
    ensures var t := HandleDemoLogin(s);
      && t.next.user == Some(UserProfile("demo-user", "Demo User", "demo@example.com"))
      && t.next.view == DASHBOARD && t.next.authError == ""
      && t.calls == []
  {
  }

  /** Logout always signs out locally, whatever the deletion answers, and
      skips the remote deletion exactly for the demo user (a missing user
      still attempts it). */
  lemma LogoutEffect(s: AppState, delete: Outcome<()>)
    ensures var t := HandleLogout(s, delete);
      && t.next.user == None && t.next.view == LOGIN
      && t.next == HandleLogout(s, Ok(())).next
      && (t.calls == [] <==> s.user.Some? && s.user.value.id == "demo-user")
      && (t.calls != [] ==> t.calls == [DeleteSession("current")])
  {
  }

  lemma ToggleEffect(s: AppState)
    ensures var t := ToggleMode(s);
      && t.next.isRegister == !s.isRegister && t.next.authError == ""
      && t.next.view == s.view && t.next.user == s.user
      && t.calls == []
  {
  }

  lemma CardsTargets(s: AppState)
    ensures OpenCard(s, NotesCard).next.view == NOTES
    ensures OpenCard(s, AccountsCard).next.view == ACCOUNTS
    ensures OpenCard(s, StorageCard).next.view == STORAGE
    ensures forall c :: OpenCard(s, c).next == s.(view := CardTarget(c)) && OpenCard(s, c).calls == []
  {
  }

  lemma ChangeViewOverwrites(s: AppState, target: ViewState)
    ensures ChangeView(s, target).next == s.(view := target)
    ensures ChangeView(s, target).calls == []
  {
  }

  // ---------------------------------------------------------------------
  // Render dispatch

  /** Exactly one screen per view: the screen stands for the state's view. */
  lemma RenderSelectsView(s: AppState)
    ensures ScreenView(Render(s)) == s.view
    ensures Render(s).LoginScreen? <==> s.view == LOGIN
    ensures Render(s).LoadingScreen? <==> s.view == LOADING
    ensures Render(s).AppShell? <==> IsShellView(s.view)
    ensures Render(s).AppShell? ==>
      (Render(s).content.Home? <==> s.view == DASHBOARD)
      && (Render(s).content == NotesPanel <==> s.view == NOTES)
      && (Render(s).content == AccountsPanel <==> s.view == ACCOUNTS)
      && (Render(s).content == StoragePanel <==> s.view == STORAGE)
    ensures Render(s).LoginScreen? ==> (Render(s).demoButton <==> s.authError != "")
  {
  }

  lemma RenderDistinguishesViews(s: AppState, u: AppState)
    requires s.view != u.view
    ensures Render(s) != Render(u)
  {
    RenderSelectsView(s);
    RenderSelectsView(u);
  }

  // ---------------------------------------------------------------------
  // Reachable states

  lemma StepPreservesInv(s: AppState, e: Event)
    requires Inv(s) && Enabled(s, e)
    ensures Inv(Step(s, e).next)
  {
  }

  /** Every state reached by enabled events from a state with the invariant
      (the initial one, say) keeps it. */
  lemma {:induction false} RunPreservesInv(s: AppState, events: seq<Event>)
    requires Inv(s) && Admissible(s, events)
    ensures Inv(Run(s, events).next)
    decreases |events|
  {
    if events != [] {
      StepPreservesInv(s, events[0]);
      RunPreservesInv(Step(s, events[0]).next, events[1..]);
    }
  }

  /** The events whose handlers never reach the backend. */
  ghost predicate Offline(e: Event) {
    !e.MountApp? && !e.Submit? && !e.Logout?
  }

  /** A run of such events (typing, the toggle, demo mode, navigation)
      issues no backend request. */
  lemma {:induction false} OfflineRunsIssueNoCalls(s: AppState, events: seq<Event>)
    requires forall i :: 0 <= i < |events| ==> Offline(events[i])
    ensures Run(s, events).calls == []
    decreases |events|
  {
    if events != [] {
      assert Offline(events[0]);
      OfflineRunsIssueNoCalls(Step(s, events[0]).next, events[1..]);
    }
  }
}
