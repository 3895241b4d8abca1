/** The top-level application: which screen is shown and which role is
    logged in (src/app/App.tsx). The two pieces of session state live in a
    `Session` object whose methods are the source's three handlers; each
    method is tied to a pure transition on `AppState`, and the properties of
    those transitions are lemmas. */
module App {
  import opened Common

  /** `type Screen`. */
  datatype Screen = Login | Admin | Files | Officers | Citizen | Alerts | Reports

  /** `type UserRole`, without its `null` (that is `Option<Role>.None`). */
  datatype Role = OfficerRole | AdminRole | CitizenRole

  /** The string literal the source uses for each screen. */
  function ScreenName(s: Screen): string
  {
    match s
    case Login => "login"
    case Admin => "admin"
    case Files => "files"
    case Officers => "officers"
    case Citizen => "citizen"
    case Alerts => "alerts"
    case Reports => "reports"
  }

  /** The screen a string names, if it names one. */
  function ParseScreen(name: string): (r: Option<Screen>)
    ensures r.Some? ==> ScreenName(r.value) == name
  {
    if name == "login" then Some(Login)
    else if name == "admin" then Some(Admin)
    else if name == "files" then Some(Files)
    else if name == "officers" then Some(Officers)
    else if name == "citizen" then Some(Citizen)
    else if name == "alerts" then Some(Alerts)
    else if name == "reports" then Some(Reports)
    else None
  }

  /** Screen names and screens correspond one to one. */
  lemma ParseScreenName(s: Screen)
    ensures ParseScreen(ScreenName(s)) == Some(s)
  {
  }

  /** The component `renderScreen` returns. */
  datatype View =
    | LoginView
    | AdminDashboardView
    | FileWorkflowView
    | OfficerWorkloadView
    | CitizenPortalView
    | AlertsView
    | ReportsView

  /** `renderScreen`: a switch over the current screen's name whose default
      is the login screen. */
  function RenderScreen(name: string): (v: View)
    ensures ParseScreen(name).None? ==> v == LoginView
  {
    match ParseScreen(name)
    case Some(Login) => LoginView
    case Some(Admin) => AdminDashboardView
    case Some(Files) => FileWorkflowView
    case Some(Officers) => OfficerWorkloadView
    case Some(Citizen) => CitizenPortalView
    case Some(Alerts) => AlertsView
    case Some(Reports) => ReportsView
    case None => LoginView
  }

  /** Every screen gets a component of its own: distinct screens render
      distinct views, and only `login` renders the login view. */
  lemma RenderScreenInjective(s: Screen, t: Screen)
    ensures RenderScreen(ScreenName(s)) == RenderScreen(ScreenName(t)) <==> s == t
    ensures RenderScreen(ScreenName(s)) == LoginView <==> s == Login
  {
  }

  /** The screen a role lands on after logging in. */
  function LandingScreen(r: Role): (s: Screen)
    ensures s != Login
  {
    match r
    case AdminRole => Admin
    case OfficerRole => Files
    case CitizenRole => Citizen
  }

  /** The pair `(currentScreen, userRole)`. */
  datatype AppState = AppState(screen: Screen, role: Option<Role>)

  const InitialState: AppState := AppState(Login, None)

  /** `handleLogin(role)`. */
  function AfterLogin(st: AppState, role: Option<Role>): (r: AppState)
    ensures r.role == role
    ensures role.Some? ==> r.screen == LandingScreen(role.value)
    ensures role.None? ==> r.screen == st.screen
  {
    AppState(if role.Some? then LandingScreen(role.value) else st.screen, role)
  }

  /** `handleLogout()`. */
  function AfterLogout(st: AppState): (r: AppState)
    ensures r == InitialState
  {
    AppState(Login, None)
  }

  /** `onNavigate={setCurrentScreen}`: no check against the role. */
  function AfterNavigate(st: AppState, s: Screen): (r: AppState)
    ensures r.screen == s && r.role == st.role
  {
    st.(screen := s)
  }

  /** Logging in with a role always leaves the login screen, and the three
      roles land on three different screens. */
  lemma LoginLeavesLoginScreen(st: AppState, r: Role, q: Role)
    ensures AfterLogin(st, Some(r)).screen != Login
    ensures AfterLogin(st, Some(r)).screen == AfterLogin(st, Some(q)).screen <==> r == q
  {
  }

  /** Logging out is idempotent and forgets whatever preceded it. */
  lemma LogoutIdempotent(st: AppState, other: AppState)
    ensures AfterLogout(AfterLogout(st)) == AfterLogout(st)
    ensures AfterLogout(st) == AfterLogout(other)
  {
  }

  /** Logging out after logging in returns to the initial state. */
  lemma LoginThenLogout(st: AppState, role: Option<Role>)
    ensures AfterLogout(AfterLogin(st, role)) == InitialState
  {
  }

  /** Any screen is reachable by navigation from any state, whatever the
      role, and navigating never changes the role. */
  lemma NavigateUnrestricted(st: AppState, s: Screen, t: Screen)
    ensures AfterNavigate(st, s).screen == s
    ensures AfterNavigate(AfterNavigate(st, s), t) == AfterNavigate(st, t)
    ensures AfterNavigate(st, s).role == st.role
  {
  }

  /** The `App` component's state. */
  class Session {
    var currentScreen: Screen
    var userRole: Option<Role>

    function State(): AppState
      reads this
    {
      AppState(currentScreen, userRole)
    }

    /** `useState<Screen>('login')`, `useState<UserRole>(null)`. */
    constructor ()
      ensures State() == InitialState
    {
      currentScreen := Login;
      userRole := None;
    }

    method HandleLogin(role: Option<Role>)
      modifies this
      ensures State() == AfterLogin(old(State()), role)
    {
      userRole := role;
      if role == Some(AdminRole) {
        currentScreen := Admin;
      } else if role == Some(OfficerRole) {
        currentScreen := Files;
      } else if role == Some(CitizenRole) {
        currentScreen := Citizen;
      }
    }

    method HandleLogout()
      modifies this
      ensures State() == AfterLogout(old(State()))
    {
      userRole := None;
      currentScreen := Login;
    }

    method Navigate(s: Screen)
      modifies this
      ensures State() == AfterNavigate(old(State()), s)
    {
      currentScreen := s;
    }

    /** What `App` renders in the current state. */
    function CurrentView(): View
      reads this
    {
      RenderScreen(ScreenName(currentScreen))
    }
  }
}
