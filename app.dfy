/**
 The top-level component: who is signed in, which screen is current, whether the
 backend answered the startup probe, and whether start-up is still running; with the
 start-up probe, login, signup and logout, and the choice of what to render.

 The connection test's success, each awaited SDK call's outcome, and nothing else,
 decide every transition. Alerts are recorded in the order they are raised.
 */
module Application {
  import opened Wrappers
  import opened Sdk

  datatype Screen = Landing | Dashboard

  const LoginAlert := "Login failed. Please check your credentials."
  const SignupAlert := "Signup failed. The email might already be in use."

  /** The component's state, with the alerts it has raised and the SDK requests it has sent. */
  datatype AppState = AppState(user: Option<User>, currentScreen: Screen, backendConnected: bool,
                               isLoading: bool, alerts: seq<string>, sent: seq<Call>)

  const Initial := AppState(None, Landing, false, true, [], [])

  /** Start-up (`initializeApp`): the `me()` probe runs only when the connection test succeeded. */
  function InitializeStep(s: AppState, connected: bool, me: Outcome<User>): AppState {
    var s1 := s.(backendConnected := connected);
    var s2 :=
      if !connected then s1
      else match me
        case Ok(u) => s1.(user := Some(u), currentScreen := Dashboard, sent := s1.sent + [Me])
        case Failed(_) => s1.(user := None, currentScreen := Landing, sent := s1.sent + [Me]);
    s2.(isLoading := false)
  }

  /** `login(email, password)`: `me()` runs only after a successful login; any failure raises the login alert. */
  function LoginStep(s: AppState, email: string, password: string, loggedIn: Outcome<()>, me: Outcome<User>): AppState {
    var s1 := s.(sent := s.sent + [Login(email, password)]);
    if loggedIn.Failed? then s1.(alerts := s1.alerts + [LoginAlert])
    else
      var s2 := s1.(sent := s1.sent + [Me]);
      match me
      case Ok(u) => s2.(user := Some(u), currentScreen := Dashboard)
      case Failed(_) => s2.(alerts := s2.alerts + [LoginAlert])
  }

  /** `signup(name, email, password)`: on success, `login` with the same credentials. */
  function SignupStep(s: AppState, name: string, email: string, password: string, signedUp: Outcome<()>,
                      loggedIn: Outcome<()>, me: Outcome<User>): AppState {
    var s1 := s.(sent := s.sent + [Signup(name, email, password)]);
    if signedUp.Failed? then s1.(alerts := s1.alerts + [SignupAlert])
    else LoginStep(s1, email, password, loggedIn, me)
  }

  /** `logout()`: the local session is cleared only once the remote logout has resolved; a
      rejection propagates out of the handler before the clearing runs. */
  function LogoutStep(s: AppState, loggedOut: Outcome<()>): AppState {
    var s1 := s.(sent := s.sent + [Logout]);
    if loggedOut.Ok? then s1.(user := None, currentScreen := Landing) else s1
  }

  /** The state every transition keeps: the dashboard screen is current only with a signed-in user. */
  predicate Consistent(s: AppState) {
    s.currentScreen == Dashboard ==> s.user.Some?
  }

  // ---- Rendering ----

  /** The connection badge in the corner: dot colour, text colour and caption. */
  datatype Indicator = Indicator(dot: string, text: string, caption: string)

  function ConnectionIndicator(connected: bool): Indicator {
    if connected then Indicator("bg-green-500", "text-gray-700", "Backend Connected")
    else Indicator("bg-red-500", "text-red-700", "Connection Failed")
  }

  datatype MainView = LandingView | DashboardView(user: User)

  datatype Rendered = LoadingApplication | Shell(indicator: Indicator, main: MainView)

  function Render(s: AppState): Rendered {
    if s.isLoading then LoadingApplication
    else
      var main := if s.currentScreen == Landing || s.user.None? then LandingView
                  else DashboardView(s.user.value);
      Shell(ConnectionIndicator(s.backendConnected), main)
  }

  // ---- Properties ----

  /** The dashboard is rendered exactly when start-up is over, the dashboard screen is current and a
      user is signed in, and then for that user; every other finished state renders the landing page. */
  lemma DashboardOnlyWhenSignedIn(s: AppState)
    ensures Render(s).Shell? <==> !s.isLoading
    ensures Render(s).Shell? ==>
      (Render(s).main.DashboardView? <==> s.currentScreen == Dashboard && s.user.Some?)
    ensures Render(s).Shell? && Render(s).main.DashboardView? ==> Render(s).main.user == s.user.value
  {
  }

  /** The badge depends only on `backendConnected`, and tells its two values apart. */
  lemma IndicatorReflectsConnection(s: AppState, t: AppState)
    requires !s.isLoading && !t.isLoading
    ensures Render(s).indicator == Render(t).indicator <==> s.backendConnected == t.backendConnected
    ensures Render(s).indicator.caption == (if s.backendConnected then "Backend Connected" else "Connection Failed")
  {
  }

  /** Start-up: a failed connection test leaves the session untouched; otherwise `me()` decides
      between the dashboard with that user and the landing page with nobody; loading ends in every branch. */
  lemma InitializeEffect(s: AppState, connected: bool, me: Outcome<User>)
    ensures var q := InitializeStep(s, connected, me);
      && !q.isLoading && q.backendConnected == connected && q.alerts == s.alerts
      && (!connected ==> q.user == s.user && q.currentScreen == s.currentScreen && q.sent == s.sent)
      && (connected && me.Ok? ==> q.user == Some(me.data) && q.currentScreen == Dashboard)
      && (connected && me.Failed? ==> q.user == None && q.currentScreen == Landing)
  {
  }

  /** Login: both calls succeed and the user is signed in on the dashboard with no alert, or
      user and screen stay as they were and exactly one login alert is raised. */
  lemma LoginEffect(s: AppState, email: string, password: string, loggedIn: Outcome<()>, me: Outcome<User>)
    ensures var q := LoginStep(s, email, password, loggedIn, me);
      && (loggedIn.Ok? && me.Ok? ==>
            q.user == Some(me.data) && q.currentScreen == Dashboard && q.alerts == s.alerts)
      && (loggedIn.Failed? || me.Failed? ==>
            q.user == s.user && q.currentScreen == s.currentScreen && q.alerts == s.alerts + [LoginAlert])
      && q.backendConnected == s.backendConnected && q.isLoading == s.isLoading
      && q.sent == s.sent + [Login(email, password)] + (if loggedIn.Ok? then [Me] else [])
  {
  }

  /** Signup: a failed signup sends no login and raises only the signup alert; a successful one
      continues exactly as `login`, so a failed login after it raises the login alert and not the
      signup alert. */
  lemma SignupEffect(s: AppState, name: string, email: string, password: string, signedUp: Outcome<()>,
                     loggedIn: Outcome<()>, me: Outcome<User>)
    ensures var q := SignupStep(s, name, email, password, signedUp, loggedIn, me);
      var s1 := s.(sent := s.sent + [Signup(name, email, password)]);
      && (signedUp.Failed? ==> q == s1.(alerts := s.alerts + [SignupAlert]))
      && (signedUp.Ok? ==> q == LoginStep(s1, email, password, loggedIn, me))
      && (signedUp.Ok? && (loggedIn.Failed? || me.Failed?) ==> q.alerts == s.alerts + [LoginAlert])
      && (signedUp.Failed? ==> forall i :: |s.sent| <= i < |q.sent| ==> !q.sent[i].Login?)
  {
  }

  /** Logout: a resolved remote logout signs out to the landing page; a rejected one leaves user and screen. */
  lemma LogoutEffect(s: AppState, loggedOut: Outcome<()>)
    ensures var q := LogoutStep(s, loggedOut);
      && (loggedOut.Ok? ==> q.user == None && q.currentScreen == Landing)
      && (loggedOut.Ok? && !s.isLoading ==> Render(q).main == LandingView)
      && (loggedOut.Failed? ==> q.user == s.user && q.currentScreen == s.currentScreen)
      && q.alerts == s.alerts && q.sent == s.sent + [Logout]
  {
  }

  /** Every transition keeps `Consistent`, so in a reachable state the dashboard shows exactly when
      the dashboard screen is current and start-up is over. */
  lemma TransitionsKeepConsistent(s: AppState, connected: bool, name: string, email: string, password: string,
                                  ok: Outcome<()>, ok2: Outcome<()>, me: Outcome<User>)
    requires Consistent(s)
    ensures Consistent(Initial)
    ensures Consistent(InitializeStep(s, connected, me))
    ensures Consistent(LoginStep(s, email, password, ok, me))
    ensures Consistent(SignupStep(s, name, email, password, ok, ok2, me))
    ensures Consistent(LogoutStep(s, ok))
    ensures !s.isLoading ==> (Render(s).main.DashboardView? <==> s.currentScreen == Dashboard)
  {
  }

  /** The component's state. */
  class App {
    var user: Option<User>
    var currentScreen: Screen
    var backendConnected: bool
    var isLoading: bool
    /** The alerts raised so far, in order. */
    var alerts: seq<string>
    /** The SDK requests sent so far, in order. */
    var sent: seq<Call>

    function State(): AppState
      reads this
    {
      AppState(user, currentScreen, backendConnected, isLoading, alerts, sent)
    }

    function View(): Rendered
      reads this
    {
      Render(State())
    }

    constructor ()
      ensures State() == Initial
    {
      user, currentScreen, backendConnected, isLoading := None, Landing, false, true;
      alerts, sent := [], [];
    }

    /** `initializeApp`, with the connection test's success and the outcome of `me()`. */
    method InitializeApp(connected: bool, me: Outcome<User>)
      modifies this
      ensures State() == InitializeStep(old(State()), connected, me)
    {
      backendConnected := connected;
      if connected {
        sent := sent + [Me];
        match me
        case Ok(currentUser) =>
          user := Some(currentUser);
          currentScreen := Dashboard;
        case Failed(_) =>
          user := None;
          currentScreen := Landing;
      }
      isLoading := false;
    }

    method Login(email: string, password: string, loggedIn: Outcome<()>, me: Outcome<User>)
      modifies this
      ensures State() == LoginStep(old(State()), email, password, loggedIn, me)
    {
      sent := sent + [Call.Login(email, password)];
      if loggedIn.Failed? {
        alerts := alerts + [LoginAlert];
        return;
      }
      sent := sent + [Me];
      match me
      case Ok(currentUser) =>
        user := Some(currentUser);
        currentScreen := Dashboard;
      case Failed(_) =>
        alerts := alerts + [LoginAlert];
    }

    method Signup(name: string, email: string, password: string, signedUp: Outcome<()>,
                  loggedIn: Outcome<()>, me: Outcome<User>)
      modifies this
      ensures State() == SignupStep(old(State()), name, email, password, signedUp, loggedIn, me)
    {
      sent := sent + [Call.Signup(name, email, password)];
      if signedUp.Failed? {
        alerts := alerts + [SignupAlert];
        return;
      }
      Login(email, password, loggedIn, me);
    }

    method Logout(loggedOut: Outcome<()>)
      modifies this
      ensures State() == LogoutStep(old(State()), loggedOut)
    {
      sent := sent + [Call.Logout];
      if loggedOut.Ok? {
        user := None;
        currentScreen := Landing;
      }
    }
  }

  /** Opening the app with no session and then logging in with working credentials (the demo
      account, say) moves the view from the landing page to that user's dashboard. */
  method LoginFromLanding(email: string, password: string, u: User) returns (before: Rendered, after: Rendered)
    ensures before == Shell(ConnectionIndicator(true), LandingView)
    ensures after == Shell(ConnectionIndicator(true), DashboardView(u))
  {
    var app := new App();
    app.InitializeApp(true, Failed("no session"));
    before := app.View();
    app.Login(email, password, Ok(()), Ok(u));
    after := app.View();
  }
}
