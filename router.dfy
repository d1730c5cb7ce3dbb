/** The view router and session gate (App.tsx): four screens, a flag that
    records a successful admin login, hash-change handling that keeps an
    unauthenticated user off the dashboard, and the rule that decides what
    the main area renders. */
module Router {
  import opened Types
  import LoginGate

  /** The name of a view as it appears in the URL hash. */
  function ViewName(v: AppView): string
  {
    match v
    case Intro => "intro"
    case Form => "form"
    case AdminLogin => "admin-login"
    case AdminDashboard => "admin-dashboard"
  }

  /** The view a hash string names, if it is one of the four names. */
  function ParseView(s: string): (r: Option<AppView>)
    ensures r.Some? ==> ViewName(r.value) == s
  {
    if s == "intro" then Some(Intro)
    else if s == "form" then Some(Form)
    else if s == "admin-login" then Some(AdminLogin)
    else if s == "admin-dashboard" then Some(AdminDashboard)
    else None
  }

  /** Every view's name parses back to that view. */
  lemma ParseViewName(v: AppView)
    ensures ParseView(ViewName(v)) == Some(v)
    ensures '#' !in ViewName(v)
  {
  }

  /** `hash.replace('#', '')`: removes the first '#', wherever it is, and
      only that one. */
  function StripFirstHash(s: string): (r: string)
    decreases |s|
  {
    if s == [] then []
    else if s[0] == '#' then s[1..]
    else [s[0]] + StripFirstHash(s[1..])
  }

  /** The position of the first '#', or the length when there is none. */
  function FirstHash(s: string): (i: nat)
    ensures i <= |s| && '#' !in s[..i]
    ensures i < |s| ==> s[i] == '#'
    decreases |s|
  {
    if s == [] then 0
    else if s[0] == '#' then 0
    else
      var j := FirstHash(s[1..]);
      assert s[..j + 1] == [s[0]] + s[1..][..j];
      j + 1
  }

  /** StripFirstHash cuts out exactly the first '#', and keeps a string
      without one. */
  lemma {:induction false} StripFirstHashSpec(s: string)
    ensures FirstHash(s) == |s| ==> StripFirstHash(s) == s
    ensures FirstHash(s) < |s| ==> StripFirstHash(s) == s[..FirstHash(s)] + s[FirstHash(s) + 1..]
    decreases |s|
  {
    if s != [] && s[0] != '#' {
      StripFirstHashSpec(s[1..]);
      var j := FirstHash(s[1..]);
      assert s == [s[0]] + s[1..];
      if j < |s[1..]| {
        assert s[..j + 1] == [s[0]] + s[1..][..j];
        assert s[j + 2..] == s[1..][j + 1..];
      }
    }
  }

  /** Everything the router keeps: the current view, the admin flag and the
      last hash the application itself assigned. */
  datatype AppState = AppState(view: AppView, authenticated: bool, hash: string)

  /** handleHashChange: strip the first '#'; a name outside the four views
      is ignored; the dashboard's name while not authenticated leads to the
      login view; any other view name becomes the view. */
  function OnHashChange(s: AppState, rawHash: string): (r: AppState)
    ensures r.authenticated == s.authenticated && r.hash == s.hash
    ensures ParseView(StripFirstHash(rawHash)).None? ==> r == s
    ensures ParseView(StripFirstHash(rawHash)) == Some(AdminDashboard) && !s.authenticated ==>
              r.view == AdminLogin
    ensures forall v ::
              (ParseView(StripFirstHash(rawHash)) == Some(v) && (v != AdminDashboard || s.authenticated))
              ==> r.view == v
  {
    match ParseView(StripFirstHash(rawHash))
    case None => s
    case Some(v) =>
      if v == AdminDashboard && !s.authenticated then s.(view := AdminLogin)
      else s.(view := v)
  }

  /** navigateTo: the hash and the view are set to the same view. */
  function OnNavigate(s: AppState, v: AppView): (r: AppState)
    ensures r.view == v && r.hash == ViewName(v)
    ensures r.authenticated == s.authenticated
  {
    s.(view := v, hash := ViewName(v))
  }

  /** handleAdminLogin: a successful login sets the flag and goes to the
      dashboard; a failed one changes nothing. */
  function OnAdminLogin(s: AppState, success: bool): (r: AppState)
    ensures success ==> r.authenticated && r.view == AdminDashboard && r.hash == ViewName(AdminDashboard)
    ensures !success ==> r == s
  {
    if success then OnNavigate(s.(authenticated := true), AdminDashboard) else s
  }

  /** Where the "Admin Panel" button leads. */
  function AdminPanelTarget(authenticated: bool): (v: AppView)
    ensures v == AdminDashboard <==> authenticated
    ensures !authenticated ==> v == AdminLogin
  {
    if authenticated then AdminDashboard else AdminLogin
  }

  /** What the main area shows. */
  datatype Screen = IntroScreen | FormScreen | LoginScreen | DashboardScreen

  /** The rendering rule: each view shows its own screen, except that the
      dashboard view shows the login form to an unauthenticated user. */
  function Rendered(view: AppView, authenticated: bool): (r: Screen)
    ensures r == DashboardScreen <==> view == AdminDashboard && authenticated
    ensures r == LoginScreen <==> view == AdminLogin || (view == AdminDashboard && !authenticated)
    ensures r == IntroScreen <==> view == Intro
    ensures r == FormScreen <==> view == Form
  {
    match view
    case Intro => IntroScreen
    case Form => FormScreen
    case AdminLogin => LoginScreen
    case AdminDashboard => if authenticated then DashboardScreen else LoginScreen
  }

  /** The things that can happen to the router: a hash change, or one of the
      application's own navigation calls. */
  datatype UiEvent =
    | HashChange(rawHash: string)   // the user edits the URL or uses back/forward
    | LogoClick                     // header logo: to the intro
    | SubmitFormClick               // header "Submit Form" button
    | AdminPanelClick               // header "Admin Panel" button
    | GetStarted                    // intro's call to action
    | GoToAdmin                     // "Access Admin Dashboard" after a submission
    | LoginResult(success: bool)    // the login form's callback

  function Step(s: AppState, e: UiEvent): AppState
  {
    match e
    case HashChange(raw) => OnHashChange(s, raw)
    case LogoClick => OnNavigate(s, Intro)
    case SubmitFormClick => OnNavigate(s, Form)
    case AdminPanelClick => OnNavigate(s, AdminPanelTarget(s.authenticated))
    case GetStarted => OnNavigate(s, Form)
    case GoToAdmin => OnNavigate(s, AdminLogin)
    case LoginResult(success) => OnAdminLogin(s, success)
  }

  function Run(s: AppState, es: seq<UiEvent>): AppState
    decreases |es|
  {
    if es == [] then s else Run(Step(s, es[0]), es[1..])
  }

  /** The state the page starts in, whatever hash the URL carries. */
  function Initial(hash: string): (s: AppState)
    ensures s.view == Intro && !s.authenticated
  {
    AppState(Intro, false, hash)
  }

  /** The view is the dashboard only when the admin flag is set. */
  predicate DashboardGuarded(s: AppState)
  {
    s.view == AdminDashboard ==> s.authenticated
  }

  /** Once set, the admin flag stays set, whatever happens next. */
  lemma {:induction false} AuthenticatedStaysSet(s: AppState, es: seq<UiEvent>)
    requires s.authenticated
    ensures Run(s, es).authenticated
    decreases |es|
  {
    if es != [] {
      AuthenticatedStaysSet(Step(s, es[0]), es[1..]);
    }
  }

  /** Every event keeps an unauthenticated user off the dashboard view. */
  lemma StepKeepsDashboardGuarded(s: AppState, e: UiEvent)
    requires DashboardGuarded(s)
    ensures DashboardGuarded(Step(s, e))
  {
  }

  /** From the start page, no sequence of events reaches the dashboard view
      without a successful login, so the renderer's fallback to the login
      form never has to act. */
  lemma {:induction false} RunKeepsDashboardGuarded(s: AppState, es: seq<UiEvent>)
    requires DashboardGuarded(s)
    ensures DashboardGuarded(Run(s, es))
    ensures Rendered(Run(s, es).view, Run(s, es).authenticated) == DashboardScreen <==>
              Run(s, es).view == AdminDashboard
    decreases |es|
  {
    if es != [] {
      StepKeepsDashboardGuarded(s, es[0]);
      RunKeepsDashboardGuarded(Step(s, es[0]), es[1..]);
    }
  }

  /** The hash change that follows the application's own hash assignment
      leaves the view where navigation put it, except that the dashboard
      still needs the admin flag. */
  lemma NavigateThenEcho(s: AppState, v: AppView)
    ensures var n := OnNavigate(s, v);
      OnHashChange(n, "#" + ViewName(v)).view ==
        (if v == AdminDashboard && !s.authenticated then AdminLogin else v)
  {
    assert StripFirstHash("#" + ViewName(v)) == ViewName(v);
    ParseViewName(v);
  }

  /** The application shell. */
  class App {
    var currentView: AppView
    var isAdminAuthenticated: bool
    /** The hash the application last assigned to the location. */
    var locationHash: string

    function State(): AppState
      reads this
    {
      AppState(currentView, isAdminAuthenticated, locationHash)
    }

    constructor (initialHash: string)
      ensures State() == Initial(initialHash)
    {
      currentView := Intro;
      isAdminAuthenticated := false;
      locationHash := initialHash;
    }

    method HandleHashChange(rawHash: string)
      modifies this
      ensures State() == OnHashChange(old(State()), rawHash)
    {
      var hash := StripFirstHash(rawHash);
      var parsed := ParseView(hash);
      if parsed.Some? {
        if parsed.value == AdminDashboard && !isAdminAuthenticated {
          currentView := AdminLogin;
        } else {
          currentView := parsed.value;
        }
      }
    }

    method NavigateTo(v: AppView)
      modifies this
      ensures State() == OnNavigate(old(State()), v)
    {
      locationHash := ViewName(v);
      currentView := v;
    }

    method HandleAdminLogin(success: bool)
      modifies this
      ensures State() == OnAdminLogin(old(State()), success)
    {
      if success {
        isAdminAuthenticated := true;
        NavigateTo(AdminDashboard);
      }
    }

    /** The header buttons and the screens' own navigation callbacks. */
    method Dispatch(e: UiEvent)
      modifies this
      ensures State() == Step(old(State()), e)
    {
      match e
      case HashChange(raw) => HandleHashChange(raw);
      case LogoClick => NavigateTo(Intro);
      case SubmitFormClick => NavigateTo(Form);
      case AdminPanelClick => NavigateTo(if isAdminAuthenticated then AdminDashboard else AdminLogin);
      case GetStarted => NavigateTo(Form);
      case GoToAdmin => NavigateTo(AdminLogin);
      case LoginResult(success) => HandleAdminLogin(success);
    }

    /** The login form rendered for this shell is submitted: its handler
        runs, and its callback, when it calls back, reaches HandleAdminLogin. */
    method SubmitAdminLogin(form: LoginGate.AdminLogin)
      modifies this, form
      ensures old(form.password) == LoginGate.ADMIN_PASSWORD ==>
                State() == OnAdminLogin(old(State()), true) && form.State() == old(form.State())
      ensures old(form.password) == LoginGate.ADMIN_PASSWORD ==>
                isAdminAuthenticated && currentView == AdminDashboard && locationHash == ViewName(AdminDashboard)
      ensures old(form.password) != LoginGate.ADMIN_PASSWORD ==>
                State() == old(State()) && form.password == "" && form.error == LoginGate.INVALID_CREDENTIALS
    {
      var called := form.HandleLogin();
      if called.Some? {
        HandleAdminLogin(called.value);
      }
    }
  }
}
