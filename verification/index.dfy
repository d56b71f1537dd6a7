/** The top-level navigation of the application (the `Index` page): which
    screen is shown, the role the user picked and the language they picked,
    and the handlers each screen is given to change them. */
module Index {
  import opened Common

  datatype AppState =
    | Home | RoleSelection | LanguageSelection | PatientAuth | DoctorAuth
    | PatientDashboard | DoctorDashboard

  datatype Role = Patient | Doctor

  /** The three pieces of page state. */
  datatype Nav = Nav(appState: AppState, userRole: Option<Role>, selectedLanguage: string)

  const Initial := Nav(Home, None, "en")

  /** The page's handlers, one constructor per `handle*` function. */
  datatype Event =
    | HomeLogin | HomeSignup
    | RoleSelect(role: Role)
    | LanguageSelect(language: string)
    | Login
    | BackToHome | BackToRoleSelection | BackToLanguageSelection
    | Logout

  function AuthScreenOf(r: Role): AppState {
    match r
    case Patient => PatientAuth
    case Doctor => DoctorAuth
  }

  function DashboardOf(r: Role): AppState {
    match r
    case Patient => PatientDashboard
    case Doctor => DoctorDashboard
  }

  /** What each handler does to the page state. No handler looks at the
      current screen; only the role steers language selection and login.
      Only choosing a role sets the role, only choosing a language sets the
      language, and the two resets restore both defaults. */
  function Step(n: Nav, e: Event): (r: Nav)
    ensures r.userRole != n.userRole ==> e.RoleSelect? || e == BackToHome || e == Logout
    ensures r.selectedLanguage != n.selectedLanguage ==> e.LanguageSelect? || e == BackToHome || e == Logout
    ensures e == BackToHome || e == Logout ==> r == Initial
    ensures (e == Login || e.LanguageSelect?) && n.userRole.None? ==> r.appState == n.appState
  {
    match e
    case HomeLogin => n.(appState := RoleSelection)
    case HomeSignup => n.(appState := RoleSelection)
    case RoleSelect(r) => n.(userRole := Some(r), appState := LanguageSelection)
    case LanguageSelect(lang) =>
      var n' := n.(selectedLanguage := lang);
      if n.userRole == Some(Patient) then n'.(appState := PatientAuth)
      else if n.userRole == Some(Doctor) then n'.(appState := DoctorAuth)
      else n'
    case Login =>
      if n.userRole == Some(Patient) then n.(appState := PatientDashboard)
      else if n.userRole == Some(Doctor) then n.(appState := DoctorDashboard)
      else n
    case BackToHome => Initial
    case BackToRoleSelection => n.(appState := RoleSelection)
    case BackToLanguageSelection => n.(appState := LanguageSelection)
    case Logout => Initial
  }

  /** The component the `switch` renders for each state. */
  datatype Screen =
    | HomePage | RoleSelectionPage | LanguageSelectionPage | PatientAuthPage
    | DoctorAuthPage | PatientDashboardPage | DoctorDashboardPage

  /** The handlers the rendered screen receives as callbacks: only these
      can fire while the page is in state `s`. Read per handler: logging in
      is offered only on the two sign-in pages, logging out only on the two
      dashboards, a role only on the role page and a language only on the
      language page. */
  predicate Wired(s: AppState, e: Event): (r: bool)
    ensures e == Login ==> (r <==> s == PatientAuth || s == DoctorAuth)
    ensures e == Logout ==> (r <==> s == PatientDashboard || s == DoctorDashboard)
    ensures e.RoleSelect? ==> (r <==> s == RoleSelection)
    ensures e.LanguageSelect? ==> (r <==> s == LanguageSelection)
  {
    match s
    case Home => e == HomeLogin || e == HomeSignup
    case RoleSelection => e.RoleSelect? || e == BackToHome
    case LanguageSelection => e.LanguageSelect? || e == BackToRoleSelection
    case PatientAuth => e == Login || e == BackToLanguageSelection
    case DoctorAuth => e == Login || e == BackToLanguageSelection
    case PatientDashboard => e == Logout
    case DoctorDashboard => e == Logout
  }

  /** The state after handling `es` in order. */
  function Run(n: Nav, es: seq<Event>): Nav
    decreases |es|
  {
    if es == [] then n else Run(Step(n, es[0]), es[1..])
  }

  /** Every event of `es` is a callback of the screen shown when it fires. */
  predicate WiredRun(n: Nav, es: seq<Event>)
    decreases |es|
  {
    es == [] || (Wired(n.appState, es[0]) && WiredRun(Step(n, es[0]), es[1..]))
  }

  /** How the page state hangs together on every screen that can be reached:
      the home screen carries the defaults, and every screen after the role
      screen knows the role, the auth screens and dashboards the right one. */
  predicate Consistent(n: Nav) {
    && (n.appState == Home ==> n.userRole == None && n.selectedLanguage == "en")
    && (n.appState == LanguageSelection ==> n.userRole.Some?)
    && (n.appState in {PatientAuth, PatientDashboard} ==> n.userRole == Some(Patient))
    && (n.appState in {DoctorAuth, DoctorDashboard} ==> n.userRole == Some(Doctor))
  }

  lemma StepKeepsConsistent(n: Nav, e: Event)
    requires Consistent(n) && Wired(n.appState, e)
    ensures Consistent(Step(n, e))
  {
  }

  /** Every state reachable from the initial one through wired callbacks is
      consistent. */
  lemma {:induction false} RunKeepsConsistent(n: Nav, es: seq<Event>)
    requires Consistent(n) && WiredRun(n, es)
    ensures Consistent(Run(n, es))
    decreases |es|
  {
    if es != [] {
      StepKeepsConsistent(n, es[0]);
      RunKeepsConsistent(Step(n, es[0]), es[1..]);
    }
  }

  /** On a reachable language screen the role is always known, so picking a
      language always leads to the role's auth screen: the branch that stays
      put for a missing role is never taken. */
  lemma LanguageSelectionAlwaysAdvances(es: seq<Event>, lang: string)
    requires WiredRun(Initial, es) && Run(Initial, es).appState == LanguageSelection
    ensures Run(Initial, es).userRole.Some?
    ensures Step(Run(Initial, es), LanguageSelect(lang)).appState
            == AuthScreenOf(Run(Initial, es).userRole.value)
  {
    RunKeepsConsistent(Initial, es);
  }

  /** Logging in from a reachable auth screen reaches that role's dashboard. */
  lemma LoginReachesRoleDashboard(es: seq<Event>)
    requires WiredRun(Initial, es) && Run(Initial, es).appState in {PatientAuth, DoctorAuth}
    ensures Run(Initial, es).userRole.Some?
    ensures Step(Run(Initial, es), Login).appState == DashboardOf(Run(Initial, es).userRole.value)
  {
    RunKeepsConsistent(Initial, es);
  }

  /** Choosing a role, then any language, then logging in, always ends on that
      role's dashboard, from whatever state the role screen was reached. */
  lemma RoleLanguageLoginFlow(n: Nav, r: Role, lang: string)
    ensures Run(n, [RoleSelect(r), LanguageSelect(lang), Login]).appState == DashboardOf(r)
    ensures Run(n, [RoleSelect(r), LanguageSelect(lang), Login]).userRole == Some(r)
    ensures Run(n, [RoleSelect(r), LanguageSelect(lang), Login]).selectedLanguage == lang
  {
    var es := [RoleSelect(r), LanguageSelect(lang), Login];
    var n1 := Step(n, RoleSelect(r));
    var n2 := Step(n1, LanguageSelect(lang));
    assert es[1..] == [LanguageSelect(lang), Login] && [Login][1..] == [];
    assert Run(n2, [Login]) == Step(n2, Login);
    assert Run(n, es) == Run(n1, es[1..]) == Run(n2, [Login]);
  }

  /** Two event lists that differ at most in the language picked. */
  predicate SameButLanguage(es1: seq<Event>, es2: seq<Event>) {
    && |es1| == |es2|
    && forall i :: 0 <= i < |es1| ==>
         es1[i] == es2[i] || (es1[i].LanguageSelect? && es2[i].LanguageSelect?)
  }

  /** The selected language never steers navigation: runs that differ only in
      the languages picked (and in the language held at the start) visit the
      same screens with the same role. */
  lemma {:induction false} LanguageNeverSteers(n1: Nav, n2: Nav, es1: seq<Event>, es2: seq<Event>)
    requires n1.appState == n2.appState && n1.userRole == n2.userRole
    requires SameButLanguage(es1, es2)
    ensures Run(n1, es1).appState == Run(n2, es2).appState
    ensures Run(n1, es1).userRole == Run(n2, es2).userRole
    decreases |es1|
  {
    if es1 != [] {
      var m1, m2 := Step(n1, es1[0]), Step(n2, es2[0]);
      assert m1.appState == m2.appState && m1.userRole == m2.userRole;
      assert SameButLanguage(es1[1..], es2[1..]) by {
        forall i | 0 <= i < |es1[1..]|
          ensures es1[1..][i] == es2[1..][i]
                  || (es1[1..][i].LanguageSelect? && es2[1..][i].LanguageSelect?)
        {
          assert es1[1..][i] == es1[i + 1] && es2[1..][i] == es2[i + 1];
        }
      }
      LanguageNeverSteers(m1, m2, es1[1..], es2[1..]);
    }
  }

  /** The page component: three state hooks and the handlers passed down. */
  class Index {
    var appState: AppState
    var userRole: Option<Role>
    var selectedLanguage: string

    function Model(): Nav
      reads this
    {
      Nav(appState, userRole, selectedLanguage)
    }

    constructor ()
      ensures appState == Home && userRole == None && selectedLanguage == "en"
      ensures Model() == Initial
    {
      appState, userRole, selectedLanguage := Home, None, "en";
    }

    /** The component the page renders now: one page per state, and a
        different page for each state. */
    function Rendered(): (s: Screen)
      reads this
      ensures appState == Home <==> s == HomePage
      ensures appState == RoleSelection <==> s == RoleSelectionPage
      ensures appState == LanguageSelection <==> s == LanguageSelectionPage
      ensures appState == PatientAuth <==> s == PatientAuthPage
      ensures appState == DoctorAuth <==> s == DoctorAuthPage
      ensures appState == PatientDashboard <==> s == PatientDashboardPage
      ensures appState == DoctorDashboard <==> s == DoctorDashboardPage
    {
      match appState
      case Home => HomePage
      case RoleSelection => RoleSelectionPage
      case LanguageSelection => LanguageSelectionPage
      case PatientAuth => PatientAuthPage
      case DoctorAuth => DoctorAuthPage
      case PatientDashboard => PatientDashboardPage
      case DoctorDashboard => DoctorDashboardPage
    }

    method HandleHomeLogin()
      modifies this
      ensures appState == RoleSelection
      ensures userRole == old(userRole) && selectedLanguage == old(selectedLanguage)
      ensures Model() == Step(old(Model()), HomeLogin)
    {
      appState := RoleSelection;
    }

    method HandleHomeSignup()
      modifies this
      ensures appState == RoleSelection
      ensures userRole == old(userRole) && selectedLanguage == old(selectedLanguage)
      ensures Model() == Step(old(Model()), HomeSignup)
    {
      appState := RoleSelection;
    }

    method HandleRoleSelect(role: Role)
      modifies this
      ensures userRole == Some(role) && appState == LanguageSelection
      ensures selectedLanguage == old(selectedLanguage)
      ensures Model() == Step(old(Model()), RoleSelect(role))
    {
      userRole := Some(role);
      appState := LanguageSelection;
    }

    method HandleLanguageSelect(language: string)
      modifies this
      ensures selectedLanguage == language && userRole == old(userRole)
      ensures old(userRole).Some? ==> appState == AuthScreenOf(old(userRole).value)
      ensures old(userRole).None? ==> appState == old(appState)
      ensures Model() == Step(old(Model()), LanguageSelect(language))
    {
      selectedLanguage := language;
      if userRole == Some(Patient) {
        appState := PatientAuth;
      } else if userRole == Some(Doctor) {
        appState := DoctorAuth;
      }
    }

    method HandleLogin()
      modifies this
      ensures old(userRole).Some? ==> appState == DashboardOf(old(userRole).value)
      ensures old(userRole).None? ==> appState == old(appState)
      ensures userRole == old(userRole) && selectedLanguage == old(selectedLanguage)
      ensures Model() == Step(old(Model()), Login)
    {
      if userRole == Some(Patient) {
        appState := PatientDashboard;
      } else if userRole == Some(Doctor) {
        appState := DoctorDashboard;
      }
    }

    method HandleBackToHome()
      modifies this
      ensures Model() == Initial
      ensures Model() == Step(old(Model()), BackToHome)
    {
      appState := Home;
      userRole := None;
      selectedLanguage := "en";
    }

    method HandleBackToRoleSelection()
      modifies this
      ensures appState == RoleSelection
      ensures userRole == old(userRole) && selectedLanguage == old(selectedLanguage)
      ensures Model() == Step(old(Model()), BackToRoleSelection)
    {
      appState := RoleSelection;
    }

    method HandleBackToLanguageSelection()
      modifies this
      ensures appState == LanguageSelection
      ensures userRole == old(userRole) && selectedLanguage == old(selectedLanguage)
      ensures Model() == Step(old(Model()), BackToLanguageSelection)
    {
      appState := LanguageSelection;
    }

    method HandleLogout()
      modifies this
      ensures Model() == Initial
      ensures Model() == Step(old(Model()), Logout)
    {
      appState := Home;
      userRole := None;
      selectedLanguage := "en";
    }
  }
}
