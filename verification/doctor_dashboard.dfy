/** The doctor's dashboard: a nested navigator (current view, active tab and
    the appointment a call or note is about), its voice-command router, the
    video-call chain, and the error boundary wrapped around it. */
module DoctorDashboard {
  import opened Common
  import opened Text

  datatype DoctorView =
    | Dashboard | Appointments | PreCall | InCall | EndCall | Notes
    | Reports | Patients | Pharmacy

  /** The dashboard's three state hooks. */
  datatype Dash = Dash(currentView: DoctorView, activeTab: Tab, selectedAppointmentId: string)

  const Initial := Dash(Dashboard, HomeTab, "")

  /** `setActiveViewToProfile`: the profile tab, shown inside the dashboard
      view, so that the profile screen is what is drawn. */
  function ToProfile(d: Dash): (r: Dash)
    ensures Render(r) == ProfileScreen
    ensures r.selectedAppointmentId == d.selectedAppointmentId
  {
    d.(activeTab := ProfileTab, currentView := Dashboard)
  }

  /** The destinations of the voice router. */
  datatype VoiceTarget =
    | GoAppointments | GoNotes | GoProfile | GoHome | GoPharmacy | GoReports | GoPatients

  /** The `if`/`else if` chain of keyword tests in `handleVoiceNavigation`,
      applied to the lower-cased command: the branch it takes, if any. */
  function VoiceTargetOf(cmd: string): Option<VoiceTarget> {
    if Contains(cmd, "appointment") then Some(GoAppointments)
    else if Contains(cmd, "notes") then Some(GoNotes)
    else if Contains(cmd, "profile") then Some(GoProfile)
    else if Contains(cmd, "home") then Some(GoHome)
    else if Contains(cmd, "pharmacy") || Contains(cmd, "medicine") then Some(GoPharmacy)
    else if Contains(cmd, "report") then Some(GoReports)
    else if Contains(cmd, "patient") then Some(GoPatients)
    else None
  }

  /** What each branch does to the dashboard state: no branch touches the
      selected appointment or enters the call screens. */
  function GoTo(d: Dash, t: VoiceTarget): (r: Dash)
    ensures r.selectedAppointmentId == d.selectedAppointmentId
    ensures r.currentView !in {PreCall, InCall, EndCall}
  {
    match t
    case GoAppointments => d.(currentView := Appointments, activeTab := AppointmentsTab)
    case GoNotes => d.(currentView := Notes)
    case GoProfile => ToProfile(d)
    case GoHome => d.(currentView := Dashboard, activeTab := HomeTab)
    case GoPharmacy => d.(currentView := Pharmacy)
    case GoReports => d.(currentView := Reports, activeTab := ReportsTab)
    case GoPatients => d.(currentView := Patients, activeTab := AppointmentsTab)
  }

  /** `handleVoiceNavigation`: a command with no keyword changes nothing;
      no command changes the appointment a call or note is about, and no
      command opens a call screen. */
  function VoiceNavigation(d: Dash, command: string): (r: Dash)
    ensures VoiceTargetOf(Lower(command)).None? ==> r == d
    ensures r.selectedAppointmentId == d.selectedAppointmentId
    ensures r != d ==> r.currentView !in {PreCall, InCall, EndCall}
  {
    match VoiceTargetOf(Lower(command))
    case None => d
    case Some(t) => GoTo(d, t)
  }

  /** The router as a table: the first row whose keywords occur wins. */
  const VoiceRules: seq<Rule<VoiceTarget>> := [
    Rule(["appointment"], GoAppointments),
    Rule(["notes"], GoNotes),
    Rule(["profile"], GoProfile),
    Rule(["home"], GoHome),
    Rule(["pharmacy", "medicine"], GoPharmacy),
    Rule(["report"], GoReports),
    Rule(["patient"], GoPatients)
  ]

  /** The keyword chain is exactly the first-match router over `VoiceRules`:
      earlier keywords take precedence over later ones, and a command that
      mentions no keyword selects nothing. */
  lemma VoiceTargetIsFirstMatch(cmd: string)
    ensures VoiceTargetOf(cmd) == FirstMatch(VoiceRules, cmd)
  {
    var r := VoiceRules;
    MentionsOne(cmd, "appointment");
    MentionsOne(cmd, "notes");
    MentionsOne(cmd, "profile");
    MentionsOne(cmd, "home");
    MentionsTwo(cmd, "pharmacy", "medicine");
    MentionsOne(cmd, "report");
    MentionsOne(cmd, "patient");
    assert r[0].keywords == ["appointment"] && r[1].keywords == ["notes"];
    assert r[2].keywords == ["profile"] && r[3].keywords == ["home"];
    assert r[4].keywords == ["pharmacy", "medicine"];
    assert r[5].keywords == ["report"] && r[6].keywords == ["patient"];
    if Contains(cmd, "appointment") {
      FirstMatchIsEarliest(r, cmd, 0);
    } else if Contains(cmd, "notes") {
      FirstMatchIsEarliest(r, cmd, 1);
    } else if Contains(cmd, "profile") {
      FirstMatchIsEarliest(r, cmd, 2);
    } else if Contains(cmd, "home") {
      FirstMatchIsEarliest(r, cmd, 3);
    } else if Contains(cmd, "pharmacy") || Contains(cmd, "medicine") {
      FirstMatchIsEarliest(r, cmd, 4);
    } else if Contains(cmd, "report") {
      FirstMatchIsEarliest(r, cmd, 5);
    } else if Contains(cmd, "patient") {
      FirstMatchIsEarliest(r, cmd, 6);
    }
  }

  /** The spoken command "go to appointments" opens appointment management
      from any state. */
  lemma GoToAppointmentsOpensAppointments(d: Dash, command: string)
    requires command == "go to appointments"
    ensures VoiceNavigation(d, command).currentView == Appointments
    ensures VoiceNavigation(d, command).activeTab == AppointmentsTab
  {
    LowerOfLowercase(command);
    assert command[6..6 + |"appointment"|] == "appointment";
    ContainsAt(command, "appointment", 6);
  }

  /** The dashboard's handlers. `SetView` is a card or the "Manage All"
      button; `SetTab` is the bottom navigation bar. */
  datatype Event =
    | Voice(command: string)
    | SetView(view: DoctorView)
    | SetTab(tab: Tab)
    | JoinCall(appointmentId: string)
    | AddNotes(appointmentId: string)
    | BackToDashboard
    | JoinCallFromPreCall
    | HangUp
    | EndCallToNotes

  /** The tab changes only by voice, by the navigation bar or by going back
      to the dashboard; the selected appointment only by joining a call or
      opening notes. */
  function Step(d: Dash, e: Event): (r: Dash)
    ensures r.activeTab != d.activeTab ==> e.Voice? || e.SetTab? || e == BackToDashboard
    ensures r.selectedAppointmentId != d.selectedAppointmentId ==> e.JoinCall? || e.AddNotes?
  {
    match e
    case Voice(c) => VoiceNavigation(d, c)
    case SetView(v) => d.(currentView := v)
    case SetTab(t) => d.(activeTab := t)
    case JoinCall(id) => d.(selectedAppointmentId := id, currentView := PreCall)
    case AddNotes(id) => d.(selectedAppointmentId := id, currentView := Notes)
    case BackToDashboard => d.(currentView := Dashboard, activeTab := HomeTab)
    case JoinCallFromPreCall => d.(currentView := InCall)
    case HangUp => d.(currentView := EndCall)
    case EndCallToNotes => d.(currentView := Notes)
  }

  /** The screen the dashboard renders. */
  datatype DoctorScreen =
    | AppointmentManagementScreen | PreCallScreen | InCallScreen | EndCallScreen
    | PatientNotesScreen | ReportsListScreen | PatientsListScreen | MedicineListScreen
    | ProfileScreen | HomeScreen

  /** The rendering chain: any view other than `Dashboard` is shown in
      preference to the tabs, and the profile tab only inside `Dashboard`. */
  function Render(d: Dash): (s: DoctorScreen)
    ensures s == ProfileScreen <==> d.currentView == Dashboard && d.activeTab == ProfileTab
    ensures s == HomeScreen <==> d.currentView == Dashboard && d.activeTab != ProfileTab
  {
    match d.currentView
    case Appointments => AppointmentManagementScreen
    case PreCall => PreCallScreen
    case InCall => InCallScreen
    case EndCall => EndCallScreen
    case Notes => PatientNotesScreen
    case Reports => ReportsListScreen
    case Patients => PatientsListScreen
    case Pharmacy => MedicineListScreen
    case Dashboard => if d.activeTab == ProfileTab then ProfileScreen else HomeScreen
  }

  /** The handlers the rendered screen is given. Read per handler: hanging
      up only on the call, joining only before it, the notes of a finished
      call only after it, and voice only on the dashboard view. */
  predicate Wired(d: Dash, e: Event): (r: bool)
    ensures e == HangUp ==> (r <==> d.currentView == InCall)
    ensures e == JoinCallFromPreCall ==> (r <==> d.currentView == PreCall)
    ensures e == EndCallToNotes ==> (r <==> d.currentView == EndCall)
    ensures e.Voice? ==> (r <==> d.currentView == Dashboard)
  {
    match Render(d)
    case AppointmentManagementScreen => e == BackToDashboard || e.JoinCall? || e.AddNotes?
    case PreCallScreen => e == BackToDashboard || e == JoinCallFromPreCall
    case InCallScreen => e == HangUp
    case EndCallScreen => e == BackToDashboard || e == EndCallToNotes
    case PatientNotesScreen => e == BackToDashboard
    case ReportsListScreen => e == BackToDashboard
    case PatientsListScreen => e == BackToDashboard
    case MedicineListScreen => e == BackToDashboard
    case ProfileScreen => e.Voice? || e.SetTab?
    case HomeScreen =>
      || e.Voice? || e.SetTab?
      || (d.activeTab == HomeTab && e.SetView? && e.view in {Appointments, Patients, Reports, Pharmacy})
      || (d.activeTab == AppointmentsTab && e == SetView(Appointments))
  }

  /** The logout button exists only on the profile screen. */
  predicate LogoutOffered(d: Dash) {
    Render(d) == ProfileScreen
  }

  /** One step of the call chain: `in-call` is entered only from `pre-call`
      by joining, left only by ending the call, `end-call` is entered only
      from `in-call`, and it leads only to the notes or to the dashboard. */
  lemma CallChainStep(d: Dash, e: Event)
    requires Wired(d, e)
    ensures Step(d, e).currentView == InCall && d.currentView != InCall
            ==> d.currentView == PreCall && e == JoinCallFromPreCall
    ensures d.currentView == InCall ==> e == HangUp && Step(d, e).currentView == EndCall
    ensures Step(d, e).currentView == EndCall ==> d.currentView == InCall
    ensures d.currentView == EndCall ==> Step(d, e).currentView in {Notes, Dashboard}
  {
  }

  /** The states a run of handlers passes through, the first being `d`. */
  function Trace(d: Dash, es: seq<Event>): (t: seq<Dash>)
    ensures |t| == |es| + 1 && t[0] == d
    decreases |es|
  {
    if es == [] then [d] else [d] + Trace(Step(d, es[0]), es[1..])
  }

  predicate WiredRun(d: Dash, es: seq<Event>)
    decreases |es|
  {
    es == [] || (Wired(d, es[0]) && WiredRun(Step(d, es[0]), es[1..]))
  }

  /** Along any run of wired handlers, every `end-call` state directly follows
      an `in-call` state and every `in-call` state directly follows a
      `pre-call` or `in-call` state: the end of a call is never reached
      without passing through the call. */
  lemma {:induction false} CallChainAlongRun(d: Dash, es: seq<Event>)
    requires WiredRun(d, es)
    ensures forall i :: 0 <= i < |es| && Trace(d, es)[i + 1].currentView == EndCall
              ==> Trace(d, es)[i].currentView == InCall
    ensures forall i :: 0 <= i < |es| && Trace(d, es)[i + 1].currentView == InCall
              ==> Trace(d, es)[i].currentView in {PreCall, InCall}
    decreases |es|
  {
    if es != [] {
      var t := Trace(d, es);
      var rest := Trace(Step(d, es[0]), es[1..]);
      assert t == [d] + rest;
      CallChainStep(d, es[0]);
      CallChainAlongRun(Step(d, es[0]), es[1..]);
      forall i | 0 <= i < |es| && t[i + 1].currentView == EndCall
        ensures t[i].currentView == InCall
      {
        if i > 0 {
          assert t[i + 1] == rest[i] && t[i] == rest[i - 1];
        }
      }
      forall i | 0 <= i < |es| && t[i + 1].currentView == InCall
        ensures t[i].currentView in {PreCall, InCall}
      {
        if i > 0 {
          assert t[i + 1] == rest[i] && t[i] == rest[i - 1];
        }
      }
    }
  }

  /** Only joining a call and adding notes change the selected appointment,
      and both store exactly the id they are given. */
  lemma AppointmentIdChanges(d: Dash, e: Event)
    ensures Step(d, e).selectedAppointmentId != d.selectedAppointmentId
            ==> e.JoinCall? || e.AddNotes?
    ensures e.JoinCall? ==> Step(d, e) == d.(selectedAppointmentId := e.appointmentId, currentView := PreCall)
    ensures e.AddNotes? ==> Step(d, e) == d.(selectedAppointmentId := e.appointmentId, currentView := Notes)
  {
  }

  /** `ErrorBoundary`: shows an error box instead of the dashboard once a
      render error has been caught, until "Try again" is pressed. */
  class ErrorBoundary {
    var hasError: bool
    var error: Option<string>
    var info: Option<string>

    constructor ()
      ensures !hasError && error == None && info == None
    {
      hasError, error, info := false, None, None;
    }

    /** `getDerivedStateFromError`: merged into the state on a render error. */
    method GetDerivedStateFromError(message: string)
      modifies this
      ensures hasError && error == Some(message) && info == old(info)
    {
      hasError, error := true, Some(message);
    }

    /** `componentDidCatch`: records the error and the component stack. */
    method ComponentDidCatch(message: string, componentStack: string)
      modifies this
      ensures error == Some(message) && info == Some(componentStack)
      ensures hasError == old(hasError)
    {
      error, info := Some(message), Some(componentStack);
    }

    /** The "Try again" button. */
    method TryAgain()
      modifies this
      ensures !hasError && error == None && info == None
    {
      hasError, error, info := false, None, None;
    }

    /** The error box replaces the children exactly while `hasError` holds. */
    function ShowsErrorBox(): bool
      reads this
    {
      hasError
    }
  }

  /** The dashboard component. */
  class DoctorDashboard {
    var activeTab: Tab
    var currentView: DoctorView
    var selectedAppointmentId: string

    function Model(): Dash
      reads this
    {
      Dash(currentView, activeTab, selectedAppointmentId)
    }

    constructor ()
      ensures currentView == Dashboard && activeTab == HomeTab && selectedAppointmentId == ""
      ensures Model() == Initial
    {
      activeTab, currentView, selectedAppointmentId := HomeTab, Dashboard, "";
    }

    method HandleVoiceNavigation(command: string)
      modifies this
      ensures selectedAppointmentId == old(selectedAppointmentId)
      ensures Model() == VoiceNavigation(old(Model()), command)
      ensures Model() == Step(old(Model()), Voice(command))
    {
      var cmd := Lower(command);
      if Contains(cmd, "appointment") {
        currentView := Appointments;
        activeTab := AppointmentsTab;
      } else if Contains(cmd, "notes") {
        currentView := Notes;
      } else if Contains(cmd, "profile") {
        SetActiveViewToProfile();
      } else if Contains(cmd, "home") {
        currentView := Dashboard;
        activeTab := HomeTab;
      } else if Contains(cmd, "pharmacy") || Contains(cmd, "medicine") {
        currentView := Pharmacy;
      } else if Contains(cmd, "report") {
        currentView := Reports;
        activeTab := ReportsTab;
      } else if Contains(cmd, "patient") {
        currentView := Patients;
        activeTab := AppointmentsTab;
      }
    }

    method SetActiveViewToProfile()
      modifies this
      ensures activeTab == ProfileTab && currentView == Dashboard
      ensures selectedAppointmentId == old(selectedAppointmentId)
    {
      activeTab := ProfileTab;
      currentView := Dashboard;
    }

    /** A dashboard card or the "Manage All" button. */
    method SetCurrentView(v: DoctorView)
      modifies this
      ensures currentView == v && activeTab == old(activeTab)
      ensures selectedAppointmentId == old(selectedAppointmentId)
      ensures Model() == Step(old(Model()), SetView(v))
    {
      currentView := v;
    }

    /** The bottom navigation bar. */
    method SetActiveTab(t: Tab)
      modifies this
      ensures activeTab == t && currentView == old(currentView)
      ensures selectedAppointmentId == old(selectedAppointmentId)
      ensures Model() == Step(old(Model()), SetTab(t))
    {
      activeTab := t;
    }

    method HandleJoinCall(appointmentId: string)
      modifies this
      ensures selectedAppointmentId == appointmentId && currentView == PreCall
      ensures activeTab == old(activeTab)
      ensures Model() == Step(old(Model()), JoinCall(appointmentId))
    {
      selectedAppointmentId := appointmentId;
      currentView := PreCall;
    }

    method HandleAddNotes(appointmentId: string)
      modifies this
      ensures selectedAppointmentId == appointmentId && currentView == Notes
      ensures activeTab == old(activeTab)
      ensures Model() == Step(old(Model()), AddNotes(appointmentId))
    {
      selectedAppointmentId := appointmentId;
      currentView := Notes;
    }

    method HandleBackToDashboard()
      modifies this
      ensures currentView == Dashboard && activeTab == HomeTab
      ensures selectedAppointmentId == old(selectedAppointmentId)
      ensures Model() == Step(old(Model()), BackToDashboard)
    {
      currentView := Dashboard;
      activeTab := HomeTab;
    }

    method HandleJoinCallFromPreCall()
      modifies this
      ensures currentView == InCall
      ensures activeTab == old(activeTab) && selectedAppointmentId == old(selectedAppointmentId)
      ensures Model() == Step(old(Model()), JoinCallFromPreCall)
    {
      currentView := InCall;
    }

    method HandleEndCall()
      modifies this
      ensures currentView == EndCall
      ensures activeTab == old(activeTab) && selectedAppointmentId == old(selectedAppointmentId)
      ensures Model() == Step(old(Model()), HangUp)
    {
      currentView := EndCall;
    }

    method HandleEndCallToNotes()
      modifies this
      ensures currentView == Notes
      ensures activeTab == old(activeTab) && selectedAppointmentId == old(selectedAppointmentId)
      ensures Model() == Step(old(Model()), EndCallToNotes)
    {
      currentView := Notes;
    }
  }
}
