/** The patient's dashboard: a nested navigator over thirteen views, its
    voice-command router, the video-call chain, the report and pharmacy
    flows, and the cart the pharmacy flow fills. */
module PatientDashboard {
  import opened Common
  import opened Text
  import MedicineList
  import Cart

  type Medicine = MedicineList.Medicine
  type CartItem = Cart.CartItem

  datatype PatientView =
    | DashboardView | BookAppointmentView | AppointmentListView
    | PreCallView | InCallView | EndCallView
    | ScanDocumentView | ReportsListView | ReportDetailView
    | MedicineListView | MedicineDetailView | CartView | OrderConfirmationView

  /** The dashboard's eight state hooks; `orderTotal` is in cents. */
  datatype PatientState = PatientState(
    activeTab: Tab,
    currentView: PatientView,
    selectedAppointmentId: string,
    selectedReportId: string,
    selectedMedicine: Option<Medicine>,
    cartItems: seq<CartItem>,
    orderId: string,
    orderTotal: int)

  const Initial := PatientState(HomeTab, DashboardView, "", "", None, [], "", 0)

  /** The branches of the voice router. */
  datatype VoiceTarget = GoAppointments | GoReports | GoPharmacy | GoCart | GoProfile | GoHome

  /** The `if`/`else if` chain of `handleVoiceNavigation` on the lower-cased
      command: the branch it takes, if any. */
  function VoiceTargetOf(cmd: string): Option<VoiceTarget> {
    if Contains(cmd, "appointment") then Some(GoAppointments)
    else if Contains(cmd, "report") then Some(GoReports)
    else if Contains(cmd, "medicine") || Contains(cmd, "pharmacy") then Some(GoPharmacy)
    else if Contains(cmd, "cart") then Some(GoCart)
    else if Contains(cmd, "profile") then Some(GoProfile)
    else if Contains(cmd, "home") then Some(GoHome)
    else None
  }

  /** What each branch does; the appointment branch books when the command
      also says "book". Only the view and the tab change, and the view, if
      it changes, becomes a list, a form, the cart or the dashboard. */
  function GoTo(s: PatientState, t: VoiceTarget, cmd: string): (r: PatientState)
    ensures r.(currentView := s.currentView, activeTab := s.activeTab) == s
    ensures r.currentView == s.currentView
            || r.currentView in {BookAppointmentView, AppointmentListView, ReportsListView,
                                 MedicineListView, CartView, DashboardView}
  {
    match t
    case GoAppointments =>
      if Contains(cmd, "book") then s.(currentView := BookAppointmentView)
      else s.(currentView := AppointmentListView)
    case GoReports => s.(currentView := ReportsListView)
    case GoPharmacy => s.(currentView := MedicineListView)
    case GoCart => s.(currentView := CartView)
    case GoProfile => s.(activeTab := ProfileTab)
    case GoHome => s.(currentView := DashboardView, activeTab := HomeTab)
  }

  /** `handleVoiceNavigation`: voice touches only the view and the tab,
      "profile" touches only the tab, and a command with no keyword touches
      nothing; no command opens a call, a detail view or the confirmation. */
  function VoiceNavigation(s: PatientState, command: string): (r: PatientState)
    ensures r.(currentView := s.currentView, activeTab := s.activeTab) == s
    ensures VoiceTargetOf(Lower(command)) == Some(GoProfile) ==> r == s.(activeTab := ProfileTab)
    ensures VoiceTargetOf(Lower(command)) == None ==> r == s
    ensures r.currentView != s.currentView
            ==> r.currentView !in {PreCallView, InCallView, EndCallView, ReportDetailView,
                                   MedicineDetailView, OrderConfirmationView}
  {
    var cmd := Lower(command);
    match VoiceTargetOf(cmd)
    case None => s
    case Some(t) => GoTo(s, t, cmd)
  }

  /** The router as a table, first match wins. */
  const VoiceRules: seq<Rule<VoiceTarget>> := [
    Rule(["appointment"], GoAppointments),
    Rule(["report"], GoReports),
    Rule(["medicine", "pharmacy"], GoPharmacy),
    Rule(["cart"], GoCart),
    Rule(["profile"], GoProfile),
    Rule(["home"], GoHome)
  ]

  /** The keyword chain is the first-match router over `VoiceRules`: the
      appointment keyword beats report, medicine or pharmacy, cart, profile
      and home, in that order, and no keyword selects nothing. */
  lemma VoiceTargetIsFirstMatch(cmd: string)
    ensures VoiceTargetOf(cmd) == FirstMatch(VoiceRules, cmd)
  {
    var r := VoiceRules;
    MentionsOne(cmd, "appointment");
    MentionsOne(cmd, "report");
    MentionsTwo(cmd, "medicine", "pharmacy");
    MentionsOne(cmd, "cart");
    MentionsOne(cmd, "profile");
    MentionsOne(cmd, "home");
    assert r[0].keywords == ["appointment"] && r[1].keywords == ["report"];
    assert r[2].keywords == ["medicine", "pharmacy"] && r[3].keywords == ["cart"];
    assert r[4].keywords == ["profile"] && r[5].keywords == ["home"];
    if Contains(cmd, "appointment") {
      FirstMatchIsEarliest(r, cmd, 0);
    } else if Contains(cmd, "report") {
      FirstMatchIsEarliest(r, cmd, 1);
    } else if Contains(cmd, "medicine") || Contains(cmd, "pharmacy") {
      FirstMatchIsEarliest(r, cmd, 2);
    } else if Contains(cmd, "cart") {
      FirstMatchIsEarliest(r, cmd, 3);
    } else if Contains(cmd, "profile") {
      FirstMatchIsEarliest(r, cmd, 4);
    } else if Contains(cmd, "home") {
      FirstMatchIsEarliest(r, cmd, 5);
    }
  }

  /** "book an appointment" opens the booking form, from any state. */
  lemma BookAnAppointmentOpensBooking(s: PatientState, command: string)
    requires command == "book an appointment"
    ensures VoiceNavigation(s, command).currentView == BookAppointmentView
  {
    LowerOfLowercase(command);
    assert command[8..8 + |"appointment"|] == "appointment";
    ContainsAt(command, "appointment", 8);
    assert command[0..|"book"|] == "book";
    ContainsAt(command, "book", 0);
  }

  /** "go to appointments" opens the appointment list, not the booking
      form, from any state. */
  lemma GoToAppointmentsOpensAppointments(s: PatientState, command: string)
    requires command == "go to appointments"
    ensures VoiceNavigation(s, command).currentView == AppointmentListView
    ensures VoiceNavigation(s, command).activeTab == s.activeTab
  {
    LowerOfLowercase(command);
    assert command[6..6 + |"appointment"|] == "appointment";
    ContainsAt(command, "appointment", 6);
    assert forall j | 0 <= j < |command| :: command[j] != 'b';
    NotContainsWithoutFirst(command, "book");
  }

  /** The cart line built from a medicine and a quantity: it carries the
      medicine's id, and the cart prices it at the medicine's price per unit. */
  function LineFor(m: Medicine, quantity: int): (r: CartItem)
    ensures r.id == m.id && r.quantity == quantity
    ensures Cart.Subtotal([r]) == m.price * quantity
  {
    Cart.CartItem(m.id, m.name, m.price, quantity, m.prescription)
  }

  /** The dashboard's handlers and the callbacks it hands to its screens.
      `SetView` is a card or a button on the home screen, `SetTab` the bottom
      navigation bar; `stamp` is the clock reading in the order id. */
  datatype Event =
    | Voice(command: string)
    | SetView(view: PatientView)
    | SetTab(tab: Tab)
    | JoinCall(appointmentId: string)
    | BackToDashboard
    | JoinCallFromPreCall
    | HangUp
    | ScanComplete
    | ScanNew
    | ViewReport(reportId: string)
    | ReportBack
    | SelectMedicine(medicine: Medicine)
    | OpenCart
    | MedicineBack
    | AddToCart(item: Medicine, quantity: int)
    | CartBack
    | Checkout(total: int, stamp: string)

  /** Only adding and checking out change the cart, only checking out
      changes the order, and only selecting a medicine changes the selected
      medicine. */
  function Step(s: PatientState, e: Event): (r: PatientState)
    ensures r.cartItems != s.cartItems ==> e.AddToCart? || e.Checkout?
    ensures r.orderId != s.orderId || r.orderTotal != s.orderTotal ==> e.Checkout?
    ensures r.selectedMedicine != s.selectedMedicine ==> e.SelectMedicine?
    ensures r.selectedAppointmentId != s.selectedAppointmentId ==> e.JoinCall?
  {
    match e
    case Voice(c) => VoiceNavigation(s, c)
    case SetView(v) => s.(currentView := v)
    case SetTab(t) => s.(activeTab := t)
    case JoinCall(id) => s.(selectedAppointmentId := id, currentView := PreCallView)
    case BackToDashboard => s.(currentView := DashboardView, activeTab := HomeTab)
    case JoinCallFromPreCall => s.(currentView := InCallView)
    case HangUp => s.(currentView := EndCallView)
    case ScanComplete => s.(currentView := ReportsListView)
    case ScanNew => s.(currentView := ScanDocumentView)
    case ViewReport(id) => s.(selectedReportId := id, currentView := ReportDetailView)
    case ReportBack => s.(currentView := ReportsListView)
    case SelectMedicine(m) => s.(selectedMedicine := Some(m), currentView := MedicineDetailView)
    case OpenCart => s.(currentView := CartView)
    case MedicineBack => s.(currentView := MedicineListView)
    case AddToCart(m, q) => s.(cartItems := s.cartItems + [LineFor(m, q)], currentView := MedicineListView)
    case CartBack => s.(currentView := MedicineListView)
    case Checkout(total, stamp) =>
      s.(orderId := "ORD-" + stamp, orderTotal := total, cartItems := [], currentView := OrderConfirmationView)
  }

  datatype PatientScreen =
    | BookAppointmentScreen | AppointmentListScreen | PreCallScreen | InCallScreen
    | EndCallScreen | ScanDocumentScreen | ReportsListScreen | ReportDetailScreen
    | MedicineListScreen | MedicineDetailScreen | CartScreen | OrderConfirmationScreen
    | ProfileScreen | HomeScreen

  /** The rendering chain: each non-dashboard view wins over the tabs, except
      the medicine detail view with no medicine selected, which falls through
      to the tabs. */
  function Render(s: PatientState): (r: PatientScreen)
    ensures r == ProfileScreen <==>
              && s.activeTab == ProfileTab
              && (s.currentView == DashboardView || (s.currentView == MedicineDetailView && s.selectedMedicine.None?))
    ensures r == MedicineDetailScreen <==> s.currentView == MedicineDetailView && s.selectedMedicine.Some?
  {
    match s.currentView
    case BookAppointmentView => BookAppointmentScreen
    case AppointmentListView => AppointmentListScreen
    case PreCallView => PreCallScreen
    case InCallView => InCallScreen
    case EndCallView => EndCallScreen
    case ScanDocumentView => ScanDocumentScreen
    case ReportsListView => ReportsListScreen
    case ReportDetailView => ReportDetailScreen
    case MedicineListView => MedicineListScreen
    case MedicineDetailView =>
      if s.selectedMedicine.Some? then MedicineDetailScreen else TabScreen(s)
    case CartView => CartScreen
    case OrderConfirmationView => OrderConfirmationScreen
    case DashboardView => TabScreen(s)
  }

  function TabScreen(s: PatientState): PatientScreen {
    if s.activeTab == ProfileTab then ProfileScreen else HomeScreen
  }

  /** The views the home screen's cards and buttons open, per tab. */
  predicate HomeButtonOpens(t: Tab, v: PatientView) {
    || (t == HomeTab && v in {AppointmentListView, ReportsListView, MedicineListView, PreCallView,
                              BookAppointmentView, ScanDocumentView})
    || (t == AppointmentsTab && v == BookAppointmentView)
    || (t == ReportsTab && v in {ScanDocumentView, ReportsListView})
  }

  /** The callbacks the rendered screen is given. The detail screen adds its
      own medicine, when it is in stock, with a quantity between 1 and 10.
      Read per callback: hanging up only on the call, joining only before
      it, checking out only in the cart, and adding only the detail screen's
      own medicine. */
  predicate Wired(s: PatientState, e: Event): (r: bool)
    ensures e == HangUp ==> (r <==> s.currentView == InCallView)
    ensures e == JoinCallFromPreCall ==> (r <==> s.currentView == PreCallView)
    ensures e.Checkout? ==> (r <==> s.currentView == CartView)
    ensures e.AddToCart? ==> (r <==> s.currentView == MedicineDetailView && s.selectedMedicine == Some(e.item)
                                     && e.item.inStock && 1 <= e.quantity <= 10)
  {
    match Render(s)
    case BookAppointmentScreen => e == BackToDashboard
    case AppointmentListScreen => e == BackToDashboard || e.JoinCall?
    case PreCallScreen => e == BackToDashboard || e == JoinCallFromPreCall
    case InCallScreen => e == HangUp
    case EndCallScreen => e == BackToDashboard
    case ScanDocumentScreen => e == ScanComplete || e == BackToDashboard
    case ReportsListScreen => e == BackToDashboard || e == ScanNew || e.ViewReport?
    case ReportDetailScreen => e == ReportBack
    case MedicineListScreen => e == BackToDashboard || e.SelectMedicine? || e == OpenCart
    case MedicineDetailScreen =>
      || e == MedicineBack
      || (e.AddToCart? && Some(e.item) == s.selectedMedicine && e.item.inStock && 1 <= e.quantity <= 10)
    case CartScreen => e == CartBack || e.Checkout?
    case OrderConfirmationScreen => e == BackToDashboard
    case ProfileScreen => e.Voice? || e.SetTab?
    case HomeScreen => e.Voice? || e.SetTab? || (e.SetView? && HomeButtonOpens(s.activeTab, e.view))
  }

  /** The logout button exists only on the profile screen. */
  predicate LogoutOffered(s: PatientState) {
    Render(s) == ProfileScreen
  }

  /** The number on the pharmacy's cart badge: cart lines, not units. */
  function CartCount(s: PatientState): nat {
    |s.cartItems|
  }

  /** Adding to the cart appends exactly one line copied from the medicine,
      leaves the earlier lines as they were (duplicate ids included), raises
      the badge by one whatever the quantity, and returns to the catalogue. */
  lemma AddToCartAppendsOneLine(s: PatientState, m: Medicine, q: int)
    ensures var t := Step(s, AddToCart(m, q));
            && t.cartItems[..|s.cartItems|] == s.cartItems
            && t.cartItems[|s.cartItems|] == Cart.CartItem(m.id, m.name, m.price, q, m.prescription)
            && CartCount(t) == CartCount(s) + 1
            && t.currentView == MedicineListView
            && t.(cartItems := s.cartItems, currentView := s.currentView) == s
  {
    var t := Step(s, AddToCart(m, q));
    assert t.cartItems[..|s.cartItems|] == s.cartItems;
  }

  /** Checkout records the total it is handed and the order id, empties the
      cart, and shows the confirmation. */
  lemma CheckoutEmptiesCart(s: PatientState, total: int, stamp: string)
    ensures var t := Step(s, Checkout(total, stamp));
            && t.cartItems == [] && CartCount(t) == 0
            && t.orderTotal == total && t.orderId == "ORD-" + stamp
            && t.currentView == OrderConfirmationView
            && t.activeTab == s.activeTab && t.selectedMedicine == s.selectedMedicine
  {
  }

  /** The Video Calls card opens the pre-call screen with whatever
      appointment id was stored before, while joining from the appointment
      list stores the id it is given. */
  lemma VideoCardKeepsAppointmentId(s: PatientState, id: string)
    ensures Step(s, SetView(PreCallView)).currentView == Step(s, JoinCall(id)).currentView == PreCallView
    ensures Step(s, SetView(PreCallView)).selectedAppointmentId == s.selectedAppointmentId
    ensures Step(s, JoinCall(id)).selectedAppointmentId == id
  {
  }

  /** Where each screen's callbacks lead: the report detail returns to the
      report list, the medicine detail and the cart to the catalogue (the
      cart also to the confirmation), a finished scan to the report list, and
      the end of a call only to the dashboard, since the patient's end-call
      screen is given no notes callback. */
  lemma ScreenExits(s: PatientState, e: Event)
    requires Wired(s, e)
    ensures Render(s) == ReportDetailScreen ==> Step(s, e).currentView == ReportsListView
    ensures Render(s) == MedicineDetailScreen ==> Step(s, e).currentView == MedicineListView
    ensures Render(s) == CartScreen ==> Step(s, e).currentView in {MedicineListView, OrderConfirmationView}
    ensures Render(s) == ScanDocumentScreen ==> Step(s, e).currentView in {ReportsListView, DashboardView}
    ensures Render(s) == EndCallScreen ==> Step(s, e).currentView == DashboardView
    ensures Render(s) == InCallScreen ==> Step(s, e).currentView == EndCallView
  {
  }

  /** One step of the call chain: `InCallView` is entered only from the
      pre-call screen by joining, and left only by hanging up; `EndCallView`
      is entered only from `InCallView`, and leads only to the dashboard. */
  lemma CallChainStep(s: PatientState, e: Event)
    requires Wired(s, e)
    ensures Step(s, e).currentView == InCallView && s.currentView != InCallView
            ==> s.currentView == PreCallView && e == JoinCallFromPreCall
    ensures s.currentView == InCallView ==> e == HangUp && Step(s, e).currentView == EndCallView
    ensures Step(s, e).currentView == EndCallView ==> s.currentView == InCallView
    ensures s.currentView == EndCallView ==> Step(s, e).currentView == DashboardView
  {
  }

  /** How the state hangs together on every reachable screen: the detail
      view always has its medicine, and every cart line has a quantity the
      detail screen's picker allows. */
  predicate Consistent(s: PatientState) {
    && (s.currentView == MedicineDetailView ==> s.selectedMedicine.Some?)
    && forall i :: 0 <= i < |s.cartItems| ==> 1 <= s.cartItems[i].quantity <= 10
  }

  lemma StepKeepsConsistent(s: PatientState, e: Event)
    requires Consistent(s) && Wired(s, e)
    ensures Consistent(Step(s, e))
  {
    if e.AddToCart? {
      var t := Step(s, e);
      assert forall i :: 0 <= i < |s.cartItems| ==> t.cartItems[i] == s.cartItems[i];
    }
  }

  function Run(s: PatientState, es: seq<Event>): PatientState
    decreases |es|
  {
    if es == [] then s else Run(Step(s, es[0]), es[1..])
  }

  predicate WiredRun(s: PatientState, es: seq<Event>)
    decreases |es|
  {
    es == [] || (Wired(s, es[0]) && WiredRun(Step(s, es[0]), es[1..]))
  }

  /** The states a run of handlers passes through, the first being `s`. */
  function Trace(s: PatientState, es: seq<Event>): (t: seq<PatientState>)
    ensures |t| == |es| + 1 && t[0] == s
    ensures t[|es|] == Run(s, es)
    decreases |es|
  {
    if es == [] then [s] else [s] + Trace(Step(s, es[0]), es[1..])
  }

  /** Along any run of wired callbacks, every `EndCallView` state directly
      follows an `InCallView` state and every `InCallView` state directly
      follows a `PreCallView` or `InCallView` state: the patient never sees
      the end of a call without passing through the call. */
  lemma {:induction false} CallChainAlongRun(s: PatientState, es: seq<Event>)
    requires WiredRun(s, es)
    ensures forall i :: 0 <= i < |es| && Trace(s, es)[i + 1].currentView == EndCallView
              ==> Trace(s, es)[i].currentView == InCallView
    ensures forall i :: 0 <= i < |es| && Trace(s, es)[i + 1].currentView == InCallView
              ==> Trace(s, es)[i].currentView in {PreCallView, InCallView}
    decreases |es|
  {
    if es != [] {
      var t := Trace(s, es);
      var rest := Trace(Step(s, es[0]), es[1..]);
      assert t == [s] + rest;
      CallChainStep(s, es[0]);
      CallChainAlongRun(Step(s, es[0]), es[1..]);
      forall i | 0 <= i < |es| && t[i + 1].currentView == EndCallView
        ensures t[i].currentView == InCallView
      {
        if i > 0 {
          assert t[i + 1] == rest[i] && t[i] == rest[i - 1];
        }
      }
      forall i | 0 <= i < |es| && t[i + 1].currentView == InCallView
        ensures t[i].currentView in {PreCallView, InCallView}
      {
        if i > 0 {
          assert t[i + 1] == rest[i] && t[i] == rest[i - 1];
        }
      }
    }
  }

  /** Every state reached from a consistent one through wired callbacks is
      consistent; in particular the medicine detail view never falls through
      to the tabs. */
  lemma {:induction false} RunKeepsConsistent(s: PatientState, es: seq<Event>)
    requires Consistent(s) && WiredRun(s, es)
    ensures Consistent(Run(s, es))
    ensures Run(s, es).currentView == MedicineDetailView ==> Render(Run(s, es)) == MedicineDetailScreen
    decreases |es|
  {
    if es != [] {
      StepKeepsConsistent(s, es[0]);
      RunKeepsConsistent(Step(s, es[0]), es[1..]);
    }
  }

  /** The dashboard component. */
  class PatientDashboard {
    var activeTab: Tab
    var currentView: PatientView
    var selectedAppointmentId: string
    var selectedReportId: string
    var selectedMedicine: Option<Medicine>
    var cartItems: seq<CartItem>
    var orderId: string
    var orderTotal: int

    function Model(): PatientState
      reads this
    {
      PatientState(activeTab, currentView, selectedAppointmentId, selectedReportId,
                   selectedMedicine, cartItems, orderId, orderTotal)
    }

    constructor ()
      ensures Model() == Initial
    {
      activeTab, currentView := HomeTab, DashboardView;
      selectedAppointmentId, selectedReportId := "", "";
      selectedMedicine, cartItems := None, [];
      orderId, orderTotal := "", 0;
    }

    method HandleVoiceNavigation(command: string)
      modifies this
      ensures Model() == VoiceNavigation(old(Model()), command)
      ensures Model() == Step(old(Model()), Voice(command))
    {
      var cmd := Lower(command);
      if Contains(cmd, "appointment") {
        if Contains(cmd, "book") {
          currentView := BookAppointmentView;
        } else {
          currentView := AppointmentListView;
        }
      } else if Contains(cmd, "report") {
        currentView := ReportsListView;
      } else if Contains(cmd, "medicine") || Contains(cmd, "pharmacy") {
        currentView := MedicineListView;
      } else if Contains(cmd, "cart") {
        currentView := CartView;
      } else if Contains(cmd, "profile") {
        activeTab := ProfileTab;
      } else if Contains(cmd, "home") {
        currentView := DashboardView;
        activeTab := HomeTab;
      }
    }

    /** A dashboard card or a home-screen button. */
    method SetCurrentView(v: PatientView)
      modifies this
      ensures currentView == v
      ensures Model() == old(Model()).(currentView := v)
      ensures Model() == Step(old(Model()), SetView(v))
    {
      currentView := v;
    }

    /** The bottom navigation bar. */
    method SetActiveTab(t: Tab)
      modifies this
      ensures Model() == old(Model()).(activeTab := t)
      ensures Model() == Step(old(Model()), SetTab(t))
    {
      activeTab := t;
    }

    method HandleJoinCall(appointmentId: string)
      modifies this
      ensures selectedAppointmentId == appointmentId && currentView == PreCallView
      ensures Model() == Step(old(Model()), JoinCall(appointmentId))
    {
      selectedAppointmentId := appointmentId;
      currentView := PreCallView;
    }

    method HandleBackToDashboard()
      modifies this
      ensures currentView == DashboardView && activeTab == HomeTab
      ensures Model() == Step(old(Model()), BackToDashboard)
    {
      currentView := DashboardView;
      activeTab := HomeTab;
    }

    method HandleJoinCallFromPreCall()
      modifies this
      ensures Model() == old(Model()).(currentView := InCallView)
      ensures Model() == Step(old(Model()), JoinCallFromPreCall)
    {
      currentView := InCallView;
    }

    method HandleEndCall()
      modifies this
      ensures Model() == old(Model()).(currentView := EndCallView)
      ensures Model() == Step(old(Model()), HangUp)
    {
      currentView := EndCallView;
    }

    /** The scanner's `onComplete`: the scanned document is only logged. */
    method OnScanComplete()
      modifies this
      ensures Model() == old(Model()).(currentView := ReportsListView)
      ensures Model() == Step(old(Model()), ScanComplete)
    {
      currentView := ReportsListView;
    }

    method OnScanNew()
      modifies this
      ensures Model() == old(Model()).(currentView := ScanDocumentView)
      ensures Model() == Step(old(Model()), ScanNew)
    {
      currentView := ScanDocumentView;
    }

    method OnViewReport(reportId: string)
      modifies this
      ensures selectedReportId == reportId && currentView == ReportDetailView
      ensures Model() == Step(old(Model()), ViewReport(reportId))
    {
      selectedReportId := reportId;
      currentView := ReportDetailView;
    }

    /** The report detail's back button. */
    method OnReportBack()
      modifies this
      ensures Model() == old(Model()).(currentView := ReportsListView)
      ensures Model() == Step(old(Model()), ReportBack)
    {
      currentView := ReportsListView;
    }

    method OnMedicineSelect(medicine: Medicine)
      modifies this
      ensures selectedMedicine == Some(medicine) && currentView == MedicineDetailView
      ensures Model() == Step(old(Model()), SelectMedicine(medicine))
    {
      selectedMedicine := Some(medicine);
      currentView := MedicineDetailView;
    }

    method OnCartOpen()
      modifies this
      ensures Model() == old(Model()).(currentView := CartView)
      ensures Model() == Step(old(Model()), OpenCart)
    {
      currentView := CartView;
    }

    /** The medicine detail's back button. */
    method OnMedicineBack()
      modifies this
      ensures Model() == old(Model()).(currentView := MedicineListView)
      ensures Model() == Step(old(Model()), MedicineBack)
    {
      currentView := MedicineListView;
    }

    method OnAddToCart(medicine: Medicine, quantity: int)
      modifies this
      ensures cartItems == old(cartItems) + [LineFor(medicine, quantity)]
      ensures currentView == MedicineListView
      ensures Model() == Step(old(Model()), AddToCart(medicine, quantity))
    {
      var cartItem := LineFor(medicine, quantity);
      cartItems := cartItems + [cartItem];
      currentView := MedicineListView;
    }

    /** The cart's back button. */
    method OnCartBack()
      modifies this
      ensures Model() == old(Model()).(currentView := MedicineListView)
      ensures Model() == Step(old(Model()), CartBack)
    {
      currentView := MedicineListView;
    }

    /** The cart's `onCheckout`: the items handed over are not used. */
    method OnCheckout(items: seq<CartItem>, total: int, stamp: string)
      modifies this
      ensures orderId == "ORD-" + stamp && orderTotal == total && cartItems == []
      ensures currentView == OrderConfirmationView
      ensures Model() == Step(old(Model()), Checkout(total, stamp))
    {
      orderId := "ORD-" + stamp;
      orderTotal := total;
      cartItems := [];
      currentView := OrderConfirmationView;
    }
  }
}
