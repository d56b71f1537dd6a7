/** The doctor's appointment management screen: a list of appointments whose
    status the doctor rewrites by id, three filtered tabs, and the buttons
    each appointment card offers for its status. */
module AppointmentManagement {
  import opened Common

  datatype Status = Pending | Accepted | Completed | Cancelled

  datatype VisitType = InPerson | Video

  datatype DoctorAppointment = DoctorAppointment(
    id: string, patientName: string, patientAge: int, date: string, time: string,
    status: Status, visitType: VisitType, reason: string)

  /** The four appointments the screen starts with. */
  const InitialAppointments: seq<DoctorAppointment> := [
    DoctorAppointment("1", "John Doe", 34, "Today", "9:00 AM", Accepted, Video, "Follow-up consultation"),
    DoctorAppointment("2", "Mary Smith", 28, "Today", "10:30 AM", Pending, InPerson, "Regular checkup"),
    DoctorAppointment("3", "Robert Johnson", 45, "Tomorrow", "2:00 PM", Accepted, Video, "Heart palpitations"),
    DoctorAppointment("4", "Alice Brown", 52, "Yesterday", "11:00 AM", Completed, Video, "Blood pressure check")
  ]

  /** The `map` shared by accept, reject and complete: every appointment
      with that id takes the new status, whatever its old one; the others
      are kept as they are, in the same places. */
  function WithStatus(apts: seq<DoctorAppointment>, id: string, status: Status): (r: seq<DoctorAppointment>)
    ensures |r| == |apts|
    ensures forall i :: 0 <= i < |apts| && apts[i].id == id ==> r[i] == apts[i].(status := status)
    ensures forall i :: 0 <= i < |apts| && apts[i].id != id ==> r[i] == apts[i]
    decreases |apts|
  {
    if apts == [] then []
    else [if apts[0].id == id then apts[0].(status := status) else apts[0]] + WithStatus(apts[1..], id, status)
  }

  /** Of two rewrites of the same id the later one wins; with the same
      status twice, rewriting is idempotent. */
  lemma LaterStatusWins(apts: seq<DoctorAppointment>, id: string, s1: Status, s2: Status)
    ensures WithStatus(WithStatus(apts, id, s1), id, s2) == WithStatus(apts, id, s2)
  {
    var w := WithStatus(apts, id, s1);
    var a, b := WithStatus(w, id, s2), WithStatus(apts, id, s2);
    forall i | 0 <= i < |a|
      ensures a[i] == b[i]
    {
      assert w[i].id == apts[i].id;
    }
  }

  /** Rewrites of different ids do not interfere. */
  lemma DifferentIdsCommute(apts: seq<DoctorAppointment>, id1: string, id2: string, s1: Status, s2: Status)
    requires id1 != id2
    ensures WithStatus(WithStatus(apts, id1, s1), id2, s2) == WithStatus(WithStatus(apts, id2, s2), id1, s1)
  {
    var w1, w2 := WithStatus(apts, id1, s1), WithStatus(apts, id2, s2);
    var a, b := WithStatus(w1, id2, s2), WithStatus(w2, id1, s1);
    forall i | 0 <= i < |a|
      ensures a[i] == b[i]
    {
      assert w1[i].id == apts[i].id && w2[i].id == apts[i].id;
    }
  }

  predicate IsPending(a: DoctorAppointment) { a.status == Pending }
  predicate IsToday(a: DoctorAppointment) { a.date == "Today" }
  predicate IsCompleted(a: DoctorAppointment) { a.status == Completed }

  /** The three tabs: each keeps, in order and with their multiplicity, the
      appointments of its status or day. */
  function PendingList(apts: seq<DoctorAppointment>): (r: seq<DoctorAppointment>)
    ensures forall a :: a in r <==> a in apts && a.status == Pending
    ensures IsSubsequence(r, apts)
    ensures forall a {:trigger multiset(r)[a]} :: multiset(r)[a] == if a.status == Pending then multiset(apts)[a] else 0
  {
    Filter(apts, IsPending)
  }

  function TodayList(apts: seq<DoctorAppointment>): (r: seq<DoctorAppointment>)
    ensures forall a :: a in r <==> a in apts && a.date == "Today"
    ensures IsSubsequence(r, apts)
    ensures forall a {:trigger multiset(r)[a]} :: multiset(r)[a] == if a.date == "Today" then multiset(apts)[a] else 0
  {
    Filter(apts, IsToday)
  }

  function CompletedList(apts: seq<DoctorAppointment>): (r: seq<DoctorAppointment>)
    ensures forall a :: a in r <==> a in apts && a.status == Completed
    ensures IsSubsequence(r, apts)
    ensures forall a {:trigger multiset(r)[a]} :: multiset(r)[a] == if a.status == Completed then multiset(apts)[a] else 0
  {
    Filter(apts, IsCompleted)
  }

  /** No appointment is both pending and completed. */
  lemma PendingAndCompletedDisjoint(apts: seq<DoctorAppointment>)
    ensures forall a :: !(a in PendingList(apts) && a in CompletedList(apts))
  {
    FilterDisjoint(apts, IsPending, IsCompleted);
  }

  /** Accepting (or rejecting, or completing) an id takes exactly the
      appointments with that id off the pending tab, and leaves the rest of
      the tab in its order. */
  lemma {:induction false} LeavingPendingDropsFromTab(apts: seq<DoctorAppointment>, id: string, status: Status)
    requires status != Pending
    ensures PendingList(WithStatus(apts, id, status))
            == Filter(PendingList(apts), (a: DoctorAppointment) => a.id != id)
    decreases |apts|
  {
    if apts != [] {
      var w := WithStatus(apts, id, status);
      assert w[0] == (if apts[0].id == id then apts[0].(status := status) else apts[0]);
      assert w[1..] == WithStatus(apts[1..], id, status);
      LeavingPendingDropsFromTab(apts[1..], id, status);
    }
  }

  /** A status rewrite never moves an appointment on or off the Today tab. */
  lemma {:induction false} TodayTabKeepsIds(apts: seq<DoctorAppointment>, id: string, status: Status)
    ensures |TodayList(WithStatus(apts, id, status))| == |TodayList(apts)|
    ensures forall i :: 0 <= i < |TodayList(apts)|
              ==> TodayList(WithStatus(apts, id, status))[i].id == TodayList(apts)[i].id
    decreases |apts|
  {
    if apts != [] {
      var w := WithStatus(apts, id, status);
      assert w[1..] == WithStatus(apts[1..], id, status);
      TodayTabKeepsIds(apts[1..], id, status);
    }
  }

  /** The buttons of an appointment card. */
  datatype Action = Accept | Reject | JoinCall | Complete | Notes

  /** The buttons a card shows for its appointment. */
  function Offered(a: DoctorAppointment): (r: set<Action>)
    ensures Accept in r <==> a.status == Pending
    ensures Reject in r <==> a.status == Pending
    ensures JoinCall in r <==> a.status == Accepted && a.visitType == Video
    ensures Complete in r <==> a.status == Accepted
    ensures Notes in r <==> a.status == Accepted || a.status == Completed
  {
    (if a.status == Pending then {Accept, Reject} else {})
    + (if a.status == Accepted && a.visitType == Video then {JoinCall} else {})
    + (if a.status == Accepted then {Complete} else {})
    + (if a.status == Completed || a.status == Accepted then {Notes} else {})
  }

  /** The status each status button writes. */
  function Writes(action: Action): Option<Status> {
    match action
    case Accept => Some(Accepted)
    case Reject => Some(Cancelled)
    case Complete => Some(Completed)
    case _ => None
  }

  /** How far along its life an appointment is. */
  function Stage(s: Status): nat {
    match s
    case Pending => 0
    case Accepted => 1
    case Completed => 2
    case Cancelled => 2
  }

  /** Through the buttons, an appointment only moves forward: pending to
      accepted or cancelled, accepted to completed; cancelled and completed
      cards offer no status button, and a cancelled card offers nothing. */
  lemma OfferedButtonsMoveForward(a: DoctorAppointment, action: Action)
    requires action in Offered(a) && Writes(action).Some?
    ensures Stage(Writes(action).value) > Stage(a.status)
    ensures a.status != Cancelled && a.status != Completed
  {
  }

  lemma CancelledOffersNothing(a: DoctorAppointment)
    requires a.status == Cancelled
    ensures Offered(a) == {}
  {
    assert forall x :: x !in Offered(a);
  }

  /** What pressing a button produces: a toast after a status change, or a
      call of the parent's `onJoinCall` / `onAddNotes` with an id. */
  datatype Outcome =
    | Toast(title: string, description: string)
    | JoinCallWith(appointmentId: string)
    | AddNotesFor(appointmentId: string)

  /** The screen. */
  class AppointmentManagement {
    var appointments: seq<DoctorAppointment>

    constructor ()
      ensures appointments == InitialAppointments
    {
      appointments := InitialAppointments;
    }

    method HandleAccept(appointmentId: string) returns (o: Outcome)
      modifies this
      ensures appointments == WithStatus(old(appointments), appointmentId, Accepted)
      ensures o == Toast("Appointment Accepted", "Patient has been notified")
    {
      appointments := WithStatus(appointments, appointmentId, Accepted);
      o := Toast("Appointment Accepted", "Patient has been notified");
    }

    method HandleReject(appointmentId: string) returns (o: Outcome)
      modifies this
      ensures appointments == WithStatus(old(appointments), appointmentId, Cancelled)
      ensures o == Toast("Appointment Cancelled", "Patient has been notified")
    {
      appointments := WithStatus(appointments, appointmentId, Cancelled);
      o := Toast("Appointment Cancelled", "Patient has been notified");
    }

    method HandleComplete(appointmentId: string) returns (o: Outcome)
      modifies this
      ensures appointments == WithStatus(old(appointments), appointmentId, Completed)
      ensures o == Toast("Appointment Completed", "Status updated successfully")
    {
      appointments := WithStatus(appointments, appointmentId, Completed);
      o := Toast("Appointment Completed", "Status updated successfully");
    }

    /** Pressing a button a card offers: the status buttons rewrite that
        card's id, Join Call and Notes hand the card's own id to the parent
        and leave the list alone. */
    method Press(a: DoctorAppointment, action: Action) returns (o: Outcome)
      requires action in Offered(a)
      modifies this
      ensures Writes(action).Some? ==> appointments == WithStatus(old(appointments), a.id, Writes(action).value)
      ensures Writes(action).Some? ==> o.Toast?
      ensures action == JoinCall ==> o == JoinCallWith(a.id) && appointments == old(appointments)
      ensures action == Notes ==> o == AddNotesFor(a.id) && appointments == old(appointments)
    {
      match action
      case Accept => o := HandleAccept(a.id);
      case Reject => o := HandleReject(a.id);
      case Complete => o := HandleComplete(a.id);
      case JoinCall => o := JoinCallWith(a.id);
      case Notes => o := AddNotesFor(a.id);
    }
  }
}
