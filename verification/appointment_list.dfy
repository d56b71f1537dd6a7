/** The patient's appointment list: a fixed list split into an upcoming
    and a past tab, with a join button on upcoming video appointments. */
module AppointmentList {
  import opened Common

  datatype Status = Upcoming | Completed | Cancelled

  datatype VisitType = InPerson | Video

  datatype Appointment = Appointment(
    id: string, doctorName: string, specialty: string, date: string, time: string,
    status: Status, visitType: VisitType, reason: Option<string>)

  /** The list the screen shows; the screen has no way to change it. */
  const Appointments: seq<Appointment> := [
    Appointment("1", "Dr. Smith", "Cardiology", "Tomorrow", "10:00 AM", Upcoming, Video,
                Some("Follow-up consultation")),
    Appointment("2", "Dr. Johnson", "General Medicine", "Friday", "2:00 PM", Upcoming, InPerson,
                Some("Regular checkup")),
    Appointment("3", "Dr. Brown", "Neurology", "Jan 15, 2024", "11:00 AM", Completed, Video,
                Some("Headache consultation"))
  ]

  predicate IsUpcoming(a: Appointment) { a.status == Upcoming }
  predicate IsPast(a: Appointment) { a.status == Completed }
  predicate IsCancelled(a: Appointment) { a.status == Cancelled }

  /** `upcomingAppointments` and `pastAppointments`. */
  function UpcomingList(apts: seq<Appointment>): (r: seq<Appointment>)
    ensures forall a :: a in r <==> a in apts && a.status == Upcoming
    ensures IsSubsequence(r, apts)
    ensures forall a {:trigger multiset(r)[a]} :: multiset(r)[a] == if a.status == Upcoming then multiset(apts)[a] else 0
  {
    Filter(apts, IsUpcoming)
  }

  function PastList(apts: seq<Appointment>): (r: seq<Appointment>)
    ensures forall a :: a in r <==> a in apts && a.status == Completed
    ensures IsSubsequence(r, apts)
    ensures forall a {:trigger multiset(r)[a]} :: multiset(r)[a] == if a.status == Completed then multiset(apts)[a] else 0
  {
    Filter(apts, IsPast)
  }

  /** The two tabs share no appointment, and a cancelled one is on neither. */
  lemma TabsDisjoint(apts: seq<Appointment>)
    ensures forall a :: !(a in UpcomingList(apts) && a in PastList(apts))
    ensures forall a: Appointment :: a.status == Cancelled ==> a !in UpcomingList(apts) && a !in PastList(apts)
  {
  }

  /** Each appointment lands on exactly one tab unless it is cancelled: the
      two tabs and the cancelled ones together account for the whole list. */
  lemma {:induction false} TabsPartition(apts: seq<Appointment>)
    ensures |UpcomingList(apts)| + |PastList(apts)| + |Filter(apts, IsCancelled)| == |apts|
    decreases |apts|
  {
    if apts != [] {
      TabsPartition(apts[1..]);
    }
  }

  /** The Join Video Call button: shown for an upcoming video appointment,
      and it hands that appointment's id to `onJoinCall`. */
  function JoinButton(a: Appointment): (r: Option<string>)
    ensures r.Some? <==> a.status == Upcoming && a.visitType == Video
    ensures r.Some? ==> r.value == a.id
  {
    if a.status == Upcoming && a.visitType == Video then Some(a.id) else None
  }

  /** Of the fixed list, only the first appointment can be joined. */
  lemma OnlyFirstCanBeJoined()
    ensures forall i :: 0 <= i < |Appointments| ==> (JoinButton(Appointments[i]).Some? <==> i == 0)
  {
  }
}
