/** The booking form: a doctor, a date and a time slot are required; the
    reason is optional. */
module BookAppointment {
  import opened Common

  const TimeSlots: seq<string> := [
    "09:00 AM", "09:30 AM", "10:00 AM", "10:30 AM",
    "11:00 AM", "11:30 AM", "02:00 PM", "02:30 PM",
    "03:00 PM", "03:30 PM", "04:00 PM", "04:30 PM"
  ]

  /** A day picked in the calendar. */
  datatype Date = Date(year: int, month: int, day: int)

  /** A toast; `destructive` is its error styling. */
  datatype Toast = Toast(title: string, description: string, destructive: bool)

  /** What pressing "Book Appointment" does: a toast, and whether `onBack`
      is called. */
  datatype BookingOutcome = BookingOutcome(toast: Toast, callsBack: bool)

  /** `handleBooking`: any missing doctor, date or time stops with an error
      toast and the form stays open; otherwise a success toast and back. */
  function Booking(doctor: string, date: Option<Date>, time: string): (o: BookingOutcome)
    ensures o.callsBack <==> doctor != "" && date.Some? && time != ""
    ensures o.callsBack <==> !o.toast.destructive
  {
    if doctor == "" || date.None? || time == "" then
      BookingOutcome(Toast("Missing Information", "Please fill in all required fields", true), false)
    else
      BookingOutcome(Toast("Appointment Booked", "Your appointment has been scheduled successfully", false), true)
  }

  /** No two slots carry the same label. */
  lemma SlotsDistinct()
    ensures forall i, j :: 0 <= i < j < |TimeSlots| ==> TimeSlots[i] != TimeSlots[j]
  {
  }

  /** The slot buttons drawn as selected for a given `selectedTime`. */
  function Highlighted(selectedTime: string): set<nat> {
    set i: nat | i < |TimeSlots| && TimeSlots[i] == selectedTime
  }

  /** At most one slot is ever shown as selected. */
  lemma AtMostOneSlot(selectedTime: string)
    ensures |Highlighted(selectedTime)| <= 1
  {
    var h := Highlighted(selectedTime);
    if h != {} {
      var i :| i in h;
      SlotsDistinct();
      assert h == {i};
    }
  }

  /** The form. */
  class BookAppointment {
    var selectedDoctor: string
    var selectedDate: Option<Date>
    var selectedTime: string
    var reason: string

    constructor ()
      ensures selectedDoctor == "" && selectedDate == None && selectedTime == "" && reason == ""
    {
      selectedDoctor, selectedDate, selectedTime, reason := "", None, "", "";
    }

    method SelectDoctor(doctorId: string)
      modifies this
      ensures selectedDoctor == doctorId
      ensures selectedDate == old(selectedDate) && selectedTime == old(selectedTime) && reason == old(reason)
    {
      selectedDoctor := doctorId;
    }

    /** The calendar's `onSelect`; it may also clear the date. */
    method SelectDate(date: Option<Date>)
      modifies this
      ensures selectedDate == date
      ensures selectedDoctor == old(selectedDoctor) && selectedTime == old(selectedTime) && reason == old(reason)
    {
      selectedDate := date;
    }

    /** A slot button: that slot becomes the only selected one. */
    method SelectTime(slot: string)
      requires slot in TimeSlots
      modifies this
      ensures selectedTime == slot && |Highlighted(selectedTime)| == 1
      ensures selectedDoctor == old(selectedDoctor) && selectedDate == old(selectedDate) && reason == old(reason)
    {
      selectedTime := slot;
      AtMostOneSlot(slot);
      var i :| 0 <= i < |TimeSlots| && TimeSlots[i] == slot;
      assert i in Highlighted(slot);
    }

    /** The reason box, typed or dictated. */
    method SetReason(text: string)
      modifies this
      ensures reason == text
      ensures selectedDoctor == old(selectedDoctor) && selectedDate == old(selectedDate) && selectedTime == old(selectedTime)
    {
      reason := text;
    }

    /** "Book Appointment": the reason plays no part, and the form itself is
        left as it is. */
    method HandleBooking() returns (o: BookingOutcome)
      ensures o.callsBack <==> selectedDoctor != "" && selectedDate.Some? && selectedTime != ""
      ensures o == Booking(selectedDoctor, selectedDate, selectedTime)
    {
      if selectedDoctor == "" || selectedDate.None? || selectedTime == "" {
        o := BookingOutcome(Toast("Missing Information", "Please fill in all required fields", true), false);
        return;
      }
      o := BookingOutcome(Toast("Appointment Booked", "Your appointment has been scheduled successfully", false), true);
    }
  }
}
