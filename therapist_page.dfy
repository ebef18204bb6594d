/** The patient's therapist page (`TherapistPage.tsx`): booking an appointment
    and messaging the selected therapist, the upcoming and past appointment
    lists, and the time options of the booking form. The page keeps its data
    in component state; the class holds that state. */
module TherapistPage {
  import opened Wrappers
  import opened Text
  import opened Seqs

  datatype Availability = Availability(day: string, slots: seq<string>)

  datatype Therapist = Therapist(id: string, name: string, profileImage: string, availability: seq<Availability>)

  /** An appointment; `date` is the text of the date field, converted by the
      page with `new Date(...)`. */
  datatype Appointment = Appointment(id: string, therapistId: string, therapistName: string, therapistImage: string,
                                     date: string, time: string, duration: int, kind: string, status: string)

  datatype Message = Message(id: string, senderId: string, receiverId: string, content: string,
                             timestamp: int, read: bool)

  /** How an event handler ended: it did its work, returned early, or threw
      (a property read on an unselected therapist), leaving the state alone. */
  datatype Outcome = Done | Ignored | Threw

  /** The signed-in patient's id on this page. */
  const CurrentUser: string := "user1"

  const SessionMinutes: int := 50

  predicate HasStatus(a: Appointment, status: string)
  {
    a.status == status
  }

  /** The "Upcoming" list. */
  function Upcoming(appointments: seq<Appointment>): seq<Appointment>
  {
    Filter(appointments, (a: Appointment) => HasStatus(a, "scheduled"))
  }

  /** The "Past Appointments" list. */
  function Past(appointments: seq<Appointment>): seq<Appointment>
  {
    Filter(appointments, (a: Appointment) => HasStatus(a, "completed"))
  }

  /** The two lists hold exactly the scheduled and the completed appointments,
      no appointment is in both, and one with any other status (cancelled)
      is in neither. */
  lemma ListsSpec(appointments: seq<Appointment>)
    ensures forall a :: a in Upcoming(appointments) <==> a in appointments && a.status == "scheduled"
    ensures forall a :: a in Past(appointments) <==> a in appointments && a.status == "completed"
    ensures forall a :: !(a in Upcoming(appointments) && a in Past(appointments))
    ensures forall a :: a in appointments && a.status != "scheduled" && a.status != "completed" ==>
              a !in Upcoming(appointments) && a !in Past(appointments)
    ensures |Upcoming(appointments)| + |Past(appointments)| <= |appointments|
  {
    var s := (a: Appointment) => HasStatus(a, "scheduled");
    var c := (a: Appointment) => HasStatus(a, "completed");
    CountIsFilterLength(appointments, s);
    CountIsFilterLength(appointments, c);
    CountDisjoint(appointments, s, c);
  }

  /** Two conditions that never hold together count no more than the whole. */
  lemma {:induction false} CountDisjoint<T>(xs: seq<T>, p: T -> bool, q: T -> bool)
    requires forall x :: !(p(x) && q(x))
    ensures CountWhere(xs, p) + CountWhere(xs, q) <= |xs|
  {
    if xs != [] {
      CountDisjoint(xs[1..], p, q);
    }
  }

  /** The time options of the booking form: every slot of every available day,
      day by day, each day's slots in order. */
  function TimeOptions(t: Therapist): seq<string>
  {
    Flatten(Map(t.availability, (a: Availability) => a.slots))
  }

  /** Every slot of every day is offered and nothing else; each day adds its
      slots after those of the days before it. */
  lemma TimeOptionsSpec(t: Therapist, more: Availability)
    ensures forall s :: s in TimeOptions(t) <==> exists k :: 0 <= k < |t.availability| && s in t.availability[k].slots
    ensures |TimeOptions(t)| == TotalLength(Map(t.availability, (a: Availability) => a.slots))
    ensures TimeOptions(t.(availability := t.availability + [more])) == TimeOptions(t) + more.slots
  {
    var f := (a: Availability) => a.slots;
    var days := Map(t.availability, f);
    FlattenSpec(days);
    forall s | s in Flatten(days) ensures exists k :: 0 <= k < |t.availability| && s in t.availability[k].slots {
      var k :| 0 <= k < |days| && s in days[k];
      assert s in t.availability[k].slots;
    }
    forall k, s | 0 <= k < |t.availability| && s in t.availability[k].slots ensures s in Flatten(days) {
      assert s in days[k];
    }
    assert Map(t.availability + [more], f) == days + [more.slots];
    FlattenAppend(days, [more.slots]);
    assert Flatten([more.slots]) == more.slots + Flatten([]);
  }

  /** The page's state. */
  class Page {
    var selectedTherapist: Option<Therapist>
    var bookingOpen: bool
    var messageOpen: bool
    var selectedDate: string
    var selectedTime: string
    var messageContent: string
    var activeTab: string
    var messages: seq<Message>
    var appointments: seq<Appointment>

    constructor(messages0: seq<Message>, appointments0: seq<Appointment>)
      ensures messages == messages0 && appointments == appointments0
      ensures selectedTherapist.None? && !bookingOpen && !messageOpen
      ensures selectedDate == "" && selectedTime == "" && messageContent == "" && activeTab == "find"
    {
      messages := messages0;
      appointments := appointments0;
      selectedTherapist := None;
      bookingOpen := false;
      messageOpen := false;
      selectedDate := "";
      selectedTime := "";
      messageContent := "";
      activeTab := "find";
    }

    /** `handleBookAppointment`: selects the therapist and opens the booking form. */
    method OpenBooking(t: Therapist)
      modifies this
      ensures selectedTherapist == Some(t) && bookingOpen
      ensures messageOpen == old(messageOpen) && activeTab == old(activeTab)
      ensures selectedDate == old(selectedDate) && selectedTime == old(selectedTime)
      ensures messageContent == old(messageContent)
      ensures messages == old(messages) && appointments == old(appointments)
    {
      selectedTherapist := Some(t);
      bookingOpen := true;
    }

    /** `handleSendMessage`: selects the therapist and opens the message form. */
    method OpenMessage(t: Therapist)
      modifies this
      ensures selectedTherapist == Some(t) && messageOpen
      ensures bookingOpen == old(bookingOpen) && activeTab == old(activeTab)
      ensures selectedDate == old(selectedDate) && selectedTime == old(selectedTime)
      ensures messageContent == old(messageContent)
      ensures messages == old(messages) && appointments == old(appointments)
    {
      selectedTherapist := Some(t);
      messageOpen := true;
    }

    /** `handleSubmitBooking`: nothing unless a date and a time are chosen;
        otherwise one scheduled 50-minute video appointment with the selected
        therapist is appended, the form is reset and closed, and the
        appointments tab is shown. */
    method SubmitBooking(newId: string) returns (outcome: Outcome)
      modifies this
      ensures outcome == (if old(selectedDate) == "" || old(selectedTime) == "" then Ignored
                          else if old(selectedTherapist).None? then Threw else Done)
      ensures outcome != Done ==>
                appointments == old(appointments) && selectedDate == old(selectedDate) &&
                selectedTime == old(selectedTime) && bookingOpen == old(bookingOpen) && activeTab == old(activeTab)
      ensures outcome == Done ==>
                (var t := old(selectedTherapist).value;
                 appointments == old(appointments) +
                   [Appointment(newId, t.id, t.name, t.profileImage, old(selectedDate), old(selectedTime),
                                SessionMinutes, "video", "scheduled")] &&
                 selectedDate == "" && selectedTime == "" && !bookingOpen && activeTab == "appointments")
      ensures messages == old(messages) && messageContent == old(messageContent)
      ensures messageOpen == old(messageOpen) && selectedTherapist == old(selectedTherapist)
    {
      if selectedDate == "" || selectedTime == "" {
        return Ignored;
      }
      if selectedTherapist.None? {
        return Threw;
      }
      var t := selectedTherapist.value;
      var a := Appointment(newId, t.id, t.name, t.profileImage, selectedDate, selectedTime,
                           SessionMinutes, "video", "scheduled");
      appointments := appointments + [a];
      bookingOpen := false;
      selectedDate := "";
      selectedTime := "";
      activeTab := "appointments";
      outcome := Done;
    }

    /** `handleSubmitMessage`: nothing for blank content; otherwise one unread
        message from the patient to the selected therapist is appended, with
        the content as typed, the form is cleared and closed, and the messages
        tab is shown. */
    method SubmitMessage(newId: string, now: int) returns (outcome: Outcome)
      modifies this
      ensures outcome == (if Blank(old(messageContent)) then Ignored
                          else if old(selectedTherapist).None? then Threw else Done)
      ensures outcome != Done ==>
                messages == old(messages) && messageContent == old(messageContent) &&
                messageOpen == old(messageOpen) && activeTab == old(activeTab)
      ensures outcome == Done ==>
                (messages == old(messages) +
                   [Message(newId, CurrentUser, old(selectedTherapist).value.id, old(messageContent), now, false)] &&
                 messageContent == "" && !messageOpen && activeTab == "messages")
      ensures appointments == old(appointments) && selectedDate == old(selectedDate) && selectedTime == old(selectedTime)
      ensures bookingOpen == old(bookingOpen) && selectedTherapist == old(selectedTherapist)
    {
      if Blank(messageContent) {
        return Ignored;
      }
      if selectedTherapist.None? {
        return Threw;
      }
      var m := Message(newId, CurrentUser, selectedTherapist.value.id, messageContent, now, false);
      messages := messages + [m];
      messageOpen := false;
      messageContent := "";
      activeTab := "messages";
      outcome := Done;
    }
  }

  /** A booking adds one scheduled appointment to the upcoming list, at its
      end, and leaves the past list as it was. */
  lemma BookingIsUpcoming(appointments: seq<Appointment>, a: Appointment)
    requires a.status == "scheduled"
    ensures Upcoming(appointments + [a]) == Upcoming(appointments) + [a]
    ensures Past(appointments + [a]) == Past(appointments)
  {
    FilterAppend(appointments, [a], (x: Appointment) => HasStatus(x, "scheduled"));
    FilterAppend(appointments, [a], (x: Appointment) => HasStatus(x, "completed"));
  }
}
