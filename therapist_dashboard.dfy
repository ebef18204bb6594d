/** The therapist's dashboard (`TherapistDashboardPage.tsx`): the patient
    search, the appointment status filter, the counters of the summary cards,
    the patients requiring attention, the list of conversations, and sending a
    message to the selected patient. The page keeps its data in component
    state; the class holds that state. */
module TherapistDashboard {
  import opened Wrappers
  import opened Text
  import opened Seqs

  datatype Patient = Patient(id: string, name: string, email: string, concerns: seq<string>,
                             moodTrend: string, profileImage: string)

  datatype Appointment = Appointment(id: string, patientId: string, status: string)

  /** A message of a conversation; `isFromTherapist` is false for the
      patients' messages, which do not carry the field. */
  datatype Message = Message(id: string, patientId: string, patientName: string, patientImage: string,
                             content: string, timestamp: int, read: bool, isFromTherapist: bool)

  /** The lower-cased term occurs in the patient's name, email or one of the
      concerns, each lower-cased. */
  predicate Matches(p: Patient, term: string)
  {
    Includes(Lower(p.name), term) || Includes(Lower(p.email), term) ||
    exists c :: c in p.concerns && Includes(Lower(c), term)
  }

  /** `filteredPatients`. */
  function FilteredPatients(patients: seq<Patient>, searchTerm: string): seq<Patient>
  {
    if searchTerm == "" then patients
    else Filter(patients, (p: Patient) => Matches(p, Lower(searchTerm)))
  }

  /** Without a term every patient is listed; with one, exactly the matching
      patients, in their order. */
  lemma FilteredPatientsSpec(patients: seq<Patient>, searchTerm: string)
    ensures searchTerm == "" ==> FilteredPatients(patients, searchTerm) == patients
    ensures searchTerm != "" ==>
              forall p :: p in FilteredPatients(patients, searchTerm) <==> p in patients && Matches(p, Lower(searchTerm))
    ensures Subseq(FilteredPatients(patients, searchTerm), patients)
  {
    if searchTerm == "" {
      SubseqReflexive(patients);
    } else {
      FilterIsSubseq(patients, (p: Patient) => Matches(p, Lower(searchTerm)));
    }
  }

  /** The search ignores case: the term and its lower-case form list the
      same patients. */
  lemma SearchIgnoresCase(patients: seq<Patient>, searchTerm: string)
    requires searchTerm != ""
    ensures FilteredPatients(patients, Lower(searchTerm)) == FilteredPatients(patients, searchTerm)
  {
    LowerIdempotent(searchTerm);
    assert Lower(searchTerm) != "";
  }

  predicate HasStatus(a: Appointment, status: string)
  {
    a.status == status
  }

  /** `filteredAppointments`. */
  function FilteredAppointments(appointments: seq<Appointment>, statusFilter: string): seq<Appointment>
  {
    if statusFilter == "upcoming" then Filter(appointments, (a: Appointment) => HasStatus(a, "scheduled"))
    else if statusFilter == "past" then Filter(appointments, (a: Appointment) => HasStatus(a, "completed"))
    else appointments
  }

  /** 'upcoming' keeps exactly the scheduled appointments, 'past' exactly the
      completed ones, any other value all of them. */
  lemma FilteredAppointmentsSpec(appointments: seq<Appointment>, statusFilter: string)
    ensures statusFilter == "upcoming" ==>
              forall a :: a in FilteredAppointments(appointments, statusFilter) <==> a in appointments && a.status == "scheduled"
    ensures statusFilter == "past" ==>
              forall a :: a in FilteredAppointments(appointments, statusFilter) <==> a in appointments && a.status == "completed"
    ensures statusFilter != "upcoming" && statusFilter != "past" ==>
              FilteredAppointments(appointments, statusFilter) == appointments
    ensures |FilteredAppointments(appointments, statusFilter)| ==
              if statusFilter == "upcoming" then CountWhere(appointments, (a: Appointment) => HasStatus(a, "scheduled"))
              else if statusFilter == "past" then CountWhere(appointments, (a: Appointment) => HasStatus(a, "completed"))
              else |appointments|
  {
    CountIsFilterLength(appointments, (a: Appointment) => HasStatus(a, "scheduled"));
    CountIsFilterLength(appointments, (a: Appointment) => HasStatus(a, "completed"));
  }

  predicate Unread(m: Message)
  {
    !m.read
  }

  /** The "Unread Messages" card: `messages.filter(m => !m.read).length`. */
  function UnreadCount(messages: seq<Message>): nat
  {
    |Filter(messages, Unread)|
  }

  /** The "Upcoming Sessions" card. */
  function UpcomingCount(appointments: seq<Appointment>): nat
  {
    |Filter(appointments, (a: Appointment) => HasStatus(a, "scheduled"))|
  }

  /** The cards count exactly the unread messages and the scheduled
      appointments: zero when there is none, the whole list when all are. */
  lemma CountsSpec(messages: seq<Message>, appointments: seq<Appointment>)
    ensures UnreadCount(messages) == CountWhere(messages, Unread)
    ensures UnreadCount(messages) == 0 <==> forall i :: 0 <= i < |messages| ==> messages[i].read
    ensures UpcomingCount(appointments) == CountWhere(appointments, (a: Appointment) => HasStatus(a, "scheduled"))
    ensures UpcomingCount(appointments) == |appointments| <==>
              forall i :: 0 <= i < |appointments| ==> appointments[i].status == "scheduled"
  {
    var scheduled := (a: Appointment) => HasStatus(a, "scheduled");
    CountIsFilterLength(messages, Unread);
    CountIsFilterLength(appointments, scheduled);
    assert forall i :: 0 <= i < |appointments| ==> (scheduled(appointments[i]) <==> appointments[i].status == "scheduled");
  }

  /** "Requiring Attention": the patients whose mood trend is declining. */
  function RequiringAttention(patients: seq<Patient>): seq<Patient>
  {
    Filter(patients, (p: Patient) => p.moodTrend == "declining")
  }

  lemma RequiringAttentionSpec(patients: seq<Patient>)
    ensures forall p :: p in RequiringAttention(patients) <==> p in patients && p.moodTrend == "declining"
    ensures Subseq(RequiringAttention(patients), patients)
  {
    FilterIsSubseq(patients, (p: Patient) => p.moodTrend == "declining");
  }

  function PatientIds(messages: seq<Message>): seq<string>
  {
    Map(messages, (m: Message) => m.patientId)
  }

  /** The conversation list: `Array.from(new Set(messages.map(m => m.patientId)))`. */
  function Conversations(messages: seq<Message>): seq<string>
  {
    Distinct(PatientIds(messages))
  }

  /** One row per patient with messages, no patient twice, in the order of
      each patient's first message. */
  lemma ConversationsSpec(messages: seq<Message>)
    ensures NoDup(Conversations(messages))
    ensures forall id :: id in Conversations(messages) <==> id in PatientIds(messages)
    ensures forall id :: id in Conversations(messages) <==> exists i :: 0 <= i < |messages| && messages[i].patientId == id
    ensures forall i, j :: 0 <= i < j < |Conversations(messages)| ==>
              FirstIndex(PatientIds(messages), Conversations(messages)[i]) <
              FirstIndex(PatientIds(messages), Conversations(messages)[j])
  {
    DistinctSpec(PatientIds(messages));
    forall id ensures id in PatientIds(messages) <==> exists i :: 0 <= i < |messages| && messages[i].patientId == id {
      if exists i :: 0 <= i < |messages| && messages[i].patientId == id {
        var i :| 0 <= i < |messages| && messages[i].patientId == id;
        assert PatientIds(messages)[i] == id;
      }
    }
  }

  lemma PatientIdsSnoc(messages: seq<Message>, m: Message)
    ensures PatientIds(messages + [m]) == PatientIds(messages) + [m.patientId]
  {
  }

  /** A new message keeps the existing rows and their order, and opens a row
      at the end only for a patient without one. */
  lemma ConversationsSnoc(messages: seq<Message>, m: Message)
    ensures Conversations(messages + [m]) ==
              if m.patientId in Conversations(messages) then Conversations(messages)
              else Conversations(messages) + [m.patientId]
  {
    var ids := PatientIds(messages + [m]);
    PatientIdsSnoc(messages, m);
    assert ids[..|ids| - 1] == PatientIds(messages);
  }

  /** A message sent by the therapist is marked read: the unread count does
      not change. */
  lemma SentMessageNotUnread(messages: seq<Message>, m: Message)
    requires m.read
    ensures UnreadCount(messages + [m]) == UnreadCount(messages)
  {
    CountIsFilterLength(messages + [m], Unread);
    CountIsFilterLength(messages, Unread);
    CountAppend(messages, [m], Unread);
  }

  /** The page's state. */
  class Dashboard {
    var patients: seq<Patient>
    var appointments: seq<Appointment>
    var messages: seq<Message>
    var selectedPatient: Option<Patient>
    var searchTerm: string
    var statusFilter: string
    var messageContent: string

    constructor(patients0: seq<Patient>, appointments0: seq<Appointment>, messages0: seq<Message>)
      ensures patients == patients0 && appointments == appointments0 && messages == messages0
      ensures selectedPatient.None? && searchTerm == "" && statusFilter == "all" && messageContent == ""
    {
      patients := patients0;
      appointments := appointments0;
      messages := messages0;
      selectedPatient := None;
      searchTerm := "";
      statusFilter := "all";
      messageContent := "";
    }

    /** `handlePatientSelect`. */
    method SelectPatient(p: Patient)
      modifies this
      ensures selectedPatient == Some(p)
      ensures messages == old(messages) && messageContent == old(messageContent)
      ensures patients == old(patients) && appointments == old(appointments)
    {
      selectedPatient := Some(p);
    }

    /** `handleSendMessage`: nothing without content or a selected patient;
        otherwise one read message from the therapist to that patient is
        appended, with the content as typed, and the input is cleared. */
    method SendMessage(newId: string, now: int)
      modifies this
      ensures Blank(old(messageContent)) || old(selectedPatient).None? ==>
                messages == old(messages) && messageContent == old(messageContent)
      ensures !Blank(old(messageContent)) && old(selectedPatient).Some? ==>
                (var p := old(selectedPatient).value;
                 messages == old(messages) + [Message(newId, p.id, p.name, p.profileImage, old(messageContent), now, true, true)] &&
                 messageContent == "")
      ensures UnreadCount(messages) == UnreadCount(old(messages))
      ensures patients == old(patients) && appointments == old(appointments) && selectedPatient == old(selectedPatient)
    {
      if Blank(messageContent) || selectedPatient.None? {
        return;
      }
      var p := selectedPatient.value;
      var m := Message(newId, p.id, p.name, p.profileImage, messageContent, now, true, true);
      SentMessageNotUnread(messages, m);
      messages := messages + [m];
      messageContent := "";
    }
  }
}
