/** The appointment page (src/pages/Appointments.tsx) over the appointment record of
    src/services/appointmentService.ts. */
module Appointments {
  import opened Js
  import opened Lists
  import MainLayout
  import Patients
  import Doctors
  import TimeSlots

  /** An appointment; `id` is absent until it is booked. */
  datatype Appointment = Appointment(
    id: Option<string>, patientId: string, doctorId: string,
    appointmentDate: string, status: string, notes: Option<string>)

  const Scheduled: string := "SCHEDULED"

  /** The page asks for a signed-in user of any role. */
  const Layout: MainLayout.LayoutProps := MainLayout.LayoutProps(true, [])

  /** The guard in front of the page lets in every signed-in user, whatever the role, and
      sends an anonymous visitor to log in. */
  lemma PageAccess(isAuthenticated: bool, userRole: Option<string>)
    ensures MainLayout.Guard(Layout, isAuthenticated, userRole) ==
      if isAuthenticated then MainLayout.RenderPage else MainLayout.RedirectToLogin
  {
  }

  /** The draft a new booking starts from. */
  const DefaultAppointment: Appointment := Appointment(None, "", "", "", Scheduled, Some(""))

  /** The select boxes wired to `handleSelectChange`, by the name they pass. */
  datatype SelectField = PatientSelect | DoctorSelect | SlotSelect | StatusSelect

  /** The draft after a select box picks `value`. */
  function WithSelect(a: Appointment, field: SelectField, value: string): (b: Appointment)
    ensures field == PatientSelect ==> b == a.(patientId := value)
    ensures field == DoctorSelect ==> b == a.(doctorId := value)
    ensures field == SlotSelect ==> b == a.(appointmentDate := value)
    ensures field == StatusSelect ==> b == a.(status := value)
    ensures b.id == a.id && b.notes == a.notes
  {
    match field
    case PatientSelect => a.(patientId := value)
    case DoctorSelect => a.(doctorId := value)
    case SlotSelect => a.(appointmentDate := value)
    case StatusSelect => a.(status := value)
  }

  /** Whether the dialog offers a select box for a draft: patient and doctor only before
      booking, the slot list only before booking and once a doctor is chosen, the status
      only after booking. */
  predicate SelectOffered(a: Appointment, selectedDoctor: string, field: SelectField)
    // A booked appointment offers the status only ...
    ensures Truthy(a.id) ==> (SelectOffered(a, selectedDoctor, field) <==> field == StatusSelect)
    // ... a new one everything but the status, the slot list once a doctor is selected.
    ensures !Truthy(a.id) ==> (SelectOffered(a, selectedDoctor, field) <==>
      field != StatusSelect && (field == SlotSelect ==> selectedDoctor != ""))
  {
    match field
    case PatientSelect => !Truthy(a.id)
    case DoctorSelect => !Truthy(a.id)
    case SlotSelect => selectedDoctor != "" && !Truthy(a.id)
    case StatusSelect => Truthy(a.id)
  }

  /** One change a user makes in the dialog: a pick in a select box, or typing in the notes. */
  datatype DraftEdit = Pick(field: SelectField, value: string) | TypeNotes(text: string)

  /** The draft after an edit. */
  function ApplyEdit(a: Appointment, e: DraftEdit): Appointment
  {
    match e
    case Pick(field, value) => WithSelect(a, field, value)
    case TypeNotes(text) => a.(notes := Some(text))
  }

  /** The draft after a run of edits, each one taking effect only if its control is offered;
      the page keeps `selectedDoctor` equal to the draft's doctor (`AppointmentsPage.Valid`),
      so the slot list is offered once the draft has a doctor. */
  function ApplyOfferedEdits(a: Appointment, edits: seq<DraftEdit>): Appointment
    decreases |edits|
  {
    if edits == [] then a
    else
      var e := edits[0];
      var next := if e.TypeNotes? || SelectOffered(a, a.doctorId, e.field) then ApplyEdit(a, e) else a;
      ApplyOfferedEdits(next, edits[1..])
  }

  /** Once booked, no run of edits through the dialog changes who the appointment is for,
      with which doctor, or when: only its status and notes stay editable. */
  lemma {:induction false} BookedKeepsReferences(a: Appointment, edits: seq<DraftEdit>)
    requires Truthy(a.id)
    ensures var b := ApplyOfferedEdits(a, edits);
      b.id == a.id && b.patientId == a.patientId && b.doctorId == a.doctorId &&
      b.appointmentDate == a.appointmentDate
    decreases |edits|
  {
    if edits != [] {
      var e := edits[0];
      var next := if e.TypeNotes? || SelectOffered(a, a.doctorId, e.field) then ApplyEdit(a, e) else a;
      BookedKeepsReferences(next, edits[1..]);
    }
  }

  /** The submit button's `disabled` test, negated. */
  function SubmitEnabled(draft: Option<Appointment>): (r: bool)
    ensures r <==> (draft.Some? &&
      (Truthy(draft.value.id) ||
       (draft.value.patientId != "" && draft.value.doctorId != "" && draft.value.appointmentDate != "")))
  {
    !(!(draft.Some? && Truthy(draft.value.id)) &&
      (!(draft.Some? && draft.value.patientId != "") ||
       !(draft.Some? && draft.value.doctorId != "") ||
       !(draft.Some? && draft.value.appointmentDate != "")))
  }

  /** A new booking cannot be submitted as it starts; picking a patient, a doctor and a slot
      (none of them empty) enables it. */
  lemma BookingNeedsPatientDoctorAndSlot(patientId: string, doctorId: string, slot: string)
    requires patientId != "" && doctorId != "" && slot != ""
    ensures !SubmitEnabled(Some(DefaultAppointment))
    ensures SubmitEnabled(Some(ApplyOfferedEdits(DefaultAppointment,
      [Pick(PatientSelect, patientId), Pick(DoctorSelect, doctorId), Pick(SlotSelect, slot)])))
  {
    var edits := [Pick(PatientSelect, patientId), Pick(DoctorSelect, doctorId), Pick(SlotSelect, slot)];
    var a1 := DefaultAppointment.(patientId := patientId);
    var a2 := a1.(doctorId := doctorId);
    var a3 := a2.(appointmentDate := slot);
    assert edits[1..] == [Pick(DoctorSelect, doctorId), Pick(SlotSelect, slot)];
    assert edits[1..][1..] == [Pick(SlotSelect, slot)];
    assert ApplyOfferedEdits(a2, [Pick(SlotSelect, slot)]) == a3 by {
      assert ApplyOfferedEdits(a3, []) == a3;
    }
  }

  /** The cancel button is offered for scheduled appointments only. */
  predicate CancelOffered(a: Appointment)
  {
    a.status == Scheduled
  }

  /** Whether a row will show the cancel button once a draft is saved: a new booking starts
      out cancellable, and in the dialog the status select alone decides whether the saved
      row keeps the button; picking any status but SCHEDULED removes it, and no other edit
      touches it. */
  lemma CancelFollowsStatus(a: Appointment, status: string, e: DraftEdit)
    ensures CancelOffered(DefaultAppointment)
    ensures CancelOffered(ApplyEdit(a, Pick(StatusSelect, status))) <==> status == Scheduled
    ensures e.TypeNotes? || e.field != StatusSelect ==> (CancelOffered(ApplyEdit(a, e)) <==> CancelOffered(a))
  {
  }

  /** The calls the page makes on the services. */
  datatype AppointmentRequest =
    | GetAllAppointments
    | GetAllPatients
    | GetAllDoctors
    | GetAvailableSlots(doctorId: string)
    | BookAppointment(appointment: Appointment)
    | UpdateAppointment(appointment: Appointment)
    | CancelAppointment(appointmentId: string)

  /** The save a submit dispatches: an update for a booked appointment, a booking otherwise. */
  function SaveRequest(a: Appointment): (r: AppointmentRequest)
    ensures r.UpdateAppointment? <==> Truthy(a.id)
    ensures r.BookAppointment? <==> !Truthy(a.id)
    ensures (r.UpdateAppointment? || r.BookAppointment?) && r.appointment == a
  {
    if Truthy(a.id) then UpdateAppointment(a) else BookAppointment(a)
  }

  const LoadError: string := "Failed to load appointments. Please try again later."

  class AppointmentsPage {
    var appointments: seq<Appointment>
    var patients: seq<Patients.Patient>
    var doctors: seq<Doctors.Doctor>
    var availableSlots: seq<TimeSlots.TimeSlot>
    var isLoading: bool
    var error: Option<string>
    var isDialogOpen: bool
    var currentAppointment: Option<Appointment>
    var selectedDoctor: string

    /** `selectedDoctor` is the draft's doctor, and empty when there is no draft. */
    predicate Valid()
      reads this
    {
      selectedDoctor == (if currentAppointment.Some? then currentAppointment.value.doctorId else "")
    }

    /** The page as first rendered. */
    constructor()
      ensures Valid()
      ensures appointments == [] && patients == [] && doctors == [] && availableSlots == []
      ensures isLoading && error == None && !isDialogOpen && currentAppointment == None
    {
      appointments := [];
      patients := [];
      doctors := [];
      availableSlots := [];
      isLoading := true;
      error := None;
      isDialogOpen := false;
      currentAppointment := None;
      selectedDoctor := "";
    }

    /** The mount effect: the three fetches up to their awaits. */
    method Mount() returns (sent: seq<AppointmentRequest>)
      modifies `isLoading, `error
      ensures sent == [GetAllAppointments, GetAllPatients, GetAllDoctors]
      ensures isLoading && error == None
    {
      isLoading := true;
      error := None;
      sent := [GetAllAppointments, GetAllPatients, GetAllDoctors];
    }

    /** The effect on `selectedDoctor`: ask for the doctor's open slots when one is chosen. */
    method SelectedDoctorEffect() returns (sent: seq<AppointmentRequest>)
      ensures sent == if selectedDoctor != "" then [GetAvailableSlots(selectedDoctor)] else []
    {
      sent := if selectedDoctor != "" then [GetAvailableSlots(selectedDoctor)] else [];
    }

    /** `fetchAppointments` up to its await. */
    method Fetch() returns (sent: seq<AppointmentRequest>)
      modifies `isLoading, `error
      ensures sent == [GetAllAppointments]
      ensures isLoading && error == None
    {
      isLoading := true;
      error := None;
      sent := [GetAllAppointments];
    }

    /** `fetchAppointments` after its await. */
    method Loaded(reply: Reply<seq<Appointment>>)
      modifies `appointments, `error, `isLoading
      ensures reply.Ok? ==> appointments == reply.data && error == old(error)
      ensures reply.Failed? ==> appointments == old(appointments) && error == Some(LoadError)
      ensures !isLoading
    {
      match reply {
        case Ok(data) =>
          appointments := data;
        case Failed =>
          error := Some(LoadError);
      }
      isLoading := false;
    }

    /** `fetchPatients` after its await: a failure is only logged. */
    method PatientsLoaded(reply: Reply<seq<Patients.Patient>>)
      modifies `patients
      ensures patients == if reply.Ok? then reply.data else old(patients)
    {
      if reply.Ok? {
        patients := reply.data;
      }
    }

    /** `fetchDoctors` after its await: a failure is only logged. */
    method DoctorsLoaded(reply: Reply<seq<Doctors.Doctor>>)
      modifies `doctors
      ensures doctors == if reply.Ok? then reply.data else old(doctors)
    {
      if reply.Ok? {
        doctors := reply.data;
      }
    }

    /** `fetchAvailableSlots` after its await: a failure only raises a notice. */
    method SlotsLoaded(reply: Reply<seq<TimeSlots.TimeSlot>>)
      modifies `availableSlots
      ensures availableSlots == if reply.Ok? then reply.data else old(availableSlots)
    {
      if reply.Ok? {
        availableSlots := reply.data;
      }
    }

    /** `handleOpenDialog`: edit `appointment` with its doctor selected, or start a new
        booking with no doctor selected. */
    method OpenDialog(appointment: Option<Appointment>)
      modifies `currentAppointment, `selectedDoctor, `isDialogOpen
      ensures Valid()
      ensures currentAppointment == Some(if appointment.Some? then appointment.value else DefaultAppointment)
      ensures selectedDoctor == if appointment.Some? then appointment.value.doctorId else ""
      ensures isDialogOpen
    {
      if appointment.Some? {
        currentAppointment := appointment;
        selectedDoctor := appointment.value.doctorId;
      } else {
        currentAppointment := Some(DefaultAppointment);
        selectedDoctor := "";
      }
      isDialogOpen := true;
    }

    /** `handleCloseDialog`. */
    method CloseDialog()
      modifies `currentAppointment, `selectedDoctor, `isDialogOpen
      ensures Valid()
      ensures !isDialogOpen && currentAppointment == None && selectedDoctor == ""
    {
      isDialogOpen := false;
      currentAppointment := None;
      selectedDoctor := "";
    }

    /** The dialog's `onOpenChange={setIsDialogOpen}`: Escape, a click outside or the close
        button hide the dialog without `handleCloseDialog`, so the draft and the selected
        doctor stay as they are. */
    method OpenChange(open: bool)
      requires Valid()
      modifies `isDialogOpen
      ensures Valid()
      ensures isDialogOpen == open
    {
      isDialogOpen := open;
    }

    /** `handleInputChange`, wired to the notes only. */
    method NotesChange(text: string)
      requires Valid()
      modifies `currentAppointment
      ensures Valid()
      ensures currentAppointment == if old(currentAppointment).Some?
        then Some(old(currentAppointment).value.(notes := Some(text))) else None
    {
      if currentAppointment.Some? {
        currentAppointment := Some(currentAppointment.value.(notes := Some(text)));
      }
    }

    /** `handleSelectChange`: set the named field of the draft; a doctor pick also becomes
        `selectedDoctor`; nothing without a draft. */
    method SelectChange(field: SelectField, value: string)
      requires Valid()
      modifies `currentAppointment, `selectedDoctor
      ensures Valid()
      ensures currentAppointment == if old(currentAppointment).Some?
        then Some(WithSelect(old(currentAppointment).value, field, value)) else None
      ensures selectedDoctor ==
        if old(currentAppointment).Some? && field == DoctorSelect then value else old(selectedDoctor)
    {
      if currentAppointment.Some? {
        if field == DoctorSelect {
          selectedDoctor := value;
        }
        currentAppointment := Some(WithSelect(currentAppointment.value, field, value));
      }
    }

    /** `handleSubmit`: save the draft; when the save succeeds, start a refresh and close
        the dialog; when it fails, the dialog stays open with its draft. */
    method Submit(callSucceeded: bool) returns (sent: seq<AppointmentRequest>)
      requires Valid()
      modifies this
      ensures Valid()
      ensures old(currentAppointment).None? ==> sent == []
      ensures old(currentAppointment).None? || !callSucceeded ==>
        currentAppointment == old(currentAppointment) && selectedDoctor == old(selectedDoctor) &&
        isDialogOpen == old(isDialogOpen) && isLoading == old(isLoading) && error == old(error)
      ensures old(currentAppointment).Some? && !callSucceeded ==>
        sent == [SaveRequest(old(currentAppointment).value)]
      ensures old(currentAppointment).Some? && callSucceeded ==>
        sent == [SaveRequest(old(currentAppointment).value), GetAllAppointments] &&
        isLoading && error == None && !isDialogOpen && currentAppointment == None
      ensures appointments == old(appointments) && patients == old(patients)
      ensures doctors == old(doctors) && availableSlots == old(availableSlots)
    {
      sent := [];
      if currentAppointment.None? {
        return;
      }
      sent := [SaveRequest(currentAppointment.value)];
      if callSucceeded {
        var refresh := Fetch();
        sent := sent + refresh;
        CloseDialog();
      }
    }

    /** The row's cancel button (`appointment.id && handleCancel(appointment.id)`): with an
        id and the user's confirmation, cancel, then start a refresh when the call succeeds. */
    method Cancel(row: Appointment, confirmed: bool, callSucceeded: bool)
      returns (sent: seq<AppointmentRequest>)
      modifies `isLoading, `error
      ensures !Truthy(row.id) || !confirmed ==> sent == []
      ensures Truthy(row.id) && confirmed && !callSucceeded ==> sent == [CancelAppointment(row.id.value)]
      ensures Truthy(row.id) && confirmed && callSucceeded ==>
        sent == [CancelAppointment(row.id.value), GetAllAppointments] && isLoading && error == None
      ensures !(Truthy(row.id) && confirmed && callSucceeded) ==>
        isLoading == old(isLoading) && error == old(error)
    {
      sent := [];
      if !Truthy(row.id) || !confirmed {
        return;
      }
      sent := [CancelAppointment(row.id.value)];
      if callSucceeded {
        var refresh := Fetch();
        sent := sent + refresh;
      }
    }
  }
}
