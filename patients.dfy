/** The patient management page (src/pages/Patients.tsx) over the patient record of
    src/services/patientService.ts. */
module Patients {
  import opened Js
  import opened Roles
  import opened Lists
  import opened Text
  import MainLayout

  /** A patient record; `id` is absent until the server has stored it. */
  datatype Patient = Patient(
    id: Option<string>, name: string, age: int, gender: string,
    contactInfo: string, medicalHistory: Option<string>)

  /** The page renders inside a layout open to administrators and doctors. */
  const Layout: MainLayout.LayoutProps := MainLayout.LayoutProps(true, [Admin, Doctor])

  /** `isReadOnly`: every role but the administrator only reads. */
  predicate IsReadOnly(userRole: Option<string>)
    // Whoever may write is let in by the page's guard.
    ensures !IsReadOnly(userRole) ==> MainLayout.Guard(Layout, true, userRole) == MainLayout.RenderPage
  {
    userRole != Some(Admin)
  }

  /** The guard in front of the page: an anonymous visitor is sent to log in, and a signed-in
      user with a role other than ADMIN or DOCTOR is sent to the unauthorized page. */
  lemma PageAccess(isAuthenticated: bool, userRole: Option<string>)
    ensures MainLayout.Guard(Layout, isAuthenticated, userRole) == MainLayout.RedirectToLogin <==> !isAuthenticated
    ensures MainLayout.Guard(Layout, isAuthenticated, userRole) == MainLayout.RedirectToUnauthorized <==>
      isAuthenticated && Truthy(userRole) && userRole != Some(Admin) && userRole != Some(Doctor)
  {
  }

  /** The draft a new patient starts from. */
  const DefaultPatient: Patient := Patient(None, "", 0, "", "", Some(""))

  /** The text inputs wired to `handleInputChange`, by their `name` attribute. */
  datatype PatientInput = NameInput | AgeInput | ContactInfoInput | MedicalHistoryInput

  /** `handleInputChange` on a draft: the named field takes the typed value, the age as
      `parseInt(value) || 0`. */
  function WithInput(p: Patient, input: PatientInput, value: string): (q: Patient)
    ensures input == NameInput ==> q == p.(name := value)
    ensures input == AgeInput ==> q == p.(age := ParseIntOrZero(value))
    ensures input == ContactInfoInput ==> q == p.(contactInfo := value)
    ensures input == MedicalHistoryInput ==> q == p.(medicalHistory := Some(value))
    ensures q.id == p.id && q.gender == p.gender
  {
    match input
    case NameInput => p.(name := value)
    case AgeInput => p.(age := ParseIntOrZero(value))
    case ContactInfoInput => p.(contactInfo := value)
    case MedicalHistoryInput => p.(medicalHistory := Some(value))
  }

  /** Typing a number into the age field stores that number, with or without a minus sign
      and whatever non-digit text follows it. */
  lemma AgeInputReadsNumber(p: Patient, n: nat, tail: string)
    requires tail == [] || !IsDigit(tail[0])
    ensures WithInput(p, AgeInput, Show(n) + tail) == p.(age := n)
    ensures WithInput(p, AgeInput, "-" + (Show(n) + tail)) == p.(age := -(n as int))
  {
    ParseShownNumber(n, tail);
  }

  /** Text that does not start with a digit or a signed digit (so also "", "-" or "+x")
      leaves the age at 0. */
  lemma AgeInputWithoutNumber(p: Patient, value: string)
    requires !((value != [] && IsDigit(value[0])) ||
               (|value| >= 2 && (value[0] == '-' || value[0] == '+') && IsDigit(value[1])))
    ensures WithInput(p, AgeInput, value).age == 0
  {
  }

  /** The search test: the term, lower-cased, occurs in the lower-cased name or contact. */
  function MatchesSearch(term: string): Patient -> bool
  {
    (p: Patient) => IncludesIgnoringCase(p.name, term) || IncludesIgnoringCase(p.contactInfo, term)
  }

  /** `filteredPatients`. */
  function FilterPatients(patients: seq<Patient>, term: string): (r: seq<Patient>)
    ensures forall p :: p in r <==>
      p in patients && (ContainsIgnoringCase(p.name, term) || ContainsIgnoringCase(p.contactInfo, term))
    ensures forall p :: multiset(r)[p] ==
              (if ContainsIgnoringCase(p.name, term) || ContainsIgnoringCase(p.contactInfo, term)
               then multiset(patients)[p] else 0)
    ensures |r| <= |patients| && IsSubsequence(r, patients)
    ensures term == "" ==> r == patients
  {
    var keep := MatchesSearch(term);
    FilterIsSubsequence(keep, patients);
    FilterCount(keep, patients);
    if term == "" then
      FilterKeepsAll(keep, patients);
      Filter(keep, patients)
    else
      Filter(keep, patients)
  }

  /** The `find` test of the appointment page's name lookup: a record whose id is `id`. */
  function HasId(id: string): Patient -> bool
  {
    (p: Patient) => p.id == Some(id)
  }

  const UnknownPatient: string := "Unknown Patient"

  /** `getPatientName` of the appointment page: the name of the first patient with the id,
      or "Unknown Patient". */
  function PatientName(patients: seq<Patient>, id: string): (r: string)
    ensures (forall k :: 0 <= k < |patients| ==> patients[k].id != Some(id)) ==> r == UnknownPatient
    ensures (exists k :: 0 <= k < |patients| && patients[k].id == Some(id)) ==>
      exists k :: 0 <= k < |patients| && patients[k].id == Some(id) && r == patients[k].name &&
        forall j :: 0 <= j < k ==> patients[j].id != Some(id)
  {
    match Find(HasId(id), patients)
    case None => UnknownPatient
    case Some(p) => p.name
  }

  /** The calls the page makes on the patient service. */
  datatype PatientRequest =
    | GetAllPatients
    | AddPatient(patient: Patient)
    | UpdatePatient(patient: Patient)
    | DeletePatient(patientId: string)

  /** The save a submit dispatches: an update for a stored record, an addition otherwise. */
  function SaveRequest(p: Patient): (r: PatientRequest)
    ensures r.UpdatePatient? <==> Truthy(p.id)
    ensures r.AddPatient? <==> !Truthy(p.id)
    ensures (r.UpdatePatient? || r.AddPatient?) && r.patient == p
  {
    if Truthy(p.id) then UpdatePatient(p) else AddPatient(p)
  }

  const LoadError: string := "Failed to load patients. Please try again later."

  /** What the table body shows. */
  datatype TableView = LoadingRow | NoPatientsFound | Rows(rows: seq<Patient>)

  function View(isLoading: bool, shown: seq<Patient>): (v: TableView)
    ensures v.Rows? ==> !isLoading && v.rows == shown && |shown| > 0
    ensures v == NoPatientsFound <==> !isLoading && shown == []
    ensures v == LoadingRow <==> isLoading
  {
    if isLoading then LoadingRow else if shown == [] then NoPatientsFound else Rows(shown)
  }

  class PatientsPage {
    var patients: seq<Patient>
    var isLoading: bool
    var error: Option<string>
    var isDialogOpen: bool
    var currentPatient: Option<Patient>
    var searchTerm: string

    /** The page as first rendered, before the mount effect's fetch starts. */
    constructor()
      ensures patients == [] && isLoading && error == None
      ensures !isDialogOpen && currentPatient == None && searchTerm == ""
    {
      patients := [];
      isLoading := true;
      error := None;
      isDialogOpen := false;
      currentPatient := None;
      searchTerm := "";
    }

    /** `fetchPatients` up to its await: raise the loading flag, clear the error, request the list. */
    method Fetch() returns (sent: seq<PatientRequest>)
      modifies this
      ensures sent == [GetAllPatients]
      ensures isLoading && error == None
      ensures patients == old(patients) && isDialogOpen == old(isDialogOpen)
      ensures currentPatient == old(currentPatient) && searchTerm == old(searchTerm)
    {
      isLoading := true;
      error := None;
      sent := [GetAllPatients];
    }

    /** `fetchPatients` after its await: take the list, or record the error; stop loading. */
    method Loaded(reply: Reply<seq<Patient>>)
      modifies this
      ensures reply.Ok? ==> patients == reply.data && error == old(error)
      ensures reply.Failed? ==> patients == old(patients) && error == Some(LoadError)
      ensures !isLoading
      ensures isDialogOpen == old(isDialogOpen) && currentPatient == old(currentPatient)
      ensures searchTerm == old(searchTerm)
    {
      match reply {
        case Ok(data) =>
          patients := data;
        case Failed =>
          error := Some(LoadError);
      }
      isLoading := false;
    }

    /** `handleOpenDialog`: edit `patient`, or a fresh default draft when there is none. */
    method OpenDialog(patient: Option<Patient>)
      modifies this
      ensures currentPatient == Some(if patient.Some? then patient.value else DefaultPatient)
      ensures isDialogOpen
      ensures patients == old(patients) && isLoading == old(isLoading) && error == old(error)
      ensures searchTerm == old(searchTerm)
    {
      currentPatient := Some(if patient.Some? then patient.value else DefaultPatient);
      isDialogOpen := true;
    }

    /** `handleCloseDialog`. */
    method CloseDialog()
      modifies this
      ensures !isDialogOpen && currentPatient == None
      ensures patients == old(patients) && isLoading == old(isLoading) && error == old(error)
      ensures searchTerm == old(searchTerm)
    {
      isDialogOpen := false;
      currentPatient := None;
    }

    /** The dialog's `onOpenChange={setIsDialogOpen}`: Escape, a click outside or the close
        button hide the dialog without `handleCloseDialog`, so the draft stays as it is. */
    method OpenChange(open: bool)
      modifies `isDialogOpen
      ensures isDialogOpen == open
    {
      isDialogOpen := open;
    }

    /** `handleInputChange`: update the named field of the draft; nothing without a draft. */
    method InputChange(input: PatientInput, value: string)
      modifies `currentPatient
      ensures old(currentPatient).None? ==> currentPatient == None
      ensures old(currentPatient).Some? ==>
        currentPatient == Some(WithInput(old(currentPatient).value, input, value))
    {
      if currentPatient.Some? {
        currentPatient := Some(WithInput(currentPatient.value, input, value));
      }
    }

    /** `handleGenderChange`: the gender select sets the draft's gender. */
    method GenderChange(value: string)
      modifies `currentPatient
      ensures old(currentPatient).None? ==> currentPatient == None
      ensures old(currentPatient).Some? ==> currentPatient == Some(old(currentPatient).value.(gender := value))
    {
      if currentPatient.Some? {
        currentPatient := Some(currentPatient.value.(gender := value));
      }
    }

    /** The search box. */
    method SetSearchTerm(term: string)
      modifies `searchTerm
      ensures searchTerm == term
    {
      searchTerm := term;
    }

    /** `handleSubmit`: save the draft; when the save succeeds, start a refresh and close
        the dialog; when it fails, the dialog stays open with its draft. */
    method Submit(callSucceeded: bool) returns (sent: seq<PatientRequest>)
      modifies this
      ensures old(currentPatient).None? ==> sent == [] && currentPatient == None
      ensures old(currentPatient).None? || !callSucceeded ==>
        isLoading == old(isLoading) && error == old(error) && isDialogOpen == old(isDialogOpen)
      ensures old(currentPatient).Some? && !callSucceeded ==>
        sent == [SaveRequest(old(currentPatient).value)] && currentPatient == old(currentPatient)
      ensures old(currentPatient).Some? && callSucceeded ==>
        sent == [SaveRequest(old(currentPatient).value), GetAllPatients] &&
        isLoading && error == None && !isDialogOpen && currentPatient == None
      ensures patients == old(patients) && searchTerm == old(searchTerm)
    {
      sent := [];
      if currentPatient.None? {
        return;
      }
      sent := [SaveRequest(currentPatient.value)];
      if callSucceeded {
        var refresh := Fetch();
        sent := sent + refresh;
        CloseDialog();
      }
    }

    /** The row's delete button (`patient.id && handleDelete(patient.id)`): with an id and the
        user's confirmation, delete, then start a refresh when the call succeeds. */
    method Delete(row: Patient, confirmed: bool, callSucceeded: bool) returns (sent: seq<PatientRequest>)
      modifies this
      ensures !Truthy(row.id) || !confirmed ==> sent == []
      ensures Truthy(row.id) && confirmed && !callSucceeded ==> sent == [DeletePatient(row.id.value)]
      ensures Truthy(row.id) && confirmed && callSucceeded ==>
        sent == [DeletePatient(row.id.value), GetAllPatients] && isLoading && error == None
      ensures !(Truthy(row.id) && confirmed && callSucceeded) ==>
        isLoading == old(isLoading) && error == old(error)
      ensures patients == old(patients) && isDialogOpen == old(isDialogOpen)
      ensures currentPatient == old(currentPatient) && searchTerm == old(searchTerm)
    {
      sent := [];
      if !Truthy(row.id) || !confirmed {
        return;
      }
      sent := [DeletePatient(row.id.value)];
      if callSucceeded {
        var refresh := Fetch();
        sent := sent + refresh;
      }
    }
  }
}
