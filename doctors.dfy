/** The doctor management page (src/pages/Doctors.tsx) over the doctor record of
    src/services/doctorService.ts. */
module Doctors {
  import opened Js
  import opened Roles
  import opened Lists
  import opened Text
  import MainLayout

  /** A doctor record; `id` is absent until the server has stored it. */
  datatype Doctor = Doctor(
    id: Option<string>, name: string, specialization: string,
    contactInfo: string, availability: Option<string>)

  /** The page renders inside a layout open to administrators and patients. */
  const Layout: MainLayout.LayoutProps := MainLayout.LayoutProps(true, [Admin, Patient])

  /** `isReadOnly`: every role but the administrator only reads. */
  predicate IsReadOnly(userRole: Option<string>)
    // Whoever may write is let in by the page's guard.
    ensures !IsReadOnly(userRole) ==> MainLayout.Guard(Layout, true, userRole) == MainLayout.RenderPage
  {
    userRole != Some(Admin)
  }

  /** The guard in front of the page: an anonymous visitor is sent to log in, and a signed-in
      user with a role other than ADMIN or PATIENT is sent to the unauthorized page. */
  lemma PageAccess(isAuthenticated: bool, userRole: Option<string>)
    ensures MainLayout.Guard(Layout, isAuthenticated, userRole) == MainLayout.RedirectToLogin <==> !isAuthenticated
    ensures MainLayout.Guard(Layout, isAuthenticated, userRole) == MainLayout.RedirectToUnauthorized <==>
      isAuthenticated && Truthy(userRole) && userRole != Some(Admin) && userRole != Some(Patient)
  {
  }

  /** The draft a new doctor starts from. */
  const DefaultDoctor: Doctor := Doctor(None, "", "", "", Some(""))

  /** The inputs wired to `handleInputChange`, by their `name` attribute. */
  datatype DoctorInput = NameInput | SpecializationInput | ContactInfoInput | AvailabilityInput

  /** `handleInputChange` on a draft: the named field takes the typed value. */
  function WithInput(d: Doctor, input: DoctorInput, value: string): (e: Doctor)
    ensures input == NameInput ==> e == d.(name := value)
    ensures input == SpecializationInput ==> e == d.(specialization := value)
    ensures input == ContactInfoInput ==> e == d.(contactInfo := value)
    ensures input == AvailabilityInput ==> e == d.(availability := Some(value))
    ensures e.id == d.id
  {
    match input
    case NameInput => d.(name := value)
    case SpecializationInput => d.(specialization := value)
    case ContactInfoInput => d.(contactInfo := value)
    case AvailabilityInput => d.(availability := Some(value))
  }

  /** The search test: the term, lower-cased, occurs in the lower-cased name or specialization. */
  function MatchesSearch(term: string): Doctor -> bool
  {
    (d: Doctor) => IncludesIgnoringCase(d.name, term) || IncludesIgnoringCase(d.specialization, term)
  }

  /** `filteredDoctors`. */
  function FilterDoctors(doctors: seq<Doctor>, term: string): (r: seq<Doctor>)
    ensures forall d :: d in r <==>
      d in doctors && (ContainsIgnoringCase(d.name, term) || ContainsIgnoringCase(d.specialization, term))
    ensures forall d :: multiset(r)[d] ==
              (if ContainsIgnoringCase(d.name, term) || ContainsIgnoringCase(d.specialization, term)
               then multiset(doctors)[d] else 0)
    ensures |r| <= |doctors| && IsSubsequence(r, doctors)
    ensures term == "" ==> r == doctors
  {
    var keep := MatchesSearch(term);
    FilterIsSubsequence(keep, doctors);
    FilterCount(keep, doctors);
    if term == "" then
      FilterKeepsAll(keep, doctors);
      Filter(keep, doctors)
    else
      Filter(keep, doctors)
  }

  /** The cardiologist Dr. Lee, as a stored record. */
  const DrLee: Doctor := Doctor(Some("1"), "Dr. Lee", "Cardiology", "", None)

  /** Searching for "lee" keeps Dr. Lee. */
  lemma SearchFindsLee()
    ensures FilterDoctors([DrLee], "lee") == [DrLee]
  {
    assert Lower("Dr. Lee") == "dr. lee";
    assert Lower("lee") == "lee";
    assert OccursAt(Lower(DrLee.name), Lower("lee"), 4);
    var r := FilterDoctors([DrLee], "lee");
    assert DrLee in r;
  }

  /** Searching for "neuro" finds nothing: neither the name nor the specialization has an 'n'. */
  lemma SearchForNeuroIsEmpty()
    ensures FilterDoctors([DrLee], "neuro") == []
  {
    assert Lower("Dr. Lee") == "dr. lee";
    assert Lower("Cardiology") == "cardiology";
    assert Lower("neuro") == "neuro";
    MissingLetterNotContained(DrLee.name, "neuro", 'n');
    MissingLetterNotContained(DrLee.specialization, "neuro", 'n');
  }

  /** The `find` test of the name lookups: a record whose id is `id`. */
  function HasId(id: string): Doctor -> bool
  {
    (d: Doctor) => d.id == Some(id)
  }

  const UnknownDoctor: string := "Unknown Doctor"

  /** `getDoctorName` of the appointment and time slot pages: the name of the first doctor
      with the id, or "Unknown Doctor". */
  function DoctorName(doctors: seq<Doctor>, id: string): (r: string)
    ensures (forall k :: 0 <= k < |doctors| ==> doctors[k].id != Some(id)) ==> r == UnknownDoctor
    ensures (exists k :: 0 <= k < |doctors| && doctors[k].id == Some(id)) ==>
      exists k :: 0 <= k < |doctors| && doctors[k].id == Some(id) && r == doctors[k].name &&
        forall j :: 0 <= j < k ==> doctors[j].id != Some(id)
  {
    match Find(HasId(id), doctors)
    case None => UnknownDoctor
    case Some(d) => d.name
  }

  /** The calls the page makes on the doctor service. */
  datatype DoctorRequest =
    | GetAllDoctors
    | AddDoctor(doctor: Doctor)
    | UpdateDoctor(doctor: Doctor)
    | DeleteDoctor(doctorId: string)

  /** The save a submit dispatches: an update for a stored record, an addition otherwise. */
  function SaveRequest(d: Doctor): (r: DoctorRequest)
    ensures r.UpdateDoctor? <==> Truthy(d.id)
    ensures r.AddDoctor? <==> !Truthy(d.id)
    ensures (r.UpdateDoctor? || r.AddDoctor?) && r.doctor == d
  {
    if Truthy(d.id) then UpdateDoctor(d) else AddDoctor(d)
  }

  const LoadError: string := "Failed to load doctors. Please try again later."

  class DoctorsPage {
    var doctors: seq<Doctor>
    var isLoading: bool
    var error: Option<string>
    var isDialogOpen: bool
    var currentDoctor: Option<Doctor>
    var searchTerm: string

    /** The page as first rendered, before the mount effect's fetch starts. */
    constructor()
      ensures doctors == [] && isLoading && error == None
      ensures !isDialogOpen && currentDoctor == None && searchTerm == ""
    {
      doctors := [];
      isLoading := true;
      error := None;
      isDialogOpen := false;
      currentDoctor := None;
      searchTerm := "";
    }

    /** `fetchDoctors` up to its await: raise the loading flag, clear the error, request the list. */
    method Fetch() returns (sent: seq<DoctorRequest>)
      modifies this
      ensures sent == [GetAllDoctors]
      ensures isLoading && error == None
      ensures doctors == old(doctors) && isDialogOpen == old(isDialogOpen)
      ensures currentDoctor == old(currentDoctor) && searchTerm == old(searchTerm)
    {
      isLoading := true;
      error := None;
      sent := [GetAllDoctors];
    }

    /** `fetchDoctors` after its await: take the list, or record the error; stop loading. */
    method Loaded(reply: Reply<seq<Doctor>>)
      modifies this
      ensures reply.Ok? ==> doctors == reply.data && error == old(error)
      ensures reply.Failed? ==> doctors == old(doctors) && error == Some(LoadError)
      ensures !isLoading
      ensures isDialogOpen == old(isDialogOpen) && currentDoctor == old(currentDoctor)
      ensures searchTerm == old(searchTerm)
    {
      match reply {
        case Ok(data) =>
          doctors := data;
        case Failed =>
          error := Some(LoadError);
      }
      isLoading := false;
    }

    /** `handleOpenDialog`: edit `doctor`, or a fresh default draft when there is none. */
    method OpenDialog(doctor: Option<Doctor>)
      modifies this
      ensures currentDoctor == Some(if doctor.Some? then doctor.value else DefaultDoctor)
      ensures isDialogOpen
      ensures doctors == old(doctors) && isLoading == old(isLoading) && error == old(error)
      ensures searchTerm == old(searchTerm)
    {
      currentDoctor := Some(if doctor.Some? then doctor.value else DefaultDoctor);
      isDialogOpen := true;
    }

    /** `handleCloseDialog`. */
    method CloseDialog()
      modifies this
      ensures !isDialogOpen && currentDoctor == None
      ensures doctors == old(doctors) && isLoading == old(isLoading) && error == old(error)
      ensures searchTerm == old(searchTerm)
    {
      isDialogOpen := false;
      currentDoctor := None;
    }

    /** The dialog's `onOpenChange={setIsDialogOpen}`: Escape, a click outside or the close
        button hide the dialog without `handleCloseDialog`, so the draft stays as it is. */
    method OpenChange(open: bool)
      modifies `isDialogOpen
      ensures isDialogOpen == open
    {
      isDialogOpen := open;
    }

    /** `handleInputChange`: update the named field of the draft; nothing without a draft. */
    method InputChange(input: DoctorInput, value: string)
      modifies `currentDoctor
      ensures old(currentDoctor).None? ==> currentDoctor == None
      ensures old(currentDoctor).Some? ==>
        currentDoctor == Some(WithInput(old(currentDoctor).value, input, value))
    {
      if currentDoctor.Some? {
        currentDoctor := Some(WithInput(currentDoctor.value, input, value));
      }
    }

    /** The search box. */
    method SetSearchTerm(term: string)
      modifies `searchTerm
      ensures searchTerm == term
    {
      searchTerm := term;
    }

    /** `handleSubmit`: save the draft; when the save succeeds, start a refresh and close
        the dialog; when it fails, the dialog stays open with its draft. */
    method Submit(callSucceeded: bool) returns (sent: seq<DoctorRequest>)
      modifies this
      ensures old(currentDoctor).None? ==> sent == [] && currentDoctor == None
      ensures old(currentDoctor).None? || !callSucceeded ==>
        isLoading == old(isLoading) && error == old(error) && isDialogOpen == old(isDialogOpen)
      ensures old(currentDoctor).Some? && !callSucceeded ==>
        sent == [SaveRequest(old(currentDoctor).value)] && currentDoctor == old(currentDoctor)
      ensures old(currentDoctor).Some? && callSucceeded ==>
        sent == [SaveRequest(old(currentDoctor).value), GetAllDoctors] &&
        isLoading && error == None && !isDialogOpen && currentDoctor == None
      ensures doctors == old(doctors) && searchTerm == old(searchTerm)
    {
      sent := [];
      if currentDoctor.None? {
        return;
      }
      sent := [SaveRequest(currentDoctor.value)];
      if callSucceeded {
        var refresh := Fetch();
        sent := sent + refresh;
        CloseDialog();
      }
    }

    /** The row's delete button (`doctor.id && handleDelete(doctor.id)`): with an id and the
        user's confirmation, delete, then start a refresh when the call succeeds. */
    method Delete(row: Doctor, confirmed: bool, callSucceeded: bool) returns (sent: seq<DoctorRequest>)
      modifies this
      ensures !Truthy(row.id) || !confirmed ==> sent == []
      ensures Truthy(row.id) && confirmed && !callSucceeded ==> sent == [DeleteDoctor(row.id.value)]
      ensures Truthy(row.id) && confirmed && callSucceeded ==>
        sent == [DeleteDoctor(row.id.value), GetAllDoctors] && isLoading && error == None
      ensures !(Truthy(row.id) && confirmed && callSucceeded) ==>
        isLoading == old(isLoading) && error == old(error)
      ensures doctors == old(doctors) && isDialogOpen == old(isDialogOpen)
      ensures currentDoctor == old(currentDoctor) && searchTerm == old(searchTerm)
    {
      sent := [];
      if !Truthy(row.id) || !confirmed {
        return;
      }
      sent := [DeleteDoctor(row.id.value)];
      if callSucceeded {
        var refresh := Fetch();
        sent := sent + refresh;
      }
    }
  }
}
