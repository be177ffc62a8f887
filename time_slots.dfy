/** The time slot page (src/pages/TimeSlots.tsx) over the slot record of
    src/services/slotService.ts. */
module TimeSlots {
  import opened Js
  import opened Roles
  import opened Text
  import MainLayout
  import Doctors

  /** A bookable period of a doctor's time; `id` is absent until the server has stored it. */
  datatype TimeSlot = TimeSlot(
    id: Option<string>, doctorId: string, startTime: string, endTime: string, isAvailable: bool)

  /** The page renders inside a layout open to administrators and doctors. */
  const Layout: MainLayout.LayoutProps := MainLayout.LayoutProps(true, [Admin, Doctor])

  /** `isReadOnly`: only administrators and doctors edit slots. */
  predicate IsReadOnly(userRole: Option<string>)
    // Whoever may write is let in by the page's guard, and only a signed-in role writes.
    ensures !IsReadOnly(userRole) ==> MainLayout.Guard(Layout, true, userRole) == MainLayout.RenderPage
    ensures !IsReadOnly(userRole) ==> Truthy(userRole)
  {
    userRole != Some(Admin) && userRole != Some(Doctor)
  }

  /** The guard in front of the page: an anonymous visitor is sent to log in, and a signed-in
      user with a role other than ADMIN or DOCTOR is sent to the unauthorized page. */
  lemma PageAccess(isAuthenticated: bool, userRole: Option<string>)
    ensures MainLayout.Guard(Layout, isAuthenticated, userRole) == MainLayout.RedirectToLogin <==> !isAuthenticated
    ensures MainLayout.Guard(Layout, isAuthenticated, userRole) == MainLayout.RedirectToUnauthorized <==>
      isAuthenticated && Truthy(userRole) && userRole != Some(Admin) && userRole != Some(Doctor)
  {
  }

  const DefaultSlot: TimeSlot := TimeSlot(None, "", "", "", true)

  /** The draft a new slot starts from: the default, for the doctor chosen at the top of the page. */
  function NewSlot(selectedDoctor: string): (s: TimeSlot)
    ensures s.id == None && s.doctorId == selectedDoctor
    ensures s.startTime == "" && s.endTime == "" && s.isAvailable
  {
    DefaultSlot.(doctorId := selectedDoctor)
  }

  /** What the availability select stores for the option it reports. */
  function AvailabilityOf(choice: string): bool
  {
    choice == "true"
  }

  /** The option the availability select shows for a slot. */
  function AvailabilityChoice(isAvailable: bool): string
  {
    if isAvailable then "true" else "false"
  }

  /** The select stores what it shows: "true" means available, and anything else, "false"
      included, means not. */
  lemma AvailabilityRoundTrip(isAvailable: bool, choice: string)
    ensures AvailabilityOf(AvailabilityChoice(isAvailable)) == isAvailable
    ensures AvailabilityOf(choice) <==> choice == "true"
    ensures AvailabilityChoice(AvailabilityOf(choice)) == (if choice == "true" then "true" else "false")
  {
  }

  /** The value a date-time input shows for a stored time: `time.split('.')[0]`, or '' for ''. */
  function TimeFieldValue(time: string): (r: string)
    ensures |r| <= |time| && r == time[..|r|] && '.' !in r
    ensures |r| == |time| || time[|r|] == '.'
  {
    if time != "" then BeforeFirstDot(time) else ""
  }

  /** A stored time with fractional seconds shows without them. */
  lemma {:induction false} TimeFieldDropsFraction(time: string, fraction: string)
    requires '.' !in time
    ensures TimeFieldValue(time + "." + fraction) == time
  {
    if time != "" {
      var s := time + "." + fraction;
      assert s[|time|] == '.';
      assert s[..|time|] == time;
      BeforeFirstDotUpTo(s, |time|);
    }
  }

  /** `BeforeFirstDot` stops at the first '.'. */
  lemma {:induction false} BeforeFirstDotUpTo(s: string, k: nat)
    requires k < |s| && s[k] == '.' && '.' !in s[..k]
    ensures BeforeFirstDot(s) == s[..k]
    decreases k
  {
    if k > 0 {
      assert s[0] == s[..k][0];
      assert s[1..][..k - 1] == s[..k][1..];
      BeforeFirstDotUpTo(s[1..], k - 1);
    }
  }

  /** A time without a '.' shows as stored, so a value typed into the field shows as typed;
      and showing is idempotent. */
  lemma TimeFieldShowsTyped(time: string)
    ensures '.' !in time ==> TimeFieldValue(time) == time
    ensures TimeFieldValue(TimeFieldValue(time)) == TimeFieldValue(time)
  {
  }

  /** The date-time inputs wired to `handleInputChange`, by their `name` attribute. */
  datatype TimeInput = StartTimeInput | EndTimeInput

  /** The dialog's select boxes: the doctor, and the availability option. */
  datatype SlotSelect = DoctorPick(doctorId: string) | AvailabilityPick(choice: string)

  /** The draft after a change in an input or a select box. */
  function WithInput(s: TimeSlot, input: TimeInput, value: string): (t: TimeSlot)
    ensures input == StartTimeInput ==> t == s.(startTime := value)
    ensures input == EndTimeInput ==> t == s.(endTime := value)
  {
    match input
    case StartTimeInput => s.(startTime := value)
    case EndTimeInput => s.(endTime := value)
  }

  function WithSelect(s: TimeSlot, pick: SlotSelect): (t: TimeSlot)
    ensures pick.DoctorPick? ==> t == s.(doctorId := pick.doctorId)
    ensures pick.AvailabilityPick? ==> t == s.(isAvailable := pick.choice == "true")
  {
    match pick
    case DoctorPick(doctorId) => s.(doctorId := doctorId)
    case AvailabilityPick(choice) => s.(isAvailable := AvailabilityOf(choice))
  }

  /** Whether the dialog lets a pick through: the doctor select is disabled once the slot is
      saved, the availability select never is. */
  predicate PickOffered(s: TimeSlot, pick: SlotSelect)
    ensures Truthy(s.id) ==> (PickOffered(s, pick) <==> pick.AvailabilityPick?)
    ensures !Truthy(s.id) ==> PickOffered(s, pick)
  {
    pick.AvailabilityPick? || !Truthy(s.id)
  }

  /** The draft after a run of picks, each one taking effect only if its select is enabled. */
  function ApplyOfferedPicks(s: TimeSlot, picks: seq<SlotSelect>): TimeSlot
    decreases |picks|
  {
    if picks == [] then s
    else
      var next := if PickOffered(s, picks[0]) then WithSelect(s, picks[0]) else s;
      ApplyOfferedPicks(next, picks[1..])
  }

  /** Once saved, no run of picks through the dialog moves a slot to another doctor: only its
      availability stays editable there. */
  lemma {:induction false} SavedSlotKeepsDoctor(s: TimeSlot, picks: seq<SlotSelect>)
    requires Truthy(s.id)
    ensures var t := ApplyOfferedPicks(s, picks);
      t.id == s.id && t.doctorId == s.doctorId && t.startTime == s.startTime && t.endTime == s.endTime
    decreases |picks|
  {
    if picks != [] {
      var next := if PickOffered(s, picks[0]) then WithSelect(s, picks[0]) else s;
      SavedSlotKeepsDoctor(next, picks[1..]);
    }
  }

  /** The doctor the page selects once the doctor list arrives: the first doctor's id, when
      there is a first doctor and its id is set; otherwise the current selection. */
  function SelectionAfterLoad(doctors: seq<Doctors.Doctor>, selectedDoctor: string): (r: string)
    ensures doctors != [] && Truthy(doctors[0].id) ==> r == doctors[0].id.value && r != ""
    ensures doctors == [] || !Truthy(doctors[0].id) ==> r == selectedDoctor
  {
    if |doctors| > 0 && Truthy(doctors[0].id) then doctors[0].id.value else selectedDoctor
  }

  /** The calls the page makes on the services. */
  datatype SlotRequest =
    | GetAllDoctors
    | GetAvailableSlots(doctorId: string)
    | AddSlot(slot: TimeSlot)
    | UpdateSlot(slot: TimeSlot)
    | DeleteSlot(slot: TimeSlot)

  /** The save a submit dispatches: an update for a stored slot, an addition otherwise. */
  function SaveRequest(s: TimeSlot): (r: SlotRequest)
    ensures r.UpdateSlot? <==> Truthy(s.id)
    ensures r.AddSlot? <==> !Truthy(s.id)
    ensures (r.UpdateSlot? || r.AddSlot?) && r.slot == s
  {
    if Truthy(s.id) then UpdateSlot(s) else AddSlot(s)
  }

  const DoctorsError: string := "Failed to load doctors. Please try again later."
  const SlotsError: string := "Failed to load time slots. Please try again later."

  class TimeSlotsPage {
    var slots: seq<TimeSlot>
    var doctors: seq<Doctors.Doctor>
    var selectedDoctor: string
    var isLoading: bool
    var error: Option<string>
    var isDialogOpen: bool
    var currentSlot: Option<TimeSlot>

    /** The page as first rendered: nothing loading yet, no doctor selected. */
    constructor()
      ensures slots == [] && doctors == [] && selectedDoctor == ""
      ensures !isLoading && error == None && !isDialogOpen && currentSlot == None
    {
      slots := [];
      doctors := [];
      selectedDoctor := "";
      isLoading := false;
      error := None;
      isDialogOpen := false;
      currentSlot := None;
    }

    /** `fetchDoctors` up to its await. */
    method FetchDoctors() returns (sent: seq<SlotRequest>)
      modifies `isLoading, `error
      ensures sent == [GetAllDoctors]
      ensures isLoading && error == None
    {
      isLoading := true;
      error := None;
      sent := [GetAllDoctors];
    }

    /** `fetchDoctors` after its await: take the list and select its first doctor, or record
        the error; stop loading. */
    method DoctorsLoaded(reply: Reply<seq<Doctors.Doctor>>)
      modifies `doctors, `selectedDoctor, `error, `isLoading
      ensures reply.Ok? ==> doctors == reply.data && selectedDoctor == SelectionAfterLoad(reply.data, old(selectedDoctor))
      ensures reply.Ok? ==> error == old(error)
      ensures reply.Failed? ==>
        doctors == old(doctors) && selectedDoctor == old(selectedDoctor) && error == Some(DoctorsError)
      ensures !isLoading
    {
      match reply {
        case Ok(data) =>
          doctors := data;
          if |data| > 0 && Truthy(data[0].id) {
            selectedDoctor := data[0].id.value;
          }
        case Failed =>
          error := Some(DoctorsError);
      }
      isLoading := false;
    }

    /** The doctor select at the top of the page. */
    method SelectDoctor(doctorId: string)
      modifies `selectedDoctor
      ensures selectedDoctor == doctorId
    {
      selectedDoctor := doctorId;
    }

    /** The effect on `selectedDoctor`: fetch that doctor's slots when one is chosen. */
    method SelectedDoctorEffect() returns (sent: seq<SlotRequest>)
      modifies `isLoading, `error
      ensures selectedDoctor != "" ==> sent == [GetAvailableSlots(selectedDoctor)] && isLoading && error == None
      ensures selectedDoctor == "" ==> sent == [] && isLoading == old(isLoading) && error == old(error)
    {
      sent := [];
      if selectedDoctor != "" {
        sent := FetchSlots(selectedDoctor);
      }
    }

    /** `fetchSlots` up to its await. */
    method FetchSlots(doctorId: string) returns (sent: seq<SlotRequest>)
      modifies `isLoading, `error
      ensures sent == [GetAvailableSlots(doctorId)]
      ensures isLoading && error == None
    {
      isLoading := true;
      error := None;
      sent := [GetAvailableSlots(doctorId)];
    }

    /** `fetchSlots` after its await. */
    method SlotsLoaded(reply: Reply<seq<TimeSlot>>)
      modifies `slots, `error, `isLoading
      ensures reply.Ok? ==> slots == reply.data && error == old(error)
      ensures reply.Failed? ==> slots == old(slots) && error == Some(SlotsError)
      ensures !isLoading
    {
      match reply {
        case Ok(data) =>
          slots := data;
        case Failed =>
          error := Some(SlotsError);
      }
      isLoading := false;
    }

    /** `handleOpenDialog`: edit `slot`, or a new slot for the selected doctor. */
    method OpenDialog(slot: Option<TimeSlot>)
      modifies `currentSlot, `isDialogOpen
      ensures currentSlot == Some(if slot.Some? then slot.value else NewSlot(selectedDoctor))
      ensures isDialogOpen
    {
      currentSlot := Some(if slot.Some? then slot.value else NewSlot(selectedDoctor));
      isDialogOpen := true;
    }

    /** `handleCloseDialog`. */
    method CloseDialog()
      modifies `currentSlot, `isDialogOpen
      ensures !isDialogOpen && currentSlot == None
    {
      isDialogOpen := false;
      currentSlot := None;
    }

    /** The dialog's `onOpenChange={setIsDialogOpen}`: Escape, a click outside or the close
        button hide the dialog without `handleCloseDialog`, so the draft stays as it is. */
    method OpenChange(open: bool)
      modifies `isDialogOpen
      ensures isDialogOpen == open
    {
      isDialogOpen := open;
    }

    /** `handleInputChange`: update the named time of the draft; nothing without a draft. */
    method InputChange(input: TimeInput, value: string)
      modifies `currentSlot
      ensures currentSlot == if old(currentSlot).Some?
        then Some(WithInput(old(currentSlot).value, input, value)) else None
    {
      if currentSlot.Some? {
        currentSlot := Some(WithInput(currentSlot.value, input, value));
      }
    }

    /** `handleSelectChange`: the dialog's doctor or availability; nothing without a draft.
        The dialog's doctor pick does not move the page's `selectedDoctor`. */
    method SelectChange(pick: SlotSelect)
      modifies `currentSlot
      ensures currentSlot == if old(currentSlot).Some?
        then Some(WithSelect(old(currentSlot).value, pick)) else None
    {
      if currentSlot.Some? {
        currentSlot := Some(WithSelect(currentSlot.value, pick));
      }
    }

    /** `handleSubmit`: save the draft; when the save succeeds, refetch the selected doctor's
        slots and close the dialog; when it fails, the dialog stays open with its draft. */
    method Submit(callSucceeded: bool) returns (sent: seq<SlotRequest>)
      modifies `isLoading, `error, `currentSlot, `isDialogOpen
      ensures old(currentSlot).None? ==> sent == []
      ensures old(currentSlot).None? || !callSucceeded ==>
        currentSlot == old(currentSlot) && isDialogOpen == old(isDialogOpen) &&
        isLoading == old(isLoading) && error == old(error)
      ensures old(currentSlot).Some? && !callSucceeded ==> sent == [SaveRequest(old(currentSlot).value)]
      ensures old(currentSlot).Some? && callSucceeded ==>
        sent == [SaveRequest(old(currentSlot).value), GetAvailableSlots(selectedDoctor)] &&
        isLoading && error == None && !isDialogOpen && currentSlot == None
    {
      sent := [];
      if currentSlot.None? {
        return;
      }
      sent := [SaveRequest(currentSlot.value)];
      if callSucceeded {
        var refresh := FetchSlots(selectedDoctor);
        sent := sent + refresh;
        CloseDialog();
      }
    }

    /** `handleDelete`: with the user's confirmation, delete the slot, then refetch the
        selected doctor's slots when the call succeeds. */
    method Delete(slot: TimeSlot, confirmed: bool, callSucceeded: bool) returns (sent: seq<SlotRequest>)
      modifies `isLoading, `error
      ensures !confirmed ==> sent == []
      ensures confirmed && !callSucceeded ==> sent == [DeleteSlot(slot)]
      ensures confirmed && callSucceeded ==>
        sent == [DeleteSlot(slot), GetAvailableSlots(selectedDoctor)] && isLoading && error == None
      ensures !(confirmed && callSucceeded) ==> isLoading == old(isLoading) && error == old(error)
    {
      sent := [];
      if !confirmed {
        return;
      }
      sent := [DeleteSlot(slot)];
      if callSucceeded {
        var refresh := FetchSlots(selectedDoctor);
        sent := sent + refresh;
      }
    }
  }
}
