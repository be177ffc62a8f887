/** The landing page's feature cards (src/pages/Home.tsx). */
module Home {
  import opened Js
  import opened Roles
  import opened Lists
  import MainLayout

  /** A feature card. Every entry of the table carries a role list, so the source's
      `!feature.roles` test never holds and is not modelled. */
  datatype Feature = Feature(title: string, link: string, roles: seq<string>)

  const PatientManagement: Feature := Feature("Patient Management", "/patients", [Admin, Doctor])
  const DoctorDirectory: Feature := Feature("Doctor Directory", "/doctors", [Admin, Patient])
  const AppointmentScheduling: Feature := Feature("Appointment Scheduling", "/appointments", [Admin, Doctor, Patient])
  const TimeSlotManagement: Feature := Feature("Time Slot Management", "/slots", [Admin, Doctor])

  /** The `features` table, in display order. */
  const Features: seq<Feature> := [PatientManagement, DoctorDirectory, AppointmentScheduling, TimeSlotManagement]

  /** Home renders inside a layout with the default properties. */
  const Layout: MainLayout.LayoutProps := MainLayout.DefaultProps

  /** The page is public: the guard renders it for anyone, signed in or not. */
  lemma PageAccess(isAuthenticated: bool, userRole: Option<string>)
    ensures MainLayout.Guard(Layout, isAuthenticated, userRole) == MainLayout.RenderPage
  {
  }

  /** The filter's test: `!userRole || feature.roles.includes(userRole)`. */
  predicate Offers(feature: Feature, userRole: Option<string>)
  {
    !Truthy(userRole) || userRole.value in feature.roles
  }

  /** The filter's test as the function value passed to `filter`. */
  function KeepFeature(userRole: Option<string>): Feature -> bool
  {
    f => Offers(f, userRole)
  }

  /** `filteredFeatures`: the cards kept for `userRole`. */
  function FilteredFeatures(userRole: Option<string>): (r: seq<Feature>)
    // Without a role every card is kept; with one, a card is kept iff it lists that role.
    ensures !Truthy(userRole) ==> r == Features
    ensures Truthy(userRole) ==> forall f :: f in r <==> f in Features && userRole.value in f.roles
    // The kept cards appear in the table's order.
    ensures IsSubsequence(r, Features)
  {
    var keep := KeepFeature(userRole);
    FilterIsSubsequence(keep, Features);
    if !Truthy(userRole) then
      FilterKeepsAll(keep, Features);
      Filter(keep, Features)
    else
      Filter(keep, Features)
  }

  /** The cards rendered: only in the signed-in branch of the page. */
  function VisibleFeatures(isAuthenticated: bool, userRole: Option<string>): (r: seq<Feature>)
    ensures !isAuthenticated ==> r == []
    ensures isAuthenticated ==> r == FilteredFeatures(userRole)
  {
    if isAuthenticated then FilteredFeatures(userRole) else []
  }

  /** The steps of `filter` over the four-entry table. */
  lemma FilterSteps(keep: Feature -> bool)
    ensures Features == [PatientManagement, DoctorDirectory, AppointmentScheduling, TimeSlotManagement]
    ensures Filter(keep, [PatientManagement, DoctorDirectory, AppointmentScheduling, TimeSlotManagement]) == (if keep(PatientManagement) then [PatientManagement] else []) + Filter(keep, [DoctorDirectory, AppointmentScheduling, TimeSlotManagement])
    ensures Filter(keep, [DoctorDirectory, AppointmentScheduling, TimeSlotManagement]) == (if keep(DoctorDirectory) then [DoctorDirectory] else []) + Filter(keep, [AppointmentScheduling, TimeSlotManagement])
    ensures Filter(keep, [AppointmentScheduling, TimeSlotManagement]) == (if keep(AppointmentScheduling) then [AppointmentScheduling] else []) + Filter(keep, [TimeSlotManagement])
    ensures Filter(keep, [TimeSlotManagement]) == (if keep(TimeSlotManagement) then [TimeSlotManagement] else []) + Filter(keep, [])
  {
    FilterCons(keep, TimeSlotManagement, []);
    FilterCons(keep, AppointmentScheduling, [TimeSlotManagement]);
    FilterCons(keep, DoctorDirectory, [AppointmentScheduling, TimeSlotManagement]);
    FilterCons(keep, PatientManagement, [DoctorDirectory, AppointmentScheduling, TimeSlotManagement]);
  }

  /** An administrator gets every card. */
  lemma AdminFeatures()
    ensures FilteredFeatures(Some(Admin)) == Features
  {
    var keep := KeepFeature(Some(Admin));
    assert keep(PatientManagement) && keep(DoctorDirectory) && keep(AppointmentScheduling) && keep(TimeSlotManagement);
    FilterSteps(keep);
  }

  /** A patient gets the doctor directory and appointment scheduling. */
  lemma PatientFeatures()
    ensures FilteredFeatures(Some(Patient)) == [DoctorDirectory, AppointmentScheduling]
  {
    var keep := KeepFeature(Some(Patient));
    assert !keep(PatientManagement) && keep(DoctorDirectory) && keep(AppointmentScheduling) && !keep(TimeSlotManagement);
    FilterSteps(keep);
  }

  /** A doctor gets every card but the doctor directory. */
  lemma DoctorFeatures()
    ensures FilteredFeatures(Some(Doctor)) == [PatientManagement, AppointmentScheduling, TimeSlotManagement]
  {
    var keep := KeepFeature(Some(Doctor));
    assert keep(PatientManagement) && !keep(DoctorDirectory) && keep(AppointmentScheduling) && keep(TimeSlotManagement);
    FilterSteps(keep);
  }
}
