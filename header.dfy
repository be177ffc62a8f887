/** The navigation bar (src/components/Layout/Header.tsx). */
module Header {
  import opened Js
  import opened Roles
  import opened Lists
  import AuthService
  import AuthContext

  /** A navigation link (`caption` is the source's `label`); `roles` is absent for links every signed-in user sees. */
  datatype NavItem = NavItem(caption: string, path: string, roles: Option<seq<string>>)

  const HomeLink: NavItem := NavItem("Home", "/", None)
  const PatientsLink: NavItem := NavItem("Patients", "/patients", Some([Admin, Doctor]))
  const DoctorsLink: NavItem := NavItem("Doctors", "/doctors", Some([Admin]))
  const AppointmentsLink: NavItem := NavItem("Appointments", "/appointments", None)

  /** The `navigationItems` table, in display order. */
  const NavigationItems: seq<NavItem> := [HomeLink, PatientsLink, DoctorsLink, AppointmentsLink]

  /** The filter's test: `!item.roles || (userRole && item.roles.includes(userRole))`. */
  predicate ShowsItem(item: NavItem, userRole: Option<string>)
  {
    item.roles.None? || (Truthy(userRole) && userRole.value in item.roles.value)
  }

  /** The filter's test as the function value passed to `filter`. */
  function KeepItem(userRole: Option<string>): NavItem -> bool
  {
    item => ShowsItem(item, userRole)
  }

  /** `filteredNavItems`: the links kept for `userRole`. */
  function FilteredNavItems(userRole: Option<string>): (r: seq<NavItem>)
    // A link is kept iff it has no role list, or the user has a role and the list names it.
    ensures forall item :: item in r <==>
      item in NavigationItems && (item.roles.None? || (Truthy(userRole) && userRole.value in item.roles.value))
    // The kept links appear in the table's order.
    ensures IsSubsequence(r, NavigationItems)
  {
    var keep := KeepItem(userRole);
    FilterIsSubsequence(keep, NavigationItems);
    Filter(keep, NavigationItems)
  }

  /** The links actually rendered: none unless the user is signed in. */
  function VisibleNavItems(isAuthenticated: bool, userRole: Option<string>): (r: seq<NavItem>)
    ensures !isAuthenticated ==> r == []
    ensures isAuthenticated ==> r == FilteredNavItems(userRole)
  {
    if isAuthenticated then FilteredNavItems(userRole) else []
  }

  /** The steps of `filter` over the four-entry table. */
  lemma FilterSteps(keep: NavItem -> bool)
    ensures NavigationItems == [HomeLink, PatientsLink, DoctorsLink, AppointmentsLink]
    ensures Filter(keep, [HomeLink, PatientsLink, DoctorsLink, AppointmentsLink]) == (if keep(HomeLink) then [HomeLink] else []) + Filter(keep, [PatientsLink, DoctorsLink, AppointmentsLink])
    ensures Filter(keep, [PatientsLink, DoctorsLink, AppointmentsLink]) == (if keep(PatientsLink) then [PatientsLink] else []) + Filter(keep, [DoctorsLink, AppointmentsLink])
    ensures Filter(keep, [DoctorsLink, AppointmentsLink]) == (if keep(DoctorsLink) then [DoctorsLink] else []) + Filter(keep, [AppointmentsLink])
    ensures Filter(keep, [AppointmentsLink]) == (if keep(AppointmentsLink) then [AppointmentsLink] else []) + Filter(keep, [])
  {
    FilterCons(keep, AppointmentsLink, []);
    FilterCons(keep, DoctorsLink, [AppointmentsLink]);
    FilterCons(keep, PatientsLink, [DoctorsLink, AppointmentsLink]);
    FilterCons(keep, HomeLink, [PatientsLink, DoctorsLink, AppointmentsLink]);
  }

  /** An administrator gets every link. */
  lemma AdminNavItems()
    ensures FilteredNavItems(Some(Admin)) == NavigationItems
  {
    var keep := KeepItem(Some(Admin));
    assert keep(HomeLink) && keep(PatientsLink) && keep(DoctorsLink) && keep(AppointmentsLink);
    FilterSteps(keep);
  }

  /** A doctor gets every link but "Doctors". */
  lemma DoctorNavItems()
    ensures FilteredNavItems(Some(Doctor)) == [HomeLink, PatientsLink, AppointmentsLink]
  {
    var keep := KeepItem(Some(Doctor));
    assert keep(HomeLink) && keep(PatientsLink) && !keep(DoctorsLink) && keep(AppointmentsLink);
    FilterSteps(keep);
  }

  /** A patient gets "Home" and "Appointments" only. */
  lemma PatientNavItems()
    ensures FilteredNavItems(Some(Patient)) == [HomeLink, AppointmentsLink]
  {
    var keep := KeepItem(Some(Patient));
    assert keep(HomeLink) && !keep(PatientsLink) && !keep(DoctorsLink) && keep(AppointmentsLink);
    FilterSteps(keep);
  }

  /** A signed-in user without a role gets the links that carry no role list. */
  lemma NoRoleNavItems()
    ensures FilteredNavItems(None) == [HomeLink, AppointmentsLink]
  {
    var keep := KeepItem(None);
    assert keep(HomeLink) && !keep(PatientsLink) && !keep(DoctorsLink) && keep(AppointmentsLink);
    FilterSteps(keep);
  }

  /** "Doctors" is listed only for administrators, "Patients" only for administrators and
      doctors; "Home" and "Appointments" for everyone. */
  lemma WhoSeesWhichLink(userRole: Option<string>)
    ensures DoctorsLink in FilteredNavItems(userRole) <==> userRole == Some(Admin)
    ensures PatientsLink in FilteredNavItems(userRole) <==> userRole == Some(Admin) || userRole == Some(Doctor)
    ensures HomeLink in FilteredNavItems(userRole) && AppointmentsLink in FilteredNavItems(userRole)
  {
  }

  /** `handleLogout`: sign out through the auth context, then go to the login page. */
  method HandleLogout(auth: AuthContext.AuthProvider) returns (navigateTo: string)
    modifies auth, auth.storage
    ensures auth.Valid()
    ensures auth.State() == AuthContext.SignedOut
    ensures auth.storage.items == AuthService.WithoutSession(old(auth.storage.items))
    ensures navigateTo == "/login"
  {
    auth.Logout();
    navigateTo := "/login";
  }
}
