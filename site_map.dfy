/** How the navigation bar, the landing page's cards, the pages' write gates and the route
    guard fit together. The router that pairs paths with pages (App.tsx) is not part of this
    model: `PageLayout` pairs each link path with the page the link is named after. */
module SiteMap {
  import opened Js
  import opened Roles
  import opened MainLayout
  import Header
  import Home
  import Patients
  import Doctors
  import Appointments
  import TimeSlots

  /** The layout properties of the page behind a link path. */
  function PageLayout(path: string): Option<LayoutProps>
  {
    if path == "/" then Some(Home.Layout)
    else if path == "/patients" then Some(Patients.Layout)
    else if path == "/doctors" then Some(Doctors.Layout)
    else if path == "/appointments" then Some(Appointments.Layout)
    else if path == "/slots" then Some(TimeSlots.Layout)
    else None
  }

  /** A signed-in user's route to the page behind `path`. */
  function RouteTo(path: string, userRole: Option<string>): (r: Option<Route>)
    ensures PageLayout(path).Some? <==> r.Some?
    ensures r.Some? ==> r.value != RedirectToLogin
  {
    match PageLayout(path)
    case None => None
    case Some(props) => Some(Guard(props, true, userRole))
  }

  /** Every navigation link a signed-in user sees, whatever the role, leads to a page the
      guard renders for that user. */
  lemma NavLinksAreReachable(userRole: Option<string>)
    ensures forall item :: item in Header.VisibleNavItems(true, userRole) ==>
      RouteTo(item.path, userRole) == Some(RenderPage)
  {
    forall item | item in Header.VisibleNavItems(true, userRole)
      ensures RouteTo(item.path, userRole) == Some(RenderPage)
    {
      assert item in Header.NavigationItems;
    }
  }

  /** Every feature card a signed-in user sees, whatever the role (none included), leads to
      a page the guard renders for that user. */
  lemma FeatureCardsAreReachable(userRole: Option<string>)
    ensures forall f :: f in Home.VisibleFeatures(true, userRole) ==>
      RouteTo(f.link, userRole) == Some(RenderPage)
  {
    forall f | f in Home.VisibleFeatures(true, userRole)
      ensures RouteTo(f.link, userRole) == Some(RenderPage)
    {
      assert f in Home.Features;
    }
  }

  /** A user the page lets write is also a user its guard lets in: the write gates are never
      wider than the allow-lists. */
  lemma WritersAreAdmitted(userRole: Option<string>)
    ensures !Patients.IsReadOnly(userRole) ==> RouteTo("/patients", userRole) == Some(RenderPage)
    ensures !Doctors.IsReadOnly(userRole) ==> RouteTo("/doctors", userRole) == Some(RenderPage)
    ensures !TimeSlots.IsReadOnly(userRole) ==> RouteTo("/slots", userRole) == Some(RenderPage)
  {
  }

  /** A patient is turned away from the patient list but may read the doctor list. */
  lemma PatientOnPatientsAndDoctors()
    ensures RouteTo("/patients", Some(Patient)) == Some(RedirectToUnauthorized)
    ensures RouteTo("/doctors", Some(Patient)) == Some(RenderPage) && Doctors.IsReadOnly(Some(Patient))
  {
  }

  /** A doctor reads patients and writes time slots. */
  lemma DoctorOnPatientsAndSlots()
    ensures RouteTo("/patients", Some(Doctor)) == Some(RenderPage) && Patients.IsReadOnly(Some(Doctor))
    ensures RouteTo("/slots", Some(Doctor)) == Some(RenderPage) && !TimeSlots.IsReadOnly(Some(Doctor))
  {
  }

  /** A signed-in user without a role gets only the role-free links in the navigation bar,
      yet every card on the landing page, and the guard renders each card's page. */
  lemma NoRoleNavigationVersusCards()
    ensures Header.VisibleNavItems(true, None) == [Header.HomeLink, Header.AppointmentsLink]
    ensures Home.VisibleFeatures(true, None) == Home.Features
    ensures forall f :: f in Home.Features ==> RouteTo(f.link, None) == Some(RenderPage)
  {
    Header.NoRoleNavItems();
    FeatureCardsAreReachable(None);
  }

  /** A patient has no "Doctors" link in the navigation bar, yet reaches the doctor list
      through the landing page's "Doctor Directory" card. */
  lemma PatientReachesDoctorsOnlyThroughHome()
    ensures Header.DoctorsLink !in Header.VisibleNavItems(true, Some(Patient))
    ensures Home.DoctorDirectory in Home.VisibleFeatures(true, Some(Patient))
    ensures Home.DoctorDirectory.link == Header.DoctorsLink.path
    ensures RouteTo(Home.DoctorDirectory.link, Some(Patient)) == Some(RenderPage)
  {
    Header.PatientNavItems();
    Home.PatientFeatures();
  }
}
