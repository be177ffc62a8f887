# HealthSync front-end: access control, session store and page controllers

A Dafny model of the client-side decision and state logic of the HealthSync React front-end
(patients, doctors, appointments and doctors' time slots, behind a role-based sign-in). It
covers:

- the route guard every page is wrapped in (`MainLayout`), the navigation bar's link filter
  (`Header`) and the landing page's feature-card filter (`Home`), together with the
  `isReadOnly` write gates of the pages, and lemmas relating all of them (`SiteMap`);
- the session store (`AuthContext`) over the browser's `localStorage` (`AuthService`): restore
  on mount, login, logout, and the three stored entries `token`, `role` and `user`;
- the controllers of the four CRUD pages (`Patients`, `Doctors`, `Appointments`, `TimeSlots`)
  and of the sign-up form (`Register`): dialog open/close, draft edits, submit dispatch,
  confirmed delete/cancel, loading and error flags, search filters and name lookups;
- the string helpers the pages rely on (`Text`): ASCII lower-casing, `includes`, `parseInt`,
  `split('.')[0]`; and `filter`/`find` (`Lists`).

Stateful parts are classes whose fields are the component's state (`useState` variables,
`localStorage`'s map); a handler is a method that changes exactly those fields. Service calls
are not executed: a handler returns the requests it sends as datatype values and takes the
call's outcome as a parameter (`Reply<T>` = `Ok(data)` or `Failed`, or a `callSucceeded`
flag), with an `async` function split at its `await` into two methods (e.g. `Fetch` and
`Loaded`). JavaScript truthiness is modelled exactly: `Truthy(Some(""))` is false, so an
empty role, id or token counts as missing, as it does in the source.

Files: `js.dfy` (Option, Reply, truthiness, role names), `lists.dfy`, `text.dfy`,
`main_layout.dfy`, `header.dfy`, `home.dfy`, `auth_service.dfy`, `auth_context.dfy`,
`patients.dfy`, `doctors.dfy`, `appointments.dfy`, `time_slots.dfy`, `register.dfy`,
`site_map.dfy`.

## Model

| member | source | states |
|---|---|---|
| MainLayout.Guard | src/components/Layout/MainLayout.tsx:13-34 | A public page always renders; the login redirect happens exactly when the page requires authentication and the user is anonymous, before any role check; an empty allow-list or a missing/empty role never leads to the unauthorized page; the page renders exactly when it is public or the user is signed in with no role or an admitted role. |
| Header.FilteredNavItems | src/components/Layout/Header.tsx:27-36 | A link is kept iff it has no role list, or the user has a non-empty role the list names; the kept links are an order-preserving subsequence of the table. |
| Header.VisibleNavItems | src/components/Layout/Header.tsx:49-71 | No links are rendered for an anonymous user; a signed-in user gets the filtered list. |
| Header.AdminNavItems | src/components/Layout/Header.tsx:27-36 | An administrator gets all four links, in table order. |
| Header.DoctorNavItems | src/components/Layout/Header.tsx:27-36 | A doctor gets Home, Patients and Appointments. |
| Header.PatientNavItems | src/components/Layout/Header.tsx:27-36 | A patient gets Home and Appointments. |
| Header.NoRoleNavItems | src/components/Layout/Header.tsx:28-35 | A user without a role gets only the role-free links, Home and Appointments. |
| Header.WhoSeesWhichLink | src/components/Layout/Header.tsx:29-35 | "Doctors" is kept iff the role is ADMIN; "Patients" iff it is ADMIN or DOCTOR; Home and Appointments always. |
| Header.HandleLogout | src/components/Layout/Header.tsx:22-25 | From any state, logging out signs the session out, removes exactly the three session entries from storage, and then navigates to `/login`. |
| Home.FilteredFeatures | src/pages/Home.tsx:49-51 | Without a role every card is kept; with one, a card is kept iff its role list names it; the result is an order-preserving subsequence of the table. |
| Home.VisibleFeatures | src/pages/Home.tsx:65-139 | Cards are shown only in the signed-in branch of the page. |
| Home.AdminFeatures | src/pages/Home.tsx:14-51 | An administrator gets all four cards. |
| Home.PatientFeatures | src/pages/Home.tsx:21-51 | A patient gets Doctor Directory and Appointment Scheduling. |
| Home.DoctorFeatures | src/pages/Home.tsx:21-51 | A doctor gets Patient Management, Appointment Scheduling and Time Slot Management. |
| Home.PageAccess | src/pages/Home.tsx:54 | The landing page is public: the guard renders it for anyone. |
| AuthService.LoginPath | src/services/authService.ts:24-25 | The login endpoint is `/authenticate/` followed by the account kind's name. |
| AuthService.LoginPathsDistinct | src/services/authService.ts:24-25 | Different account kinds post to different endpoints. |
| AuthService.DecodeEncodeUser | src/services/authService.ts:40-51 | Parsing the serialised identity gives the identity back. |
| AuthService.LocalStorage.GetItem | src/services/authService.ts:41 | Reading a key gives its value, or nothing when the key is absent. |
| AuthService.LocalStorage.SetItem | src/services/authService.ts:46 | Writing a key changes that key only. |
| AuthService.LocalStorage.RemoveItem | src/services/authService.ts:35-37 | Removing a key drops that key only. |
| AuthService.WithoutSession | src/services/authService.ts:34-38 | Exactly `token`, `user` and `role` are gone; every other entry keeps its value. |
| AuthService.WithoutSessionIdempotent | src/services/authService.ts:34-38 | Clearing the session twice is the same as once. |
| AuthService.Logout | src/services/authService.ts:34-38 | `logout` leaves the store without the three session entries and otherwise unchanged. |
| AuthService.SaveToken | src/services/authService.ts:45-47 | Writes the `token` entry and nothing else. |
| AuthService.SaveUser | src/services/authService.ts:49-51 | Writes the serialised identity under `user` and nothing else. |
| AuthService.SaveRole | src/services/authService.ts:53-55 | Writes the `role` entry and nothing else. |
| AuthService.CurrentUserIn | src/services/authService.ts:40-43 | `null` exactly when the `user` entry is missing or empty; otherwise the parse of the entry, failing exactly when the entry does not parse. |
| AuthService.GetCurrentUser | src/services/authService.ts:40-43 | `getCurrentUser` reads the store as `CurrentUserIn` describes and changes nothing. |
| AuthService.SavedUserIsCurrent | src/services/authService.ts:40-51 | `saveUser(u)` then `getCurrentUser()` gives `u`, whatever was stored before. |
| AuthService.EncodeUser | src/services/authService.ts:50 | The stored identity is non-empty text of a JSON object (`{` ... `}`). |
| AuthService.DecodeUser | src/services/authService.ts:42 | Only the text of a JSON object parses, so an empty entry never yields an identity. |
| AuthContext.RestoreFrom | src/contexts/AuthContext.tsx:22-35 | The store is read iff `token`, `role` and `user` are all present and non-empty; the session is restored iff, in addition, the `user` entry parses (otherwise the parse fails); a restored session takes its role from `role` and its id and name from the parsed `user`. |
| AuthContext.LoginAgrees | src/contexts/AuthContext.tsx:41-52 | After a successful login the session and the store agree (same role, same id and name). |
| AuthContext.RestoreAfterLogin | src/contexts/AuthContext.tsx:22-52 | Reloading after a successful login restores exactly the session login set, unless the backend sent an empty token or role. |
| AuthContext.RestoredAgrees | src/contexts/AuthContext.tsx:22-35 | A session restored from the store agrees with it: same role, same id and name as the stored identity. |
| AuthContext.RestoreAfterLogout | src/contexts/AuthContext.tsx:22-65 | Reloading after a logout restores nothing. |
| AuthContext.AuthProvider.constructor | src/contexts/AuthContext.tsx:17-20 | The provider mounts signed out: not authenticated, role, id and name null. |
| AuthContext.AuthProvider.Restore | src/contexts/AuthContext.tsx:22-35 | From any state, the mount effect adopts the stored session when there is one, after which session and store agree, and otherwise leaves the state as it was. |
| AuthContext.AuthProvider.Login | src/contexts/AuthContext.tsx:37-57 | From any state, posts the credentials to the account kind's endpoint; on success writes token, role and user and sets the session from the response, after which session and store agree; on failure rethrows with state and store unchanged. |
| AuthContext.AuthProvider.Logout | src/contexts/AuthContext.tsx:59-65 | Whatever the prior state, the store loses the three session entries and the session is signed out. |
| Patients.WithInput | src/pages/Patients.tsx:83-91 | An input change sets only the named field, the age as `parseInt(value) \|\| 0`; id and gender are untouched. |
| Patients.AgeInputReadsNumber | src/pages/Patients.tsx:88 | Typing a number (optionally negative, with any non-digit text after it) into the age field stores that number. |
| Patients.AgeInputWithoutNumber | src/pages/Patients.tsx:88 | Text that starts with neither a digit nor a sign followed by a digit ("", "-", "-abc", "+x", "abc") stores age 0. |
| Patients.IsReadOnly | src/pages/Patients.tsx:39 | Whoever gets the write controls (only ADMIN) is let in by the page's guard. |
| Text.ParseInt | src/pages/Patients.tsx:88 | `parseInt` reads a number iff the text starts with a digit, or with a sign and a digit; the number is negative only after a minus sign. |
| Text.ParseIntOrZero | src/pages/Patients.tsx:88 | `parseInt(value) \|\| 0`: the number read when there is one, and 0 when there is none. |
| Text.ParseShown | src/pages/Patients.tsx:88 | `parseInt` of a decimal number followed by non-digit text gives that number. |
| Text.ParseNegated | src/pages/Patients.tsx:88 | A minus sign before digits negates what `parseInt` reads. |
| Text.ParseShownNumber | src/pages/Patients.tsx:88 | A decimal number, optionally after a minus sign and before non-digit text, reads back as itself. |
| Patients.PageAccess | src/pages/Patients.tsx:164 | An anonymous visitor is sent to log in; a signed-in user with a role other than ADMIN or DOCTOR is sent to the unauthorized page; everyone else sees the page. |
| Patients.FilterPatients | src/pages/Patients.tsx:158-161 | A patient is kept iff the lower-cased term occurs in the lower-cased name or contact, as often as it occurs in the list; an empty term keeps every patient; the result is an order-preserving subsequence. |
| Text.IncludesIgnoringCase | src/pages/Patients.tsx:159-160 | `s.toLowerCase().includes(term.toLowerCase())` holds iff the lower-cased term occurs at some position of the lower-cased text; an empty term always matches. |
| Lists.FilterCount | src/pages/Patients.tsx:158-161 | `filter` keeps every passing entry as many times as it occurs, and no failing one. |
| Patients.PatientName | src/pages/Appointments.tsx:245-248 | The name of the first patient whose id matches, or "Unknown Patient" when none does. |
| Patients.SaveRequest | src/pages/Patients.tsx:107-121 | Submit dispatches an update iff the draft has an id and an addition otherwise, carrying the draft. |
| Patients.View | src/pages/Patients.tsx:206-219 | The table shows a loading row while loading, "No patients found" when nothing matches, and otherwise the matching rows. |
| Patients.PatientsPage.constructor | src/pages/Patients.tsx:31-36 | The page starts with no patients, loading, no error, the dialog closed, no draft and an empty search. |
| Patients.PatientsPage.Fetch | src/pages/Patients.tsx:54-58 | A fetch raises the loading flag, clears the error and requests every patient. |
| Patients.PatientsPage.Loaded | src/pages/Patients.tsx:58-70 | A reply replaces the list or records the load error; loading stops either way. |
| Patients.PatientsPage.OpenDialog | src/pages/Patients.tsx:41-76 | The draft is the given patient or the default (empty strings, age 0, no id); the dialog opens. |
| Patients.PatientsPage.CloseDialog | src/pages/Patients.tsx:78-81 | The dialog closes and the draft is cleared. |
| Patients.PatientsPage.OpenChange | src/pages/Patients.tsx:253 | The dialog's own close path (Escape, outside click, close button) only sets the open flag; the draft stays. |
| Patients.PatientsPage.InputChange | src/pages/Patients.tsx:83-91 | The draft takes the input change; with no draft nothing happens. |
| Patients.PatientsPage.GenderChange | src/pages/Patients.tsx:93-100 | The draft's gender takes the selected value; with no draft nothing happens. |
| Patients.PatientsPage.SetSearchTerm | src/pages/Patients.tsx:183 | The search box sets the term. |
| Patients.PatientsPage.Submit | src/pages/Patients.tsx:102-134 | Without a draft nothing is sent; otherwise exactly one save (update iff id) is sent; only on success a refresh starts and the dialog closes, so a failure keeps the dialog and its draft. |
| Patients.PatientsPage.Delete | src/pages/Patients.tsx:136-155 | The row's button (line 238) calls the handler only for a row with an id; the service is called only after confirmation; a refresh starts only on success. |
| Doctors.WithInput | src/pages/Doctors.tsx:75-83 | An input change sets only the named field; the id is untouched. |
| Doctors.IsReadOnly | src/pages/Doctors.tsx:32 | Whoever gets the write controls (only ADMIN) is let in by the page's guard. |
| Doctors.PageAccess | src/pages/Doctors.tsx:147 | An anonymous visitor is sent to log in; a signed-in user with a role other than ADMIN or PATIENT is sent to the unauthorized page; everyone else sees the page. |
| Doctors.FilterDoctors | src/pages/Doctors.tsx:141-144 | A doctor is kept iff the lower-cased term occurs in the lower-cased name or specialization, as often as it occurs in the list; an empty term keeps every doctor; the result is an order-preserving subsequence no longer than the list. |
| Doctors.SearchFindsLee | src/pages/Doctors.tsx:141-144 | Example: searching [Dr. Lee, Cardiology] for "lee" keeps Dr. Lee. |
| Doctors.SearchForNeuroIsEmpty | src/pages/Doctors.tsx:141-144 | Example: searching [Dr. Lee, Cardiology] for "neuro" finds nothing. |
| Doctors.DoctorName | src/pages/Appointments.tsx:251-254 | The name of the first doctor whose id matches, or "Unknown Doctor" (also the time slot page's lookup). |
| Doctors.SaveRequest | src/pages/Doctors.tsx:90-104 | Submit dispatches an update iff the draft has an id and an addition otherwise, carrying the draft. |
| Doctors.DoctorsPage.constructor | src/pages/Doctors.tsx:24-29 | The page starts with no doctors, loading, no error, the dialog closed, no draft and an empty search. |
| Doctors.DoctorsPage.Fetch | src/pages/Doctors.tsx:46-50 | A fetch raises the loading flag, clears the error and requests every doctor. |
| Doctors.DoctorsPage.Loaded | src/pages/Doctors.tsx:50-62 | A reply replaces the list or records the load error; loading stops either way. |
| Doctors.DoctorsPage.OpenDialog | src/pages/Doctors.tsx:34-68 | The draft is the given doctor or the default (empty strings, no id); the dialog opens. |
| Doctors.DoctorsPage.CloseDialog | src/pages/Doctors.tsx:70-73 | The dialog closes and the draft is cleared. |
| Doctors.DoctorsPage.OpenChange | src/pages/Doctors.tsx:236 | The dialog's own close path only sets the open flag; the draft stays. |
| Doctors.DoctorsPage.InputChange | src/pages/Doctors.tsx:75-83 | The draft takes the input change; with no draft nothing happens. |
| Doctors.DoctorsPage.SetSearchTerm | src/pages/Doctors.tsx:166 | The search box sets the term. |
| Doctors.DoctorsPage.Submit | src/pages/Doctors.tsx:85-117 | Without a draft nothing is sent; otherwise exactly one save (update iff id); refresh and close only on success. |
| Doctors.DoctorsPage.Delete | src/pages/Doctors.tsx:119-138 | The row's button (line 221) calls the handler only for a row with an id; the service is called only after confirmation; a refresh starts only on success. |
| Appointments.WithSelect | src/pages/Appointments.tsx:147-158 | A select change sets only the named field of the draft; id and notes are untouched. |
| Appointments.PageAccess | src/pages/Appointments.tsx:257 | Every signed-in user sees the page, whatever the role; an anonymous visitor is sent to log in. |
| Appointments.SelectOffered | src/pages/Appointments.tsx:357-447 | A booked appointment offers only the status select; a new one offers patient, doctor and, once a doctor is selected, the slot list, but not the status. |
| Appointments.BookedKeepsReferences | src/pages/Appointments.tsx:357-447 | Once an appointment has an id, no run of edits through the controls the dialog offers changes its id, patient, doctor or date. |
| Appointments.SubmitEnabled | src/pages/Appointments.tsx:467 | Submit is enabled iff there is a draft and it has an id or non-empty patient, doctor and date. |
| Appointments.BookingNeedsPatientDoctorAndSlot | src/pages/Appointments.tsx:47-53 | The default draft cannot be submitted; picking a patient, a doctor and a slot enables it. |
| Appointments.CancelFollowsStatus | src/pages/Appointments.tsx:327 | The cancel button shows for the default (SCHEDULED) draft; a status pick keeps it iff SCHEDULED is picked; every other edit leaves it as it was. |
| Appointments.SaveRequest | src/pages/Appointments.tsx:165-179 | Submit dispatches an update iff the draft has an id and a booking otherwise, carrying the draft. |
| Appointments.AppointmentsPage.constructor | src/pages/Appointments.tsx:35-43 | The page starts empty and loading, with no draft and no doctor selected. |
| Appointments.AppointmentsPage.Mount | src/pages/Appointments.tsx:56-71 | On mount the page requests appointments, patients and doctors, raising the loading flag. |
| Appointments.AppointmentsPage.SelectedDoctorEffect | src/pages/Appointments.tsx:63-67 | The selected doctor's open slots are requested when a doctor is selected, and nothing otherwise. |
| Appointments.AppointmentsPage.Fetch | src/pages/Appointments.tsx:69-73 | A fetch raises the loading flag, clears the error and requests every appointment. |
| Appointments.AppointmentsPage.Loaded | src/pages/Appointments.tsx:73-85 | A reply replaces the list or records the load error; loading stops either way. |
| Appointments.AppointmentsPage.PatientsLoaded | src/pages/Appointments.tsx:88-95 | A patient list reply replaces the list; a failure changes nothing. |
| Appointments.AppointmentsPage.DoctorsLoaded | src/pages/Appointments.tsx:97-104 | A doctor list reply replaces the list; a failure changes nothing. |
| Appointments.AppointmentsPage.SlotsLoaded | src/pages/Appointments.tsx:106-118 | A slot list reply replaces the list; a failure changes nothing. |
| Appointments.AppointmentsPage.OpenDialog | src/pages/Appointments.tsx:120-129 | An existing appointment is edited with its doctor selected; a new one starts from the default (status SCHEDULED, no id) with no doctor selected; the dialog opens. |
| Appointments.AppointmentsPage.CloseDialog | src/pages/Appointments.tsx:131-135 | The dialog closes, the draft is cleared and no doctor is selected. |
| Appointments.AppointmentsPage.OpenChange | src/pages/Appointments.tsx:346 | The dialog's own close path only sets the open flag; the draft and the selected doctor stay, and the selected doctor stays the draft's doctor. |
| Appointments.AppointmentsPage.NotesChange | src/pages/Appointments.tsx:137-145 | Typing in the notes sets the draft's notes; with no draft nothing happens. |
| Appointments.AppointmentsPage.SelectChange | src/pages/Appointments.tsx:147-158 | A pick sets the named draft field; a doctor pick also becomes the selected doctor, other picks leave it; with no draft nothing happens; the selected doctor stays the draft's doctor. |
| Appointments.AppointmentsPage.Submit | src/pages/Appointments.tsx:160-192 | Without a draft nothing is sent; otherwise exactly one save (update iff id); refresh and close (draft and selected doctor cleared) only on success. |
| Appointments.AppointmentsPage.Cancel | src/pages/Appointments.tsx:194-213 | The row's button (line 331) calls the handler only for an appointment with an id; the service is called only after confirmation; a refresh starts only on success. |
| TimeSlots.NewSlot | src/pages/TimeSlots.tsx:43-48 | A new slot has no id, empty times, is available, and belongs to the selected doctor. |
| TimeSlots.IsReadOnly | src/pages/TimeSlots.tsx:41 | Whoever gets the write controls (ADMIN or DOCTOR) has a role and is let in by the page's guard. |
| TimeSlots.PageAccess | src/pages/TimeSlots.tsx:212 | An anonymous visitor is sent to log in; a signed-in user with a role other than ADMIN or DOCTOR is sent to the unauthorized page; everyone else sees the page. |
| TimeSlots.AvailabilityRoundTrip | src/pages/TimeSlots.tsx:375-376 | The availability select stores `value == "true"` and shows "true"/"false" for the stored flag, so it stores what it shows. |
| TimeSlots.TimeFieldValue | src/pages/TimeSlots.tsx:354-366 | The shown time is the longest prefix of the stored time without a '.', ending at the first '.' or the end. |
| TimeSlots.TimeFieldDropsFraction | src/pages/TimeSlots.tsx:354-366 | A stored time with fractional seconds shows without them. |
| TimeSlots.TimeFieldShowsTyped | src/pages/TimeSlots.tsx:354-366 | A time without a '.' shows as stored, and showing is idempotent. |
| Text.BeforeFirstDot | src/pages/TimeSlots.tsx:354 | `split('.')[0]` is the longest prefix without a '.', ending at the first '.' or at the end. |
| TimeSlots.WithInput | src/pages/TimeSlots.tsx:122-130 | A time input sets only the named time. |
| TimeSlots.WithSelect | src/pages/TimeSlots.tsx:132-139 | A doctor pick sets the draft's doctor; an availability pick sets `isAvailable` to whether the option is "true". |
| TimeSlots.PickOffered | src/pages/TimeSlots.tsx:333 | The doctor select takes a pick only while the slot has no id; the availability select always does. |
| TimeSlots.SavedSlotKeepsDoctor | src/pages/TimeSlots.tsx:330-345 | However many picks a saved slot's dialog goes through, its id, doctor and times stay as they were. |
| TimeSlots.SelectionAfterLoad | src/pages/TimeSlots.tsx:69-72 | After the doctor list arrives, the first doctor is selected when there is one with a non-empty id; otherwise the selection stays. |
| TimeSlots.SaveRequest | src/pages/TimeSlots.tsx:146-159 | Submit dispatches an update iff the draft has an id and an addition otherwise, carrying the draft. |
| TimeSlots.TimeSlotsPage.constructor | src/pages/TimeSlots.tsx:32-38 | The page starts with no slots or doctors, no doctor selected and not loading. |
| TimeSlots.TimeSlotsPage.FetchDoctors | src/pages/TimeSlots.tsx:51-66 | On mount the page raises the loading flag, clears the error and requests every doctor. |
| TimeSlots.TimeSlotsPage.DoctorsLoaded | src/pages/TimeSlots.tsx:66-83 | A reply replaces the doctor list and selects its first doctor as `SelectionAfterLoad` says; a failure records the error; loading stops either way. |
| TimeSlots.TimeSlotsPage.SelectDoctor | src/pages/TimeSlots.tsx:227-228 | The page's doctor select sets the selected doctor. |
| TimeSlots.TimeSlotsPage.SelectedDoctorEffect | src/pages/TimeSlots.tsx:56-60 | The selected doctor's slots are fetched when a doctor is selected, and nothing happens otherwise. |
| TimeSlots.TimeSlotsPage.FetchSlots | src/pages/TimeSlots.tsx:86-90 | A slot fetch raises the loading flag, clears the error and requests the doctor's slots. |
| TimeSlots.TimeSlotsPage.SlotsLoaded | src/pages/TimeSlots.tsx:90-102 | A reply replaces the slot list or records the error; loading stops either way. |
| TimeSlots.TimeSlotsPage.OpenDialog | src/pages/TimeSlots.tsx:105-115 | The draft is the given slot or a new slot for the selected doctor; the dialog opens. |
| TimeSlots.TimeSlotsPage.CloseDialog | src/pages/TimeSlots.tsx:117-120 | The dialog closes and the draft is cleared. |
| TimeSlots.TimeSlotsPage.OpenChange | src/pages/TimeSlots.tsx:319 | The dialog's own close path only sets the open flag; the draft stays. |
| TimeSlots.TimeSlotsPage.InputChange | src/pages/TimeSlots.tsx:122-130 | The draft takes the time input; with no draft nothing happens. |
| TimeSlots.TimeSlotsPage.SelectChange | src/pages/TimeSlots.tsx:132-139 | The draft takes the pick; with no draft nothing happens; the page's selected doctor does not move. |
| TimeSlots.TimeSlotsPage.Submit | src/pages/TimeSlots.tsx:141-173 | Without a draft nothing is sent; otherwise exactly one save (update iff id); on success the selected doctor's slots are refetched and the dialog closes. |
| TimeSlots.TimeSlotsPage.Delete | src/pages/TimeSlots.tsx:175-194 | The service is called only after confirmation; on success the selected doctor's slots are refetched. |
| Register.WithField | src/pages/Register.tsx:24-27 | A change sets only the named form field. |
| Register.Payload | src/pages/Register.tsx:44-49 | The registration body carries username, password, email and full name from the form. |
| Register.PayloadIgnoresConfirmation | src/pages/Register.tsx:44-49 | The confirmation never reaches the body: forms differing only in it send the same body. |
| Register.PayloadFollowsTyping | src/pages/Register.tsx:24-49 | Typing in a field other than the confirmation changes that field of the body only. |
| Register.PageAccess | src/pages/Register.tsx:70 | The sign-up page is public: the guard renders it for anyone. |
| Register.RegisterPage.constructor | src/pages/Register.tsx:13-20 | The form starts empty and not loading. |
| Register.RegisterPage.HandleChange | src/pages/Register.tsx:24-27 | The form takes the change. |
| Register.RegisterPage.Submit | src/pages/Register.tsx:29-49 | On a password mismatch nothing is sent and the loading flag is unchanged; otherwise the flag is raised and the body is posted to `/users/register`. |
| Register.RegisterPage.Completed | src/pages/Register.tsx:50-66 | Navigation to `/login` happens on success only; the loading flag is lowered either way. |
| SiteMap.RouteTo | src/components/Layout/MainLayout.tsx:21-23 | A signed-in user is never sent to the login page from a known page. |
| SiteMap.NavLinksAreReachable | src/components/Layout/Header.tsx:27-36 | Every link a signed-in user sees leads to a page the guard renders for that user's role. |
| SiteMap.FeatureCardsAreReachable | src/pages/Home.tsx:14-51 | Every card a signed-in user sees leads to a page the guard renders for that user's role. |
| SiteMap.WritersAreAdmitted | src/pages/Patients.tsx:39 | A role a page lets write (patients, doctors, time slots) is one its guard admits. |
| SiteMap.PatientOnPatientsAndDoctors | src/pages/Patients.tsx:164 | A patient is sent to the unauthorized page from the patient list, and may read but not write the doctor list. |
| SiteMap.DoctorOnPatientsAndSlots | src/pages/TimeSlots.tsx:41 | A doctor reads but does not write patients, and reads and writes time slots. |
| SiteMap.NoRoleNavigationVersusCards | src/pages/Home.tsx:50 | A user without a role gets only Home and Appointments in the navigation bar but all four cards on the landing page, each of which the guard renders. |
| SiteMap.PatientReachesDoctorsOnlyThroughHome | src/pages/Home.tsx:25-29 | A patient has no Doctors link but has the Doctor Directory card, which leads to the doctor list, and the guard renders it. |

## Left out

- Network: the HTTP client and every service call body are not modelled; a call is the
  request value a handler returns, and its outcome is a parameter (`Reply<T>` or a
  success flag). The endpoints are named only for login and registration.
- Asynchrony: `useEffect` scheduling, the order in which concurrent fetches resolve,
  updates after unmount, and React's batching of state updates. An `async` handler is two
  methods, before and after its `await`; an effect is a method the caller runs after the
  state it depends on changes.
- `window.confirm` is a boolean parameter; toasts, `console.error`, the CSV export and the
  date formatting of `date-fns` (`formatDateTime`) are not modelled.
- Rendering: JSX, CSS and icons, `src/pages/Index.tsx`, `src/pages/Unauthorized.tsx`, and
  the router (App.tsx is not part of this model), so `SiteMap.PageLayout` pairs each link
  path with the page of the same name.
- Visibility and enabling of controls is modelled as predicates (`IsReadOnly`,
  `CancelOffered`, `SelectOffered`, `SubmitEnabled`, `PickOffered`) beside the handlers, not as preconditions of them,
  because the handlers themselves do not check it.
- Text.ParseInt: `parseInt` is read as an optional sign and leading decimal digits, without
  leading white space, other radixes or `Infinity`; the value is an unbounded integer, so the
  loss of precision of a JavaScript number past 2^53 is not modelled.
- Text.Lower: lower-casing is ASCII-only, not Unicode `toLowerCase`.
- AuthService.EncodeUser: control characters (U+0000 to U+001F) are written as they are,
  where `JSON.stringify` would escape them; the round trip holds either way.
- AuthService.DecodeUser: `JSON.stringify`/`JSON.parse` of the stored identity are a
  concrete encoding of the three string fields in the order `userId`, `username`, `role`,
  without white space, reading only the escapes `\"` and `\\`; other JSON spellings of the
  same object (other escapes, white space, another key order) are treated as unreadable.
- AuthContext.AuthProvider.Restore: an unreadable `user` entry makes `JSON.parse` throw in
  the mount effect; the model reports `UnreadableUser` and leaves the state as it was,
  without modelling the thrown error itself.
- Only the inputs wired to each handler are modelled as field names (`PatientInput`,
  `DoctorInput`, the appointment's notes, `TimeInput`, `FormField`); the source's computed
  `[name]: value` would accept any name.
- The record fields with `?` (`id`, `medicalHistory`, `availability`, `notes`) are
  `Option`s; the source's `undefined` is `None`.
