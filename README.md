# Student portal client logic, modelled in Dafny

This project models the client-side decision and data-shaping logic of the
Ionic/Angular student portal "my-espace": the two route guards and the login
page that share the `studentDetail` session record, the weekly schedule page
(Monday-first week, day navigation, courses of the selected day), the grades,
documents and alerts pages (filters, newest-first ordering, per-item flags,
grade thresholds), and the home page's scroll bubble.

Modules, one per source file or shared concern:

- `Wrappers` (wrappers.dfy): `Option` and JavaScript string truthiness.
- `Lists` (lists.dfy): `findIndex`, `filter`, the stable comparator sort, and lexicographic string order.
- `SessionStore` (session_store.dfy): the stored record, its three states and the student-role test.
- `Guards` (guards.dfy): `authGuard` and `loginGuard`.
- `Login` (login.dfy): `LoginPage`.
- `Planing` (planing.dfy): `PlaningPage` and its pure helpers.
- `Notes` (notes.dfy), `Documents` (documents.dfy), `Alerts` (alerts.dfy), `Home` (home.dfy).

Representation choices:

- The stored record is `Absent | Unreadable | Parsed(detail)`.
  - `Absent` also covers an empty string, which the guards read as no session.
  - `Unreadable` is text that `JSON.parse` rejects, or that parses to `null`.
  - Any other parsed value is a `StudentDetail` whose `isLoggedIn` is the truthiness of that field. A parsed number or boolean therefore reads as "not logged in", as in the source.
- The `roles` field is `Falsy` (missing, null or empty: `roles || []` gives `[]`), a `RoleList`, or `NotAList`. `NotAList` is a truthy non-array, on which `roles.some` throws into the guards' catch block.
- Stateful pages are classes whose fields the methods update. Each method is specified against a pure function of the old state, so lemmas can relate several steps.
- The guards and the login handlers work on a `Storage` object holding the one storage key. The backend callbacks are methods that take the response or the error as a parameter.
- Schedule dates are integer day numbers; day 0 is Thursday 1 January 1970, so `Date.getDay()` is `(d + 4) % 7`.
- Document and alert dates are millisecond timestamps. The clock reading `Date.now()` is a parameter.
- `Array.prototype.sort` is the stable insertion sort `Lists.SortBy`. Each comparator of the form `b.x - a.x` is the predicate `a.x >= b.x`.
- `localeCompare` on "HH:MM" times is lexicographic order by character code.
- Scores, scroll offsets and opacity are exact `real`s.

## Model

| member | source | states |
|---|---|---|
| `SessionStore.HasStudentRole` | src/app/guards/auth.guard.ts:26-29 | true exactly when some role equals "STUDENT", "ÉTUDIANT" or "ETUDIANT", compared exactly and case-sensitively |
| `Guards.AfterGuard` | src/app/guards/auth.guard.ts:31-45 | a guard pass either keeps the record or removes it; it removes it exactly when the record is unreadable, or logged in without a student role list; an admitted record is kept |
| `Guards.AuthGuard` | src/app/guards/auth.guard.ts:4-46 | allows exactly a parsed, logged-in record with a student role; removes an unreadable record and a logged-in record without a student role (missing roles, a role list without a student role, or a non-array roles value); leaves every other store unchanged |
| `Guards.LoginGuard` | src/app/guards/login.guard.ts:4-38 | returns the negation of `AuthGuard`'s verdict on the same store, and leaves the store in the same final state as `AuthGuard` |
| `Guards.GuardCases` | src/app/guards/auth.guard.ts:8-45 | no record: denied, store unchanged; unreadable: denied and removed; not logged in: denied, record kept; logged in without roles: denied and removed; roles `["student"]`: denied and removed |
| `Login.SessionRecord` | src/app/login/login.page.ts:83-93 | the saved record is logged in and carries the response's roles, local id, token and email |
| `Login.LoginErrorMessage` | src/app/login/login.page.ts:103-111 | the backend's `error.message` when present and non-empty, otherwise "Email ou mot de passe incorrect."; never empty |
| `Login.LoginRecordAdmitted` | src/app/login/login.page.ts:83-96 | a record saved after a student login is admitted by `authGuard` and kept by both guards |
| `Login.LoginPage.TogglePasswordVisibility` | src/app/login/login.page.ts:50-52 | negates `showPassword` and changes nothing else, so two toggles restore it |
| `Login.LoginPage.OnLogin` | src/app/login/login.page.ts:54-117 | the backend call is issued exactly when both fields are non-empty and issuing it does not throw; then the message is cleared and loading is on; an empty field gives "Veuillez remplir tous les champs." with loading off; a throwing call gives the generic error with loading off |
| `Login.LoginPage.OnLoginResponse` | src/app/login/login.page.ts:68-102 | without a student role: the rights-denied message, store untouched; with one: the session record saved and admitted by the guards; loading off in both cases |
| `Login.LoginPage.OnLoginError` | src/app/login/login.page.ts:103-111 | shows `LoginErrorMessage` of the error and turns loading off |
| `Planing.MondayOffset` | src/app/planing/planing.page.ts:84-85 | the offset is between -6 and 0 and lands on a Monday |
| `Planing.MondayOf` | src/app/planing/planing.page.ts:83-87 | a Monday, at most six days before the given day |
| `Planing.TodayName` | src/app/planing/planing.page.ts:111-114 | one of the seven French day names; the same name the Monday-first week gives that weekday |
| `Planing.WeekNamesMatchCalendar` | src/app/planing/planing.page.ts:82-114 | in a week starting on a Monday, every entry's name is `getTodayName` of its own date |
| `Planing.FindIndex` | src/app/planing/planing.page.ts:121 | the first entry with that name, or -1 when none has it |
| `Planing.FindIndexInWeek` | src/app/planing/planing.page.ts:89-101 | in a week every name is found at its own position, since the seven names are distinct |
| `Planing.ShiftWeekDays` | src/app/planing/planing.page.ts:150-159 | keeps every name and short name and adds exactly `days` to every date |
| `Planing.ShiftKeepsWeek` | src/app/planing/planing.page.ts:150-159 | a shifted week is still a week, and a shift by whole weeks keeps the weekday of its first date |
| `Planing.ShiftRoundTrip` | src/app/planing/planing.page.ts:150-159 | shifting by `k` and then by `-k` restores the week |
| `Planing.Select` | src/app/planing/planing.page.ts:166-173 | a name not in the week changes nothing; otherwise that entry's name and date are selected and the week stays |
| `Planing.Previous` | src/app/planing/planing.page.ts:120-133 | from entry k > 0 it selects entry k-1 of the same week; from the first entry (or an unknown name) it moves the week back seven days and selects its last entry, one week earlier; the selected name is always found in the resulting week |
| `Planing.Next` | src/app/planing/planing.page.ts:135-148 | from entry k below the last (or an unknown name, k = -1) it selects entry k+1 of the same week; from the last entry it moves the week forward seven days and selects its first entry, one week later; the selected name is always found in the resulting week |
| `Planing.StepsMoveOneDay` | src/app/planing/planing.page.ts:120-148 | from any week, a step back or forward selects a name and date of the same entry; from a consistent selection it lands exactly one calendar day earlier or later; the week either stays or moves by -7 or +7 days |
| `Planing.NextUndoesPrevious` | src/app/planing/planing.page.ts:120-159 | for a selection that names a day of the week with that day's date, `nextDay` after `previousDay` restores the selected day, selected date and all week dates |
| `Planing.PreviousUndoesNext` | src/app/planing/planing.page.ts:120-159 | likewise `previousDay` after `nextDay` restores the whole navigation state |
| `Planing.SelectedNameMatchesDate` | src/app/planing/planing.page.ts:111-148 | in a week starting on a Monday, a consistent selection's name is the weekday of its date |
| `Planing.InitialSelectionConsistent` | src/app/planing/planing.page.ts:78-114 | the week built for a day, with that day's name and date selected, is a consistent selection, so the navigation round trips apply from the first render |
| `Lists.StrLeTotal` | src/app/planing/planing.page.ts:217-221 | any two start times are ordered one way or the other |
| `Lists.StrLeTransitive` | src/app/planing/planing.page.ts:217-221 | the start-time order is transitive |
| `Planing.StartOrderIsTotalPreorder` | src/app/planing/planing.page.ts:217-221 | the start-time comparator (`heureDebut`, else `startTime`, else "00:00") is a total preorder, so the sort is well defined |
| `Planing.CoursesForDay` | src/app/planing/planing.page.ts:211-222 | exactly the courses whose `day` (falling back to `jour`) is the selected day, each as often as held, in non-decreasing start time |
| `Planing.ProfName` | src/app/planing/planing.page.ts:237-245 | "prenom nom" when both are set, `nom` when only it is set, "Professeur" otherwise; never empty |
| `Planing.ConvertJourToDayName` | src/app/planing/planing.page.ts:224-235 | own-key lookup in the day table: the result is always the input |
| `Planing.ConvertJourAsWritten` | src/app/planing/planing.page.ts:224-235 | the code as written returns a string exactly when the input is not an inherited `Object.prototype` key, and then returns the input itself |
| `Planing.ConvertJourAsWrittenLeaksPrototype` | src/app/planing/planing.page.ts:224-235 | as written, "toString" maps to an inherited function and not to the string "toString" |
| `Planing.ConvertJourAgrees` | src/app/planing/planing.page.ts:224-235 | away from the inherited `Object.prototype` keys, the code as written returns the input string, like the corrected lookup |
| `Planing.ToCourse` | src/app/planing/planing.page.ts:182-192 | a converted programme falls on its `jour` and starts at its non-empty `heureDebut` |
| `Planing.PlaningPage.InitializeWeekDays` | src/app/planing/planing.page.ts:82-102 | builds seven entries Lundi to Dimanche with their short names on consecutive dates, starting on the Monday on or before `now`; `now` is one of them |
| `Planing.PlaningPage.UpdateCoursesForSelectedDay` | src/app/planing/planing.page.ts:207-209 | the shown courses are `CoursesForDay` of all courses and the selected day |
| `Planing.PlaningPage.SelectToday` | src/app/planing/planing.page.ts:104-109 | selects the weekday name of `today` and the clock date, and refreshes the shown courses |
| `Planing.PlaningPage.OnInit` | src/app/planing/planing.page.ts:63-80 | requests courses exactly when the stored record parses, is logged in and has a local id, and otherwise leaves the student id and loading flag as they were; builds the current week and selects today; keeps `today`; when `today` is the clock reading, the resulting selection is consistent |
| `Planing.PlaningPage.PreviousDay` | src/app/planing/planing.page.ts:120-133 | the navigation state becomes `Previous` of the old one, and the shown courses follow the new day |
| `Planing.PlaningPage.NextDay` | src/app/planing/planing.page.ts:135-148 | the navigation state becomes `Next` of the old one, and the shown courses follow the new day |
| `Planing.PlaningPage.SelectDay` | src/app/planing/planing.page.ts:166-173 | the navigation state becomes `Select` of the old one; an unknown name leaves even the shown courses unchanged |
| `Planing.PlaningPage.LoadCourses` | src/app/planing/planing.page.ts:175-179 | without a student id nothing is requested and the loading flag is unchanged; otherwise a request is issued with loading on |
| `Planing.PlaningPage.OnProgrammes` | src/app/planing/planing.page.ts:180-196 | all courses become the converted programmes (none for a null payload), the shown courses follow, loading off |
| `Planing.PlaningPage.OnProgrammesError` | src/app/planing/planing.page.ts:197-203 | loading off, all courses become the sample courses, the shown courses follow |
| `Notes.GradeLetter` | src/app/note/note.page.ts:124-131 | A+ from 18, A from 16, B from 14, C from 12, D from 10, E below; a score on a threshold gets the higher letter |
| `Notes.GradeLetterMonotone` | src/app/note/note.page.ts:124-131 | a higher score never gets a worse letter |
| `Notes.GradeClass` | src/app/note/note.page.ts:133-138 | green from 16, orange from 14, yellow from 12, red below |
| `Notes.ScoreClass` | src/app/note/note.page.ts:133-145 | always `GradeClass` of the same score followed by "-badge" |
| `Notes.ScoreOrderIsTotalPreorder` | src/app/note/note.page.ts:117 | the best-score comparator is a total preorder |
| `Notes.BestFirst` | src/app/note/note.page.ts:115-118 | the subject's notes are a permutation of its own, best score first; every other subject field is kept |
| `Notes.FilteredSubjects` | src/app/note/note.page.ts:102-122 | same number and order of subjects; with 'best' each subject differs only in its notes, which are a best-first permutation; any other filter returns the subjects unchanged |
| `Documents.DateOrdersAreTotalPreorders` | src/app/document/document.page.ts:232-237 | the newest-first comparators on courses and documents are total preorders |
| `Documents.FilteredCourses` | src/app/document/document.page.ts:220-233 | 'recent' keeps exactly the courses updated at or after `now` minus three days; 'favorites' keeps exactly the favourites; any other filter keeps all; each kept course as often as held, most recent first |
| `Documents.FirstWithId` | src/app/document/document.page.ts:240 | the first course with that id, or -1 when none has it |
| `Documents.FavoriteToggled` | src/app/document/document.page.ts:239-244 | only the first course with that id has its favourite flag flipped; every other course is unchanged |
| `Documents.FavoriteToggledProperties` | src/app/document/document.page.ts:239-244 | toggling twice restores the list; an unknown id changes nothing |
| `Documents.SelectedCourse` | src/app/document/document.page.ts:254-256 | a course exactly when one is selected and some course has its id, and then the first such course |
| `Documents.CourseDocuments` | src/app/document/document.page.ts:258-263 | nothing when no course (or an empty id) is selected; otherwise exactly that course's documents, newest first |
| `Documents.DocumentPage.SortCoursesByDate` | src/app/document/document.page.ts:235-237 | the held courses become a permutation of themselves, most recent first |
| `Documents.DocumentPage.ToggleFavorite` | src/app/document/document.page.ts:239-244 | the held courses become `FavoriteToggled` of the old ones |
| `Documents.DocumentPage.OpenCourseDocuments` | src/app/document/document.page.ts:246-248 | selects the given course id |
| `Documents.DocumentPage.CloseDocumentsModal` | src/app/document/document.page.ts:250-252 | clears the selection, so no course and no documents are selected |
| `Alerts.DateOrderIsTotalPreorder` | src/app/alerte/alerte.page.ts:153-157 | the newest-first comparator is a total preorder |
| `Alerts.FilteredNotifications` | src/app/alerte/alerte.page.ts:145-154 | 'all' keeps every notification; any other filter keeps exactly those of that kind; each as often as held, newest first |
| `Alerts.NotificationIcon` | src/app/alerte/alerte.page.ts:160-173 | fixed icons for examen, note, evenement and info; "notifications-outline" for every other kind, 'autre' included |
| `Alerts.FirstWithId` | src/app/alerte/alerte.page.ts:176 | the first notification with that id, or -1 when none has it |
| `Alerts.MarkedRead` | src/app/alerte/alerte.page.ts:175-180 | only the first notification with that id is marked read; every other one is unchanged |
| `Alerts.MarkedReadProperties` | src/app/alerte/alerte.page.ts:175-180 | marking is idempotent; an unknown id changes nothing; only the first match of the id is marked |
| `Alerts.AlertePage.SortNotificationsByDate` | src/app/alerte/alerte.page.ts:156-158 | the held list becomes a permutation of itself, newest first |
| `Alerts.AlertePage.MarkAsRead` | src/app/alerte/alerte.page.ts:175-180 | the held list becomes `MarkedRead` of the old one |
| `Home.ScrollStep` | src/app/home/home.page.ts:104-137 | remembers the new offset; scrolling down is "offset above the last one"; the bubble shows exactly when scrolling down past 50, faded to `max(0.3, 1 - t/200)`; otherwise it hides at opacity 1; opacity always within [0.3, 1] |
| `Home.ReplayKeepsOpacity` | src/app/home/home.page.ts:114-129 | across any run of scroll events the opacity stays within [0.3, 1] and the last offset is remembered |
| `Home.RepeatedOffsetHides` | src/app/home/home.page.ts:96-129 | an event at the offset already remembered counts as not scrolling down and hides the bubble at full opacity, so a scroll-end right after a scroll at the same offset always hides it |
| `Home.HomePage.UpdateScrollState` | src/app/home/home.page.ts:104-137 | the four fields become `ScrollStep` of the old ones, so the else-if guard (`<= 50`) is always true when reached |
| `Home.HomePage.HandleScroll` | src/app/home/home.page.ts:60-89 | nothing without a scroll element; otherwise the same step as `UpdateScrollState`, so its `<= 70` guard is always true when reached |
| `Home.HomePage.OnScroll` | src/app/home/home.page.ts:91-94 | the scroll step at the event's offset |
| `Home.HomePage.OnScrollEnd` | src/app/home/home.page.ts:96-102 | nothing without a scroll element; otherwise the scroll step at the element's offset |
| `Home.HomePage.AttachScrollElement` | src/app/home/home.page.ts:36-52 | once the element is found, the last offset starts at its current offset; the opacity invariant is kept |

## Findings

| source | as written | input that shows it | evidently intended | confidence | as-written member | corrected member |
|---|---|---|---|---|---|---|
| src/app/planing/planing.page.ts:224-235 | `mapping[jour] \|\| jour` reads a plain object literal, so inherited `Object.prototype` members are found too | `jour = "toString"` yields the inherited function, not the string | every day name maps to itself, and any other text is returned as it is | not executed; high (standard JavaScript property lookup) | `Planing.ConvertJourAsWrittenLeaksPrototype` | `Planing.ConvertJourToDayName` |

The model converts programmes with the corrected `Planing.ConvertJourToDayName`. The two differ only for a `jour` equal to an inherited key.

## Left out

- Notes.FilteredSubjects: requires a filter other than 'recent'. That branch sorts by `new Date('15 Mars 2024')`. Whether that text parses depends on the JavaScript engine, so its order is unspecified.
- Lists.SortBy: is the stable sort, but its contract states only sortedness and permutation, not stability.
- Planing.CoursesForDay: orders start times lexicographically by character code. `localeCompare` uses locale collation, which agrees only on zero-padded "HH:MM" strings.
- Planing.ConvertJourAsWritten: lists the eleven standard `Object.prototype` methods and `__proto__`. Engine-specific extra members are not modelled.
- Planing.PlaningPage.PreviousDay: requires a non-empty week. On the empty week that exists before `ngOnInit`, the source throws a `TypeError`; that failure is not modelled.
- Planing.PlaningPage.NextDay: requires a non-empty week, for the same reason.
- Home.HomePage.UpdateScrollState: requires the class invariant `Valid()` (opacity within [0.3, 1]), which the constructor establishes and every method of the page keeps.
- Planing.PlaningPage.OnInit: takes one clock reading `now` for both the week (`initializeWeekDays`) and the selected date (`selectToday`). The source reads the clock twice, and around midnight the two readings can fall on different days.
- Calendar arithmetic is left out: `Date`, time of day, time zones and month rollover. A date is a day number, or a millisecond timestamp where the source compares timestamps.
- Elements of a `roles` array that are not strings are left out. They can never equal a role literal, so the role test is unaffected.
- A response whose `roles` is not an array is left out. `roles.some` would then throw inside the asynchronous callback and leave `isLoading` on.
- Navigation (`router.navigate`), icon registration, change detection (`detectChanges` and the 0.01 opacity threshold), event-listener wiring, `setTimeout` and `console` logging are left out. None of them changes the modelled state.
- HTTP calls are left out: `AuthService.login` and `StudentService.getProgrammes`. Their callbacks are modelled as methods taking the response or error as a parameter.
- Push notifications (src/app/services/fcm.service.ts) are not part of this model. They are device plugin calls with timed retries.
- The hard-coded sample data of the pages (`getTestCourses`, the document, alert and note lists) is left out. Constructors and `OnProgrammesError` take these lists as parameters.
- The `ngOnInit` of the documents and alerts pages only calls the modelled sort methods, so it is not modelled separately.
- `onForgotPassword` (a browser `alert`), `goToToday`, `getCurrentDayName` and `downloadDocument` (logging only) are left out. `goToToday` is the composition of `InitializeWeekDays` and `SelectToday`.
- Route tables, tabs, profile, app component and Capacitor configuration hold no decision logic and are left out.
