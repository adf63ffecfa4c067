# Admin portal record logic, in Dafny

This project models the record-collection logic of a health-camp admin portal written in React.
Each page loads a fixed seed collection and then changes it with its own handlers. The pages are:

- users, with expandable rows, an all-fields search, pagination, and blood-pressure and sugar classifiers;
- doctors: add, edit, delete and camp assignment;
- schemes: reviewing applications, and the per-status tabs;
- family health: members, the search plus status filter, and the statistics;
- patients;
- login-form validation;
- the CSV report download.

The helper modules model the JavaScript behaviour the pages rely on:

- `Wrappers`: `Option`.
- `Seqs`: `filter`, `find`, `reduce` sums, `new Set(...).size`.
- `Text`: ECMAScript whitespace, `trim`, `includes`, `split`/`join` on one character, UTF-16 `length`.
- `JsNumber`: `parseInt`, and `Number#toString` on integers below 1e21, which it prints in plain digits.
- `JsValue`: `String()` coercion, as `Object.values` sees it.

Lowercasing (`toLowerCase`) is a function parameter, `Text.CaseMap`, because the pages apply it to Devanagari and Latin text alike. The scenario lemmas instantiate it with ASCII lowercasing.

Some handlers update React state step by step. Each such page is a class: its `useState` cells are fields, and its handlers are methods with `modifies this`. Each method states the whole new state, in terms of the pure functions over collections. Properties are then proved about those functions. Identifiers, dates and coin flips come from `Date.now()`, `new Date()` and `Math.random()`, so they are method parameters.

The login form's four error texts are the constructors of `Login.Message`, and `Message.Text` gives the Hindi wording. The stored error object therefore holds message names, not strings.

## Model

| member | source | states |
|---|---|---|
| MockData.GetSchemesByStatus | src/data/mockData.ts:313-315 | exactly the seed schemes with that status, in seed order (a subsequence; kept iff the status matches) |
| MockData.GetUserHealthRecords | src/data/mockData.ts:317-319 | exactly the seed records of that user, in seed order |
| MockData.GetDoctorById | src/data/mockData.ts:321-323 | nothing iff no seed doctor has the id; otherwise the first doctor that has it |
| MockData.GetCampById | src/data/mockData.ts:325-327 | nothing iff no seed camp has the id; otherwise the first camp that has it |
| MockData.SearchData | src/data/mockData.ts:329-338 | empty term returns the data unchanged; otherwise a subsequence that holds every copy of each item with a listed string field whose lowercase includes the lowercased term, and no copy of any other item |
| MockData.SearchDataIdempotent | src/data/mockData.ts:329-338 | searching the result again with the same arguments returns it unchanged |
| MockData.NonStringFieldsNeverMatch | src/data/mockData.ts:335 | an item none of whose listed fields holds a string is never returned for a non-empty term |
| MockData.SingleFieldMatches | src/data/mockData.ts:333-336 | searching one field is matching that field |
| MockData.SpecialtyMatch | src/data/mockData.ts:329-338 | a doctor matches a search on `specialty` alone iff the lowercased specialty includes the lowercased term |
| MockData.LowerCardio | src/data/mockData.ts:52-97 | ASCII lowercasing keeps "cardio" |
| MockData.GeneralMedicineLacksCardio | src/data/mockData.ts:52-63 | the first seed doctor's lowercased specialty does not include "cardio" |
| MockData.CardiologyHasCardio | src/data/mockData.ts:64-75 | the cardiologist's lowercased specialty includes "cardio" |
| MockData.OrthopedicsLacksCardio | src/data/mockData.ts:76-86 | the third seed doctor's lowercased specialty does not include "cardio" |
| MockData.GynecologyLacksCardio | src/data/mockData.ts:87-97 | the fourth seed doctor's lowercased specialty does not include "cardio" |
| MockData.CardioMatchDoctor0 | src/data/mockData.ts:52-63 | the first seed doctor does not match "cardio" on `specialty` |
| MockData.CardioMatchDoctor1 | src/data/mockData.ts:64-75 | the second seed doctor matches "cardio" on `specialty` |
| MockData.CardioMatchDoctor2 | src/data/mockData.ts:76-86 | the third seed doctor does not match |
| MockData.CardioMatchDoctor3 | src/data/mockData.ts:87-97 | the fourth seed doctor does not match |
| MockData.SearchCardioScenario | src/data/mockData.ts:52-97 | searching the seed doctors' specialty for "cardio" returns exactly the cardiologist |
| MockData.LookupScenario | src/data/mockData.ts:321-327 | present ids find their seed doctor and camp |
| MockData.AbsentDoctorScenario | src/data/mockData.ts:321-323 | an id no seed doctor has finds nothing |
| Users.Toggled | src/pages/Users.tsx:9-17 | the toggled id's membership flips; every other id's membership is unchanged |
| Users.ToggleTwice | src/pages/Users.tsx:9-17 | toggling the same id twice restores the set |
| Users.TogglesCommute | src/pages/Users.tsx:9-17 | toggles of two ids commute |
| Users.UserValues | src/pages/Users.tsx:203 | `Object.values(user)` gives the nine fields, all strings |
| Users.FilterUsers | src/pages/Users.tsx:202-206 | a subsequence of the users; every copy of a user is kept iff some value, converted with `String()` and lowercased, includes the lowercased term |
| Users.EmptyTermKeepsAll | src/pages/Users.tsx:202-206 | an empty term keeps every user |
| Users.FilterUsersIsSearchData | src/pages/Users.tsx:202-206 | for a non-empty term the table search equals `searchData` over all user fields, because every field is a string |
| Users.UserMatchesIsItemMatches | src/pages/Users.tsx:202-206 | for one user, some coerced value includes the term iff some listed field matches |
| Users.TotalPages | src/pages/Users.tsx:208 | the fewest pages of ten that hold n rows: t·10 ≥ n, (t−1)·10 < n when t > 0, and t = 0 iff n = 0 |
| Users.Slice | src/pages/Users.tsx:211 | `slice(start, end)`: the elements from start up to end, clipped to the length |
| Users.PageRows | src/pages/Users.tsx:209-211 | page p holds at most 10 rows: row j of the page is row (p−1)·10+j; non-empty when its start is in range |
| Users.FirstPagesPrefix | src/pages/Users.tsx:209-211 | the first k pages concatenated are the first 10·k rows |
| Users.PagesCoverRows | src/pages/Users.tsx:208-211 | pages 1 to `totalPages` concatenate to the filtered list exactly |
| Users.RowOnItsPage | src/pages/Users.tsx:209-211 | row i appears on page i/10+1 at position i%10 |
| Users.PagePastLastIsEmpty | src/pages/Users.tsx:208-211 | a page after the last is empty |
| Users.ControlsShownIff | src/pages/Users.tsx:265 | the pagination controls show iff there are more than ten rows |
| Users.PreviousPage | src/pages/Users.tsx:272 | never below 1; one less than the current page when that is above 1 |
| Users.NextPage | src/pages/Users.tsx:282 | never above `totalPages`; one more than the current page when that is below the last |
| Users.PaginationScenario | src/pages/Users.tsx:208-211 | 25 rows make 3 pages, and the third holds the last 5 |
| Users.SeedFitsOnePage | src/pages/Users.tsx:202-265 | with the four seed users the controls never show, whatever the search |
| Users.GetBPStatus | src/pages/Users.tsx:151-155 | Normal iff systolic < 120 and diastolic < 80; otherwise High iff systolic < 140 or diastolic < 90; otherwise Very High |
| Users.BPStatusMonotone | src/pages/Users.tsx:151-155 | raising either reading never lowers the class |
| Users.GetSugarStatus | src/pages/Users.tsx:157-161 | Normal iff < 100, Pre-diabetic iff 100 to 125, Diabetic iff ≥ 126 |
| Users.SugarStatusMonotone | src/pages/Users.tsx:157-161 | the sugar class is monotone in the value |
| Users.LatestRecord | src/pages/Users.tsx:144-145 | nothing iff the user has no record; otherwise the first of the user's records |
| Users.HealthCellOf | src/pages/Users.tsx:144-164 | "No records" iff the user has no record; otherwise the two classes of the latest record's readings |
| Users.HealthCellScenario | src/pages/Users.tsx:144-164 | seed user 1 shows High and Pre-diabetic; seed user 3 shows no records |
| Users.DepartmentCount | src/pages/Users.tsx:331 | the number of distinct departments: at most the users, at least 1 when there are users |
| Users.AdminCount | src/pages/Users.tsx:357 | the users minus the non-admins |
| Users.SeedDepartmentsScenario | src/pages/Users.tsx:331 | the seed users have 4 departments |
| Users.SeedAdminsScenario | src/pages/Users.tsx:357 | the seed users have 1 admin |
| Users.UsersPage.constructor | src/pages/Users.tsx:197-199 | no expanded rows, page 1, empty search |
| Users.UsersPage.FilteredData | src/pages/Users.tsx:202-206 | `filteredData`: a subsequence of the page's users holding every copy of each matching user and nothing else |
| Users.UsersPage.CurrentData | src/pages/Users.tsx:208-211 | `currentData`: at most ten rows, the run of `filteredData` from `(currentPage - 1) * 10`, empty iff that start is past the end |
| Users.UsersPage.ToggleRowExpansion | src/pages/Users.tsx:9-17 | the expanded set becomes `Toggled`; the inner table remounts, so page and search reset |
| Users.UsersPage.SetSearchTerm | src/pages/Users.tsx:221 | the search term is set and the page is left as it was |
| Users.UsersPage.ClickPrevious | src/pages/Users.tsx:265-277 | while the controls show and page ≠ 1, the page becomes `PreviousPage`; nothing else changes |
| Users.UsersPage.ClickNext | src/pages/Users.tsx:265-287 | while the controls show and page ≠ last, the page becomes `NextPage`; nothing else changes |
| Doctors.NewDoctor | src/pages/Doctors.tsx:25-37 | the form's fields, experience through `parseInt`, the given id, one of the two avatar URLs |
| Doctors.Edited | src/pages/Doctors.tsx:46-59 | the form's fields over the old doctor; the id and avatar are kept |
| Doctors.FormOf | src/pages/Doctors.tsx:84-95 | `openEditModal`'s form shows the doctor's text fields and camps as they are; its experience text is read back by FormOfExperience |
| Doctors.FormOfExperience | src/pages/Doctors.tsx:54-91 | `parseInt` of `experience.toString()` gives the experience back |
| Doctors.EditUnchangedIsIdentity | src/pages/Doctors.tsx:46-96 | saving `openEditModal`'s form unchanged gives the same doctor |
| Doctors.EditDoctors | src/pages/Doctors.tsx:46-59 | same length; doctors with the id are `Edited`; every other doctor is unchanged |
| Doctors.EditUnchangedIsNoOp | src/pages/Doctors.tsx:46-96 | with unique ids, saving doctor k's form unchanged leaves the list as it was |
| Doctors.EditAbsentIsNoOp | src/pages/Doctors.tsx:46-59 | editing an id no doctor has changes nothing |
| Doctors.WithoutDoctor | src/pages/Doctors.tsx:68 | a subsequence without the id that keeps every other doctor; its length is the list minus the doctors with the id |
| Doctors.DeleteAbsentIsNoOp | src/pages/Doctors.tsx:68 | deleting an absent id changes nothing |
| Doctors.DeleteOne | src/pages/Doctors.tsx:68 | deleting an id held by one doctor drops exactly that doctor, and the rest keep their order |
| Doctors.DeleteScenario | src/pages/Doctors.tsx:68 | deleting seed doctor "2" leaves doctors 1, 3 and 4 |
| Doctors.OfferedCamps | src/pages/Doctors.tsx:394 | exactly the seed camps with status `scheduled`, in order |
| Doctors.SeedOfferedCamps | src/pages/Doctors.tsx:394 | on the seed the offered camps are camps 1, 2 and 4, in that order |
| Doctors.ScheduledCampIdsAreOffered | src/pages/Doctors.tsx:394 | the offered camps' ids are "1", "2" and "4" |
| Doctors.WithCamp | src/pages/Doctors.tsx:402-404 | checking appends the id |
| Doctors.WithoutCamp | src/pages/Doctors.tsx:406-408 | unchecking removes every occurrence of the id and keeps every copy of each other id, in order |
| Doctors.CheckThenUncheck | src/pages/Doctors.tsx:398-410 | checking and then unchecking an unassigned camp restores the list |
| Doctors.ClickCamp | src/pages/Doctors.tsx:398-410 | a click flips whether the id is assigned |
| Doctors.ClickCampTwice | src/pages/Doctors.tsx:398-410 | two clicks on an unassigned camp restore the list |
| Doctors.SpecialtyCount | src/pages/Doctors.tsx:271 | the number of distinct specialties: at most the doctors, at least 1 when there are doctors |
| Doctors.AvailableCount | src/pages/Doctors.tsx:285 | the doctors minus those with no assigned camp |
| Doctors.AddMovesCards | src/pages/Doctors.tsx:283-286 | adding a doctor raises the total by one, and the available count by one exactly when it has camps |
| Doctors.WithField | src/pages/Doctors.tsx:314-383 | `{...formData, field: value}`: the named input reads `value`, every other input and the camp list are kept |
| Doctors.FormByFields | src/pages/Doctors.tsx:314-383 | the six inputs and the camp list determine the form, so `WithField`'s contract fixes its result |
| Doctors.DoctorsPage.constructor | src/pages/Doctors.tsx:9-23 | seed doctors, modals closed, nothing being edited or deleted, empty form |
| Doctors.DoctorsPage.ResetForm | src/pages/Doctors.tsx:72-82 | the form becomes empty; nothing else changes |
| Doctors.DoctorsPage.HandleAddDoctor | src/pages/Doctors.tsx:25-41 | the new doctor is appended, the modal closes, and the form is reset |
| Doctors.DoctorsPage.HandleEditDoctor | src/pages/Doctors.tsx:43-64 | as written: with a doctor being edited, the list becomes `EditDoctors`, editing is cleared, the form is reset, and the modal stays as it was; otherwise nothing changes |
| Doctors.DoctorsPage.HandleEditDoctorAndClose | src/pages/Doctors.tsx:43-64 | intended: the same update, and the modal closes |
| Doctors.DoctorsPage.HandleDeleteDoctor | src/pages/Doctors.tsx:66-70 | with a doctor chosen, the list becomes `WithoutDoctor` and the choice is cleared; otherwise nothing changes |
| Doctors.DoctorsPage.OpenEditModal | src/pages/Doctors.tsx:84-96 | remembers the doctor, fills the form from it, opens the modal |
| Doctors.DoctorsPage.OpenAddModal | src/pages/Doctors.tsx:222-228 | opens the modal with nothing being edited and an empty form |
| Doctors.DoctorsPage.CancelModal | src/pages/Doctors.tsx:424-430 | closes the modal, clears editing, resets the form |
| Doctors.DoctorsPage.Save | src/pages/Doctors.tsx:435 | updates when a doctor is being edited, adds otherwise |
| Doctors.DoctorsPage.RequestDelete | src/pages/Doctors.tsx:188-191 | remembers the doctor and opens the confirmation dialog |
| Doctors.DoctorsPage.CloseConfirmDialog | src/pages/Doctors.tsx:449 | closes the dialog; nothing else changes |
| Doctors.DoctorsPage.SetField | src/pages/Doctors.tsx:314-383 | the form becomes `WithField` |
| Doctors.DoctorsPage.ToggleCamp | src/pages/Doctors.tsx:394-410 | the form's camps become `ClickCamp` for an offered camp |
| Doctors.EditLeavesAddModalOpen | src/pages/Doctors.tsx:43-64 | after open-edit and save, the modal is still open and titled "Add New Doctor" |
| Doctors.EditAndCloseClosesModal | src/pages/Doctors.tsx:25-64 | with the intended handler the modal is closed |
| Schemes.Outcome | src/pages/Schemes.tsx:27 | approve gives approved; reject gives rejected |
| Schemes.Reviewed | src/pages/Schemes.tsx:24-33 | the status is the outcome, the reviewer is set, the date is today, the remark matches the action; every other field is kept |
| Schemes.ApplyReview | src/pages/Schemes.tsx:23-35 | same length; applications with the id are `Reviewed`; every other one is unchanged |
| Schemes.ApplyReviewSplices | src/pages/Schemes.tsx:23-35 | with unique ids, exactly the application at that position changes |
| Schemes.TabData | src/pages/Schemes.tsx:41-43 | a subsequence holding exactly the applications whose status is the tab's |
| Schemes.TabsPartition | src/pages/Schemes.tsx:41-43 | the three tab sizes add up to the number of applications |
| Schemes.TabSizesAfterReplace | src/pages/Schemes.tsx:41-43 | replacing one application changes the tab sizes by its old and new status only |
| Schemes.ReviewMovesTab | src/pages/Schemes.tsx:23-43 | reviewing a pending application moves it from pending to the outcome's tab; the third tab keeps its size |
| Schemes.ControlsFor | src/pages/Schemes.tsx:144-167 | approve/reject is offered iff the row is pending; download iff it is approved or rejected |
| Schemes.ReviewOrDownload | src/pages/Schemes.tsx:144-167 | a row offers exactly one of the two control sets |
| Schemes.ReviewedOffersDownload | src/pages/Schemes.tsx:144-167 | a reviewed application offers only download |
| Schemes.SeedTabs | src/data/mockData.ts:202-253 | the seed tabs hold 2 pending, 1 approved, 1 rejected |
| Schemes.SeedTabIsTab | src/pages/Schemes.tsx:173-177 | the seed's applications with a status are the rows that status's tab lists on the seed |
| Schemes.TabCount | src/pages/Schemes.tsx:173-177 | a badge is the size of its tab on the seed list, not on the live list |
| Schemes.TabCountsAddUp | src/pages/Schemes.tsx:173-177 | the three badges add up to the seed's applications |
| Schemes.SeedAmountsNonNegative | src/data/mockData.ts:202-251 | every seed application asks for a non-negative amount |
| Schemes.ApprovedTotal | src/pages/Schemes.tsx:244-247 | the total card sums the approved tab's amounts on the seed, and lies between 0 and the seed's whole requested amount |
| Schemes.SeedCardsScenario | src/pages/Schemes.tsx:173-247 | the badges and cards show 2, 1, 1 and the approved total 25000 |
| Schemes.StaleBadgeScenario | src/pages/Schemes.tsx:173-177 | after approving "1" the live pending tab lists one application while its badge still says 2 |
| Schemes.SchemesPage.constructor | src/pages/Schemes.tsx:9-13 | pending tab, seed schemes, dialog closed, no action, no details |
| Schemes.SchemesPage.HandleSchemeAction | src/pages/Schemes.tsx:15-18 | remembers the application and action, opens the dialog |
| Schemes.SchemesPage.ClickRowAction | src/pages/Schemes.tsx:144-157 | the same, from a row that offers the review controls |
| Schemes.SchemesPage.ConfirmSchemeAction | src/pages/Schemes.tsx:20-39 | with an action pending, the schemes become `ApplyReview` and the action is cleared; otherwise nothing changes |
| Schemes.SchemesPage.SetActiveTab | src/pages/Schemes.tsx:261 | the tab is set and nothing else changes |
| Schemes.SchemesPage.ViewScheme | src/pages/Schemes.tsx:139 | the details modal shows the application |
| Schemes.SchemesPage.CloseView | src/pages/Schemes.tsx:297 | the details modal closes |
| Schemes.SchemesPage.ReviewFromDetails | src/pages/Schemes.tsx:367-388 | for a pending application, raises the action and closes the details |
| Schemes.SchemesPage.CloseConfirmDialog | src/pages/Schemes.tsx:404 | closes the dialog; nothing else changes |
| FamilyHealth.SeedConsistent | src/pages/FamilyHealth.tsx:55-302 | every seed family's `totalMembers` equals its member count |
| FamilyHealth.FilteredFamilies | src/pages/FamilyHealth.tsx:316-331 | a subsequence; every copy of a family is kept iff the search matches and, unless the status is `all`, some member has the status |
| FamilyHealth.AllAndEmptySearchKeepsAll | src/pages/FamilyHealth.tsx:316-321 | `all` with an empty search keeps every family |
| FamilyHealth.NeedsAttentionIff | src/pages/FamilyHealth.tsx:323-330 | with `needs-attention`, a family is kept iff it matches and has a fair, poor or critical member |
| FamilyHealth.UnknownStatusKeepsNone | src/pages/FamilyHealth.tsx:323-330 | a status value that names no status keeps no family |
| FamilyHealth.ParseList | src/pages/FamilyHealth.tsx:400-403 | "" gives []; otherwise one trimmed piece per comma-separated piece (commas + 1 of them), none containing a comma |
| FamilyHealth.ParseListJoin | src/pages/FamilyHealth.tsx:400-403 | comma-free, already-trimmed items joined with commas parse back to themselves |
| FamilyHealth.NewMember | src/pages/FamilyHealth.tsx:391-404 | the form's fields, status `good`, checkup today, the age given, and the three parsed lists |
| FamilyHealth.MemberIdAt | src/pages/FamilyHealth.tsx:391 | the id is `M` followed by decimal digits |
| FamilyHealth.MemberIdReadsBack | src/pages/FamilyHealth.tsx:391 | the digits after the `M` read back through `parseInt` as the clock value |
| FamilyHealth.MemberIdsDistinct | src/pages/FamilyHealth.tsx:391 | different clock values give different member ids |
| FamilyHealth.WithMember | src/pages/FamilyHealth.tsx:408 | the member is appended and `totalMembers` rises by one; every other field is kept |
| FamilyHealth.AddMember | src/pages/FamilyHealth.tsx:406-410 | same length; families with the id get `WithMember`; every other family is unchanged |
| FamilyHealth.AddMemberPreservesConsistent | src/pages/FamilyHealth.tsx:406-410 | adding keeps `totalMembers` equal to the member count |
| FamilyHealth.StatisticsOf | src/pages/FamilyHealth.tsx:426-433 | the family count is the length of the list |
| FamilyHealth.HealthyPlusAttention | src/pages/FamilyHealth.tsx:426-433 | healthy plus needs-attention equals the number of member records |
| FamilyHealth.TotalMembersCountsRecords | src/pages/FamilyHealth.tsx:428 | on consistent families the members card equals the member records |
| FamilyHealth.AddMemberRaisesTotal | src/pages/FamilyHealth.tsx:406-428 | adding raises the members card by the number of families with that id |
| FamilyHealth.SeedStatistics | src/pages/FamilyHealth.tsx:426-433 | the seed cards show 4 families, 15 members, 11 healthy, 4 needing attention |
| FamilyHealth.StatusCountsSum | src/pages/FamilyHealth.tsx:613-616 | the five per-status counts add up to the members |
| FamilyHealth.HealthCounts | src/pages/FamilyHealth.tsx:613-616 | the accumulator has an entry exactly for each status present, holding its count |
| FamilyHealth.HealthCountsTotal | src/pages/FamilyHealth.tsx:613-616 | a family's counts sum to its member count |
| FamilyHealth.FamilyHealthPage.constructor | src/pages/FamilyHealth.tsx:49-55 | empty search, `all`, no selection, form closed, seed families, empty form |
| FamilyHealth.FamilyHealthPage.HandleAddMember | src/pages/FamilyHealth.tsx:388-423 | as written: with a family selected, the list becomes `AddMember`, the form closes and is cleared, and the selected family stays as it was; otherwise nothing changes |
| FamilyHealth.FamilyHealthPage.HandleAddMemberAndRefresh | src/pages/FamilyHealth.tsx:388-423 | intended: the same update, and the selected family also gets the member |
| FamilyHealth.FamilyHealthPage.ViewFamily | src/pages/FamilyHealth.tsx:587 | selects the family |
| FamilyHealth.FamilyHealthPage.OpenAddMember | src/pages/FamilyHealth.tsx:594-596 | selects the family and opens the add form |
| FamilyHealth.FamilyHealthPage.OpenAddFromDetails | src/pages/FamilyHealth.tsx:699 | opens the add form and keeps the selection |
| FamilyHealth.FamilyHealthPage.CloseDetails | src/pages/FamilyHealth.tsx:657 | clears the selection |
| FamilyHealth.FamilyHealthPage.CancelAddMember | src/pages/FamilyHealth.tsx:821 | closes the add form and keeps the selection |
| FamilyHealth.FamilyHealthPage.SetSearchTerm | src/pages/FamilyHealth.tsx:515 | sets the search and nothing else |
| FamilyHealth.FamilyHealthPage.SetStatusFilter | src/pages/FamilyHealth.tsx:523-528 | sets one of the four option values and nothing else |
| FamilyHealth.FamilyHealthPage.SetNewMember | src/pages/FamilyHealth.tsx:836-949 | replaces the form and nothing else |
| FamilyHealth.AddShowsStaleDetails | src/pages/FamilyHealth.tsx:388-423 | after adding from a card, the details show 4 members while the family has 5 |
| FamilyHealth.AddAndRefreshShowsNewMember | src/pages/FamilyHealth.tsx:388-423 | with the intended handler the details show all 5 |
| PatientsManagement.FilteredPatients | src/pages/PatientsManagement.tsx:82-86 | a subsequence; every copy of a patient is kept iff the lowercased name or address includes the lowercased term, or the phone includes the term |
| PatientsManagement.EmptySearchKeepsAll | src/pages/PatientsManagement.tsx:82-86 | an empty search keeps every patient |
| PatientsManagement.PhoneFindsPatient | src/pages/PatientsManagement.tsx:84 | a full phone number finds its patient |
| PatientsManagement.HealthyCount | src/pages/PatientsManagement.tsx:188 | the patients with status `good`, at most all of them |
| PatientsManagement.HealthyPartition | src/pages/PatientsManagement.tsx:188 | healthy patients and the rest add up to all patients |
| PatientsManagement.FamilyMemberTotal | src/pages/PatientsManagement.tsx:214 | the `reduce` starts at 0 and adds each patient's family size from the left: the total is the total of all but the last patient plus the last one's size |
| PatientsManagement.FamilyMemberTotalBounds | src/pages/PatientsManagement.tsx:214 | with non-negative sizes the total is at least any one family's size |
| PatientsManagement.NonNegativeTotal | src/pages/PatientsManagement.tsx:214 | non-negative sizes give a non-negative total |
| PatientsManagement.SeedCards | src/pages/PatientsManagement.tsx:35-80 | the seed shows 4 patients, 2 healthy, 14 family members |
| PatientsManagement.StatusColor | src/pages/PatientsManagement.tsx:88-99 | fixed classes for good, fair and poor; grey iff anything else |
| PatientsManagement.StatusText | src/pages/PatientsManagement.tsx:101-112 | fixed labels for good, fair and poor; "unknown" iff anything else |
| PatientsManagement.PatientBadgesDistinct | src/pages/PatientsManagement.tsx:88-112 | a patient's status never gets the defaults, and distinct statuses get distinct badges |
| PatientsManagement.PatientsPage.constructor | src/pages/PatientsManagement.tsx:31-35 | empty search, form hidden, seed patients |
| PatientsManagement.PatientsPage.Listed | src/pages/PatientsManagement.tsx:82-86 | the listed patients are a subsequence of the constant list |
| PatientsManagement.PatientsPage.SetSearchTerm | src/pages/PatientsManagement.tsx:158 | sets the search; the patients are a constant |
| PatientsManagement.PatientsPage.SetShowAddPatient | src/pages/PatientsManagement.tsx:165 | shows or hides the add form |
| Login.RunEnd | src/pages/Login.tsx:23 | the end of the non-whitespace run starting at i |
| Login.HasEmailShapeIff | src/pages/Login.tsx:23 | the computed check holds iff some stretch of the string matches `\S+@\S+\.\S+` |
| Login.EmailError | src/pages/Login.tsx:21-25 | required iff blank after trimming; invalid iff non-blank and the pattern does not occur; none otherwise |
| Login.PasswordError | src/pages/Login.tsx:27-31 | required iff blank after trimming; too short iff non-blank with fewer than 6 UTF-16 units; none otherwise |
| Login.BlankPasswordIsRequired | src/pages/Login.tsx:27-30 | six spaces give "required", not "too short" |
| Login.PaddedEmailIsValid | src/pages/Login.tsx:23 | " a@b.c " is valid, because the pattern is not anchored |
| Login.EmailWithoutDotIsInvalid | src/pages/Login.tsx:23-24 | "a@b" is invalid |
| Login.LoginPage.constructor | src/pages/Login.tsx:6-10 | empty fields, no errors, not loading |
| Login.FormValidIff | src/pages/Login.tsx:19-34 | both checks pass iff the email is non-blank and matches the pattern and the password is non-blank with at least 6 units |
| Login.LoginPage.ValidateForm | src/pages/Login.tsx:18-35 | stores the error object of the two checks, leaves the fields and flags alone, and returns valid iff neither error is set |
| Login.LoginPage.HandleSubmit | src/pages/Login.tsx:37-53 | validates; on failure nothing else changes; on success loading starts |
| Login.LoginPage.SetEmail | src/pages/Login.tsx:91 | sets the email and nothing else |
| Login.LoginPage.SetPassword | src/pages/Login.tsx:112 | sets the password and nothing else |
| Login.LoginPage.ToggleShowPassword | src/pages/Login.tsx:119 | flips the visibility flag and nothing else |
| Reports.RowFields | src/pages/Reports.tsx:38 | four fields: the month, then three digit strings with no comma and no line break |
| Reports.RowLines | src/pages/Reports.tsx:37-39 | one line per row, in row order |
| Reports.Report | src/pages/Reports.tsx:37-42 | the content starts with exactly `Month,Camps,Beneficiaries,Schemes` and its line break; no rows give the header alone |
| Reports.DownloadReport | src/pages/Reports.tsx:35-46 | the file is named `reportType-report.csv` and holds the report |
| Reports.ContentIgnoresReportType | src/pages/Reports.tsx:35-46 | the content does not depend on the report type; different types give different file names |
| Reports.RowLineHasNoBreak | src/pages/Reports.tsx:38 | a row line has no line break when the month has none |
| Reports.RowLineFields | src/pages/Reports.tsx:38 | with a comma-free month, a row line splits into exactly its four fields, and the numbers parse back to the row's values |
| Reports.ReportLines | src/pages/Reports.tsx:37-42 | with rows, splitting at line breaks gives the header line, then one line per row, with no trailing empty line |
| Reports.EmptyReportLines | src/pages/Reports.tsx:37-42 | with no rows, the file splits into the header line and an empty line |
| Reports.MonthlyReportLines | src/pages/Reports.tsx:26-42 | the page's report has 7 lines |
| JsNumber.ParseInt | src/pages/Doctors.tsx:32 | `parseInt` gives NaN unless the text holds a decimal digit (a hexadecimal numeral starts with `0`) |
| JsNumber.ParseIntToString | src/pages/Doctors.tsx:32-91 | `parseInt(String(x)) == x` for every integer written in plain digits, and for NaN |
| JsNumber.ParseNumeral | src/pages/Doctors.tsx:32-91 | `parseInt` of a non-negative integer's decimal text gives the integer |
| Text.Split | src/pages/FamilyHealth.tsx:400 | `split(',')`: commas + 1 pieces, none containing the separator |
| Text.SplitJoin | src/pages/FamilyHealth.tsx:400 | splitting a join of separator-free parts gives them back |
| Text.TrimEmptyIff | src/pages/Login.tsx:21-27 | `!s.trim()` holds iff every character is whitespace |

## Behaviour as coded

These points are what the code does, though a reader of the pages might expect otherwise:

- Users.TotalPages: it is 0, not 1, for an empty filtered list. `Math.ceil(0 / 10)` is 0, and the controls are then hidden (src/pages/Users.tsx:208, 265).
- Users.UsersPage.SetSearchTerm: a search does not clamp or reset the current page. A search that shrinks the list can leave an empty page on screen (src/pages/Users.tsx:199-211).
- Users.UsersPage.ToggleRowExpansion: the paginated table component is declared inside the page component, so every change to the expanded set remounts it. The page therefore returns to 1 and the search to empty, so expanding a row on page 2 shows page 1 again.
- Schemes.TabCount: the tab badges and the summary cards count the seed, not the live list. So they do not change after a review (src/pages/Schemes.tsx:173-177, 203-247).

## Left out

- Rendering, styling, icons and the markup of modals are left out; they are presentation. The modal flags that decide what is shown are in the model.
- Charts in the reports and dashboard pages are left out; they are calls into a charting library.
- The static dashboard pages, route guards and `localStorage` authentication flags are left out. They are routing configuration and browser storage.
- Login.LoginPage.HandleSubmit: the timer, the `localStorage` write and the redirect after a valid submit are left out (browser I/O). The method ends with the loading flag raised.
- Sorting in the shared table component is left out. That component is not part of this model, and neither is the confirmation dialog's internal behaviour.
- Floating point is left out:
  - the average-experience card (src/pages/Doctors.tsx:257), which divides by the number of doctors;
  - the "this week" count (src/pages/PatientsManagement.tsx:198-204), which is date arithmetic in milliseconds;
  - BMI values.
- Locale formatting is left out: `toLocaleDateString`, and the currency display in src/pages/Schemes.tsx:71-76.
- Clocks and randomness are parameters: `Date.now()` ids, `new Date()` dates, and the `Math.random()` avatar choice.
- FamilyHealth.NewMember: `Number(newMember.age)` is an input. Converting a decimal string to a double is not modelled.
- Users.TotalPages: numbers are unbounded integers. JavaScript's 53-bit doubles do not matter at these sizes.
- JsNumber.ParseIntToString: `-0` is not modelled, because integers here have no negative zero.
- JsNumber.ParseIntToString: numbers are unbounded integers printed in plain digits. JavaScript prints a number of magnitude 1e21 or more in exponent form (`String(1e21)` is `"1e+21"`, and `parseInt` of that is 1), and a double holds integers exactly only up to 2^53. So the round trip is promised here for every integer, where in JavaScript it holds only for integers below 2^53 in magnitude. The stored value is a doctor's years of experience, far from either limit.
- JsNumber.ParseNumeral: `parseInt` here reads any digit string exactly. JavaScript rounds the value to a double, so above 2^53 the result can differ (`parseInt("9007199254740993")` is 9007199254740992).
- FamilyHealth.HealthCounts: the order in which `Object.entries` lists the statuses is not modelled; the counts are a map.
- The browser's own form validation, which runs before either submit handler, is left out; the handlers are modelled on whatever the state holds. On the add-member form this is `required` and the age input's `min="0"`/`max="120"` (src/pages/FamilyHealth.tsx:837-886). On the login form it is the email input's `type="email"` (src/pages/Login.tsx:88), which in a browser trims the value and blocks submitting a text such as "abc".
- Unicode case mapping is not modelled. `toLowerCase` is the parameter `lower`, and only ASCII lowercasing is defined, for the scenarios.
- The display text helpers are left out as presentation. These are the family page's status and relation text, the icon helpers, and the scheme status badge (src/pages/FamilyHealth.tsx:336-386, src/pages/Schemes.tsx:45-77).
- Users.UserValues: `Object.values` order is taken from the seed objects' key order. Coercion with `String()` is the identity on them, because every user field is a string.

## Findings

| source | as written | input that shows it | evidently intended | confidence | as-written member | corrected member |
|---|---|---|---|---|---|---|
| src/pages/Doctors.tsx:43-64 | `handleEditDoctor` clears the doctor being edited and resets the form, but it never closes the modal | open a doctor for editing, then press "Update Doctor" | close the modal like `handleAddDoctor` does; as written it stays open, titled "Add New Doctor" over an empty form | not executed; high | Doctors.EditLeavesAddModalOpen | Doctors.EditAndCloseClosesModal |
| src/pages/FamilyHealth.tsx:388-423 | `handleAddMember` updates `families` and closes the add form, but it leaves `selectedFamily` as it was. The details modal then opens on that stale copy (lines 650, 697, 708) | press a family card's "add member" on F001 (4 members), then submit the form | refresh the selected family too; as written the details list 4 members and count 4 while the family now has 5 | not executed; high | FamilyHealth.AddShowsStaleDetails | FamilyHealth.AddAndRefreshShowsNewMember |
