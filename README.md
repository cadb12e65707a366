# Hospital administration: a verified model of the front end and the patient records

The repository is a small hospital-management system: a React front end with admin pages for patients and staff, sign-up, log-in and profile pages, and a route guard; a Flask/MySQL back end whose patient module holds the records. This project models the logic of those pages and of the back end's patient module in Dafny and proves what they do:

- which HTTP requests each page issues, in which order and with which bodies;
- what each page keeps in `localStorage`, and where it navigates;
- how free text is parsed into lists and read back;
- how ids are generated, which records a search keeps, and which pages the route guard opens.

Requests are not sent. Each page keeps a log of the `Request` values it would issue. How a call ends is an input: a `rejects` predicate, or a response value. `localStorage` is a map from keys to stored values. The back end's SQL statements are `Update` values, and its tables are sequences of rows.

Modules, one per file:

- `Wrappers` holds `Option` and `Result`.
- `Seqs` holds an order-keeping filter and its lemmas.
- `Text` models the JavaScript string and number operations the pages rely on:
  - `trim`, `toLowerCase`, `includes`, `split` and `join`;
  - `parseInt`, `padStart`, and `NaN`-aware `Math.max` and `+ 1`.
- `Http` holds the endpoints, requests, JSON-like values and storage.
- `PatientAdmin` is `frontend/src/components/Admin/PatientManagement.tsx`.
- `StaffAdmin` is `frontend/src/components/Admin/StaffManagement.tsx`.
- `PatientStore` is `src/components/PatientManagement.tsx`, the older in-memory page.
- `StaffStore` is `src/components/StaffManagement.tsx`, the older in-memory page.
- `SignUp` is `frontend/src/components/SignUp.tsx`.
- `Profile` is `frontend/src/components/Profile.tsx`.
- `LogIn` is `frontend/src/components/LogIn.tsx`.
- `Routes` is `frontend/src/router/routes.tsx`.
- `BackendPatient` is `BE/modules/patient.py`.

Where a page works by updating state step by step, it is a class: its React state becomes fields, and each handler becomes a method whose `ensures` gives the whole new state. The computations inside the handlers are functions with lemmas:
- parsing;
- payloads;
- filters;
- ids;
- guards.

Where the written code and the design disagree, the model follows the code. Two cases:
- The admin patient page does not stop after a failed call. Each call has its own `try`/`catch`, so the later calls are still made.
- The older staff page's id generator pads the wrong text (see Findings). The page class runs the generator as written. The corrected submission is a separate method beside it.

## Model

| member | source | states |
|---|---|---|
| `Text.Trim` | frontend/src/components/Admin/PatientManagement.tsx:78 | `trim()` gives a text with no white space at either end that occurs inside the input |
| `Text.Split` | frontend/src/components/Admin/StaffManagement.tsx:400 | `split(sep)` gives at least one piece, and joining the pieces with `sep` gives the input back |
| `Text.SplitJoin` | frontend/src/components/Admin/StaffManagement.tsx:399-400 | splitting the join of a non-empty list whose elements hold no separator gives the list back |
| `Text.ParseInt` | frontend/src/components/Admin/PatientManagement.tsx:203 | `parseInt` reads optional white space, a sign and leading decimal digits; otherwise `NaN` |
| `Text.PadStart` | frontend/src/components/Admin/PatientManagement.tsx:205 | `padStart(n, c)` puts copies of `c` in front of the text until it is `n` long, and changes nothing if it already is |
| `Text.MaxOf` | src/components/StaffManagement.tsx:114 | `Math.max` is `NaN` iff some argument is; otherwise it is one of the arguments and at least each of them |
| `Text.NatToString` | frontend/src/components/LogIn.tsx:40 | the decimal text of a number: digits only, no leading zero, reading back to the number |
| `Text.TrimIgnoresLeadingSpace` | frontend/src/components/Admin/PatientManagement.tsx:78 | white space in front of a text never survives `trim()` |
| `Text.ToLower` | frontend/src/components/Admin/PatientManagement.tsx:61-63 | `toLowerCase` keeps the length and lowers each letter on its own |
| `Text.EmptyTermMatches` | frontend/src/components/Admin/PatientManagement.tsx:61-63 | every text contains the empty search term, ignoring case |
| `Text.Add` | src/components/StaffManagement.tsx:114 | `n + 1` is `NaN` iff `n` is |
| `Text.ParsePadded` | frontend/src/components/Admin/PatientManagement.tsx:203-205 | `parseInt` reads a number padded with zeros by `padStart` back as that number |
| `Seqs.FilterKeepsAll` | frontend/src/components/Admin/PatientManagement.tsx:60-64 | a filter that accepts every element keeps the list as it is |
| `Seqs.FilterCountOf` | src/components/PatientManagement.tsx:111 | a filter keeps every copy of an accepted element and no copy of a rejected one |
| `Seqs.Filter` | frontend/src/components/Admin/PatientManagement.tsx:60-64 | `Array.filter`: no longer than the input, and it keeps exactly the elements that pass |
| `Seqs.FilterIsSubsequence` | frontend/src/components/Admin/PatientManagement.tsx:60-64 | the filtered list keeps the input's order |
| `Seqs.FilterSpec` | frontend/src/components/Admin/StaffManagement.tsx:67-72 | the contract every search filter shares: exactly the accepted elements, in order, and the whole list when every element is accepted |
| `PatientAdmin.ParseAllergies` | frontend/src/components/Admin/PatientManagement.tsx:76-79 | every allergy parsed from the comma text is non-empty, trimmed and free of commas |
| `PatientAdmin.TrimmedNonEmpty` | frontend/src/components/Admin/PatientManagement.tsx:78-79 | after trimming and dropping empties, no more items than pieces remain and each is non-empty and trimmed |
| `PatientAdmin.TrimmedNonEmptyFromPieces` | frontend/src/components/Admin/PatientManagement.tsx:78-79 | every kept item is a part of one of the pieces |
| `PatientAdmin.ParseAllergiesOfJoin` | frontend/src/components/Admin/PatientManagement.tsx:76-79 | parsing the `", "` join of a clean list gives the list back |
| `PatientAdmin.ParseAllergiesIdempotent` | frontend/src/components/Admin/PatientManagement.tsx:76-79 | parsing, joining with `", "` and parsing again gives the first parse |
| `PatientAdmin.ParseAllergiesLeadingSpace` | frontend/src/components/Admin/PatientManagement.tsx:76-79 | white space in front of the allergy text changes nothing |
| `PatientAdmin.ParseAllergiesCons` | frontend/src/components/Admin/PatientManagement.tsx:76-79 | the text before the first comma contributes its trimmed self, unless that is empty |
| `PatientAdmin.ParseAllergiesSingle` | frontend/src/components/Admin/PatientManagement.tsx:76-79 | one clean allergy parses to itself |
| `PatientAdmin.ParseAllergiesPlaceholder` | frontend/src/components/Admin/PatientManagement.tsx:424 | the field's placeholder parses to its three allergies |
| `PatientAdmin.CreateSendsOnePost` | frontend/src/components/Admin/PatientManagement.tsx:84-104 | creating sends exactly one POST to `/patient/add` with the whole form and the parsed allergies |
| `PatientAdmin.EditConditionRequest` | frontend/src/components/Admin/PatientManagement.tsx:107-128 | an edit sends the condition update iff the condition is non-empty, with only the id and the condition |
| `PatientAdmin.PlanCondition` | frontend/src/components/Admin/PatientManagement.tsx:107-128 | the same for any already parsed allergy list |
| `PatientAdmin.EditAllergiesRequest` | frontend/src/components/Admin/PatientManagement.tsx:110-149 | an edit sends the allergy update iff the parsed list is non-empty, with the id and the list |
| `PatientAdmin.PlanAllergies` | frontend/src/components/Admin/PatientManagement.tsx:130-149 | the same for any already parsed allergy list |
| `PatientAdmin.EditOrder` | frontend/src/components/Admin/PatientManagement.tsx:105-170 | an edit sends only PUTs: the condition update first when the condition is non-empty, the allergy update next-to-last when the parsed list is non-empty, the full-info update always last; with both present, exactly these three in this order |
| `PatientAdmin.PlanOrder` | frontend/src/components/Admin/PatientManagement.tsx:105-170 | the same for any already parsed allergy list |
| `PatientAdmin.TraceKeepsEveryCall` | frontend/src/components/Admin/PatientManagement.tsx:118-169 | a rejected call does not stop the later ones: without the refreshes, the log is every planned call in order |
| `PatientAdmin.TraceRefreshCount` | frontend/src/components/Admin/PatientManagement.tsx:118-169 | a list refresh follows a call exactly when that call did not reject |
| `PatientAdmin.TraceAppend` | frontend/src/components/Admin/PatientManagement.tsx:118-169 | the log of two runs of calls is the log of the first followed by that of the second |
| `PatientAdmin.FilterAppend` | frontend/src/components/Admin/PatientManagement.tsx:118-169 | filtering a concatenation filters each part |
| `PatientAdmin.EmptyConditionScenario` | frontend/src/components/Admin/PatientManagement.tsx:105-170 | an edit with no condition and the allergy `Dust` sends the allergy update and the full update only |
| `PatientAdmin.DustParses` | frontend/src/components/Admin/PatientManagement.tsx:78-79 | the allergy text `Dust` parses to the one allergy `Dust` |
| `PatientAdmin.NextPatientId` | frontend/src/components/Admin/PatientManagement.tsx:201-205 | a new id is `P` followed by at least three characters |
| `PatientAdmin.NextPatientIdFollows` | frontend/src/components/Admin/PatientManagement.tsx:201-205 | after a last id `P` + n padded to three digits, the next is n + 1 padded the same way |
| `PatientAdmin.FormatSmallPatientId` | frontend/src/components/Admin/PatientManagement.tsx:205 | a number below ten is padded with two zeros |
| `PatientAdmin.NextPatientIdOfEmpty` | frontend/src/components/Admin/PatientManagement.tsx:202-205 | an empty list gives `P001` |
| `PatientAdmin.NextPatientIdAfterP003` | frontend/src/components/Admin/PatientManagement.tsx:202-205 | after `P003` comes `P004` |
| `PatientAdmin.NextPatientIdNaN` | frontend/src/components/Admin/PatientManagement.tsx:202-205 | whenever the last id's text after its first letter does not parse as a number, the next id is `PNaN` |
| `PatientAdmin.FilterPatientsSpec` | frontend/src/components/Admin/PatientManagement.tsx:60-64 | the search keeps exactly the patients whose name, condition or id contains the term, ignoring case, in order; an empty term keeps all |
| `PatientAdmin.ReopenedAllergiesUnchanged` | frontend/src/components/Admin/PatientManagement.tsx:198 | reopening a patient and submitting untouched sends its clean allergy list unchanged |
| `PatientAdmin.ContainsKeepsAbsentChar` | frontend/src/components/Admin/PatientManagement.tsx:77-78 | a part of a text without commas has no comma |
| `PatientAdmin.PatientManagementPage.constructor` | frontend/src/components/Admin/PatientManagement.tsx:32-49 | mounting starts with an empty form (gender `Male`) and a closed modal, then fetches the list once |
| `PatientAdmin.PatientManagementPage.FetchPatients` | frontend/src/components/Admin/PatientManagement.tsx:51-59 | one GET; the list is replaced by the response, or kept when the fetch fails |
| `PatientAdmin.PatientManagementPage.CloseModal` | frontend/src/components/Admin/PatientManagement.tsx:222-225 | the modal closes and nothing is being edited |
| `PatientAdmin.PatientManagementPage.Send` | frontend/src/components/Admin/PatientManagement.tsx:92-104 | one awaited call in its own try/catch: logged, then on success a refresh and the modal closed |
| `PatientAdmin.PatientManagementPage.HandleSubmit` | frontend/src/components/Admin/PatientManagement.tsx:73-174 | the log grows by the planned calls, each followed by a refresh when it did not reject; the modal closes iff some call succeeded; each refresh answers on its own, and the list shown is that of the last refresh that succeeded |
| `PatientAdmin.PatientManagementPage.SubmitParsed` | frontend/src/components/Admin/PatientManagement.tsx:80-174 | the same, once the allergy text is parsed |
| `PatientAdmin.RefreshedUnchanged` | frontend/src/components/Admin/PatientManagement.tsx:50-58 | when no call succeeded with a refresh that returned a list, the page keeps its old list |
| `PatientAdmin.RefreshedIsLastSuccess` | frontend/src/components/Admin/PatientManagement.tsx:118-170 | the list shown is the one returned by the last refresh that succeeded, even when later refreshes fail |
| `PatientAdmin.PatientManagementPage.OpenModal` | frontend/src/components/Admin/PatientManagement.tsx:189-220 | editing loads the patient's fields with the allergies joined by `", "`; a new patient gets a blank form with the next id |
| `PatientAdmin.PatientManagementPage.HandleDelete` | frontend/src/components/Admin/PatientManagement.tsx:177-188 | after confirmation, one DELETE with the id and a refresh when it did not reject; nothing otherwise |
| `StaffAdmin.ShiftToSend` | frontend/src/components/Admin/StaffManagement.tsx:91-99 | the shift becomes the `"not changed"` marker iff editing and the trimmed comma joins of the old and new shifts are equal; otherwise the list itself |
| `StaffAdmin.SubmitRequest` | frontend/src/components/Admin/StaffManagement.tsx:101-122 | PUT to `/staff/update_info` iff editing, else POST to `/staff/add`; the body's shift is `ShiftToSend` |
| `StaffAdmin.PayloadCopiesForm` | frontend/src/components/Admin/StaffManagement.tsx:101-104 | every other field of the payload is the form's own |
| `StaffAdmin.BodyCopiesForm` | frontend/src/components/Admin/StaffManagement.tsx:101-104 | the body has the nine form keys with the form's values and the given shift |
| `StaffAdmin.CreationSendsList` | frontend/src/components/Admin/StaffManagement.tsx:91-99 | a creation never sends the marker |
| `StaffAdmin.UntouchedShiftIsMarked` | frontend/src/components/Admin/StaffManagement.tsx:92-98 | resubmitting an unchanged shift sends the marker |
| `StaffAdmin.JoinPrependHead` | frontend/src/components/Admin/StaffManagement.tsx:93-94 | text put in front of the first shift ends up in front of the join |
| `StaffAdmin.LeadingSpaceIsNoChange` | frontend/src/components/Admin/StaffManagement.tsx:93-96 | white space added before the first shift counts as no change |
| `StaffAdmin.JoinedComparisonQuirk` | frontend/src/components/Admin/StaffManagement.tsx:93-96 | the one shift `Morning,Night` and the two shifts `Morning`, `Night` compare equal |
| `StaffAdmin.InnerSpaceIsChange` | frontend/src/components/Admin/StaffManagement.tsx:93-96 | white space inside the joined text does count as a change |
| `StaffAdmin.ParseShiftText` | frontend/src/components/Admin/StaffManagement.tsx:399-400 | the shift input's text is split on `", "` into at least one piece and shown again unchanged |
| `StaffAdmin.ShiftTextRoundTrip` | frontend/src/components/Admin/StaffManagement.tsx:399-400 | a non-empty list of shifts without `", "` survives being shown and typed back |
| `StaffAdmin.EmptyShiftNotRestored` | frontend/src/components/Admin/StaffManagement.tsx:399-400 | the empty list shows as `""`, which reads back as one empty shift |
| `StaffAdmin.FilterStaffSpec` | frontend/src/components/Admin/StaffManagement.tsx:67-72 | the search keeps exactly the members whose name, role, ward or id contains the term, ignoring case, in order; an empty term keeps all |
| `StaffAdmin.WardColor` | frontend/src/components/Admin/StaffManagement.tsx:74-87 | the gray badge iff the ward is not one of the four wards |
| `StaffAdmin.WardColorsDistinct` | frontend/src/components/Admin/StaffManagement.tsx:74-87 | the four wards get four different badges |
| `StaffAdmin.StaffManagementPage.constructor` | frontend/src/components/Admin/StaffManagement.tsx:36-55 | mounting starts with an empty form and a closed modal, then fetches the list once |
| `StaffAdmin.StaffManagementPage.FetchStaffs` | frontend/src/components/Admin/StaffManagement.tsx:57-65 | one GET; the list is replaced by the response, or kept when the fetch fails |
| `StaffAdmin.StaffManagementPage.CloseModal` | frontend/src/components/Admin/StaffManagement.tsx:175-178 | the modal closes and nothing is being edited |
| `StaffAdmin.StaffManagementPage.HandleSubmit` | frontend/src/components/Admin/StaffManagement.tsx:89-129 | one request; then a refresh and the modal closed, unless the request rejected |
| `StaffAdmin.StaffManagementPage.HandleDelete` | frontend/src/components/Admin/StaffManagement.tsx:131-142 | after confirmation, one DELETE with the id and a refresh when it did not reject |
| `StaffAdmin.StaffManagementPage.OpenModal` | frontend/src/components/Admin/StaffManagement.tsx:144-173 | editing loads the member; a new member gets a blank form, role `Doctor` and the general ward |
| `StaffAdmin.StaffManagementPage.EditShiftText` | frontend/src/components/Admin/StaffManagement.tsx:399-400 | typing into the shift field stores its pieces, and the field then shows exactly the typed text |
| `StaffStore.ReplaceById` | src/components/StaffManagement.tsx:105-110 | an edit replaces exactly the records with the edited id by the form, in place |
| `StaffStore.Ids` | src/components/StaffManagement.tsx:114 | the ids of the records, in order |
| `StaffStore.ReplaceKeepsIds` | src/components/StaffManagement.tsx:105-110 | an edit that keeps the id keeps every id where it was |
| `StaffStore.ReplaceAbsentId` | src/components/StaffManagement.tsx:105-110 | editing an id that no record has changes nothing |
| `StaffStore.Suffixes` | src/components/StaffManagement.tsx:114 | each record's id after its first character, read by `parseInt` |
| `StaffStore.NextNumber` | src/components/StaffManagement.tsx:114 | `Math.max(0, …) + 1` is `NaN` iff some suffix is, and otherwise exceeds every suffix |
| `StaffStore.NewStaffId` | src/components/StaffManagement.tsx:114 | the id as written: `S` and the number, padded on the left to three characters |
| `StaffStore.CorrectedStaffId` | src/components/StaffManagement.tsx:114 | the intended id: `S` followed by the number padded to three digits |
| `StaffStore.AddStaff` | src/components/StaffManagement.tsx:111-116 | adding as written appends the form under the as-written id and keeps every other record |
| `StaffStore.ParseS2` | src/components/StaffManagement.tsx:114 | `parseInt("S2")` is `NaN` |
| `StaffStore.ParseNaNText` | src/components/StaffManagement.tsx:114 | `parseInt("NaN")` is `NaN` |
| `StaffStore.Parse001` | src/components/StaffManagement.tsx:114 | `parseInt("001")` is 1 |
| `StaffStore.NewStaffIdNaN` | src/components/StaffManagement.tsx:114 | one non-numeric suffix makes every later id `SNaN` |
| `StaffStore.NextNumberAfterS001` | src/components/StaffManagement.tsx:17-30 | after the initial `S001` the next number is 2 |
| `StaffStore.PadS2` | src/components/StaffManagement.tsx:114 | padding `S2` to three characters gives `0S2` |
| `StaffStore.NewStaffIdAfterS001` | src/components/StaffManagement.tsx:17-30 | from the initial list, the as-written next id is `0S2` |
| `StaffStore.AsWrittenIdsCollide` | src/components/StaffManagement.tsx:111-116 | three additions from the initial list give the ids `0S2`, `SNaN`, `SNaN`, a duplicate |
| `StaffStore.CollideStep` | src/components/StaffManagement.tsx:114 | once `0S2` or `SNaN` is an id, the next id is `SNaN` |
| `StaffStore.InitialStaffNumeric` | src/components/StaffManagement.tsx:17-30 | the initial record's suffix is a number |
| `StaffStore.CorrectedStaffIdFresh` | src/components/StaffManagement.tsx:114 | with numeric suffixes, the corrected id is no record's id and its own suffix is a number |
| `StaffStore.CorrectedAddKeepsNumeric` | src/components/StaffManagement.tsx:111-116 | adding under the corrected id keeps every suffix numeric, so ids stay fresh |
| `StaffStore.RemoveByIdSpec` | src/components/StaffManagement.tsx:122-126 | deletion removes every record with the id and keeps each other record, in order |
| `StaffStore.FilterStaffSpec` | src/components/StaffManagement.tsx:61-65 | the search keeps exactly the members whose name, role or department contains the term, ignoring case, in order; an empty term keeps all |
| `StaffStore.StaffManagementPage.constructor` | src/components/StaffManagement.tsx:45-59 | the page starts with the one initial record, a blank form and a closed modal |
| `StaffStore.StaffManagementPage.OpenModal` | src/components/StaffManagement.tsx:67-96 | editing loads a copy of the member; adding starts from a blank record |
| `StaffStore.StaffManagementPage.CloseModal` | src/components/StaffManagement.tsx:98-101 | the modal closes and nothing is being edited |
| `StaffStore.StaffManagementPage.HandleSubmit` | src/components/StaffManagement.tsx:103-119 | replaces the edited record, or appends the form under the id the generator gives as written (`0S2`, then `SNaN` from the initial list); then closes |
| `StaffStore.StaffManagementPage.HandleSubmitCorrected` | src/components/StaffManagement.tsx:103-119 | the same submission with the corrected generator: the new id is fresh and every suffix stays numeric |
| `StaffStore.StaffManagementPage.HandleDelete` | src/components/StaffManagement.tsx:122-126 | after confirmation, the records with the id are dropped |
| `StaffStore.StaffManagementPage.EditShiftText` | src/components/StaffManagement.tsx:343-344 | typing into the shift field stores its `", "`-separated pieces |
| `PatientStore.Merge` | src/components/PatientManagement.tsx:94-97 | `{...patient, ...formData}` keeps the id and takes every form field |
| `PatientStore.UpdateById` | src/components/PatientManagement.tsx:93-98 | an edit merges the form into exactly the records with the id, in place |
| `PatientStore.MaxId` | src/components/PatientManagement.tsx:101 | `Math.max` of the ids bounds every id and is one of them |
| `PatientStore.NextId` | src/components/PatientManagement.tsx:101 | the new id exceeds every id |
| `PatientStore.AddPatient` | src/components/PatientManagement.tsx:99-104 | adding appends the form under the new id and keeps every other record |
| `PatientStore.InitialIdsUnique` | src/components/PatientManagement.tsx:23-27 | the three initial patients have distinct ids |
| `PatientStore.AddKeepsIdsUnique` | src/components/PatientManagement.tsx:99-104 | adding keeps ids distinct |
| `PatientStore.UpdateKeepsIds` | src/components/PatientManagement.tsx:93-98 | an edit keeps every id where it was, and so keeps them distinct |
| `PatientStore.RemoveByIdSpec` | src/components/PatientManagement.tsx:109-113 | deletion removes every record with the id and keeps each other record, in order |
| `PatientStore.FilterKeepsUnique` | src/components/PatientManagement.tsx:111 | filtering keeps ids distinct |
| `PatientStore.RemoveKeepsIdsUnique` | src/components/PatientManagement.tsx:109-113 | deletion keeps ids distinct |
| `PatientStore.FilterPatientsSpec` | src/components/PatientManagement.tsx:43-46 | the search keeps exactly the patients whose name or condition contains the term, ignoring case, in order; an empty term keeps all |
| `PatientStore.StatusColor` | src/components/PatientManagement.tsx:48-59 | the gray badge iff the status is not admitted, discharged or pending |
| `PatientStore.StatusColorsDistinct` | src/components/PatientManagement.tsx:48-59 | the three statuses get three different badges |
| `PatientStore.PatientManagementPage.constructor` | src/components/PatientManagement.tsx:30-41 | the page starts with the three initial patients and distinct ids |
| `PatientStore.PatientManagementPage.OpenModal` | src/components/PatientManagement.tsx:61-84 | editing loads the patient's fields; adding starts from a blank pending form dated today |
| `PatientStore.PatientManagementPage.CloseModal` | src/components/PatientManagement.tsx:86-89 | the modal closes and nothing is being edited |
| `PatientStore.PatientManagementPage.HandleSubmit` | src/components/PatientManagement.tsx:91-107 | edits by id or appends under the next id, closes the modal, and keeps ids distinct |
| `PatientStore.PatientManagementPage.HandleDelete` | src/components/PatientManagement.tsx:109-113 | after confirmation the records with the id are dropped; ids stay distinct |
| `SignUp.Utf16Length` | frontend/src/components/SignUp.tsx:32 | `length` counts UTF-16 units: between one and two per character |
| `SignUp.Utf16LengthAppend` | frontend/src/components/SignUp.tsx:32 | the length of a concatenation is the sum of the lengths |
| `SignUp.PasswordLength` | frontend/src/components/SignUp.tsx:32-36 | a valid password has at least four characters, and at least eight if none is astral |
| `SignUp.PlainUtf16Length` | frontend/src/components/SignUp.tsx:32 | without astral characters, the length is the number of characters |
| `SignUp.PasswordValidExtends` | frontend/src/components/SignUp.tsx:32-36 | appending to a valid password keeps it valid |
| `SignUp.SevenCharactersRejected` | frontend/src/components/SignUp.tsx:32-36 | `Abcdef1` is refused for its length |
| `SignUp.EightCharactersAccepted` | frontend/src/components/SignUp.tsx:32-36 | `Abcdefg1` is accepted |
| `SignUp.AstralCharactersCountTwice` | frontend/src/components/SignUp.tsx:32-36 | six characters pass the eight-unit minimum when three of them are astral |
| `SignUp.UserId` | frontend/src/components/SignUp.tsx:70 | the user id is `U` followed by the first six characters of the uuid |
| `SignUp.ClassifyError` | frontend/src/components/SignUp.tsx:108-118 | which message a failed registration rejects with, in the order the checks are made |
| `SignUp.RegisterUser` | frontend/src/components/SignUp.tsx:58-120 | an invalid password sends nothing; otherwise one POST to `/user/add`; registered iff the password is valid and the call succeeds |
| `SignUp.RegistrationPayload` | frontend/src/components/SignUp.tsx:73-78 | the payload holds the id, the email as username, the password, and the first and last names joined by a space |
| `SignUp.RegisteredUser` | frontend/src/components/SignUp.tsx:95-99 | the registered user is the response data with the email and the full name |
| `SignUp.ServerErrorBeforeTimeout` | frontend/src/components/SignUp.tsx:109-113 | a status-500 error is reported as a server error even when its message mentions a timeout |
| `SignUp.OnErrorToast` | frontend/src/components/SignUp.tsx:131-146 | no toast iff the password was refused; the duplicate email gets its own text; server, timeout and network messages are shown as they are; any other message is shown as `Registration failed: ` and the message, or `Unknown error` when it is empty |
| `SignUp.HandleSignUp` | frontend/src/components/SignUp.tsx:149-156 | an empty field shows one toast and sends nothing; the page navigates to `/login` iff the call succeeded |
| `SignUp.InvalidPasswordShowsOneToast` | frontend/src/components/SignUp.tsx:61-67 | an invalid password shows exactly the password toast and sends nothing |
| `SignUp.DuplicateEmailToast` | frontend/src/components/SignUp.tsx:109-110 | a duplicate entry shows `Email is already in use!` |
| `SignUp.FailureShowsOneToast` | frontend/src/components/SignUp.tsx:131-146 | a failed call sends one request and shows one toast |
| `Profile.TextField` | frontend/src/components/Profile.tsx:56 | a field is present iff the user holds a string under its key |
| `Profile.ProfileGuard` | frontend/src/components/Profile.tsx:51-75 | the update may go ahead iff there is a user, the name and username are non-empty, a given old password comes with a new one, and the new one equals its confirmation |
| `Profile.EmptyNameFirst` | frontend/src/components/Profile.tsx:59-62 | an empty name is reported before anything about passwords |
| `Profile.OldPasswordNeedsNew` | frontend/src/components/Profile.tsx:64-70 | an old password with an empty new one is refused |
| `Profile.MismatchRefused` | frontend/src/components/Profile.tsx:72-75 | a new password that differs from its confirmation is refused |
| `Profile.UpdateBody` | frontend/src/components/Profile.tsx:83 | the body holds the five sent fields that are defined, and nothing else |
| `Profile.BodyOmitsConfirmation` | frontend/src/components/Profile.tsx:83 | the confirmation and the roles are never sent |
| `Profile.GuardedBodyHasNames` | frontend/src/components/Profile.tsx:59-83 | a user that passed the guard sends its name and username |
| `Profile.RecognisedFailure` | frontend/src/components/Profile.tsx:88-98 | only the two known errors of a failed response abort, each with its own toast |
| `Profile.UnrecognisedFailureIsSuccess` | frontend/src/components/Profile.tsx:88-100 | any other failed response is reported as a success |
| `Profile.StoredUser` | frontend/src/components/Profile.tsx:103 | an absent or empty stored user reads as `{}`; a text that is not JSON makes the parse fail |
| `Profile.MergeNames` | frontend/src/components/Profile.tsx:106-110 | the merged user has the new name and username and keeps every other field |
| `Profile.MergeNamesIdempotent` | frontend/src/components/Profile.tsx:106-110 | merging the same names twice equals merging once |
| `Profile.MountProfile` | frontend/src/components/Profile.tsx:19-37 | no stored user redirects to `/login`; a stored user is shown, flagged as admin iff its first role is `ADMIN` |
| `Profile.ProfilePage.HandleUpdateProfile` | frontend/src/components/Profile.tsx:50-121 | a failed check shows its toast and sends nothing; otherwise one PUT; the names are merged into the stored user unless the response is a known failure or the call throws |
| `Profile.ProfilePage.HandleLogout` | frontend/src/components/Profile.tsx:39-48 | the four session keys are removed, nothing else in storage changes, and the page navigates to `/login` |
| `LogIn.DeriveRole` | frontend/src/components/LogIn.tsx:27-30 | the role is `ADMIN` iff the email contains `admin`, and `USER` otherwise |
| `LogIn.AdminEmail` | frontend/src/components/LogIn.tsx:27-30 | `admin@hospital.com` is an admin |
| `LogIn.UpperCaseAdminIsUser` | frontend/src/components/LogIn.tsx:28 | the test is case-sensitive: `ADMIN@hospital.com` is a user |
| `LogIn.LoginResult` | frontend/src/components/LogIn.tsx:18-50 | success iff the call succeeded; the user then has exactly one role, the typed email and every other field of the response; a failure carries the server's error if non-empty, else the original message |
| `LogIn.Destination` | frontend/src/components/LogIn.tsx:64-72 | `/adminpage` iff the first role is `ADMIN`, otherwise `/` |
| `LogIn.DestinationFollowsEmail` | frontend/src/components/LogIn.tsx:27-72 | after a login, the admin page is the target iff the email contains `admin` |
| `LogIn.ErrorToast` | frontend/src/components/LogIn.tsx:74-77 | the error toast is the error message, or a fixed text when that is empty |
| `LogIn.LogInPage.OnSuccess` | frontend/src/components/LogIn.tsx:54-73 | stores the token, `isLoggedIn` as `"true"` and the user, and changes no other key; shows one toast and navigates to the destination |
| `LogIn.LogInPage.HandleLogin` | frontend/src/components/LogIn.tsx:80-87 | an empty email or password shows one toast and sends nothing; otherwise one POST, then the success effects or the error toast |
| `Routes.Lookup` | frontend/src/router/routes.tsx:24-65 | finds the table entry for a path, or reports that no entry has it |
| `Routes.PrivateRoute` | frontend/src/router/routes.tsx:12-22 | the page is rendered iff `isLoggedIn` is `"true"` and the stored user's first role is `ADMIN`; otherwise a redirect to `/login`, or a failure when the stored user does not parse |
| `Routes.Navigate` | frontend/src/router/routes.tsx:24-65 | an open route renders its page; a guarded one goes through the guard; an unknown path renders nothing |
| `Routes.GuardedPaths` | frontend/src/router/routes.tsx:24-65 | exactly `/adminpage`, `/staff-management` and `/patient-management` are guarded; exactly `/`, `/signup`, `/login` and `/profile` are open |
| `Routes.OpenPrefix` | frontend/src/router/routes.tsx:24-40 | the first four routes are open and are matched before the rest |
| `Routes.GuardedSuffix` | frontend/src/router/routes.tsx:24-65 | the last three routes are guarded and match exactly their three paths; the first four match exactly theirs |
| `Routes.LookupAppend` | frontend/src/router/routes.tsx:24-65 | in two route lists one after the other, a path is matched by the first list when it can be, otherwise by the second |
| `Routes.OpenPagesIgnoreStorage` | frontend/src/router/routes.tsx:25-40 | the open pages render whatever is stored |
| `Routes.MissingUserNeverAdmitted` | frontend/src/router/routes.tsx:14-17 | without a stored user nobody is admitted, whatever `isLoggedIn` says |
| `Routes.AdminLoginAdmits` | frontend/src/router/routes.tsx:12-18 | after a successful login with an `admin` email, the guarded pages render |
| `Routes.UserLoginRedirected` | frontend/src/router/routes.tsx:12-21 | after any other successful login, the guarded pages redirect to `/login` |
| `Routes.LoginDestinationAgreesWithGuard` | frontend/src/router/routes.tsx:12-22 | a login navigates to the admin page exactly when the guard then admits |
| `Routes.LogoutLocksOut` | frontend/src/router/routes.tsx:12-22 | after a logout the guarded pages redirect, and so does the profile page |
| `Routes.ProfileAdminAgreesWithGuard` | frontend/src/router/routes.tsx:12-22 | in a logged-in session, the profile page flags an admin iff the guard admits |
| `BackendPatient.GenderOf` | BE/modules/patient.py:9-12 | `PatientGender(v)` succeeds iff `v` is `Male`, `Female` or `Other`, giving the member with that value; otherwise a `ValueError` |
| `BackendPatient.GenderRoundTrip` | BE/modules/patient.py:9-12 | every member is found again from its value |
| `BackendPatient.FormOtherRejected` | BE/modules/patient.py:71 | of the admin form's genders, `Male` and `Female` are accepted and `OTHER` is not |
| `BackendPatient.StoreAllergies` | BE/modules/patient.py:38 | the column of one allergy is that allergy; of two or more, it contains a comma |
| `BackendPatient.ReadAllergies` | BE/modules/patient.py:86 | an empty or NULL column reads as `[]`; any other reads as comma-free pieces that join back to it |
| `BackendPatient.AllergiesRoundTrip` | BE/modules/patient.py:38-86 | a list without commas in its elements, other than `[""]`, is read back as written |
| `BackendPatient.ColumnRoundTrip` | BE/modules/patient.py:38-86 | reading a non-empty column and writing it back gives the same column |
| `BackendPatient.EmptyAllergyLost` | BE/modules/patient.py:38-86 | `[""]` is read back as `[]` |
| `BackendPatient.CommaSplitsAllergy` | BE/modules/patient.py:38-86 | an allergy with a comma is read back as two |
| `BackendPatient.HistoryDict` | BE/modules/patient.py:133 | the history's dictionary has its four attributes |
| `BackendPatient.PatientDict` | BE/modules/patient.py:125-134 | `to_dict` fails iff the gender is not a member; otherwise six keys, with `gender.value`, and `medical_history` is `None` iff there is no history |
| `BackendPatient.MedicalHistory.constructor` | BE/modules/patient.py:16-20 | the four attributes are the arguments |
| `BackendPatient.MedicalHistory.Snapshot` | BE/modules/patient.py:16-20 | the record value of a history object |
| `BackendPatient.MedicalHistory.UpdateCondition` | BE/modules/patient.py:22-30 | one UPDATE of the condition by `history_id`, then the attribute becomes the new condition and nothing else changes |
| `BackendPatient.MedicalHistory.UpdateAllergies` | BE/modules/patient.py:33-41 | one UPDATE with the comma join, then the attribute becomes the new list; a comma-free list other than `[""]` reads back from the column |
| `BackendPatient.WrittenAppend` | BE/modules/patient.py:101-120 | after two runs of updates a column holds the second run's value if it wrote one, otherwise the first run's |
| `BackendPatient.Written4` | BE/modules/patient.py:101-120 | after four runs of updates a column holds the value of the last run that wrote it |
| `BackendPatient.UpdateIf` | BE/modules/patient.py:106-120 | the column is left holding the argument exactly when it is truthy; no other column is written |
| `BackendPatient.InfoUpdates` | BE/modules/patient.py:101-120 | name, contact info and gender are left holding their argument exactly when it is truthy; the date of birth whenever one is given |
| `BackendPatient.Patient.constructor` | BE/modules/patient.py:46-52 | the attributes are the arguments, with the gender a member |
| `BackendPatient.Patient.Snapshot` | BE/modules/patient.py:46-52 | the record value of a patient object |
| `BackendPatient.Patient.UpdatePatientInfo` | BE/modules/patient.py:101-123 | each attribute is overwritten iff its argument is truthy; the gender is stored as the raw text; the other attributes are unchanged |
| `BackendPatient.Patient.UpdatePatientInfoChecked` | BE/modules/patient.py:114-116 | the corrected update: an unknown gender changes nothing; a known one is stored as a member, so the gender stays a member |
| `BackendPatient.RawGenderAfterUpdate` | BE/modules/patient.py:114-130 | after the as-written update of the gender, `to_dict` fails |
| `BackendPatient.CheckedGenderAfterUpdate` | BE/modules/patient.py:114-130 | after the corrected update, `to_dict` succeeds with the new gender's value |
| `BackendPatient.SearchKey` | BE/modules/patient.py:60-65 | the id is used whenever it is truthy, else the name if truthy, else nothing |
| `BackendPatient.FirstPatient` | BE/modules/patient.py:67 | `fetchone` returns a matching row, or nothing iff no row matches |
| `BackendPatient.FirstHistory` | BE/modules/patient.py:75 | `fetchone` returns a history of the patient, or nothing iff none has its id |
| `BackendPatient.RecordOf` | BE/modules/patient.py:82-97 | the record built from a row keeps its id and member gender, with the allergies read from the column |
| `BackendPatient.GetPatientDetails` | BE/modules/patient.py:54-99 | the fixed message iff no parameter; `No patient found.` iff no row matches; a `ValueError` iff the row's gender is no member; otherwise a dictionary |
| `BackendPatient.IdBeforeName` | BE/modules/patient.py:60-63 | a given id decides the lookup and the name is ignored |
| `BackendPatient.NoHistoryAnswer` | BE/modules/patient.py:78-79 | a patient without history gets only its id and a message |
| `BackendPatient.StoredOtherRaises` | BE/modules/patient.py:71 | a row saved with the form's `OTHER` makes the lookup raise before its history is read |
| `BackendPatient.StoredAllergiesReadBack` | BE/modules/patient.py:38-99 | allergies written by `update_allergies` come back in the details as given |

## Left out

- Rendering, JSX markup, modal visuals and `console` output are not modelled. They are UI.
- Toasts are not shown. The pages keep the toast texts in a list.
- `setTimeout` delays are left out. A delayed navigation is recorded at once.
- `window.location.reload` and `scrollTo` are left out.
- HTTP is not sent. `fetch`/`axios` become a request log. How each call ends is an input: a `rejects` predicate, a response value, and the list a refresh returns (on the admin patient page, one per call, so each refresh may answer differently).
- JSON text is not modelled. A stored object is a `Json` value. A `Text` value under `user` stands for text that is not JSON, so parsing it fails.
- `Date.now()`, `new Date()` and `uuidv4()` are inputs (`now`, `today`, `uuid`).
- `calculateAge` (frontend/src/components/Admin/PatientManagement.tsx:66-71) is left out. It is date arithmetic on the clock, shown only in the table.
- Numbers are unbounded integers plus `NaN`. Precision above 2^53 and fractions are left out.
- `Text.ToLower` maps ASCII and Latin-1 letters only. Full Unicode case mapping is left out.
- Non-string values of the profile user's fields count as absent.
- `PatientStore.PatientManagementPage.HandleSubmit`: adding requires a non-empty list. `Math.max()` of no ids is `-Infinity`, and the page then adds a patient with id `-Infinity`, which is not modelled.
- `PatientStore.AddPatient`: requires a non-empty list, for the same reason.
- `PatientStore.MaxId`: requires a non-empty list, for the same reason.
- `PatientStore.NextId`: requires a non-empty list, for the same reason.
- `SignUp.HandleSignUp`: assumes the password-check state already matches the submitted password. The effect that recomputes it runs before the submit.
- `BackendPatient.MedicalHistory.UpdateCondition`: models the call `MedicalHistory.update_condition(history, value)`. The source marks the method `@staticmethod` while taking `self`, so `history.update_condition(value)` would fail with a missing argument.
- `BackendPatient.MedicalHistory.UpdateAllergies`: the same `@staticmethod` call form.
- The database connection, commit and close of `BE/modules/patient.py` are left out. Only the statements issued and the in-object state are modelled.
- `fetchone` is modelled as the first matching row. SQL does not fix an order.
- `BackendPatient.Patient.UpdatePatientInfo`: a date of birth counts as given whenever it is passed, because a `date` object is always truthy. It is held as its text.
- `BE/modules/user.py` is not part of this model. It is password hashing in a foreign library plus SQL.
- `BE/db_connection/db.py`, `BE/server.py` and `BE/main.py` are not part of this model. They are a connection, web wiring and a demo script.
- `BE/modules/staff.py` is not part of this model. It holds only stubs.
- The other front-end components are not part of this model. They are static content.

## Findings

| source | as written | input that shows it | evidently intended | confidence | as-written member | corrected member |
|---|---|---|---|---|---|---|
| src/components/StaffManagement.tsx:114 | `` `S${n}`.padStart(3, '0') `` pads the whole text `S<n>`, not the number | from the initial list `[S001]`: three additions give `0S2`, then `SNaN`, then `SNaN` again, a duplicate id | `S` followed by the number padded to three digits (`S002`), which is always fresh | high; not executed | `StaffStore.AsWrittenIdsCollide` | `StaffStore.CorrectedStaffIdFresh` |
| BE/modules/patient.py:114-116 | `update_patient_info` stores the gender argument as a plain string, while `to_dict` reads `self.gender.value` | `update_patient_info(gender="Female")` on a patient, then `to_dict()`: a `str` has no `.value`, so it raises | convert with `PatientGender(gender)` so the attribute stays a member | high; not executed | `BackendPatient.RawGenderAfterUpdate` | `BackendPatient.Patient.UpdatePatientInfoChecked` |

A related mismatch has no corrected member in the model, so it is not a finding row. The admin form offers the gender value `OTHER` (frontend/src/components/Admin/PatientManagement.tsx:394), while the back end accepts only `Other`. `BackendPatient.FormOtherRejected` and `BackendPatient.StoredOtherRaises` state the consequence.
