# Missing-person reporting: search, registries and report ingestion

This project models the logic of a missing-person reporting system built for a
large public gathering. Citizens register, log in and file reports with up to
five photos. Police officers register, log in and look through the reports on a
dashboard that searches them by name or id and filters them by status.

The model has one Dafny module per source file. Two shared modules sit beside them.

- `Common` (`common.dfy`): `Option`, and `Filter`/`Map` on sequences (JavaScript's
  `Array.prototype.filter` and `map`). It has lemmas on membership, multiplicities,
  order, idempotence, and how a filter commutes with a map.
- `Text` (`text.dfy`): ASCII `toLowerCase`, `includes`, and integer-to-decimal
  conversion with its inverse.
- `Dashboard` (`Frontend/src/components/PoliceDashboard.tsx`, pure functions):
  - the closed `Status` enumeration;
  - turning the report listing into cases;
  - the search-and-status filter;
  - the three-entry "recent" previews;
  - the status and priority style lookups.
- `Officers` (`Backend/routes/police.js`): class `OfficerStore`. It holds a sequence
  of officers whose badge numbers are unique. `Register` inserts only when the badge
  is absent. `Login` looks up by badge and station, checks the password and issues
  one-day token claims.
- `Users` (`Backend/routes/user.js`): class `UserStore`. It is the same shape, keyed
  by exact email. `Login` returns the user's id. It also holds the owner lookup
  that the report listing uses.
- `Reports` (`Backend/routes/missingReport.js`): class `ReportStore`.
  - The stored-file name generator and its inverse.
  - `Submit`: authentication, the five-photo cap, photo names in upload order,
    owner override, then save.
  - `List`: every report with its owner resolved.
- `ReportForm` (`src/components/MissingPersonReport.tsx`): class `ReportFormState`
  for the component's state and its edits. Pure predicates state which fields each
  report type requires.

External effects are parameters:
- the clock reading at which a file was named (`Upload.receivedAt`);
- whether the document store accepted a save (`saved`);
- the password comparison (`matches`);
- the JWT secret from the environment (`envSecret`);
- the id found by the authentication middleware (`auth`).

The model follows the code in these details:
- Email uniqueness is exact string equality, as the lookup does. It is not
  case-insensitive.
- The listing requires no authentication.
- No status transitions exist: the dashboard's "Update Status" button has no
  handler, so there is no state machine to model.
- A formatted case has a photo only when the first stored name is non-empty,
  because JavaScript's `?:` treats `""` as false. A non-empty photo list alone is
  not enough.
- `if (req.files)` is true for an empty file list. An upload with no files
  therefore replaces any `photos` given in the body with `[]`.
- The upload middleware sets `req.files` to a list for every multipart request,
  so a multipart request without files also replaces the body's `photos` with `[]`.
  `req.files` is undefined only for a request that is not multipart (a JSON body).
- The five-photo cap applies to uploaded files only. A request that is not
  multipart (a JSON body) keeps the body's own `photos` list at any length;
  `Reports.ReportStore.Submit` states this case separately.

## Model

| member | source | states |
|---|---|---|
| `Common.Filter` | Frontend/src/components/PoliceDashboard.tsx:163-168 | `cases.filter`: the result is no longer than the input and holds only input elements that satisfy the predicate; characterised fully by the next four rows |
| `Common.Map` | Frontend/src/components/PoliceDashboard.tsx:137-149 | `data.map`: the result has the input's length and holds `f` of each element at the same position |
| `Common.FilterMembership` | Frontend/src/components/PoliceDashboard.tsx:163-168 | a value is in `xs.filter(p)` iff it is in `xs` and satisfies `p` |
| `Common.FilterCount` | Frontend/src/components/PoliceDashboard.tsx:163-168 | a kept value occurs in the result as often as in the input, a dropped one never |
| `Common.FilterIsSubsequence` | Frontend/src/components/PoliceDashboard.tsx:163-168 | the filtered sequence is a subsequence of the input: relative order is preserved |
| `Common.FilterIdempotent` | Frontend/src/components/PoliceDashboard.tsx:163-168 | filtering twice by the same predicate equals filtering once |
| `Common.FilterMap` | Frontend/src/components/PoliceDashboard.tsx:137-168 | filtering a mapped sequence equals mapping the sequence filtered by the composed predicate |
| `Text.Lower` | Frontend/src/components/PoliceDashboard.tsx:164-165 | definition of `toLowerCase` (ASCII letters); characterised by `Text.LowerAt` and `Text.LowerIdempotent` |
| `Text.Contains` | Frontend/src/components/PoliceDashboard.tsx:164-165 | definition of `includes`; characterised by `Text.ContainsIff` |
| `Text.LowerAt` | Frontend/src/components/PoliceDashboard.tsx:164-165 | lowering keeps the length and folds each character on its own |
| `Text.LowerIdempotent` | Frontend/src/components/PoliceDashboard.tsx:164-165 | lowering a lowered string changes nothing |
| `Text.ContainsIff` | Frontend/src/components/PoliceDashboard.tsx:164-165 | `includes` holds iff the term occurs at some position of the string, both directions |
| `Text.Decimal` | Backend/routes/missingReport.js:30 | the decimal form of a number is non-empty, all digits, and starts with '0' only for 0 |
| `Text.DecimalRoundTrip` | Backend/routes/missingReport.js:30 | reading back the decimal digits of `n` gives `n` |
| `Dashboard.CasePhoto` | Frontend/src/components/PoliceDashboard.tsx:148 | the photo is present iff the list is non-empty and its first entry is not `""`; then it is the uploads URL followed by that entry |
| `Dashboard.ReportedBy` | Frontend/src/components/PoliceDashboard.tsx:141 | the reporter column is the reporter's name, " (", the relation, then ")", at the stated positions |
| `Dashboard.FormatCase` | Frontend/src/components/PoliceDashboard.tsx:137-149 | id, name and status are taken from the report; priority is always high; reporter and photo columns as above |
| `Dashboard.FormatCases` | Frontend/src/components/PoliceDashboard.tsx:137-149 | formatting gives one case per report, at the same position, each the formatted case of that report |
| `Dashboard.MatchesSearch` | Frontend/src/components/PoliceDashboard.tsx:164-165 | definition of `matchesSearch`; characterised by `Dashboard.FilteredCasesExactly` and `Dashboard.SearchIgnoresTermCase` |
| `Dashboard.MatchesFilter` | Frontend/src/components/PoliceDashboard.tsx:166 | definition of `matchesFilter`; characterised by `Dashboard.OnlyStatusShown` and `Dashboard.EmptySearchShowsAll` |
| `Dashboard.Keep` | Frontend/src/components/PoliceDashboard.tsx:163-168 | definition of the filter callback; characterised by `Dashboard.FilteredCasesExactly` |
| `Dashboard.FilteredCases` | Frontend/src/components/PoliceDashboard.tsx:163-168 | every shown case is in the list and matches both the search and the status filter |
| `Dashboard.FilteredCasesExactly` | Frontend/src/components/PoliceDashboard.tsx:163-168 | a case is shown iff it is listed and its lowered name or lowered id contains the lowered term, and the filter is 'all' or its status; multiplicities are preserved |
| `Dashboard.FilteredCasesInOrder` | Frontend/src/components/PoliceDashboard.tsx:163-168 | the shown cases are a subsequence of the case list |
| `Dashboard.EmptySearchShowsAll` | Frontend/src/components/PoliceDashboard.tsx:164-166 | an empty term with filter 'all' returns the case list unchanged |
| `Dashboard.OnlyStatusShown` | Frontend/src/components/PoliceDashboard.tsx:166 | with a specific status filter every shown case has that status |
| `Dashboard.FilteredCasesIdempotent` | Frontend/src/components/PoliceDashboard.tsx:163-168 | re-applying the same term and filter to the result returns the same sequence |
| `Dashboard.SearchIgnoresTermCase` | Frontend/src/components/PoliceDashboard.tsx:164-165 | searching for the lowered term gives the same result as searching for the term |
| `Dashboard.KeepFormatted` | Frontend/src/components/PoliceDashboard.tsx:137-168 | a formatted case passes the search iff its report's person name or id matches and its status passes |
| `Dashboard.FilterFormattedListing` | Frontend/src/components/PoliceDashboard.tsx:137-168 | the filtered formatted listing equals formatting the reports whose person name or id match |
| `Dashboard.Recent` | Frontend/src/components/PoliceDashboard.tsx:311-342 | the recent view is the prefix of length min(3, n) |
| `Dashboard.RecentOfShort` | Frontend/src/components/PoliceDashboard.tsx:311-342 | a list of at most three entries is shown whole |
| `Dashboard.StatusColor` | Frontend/src/components/PoliceDashboard.tsx:170-177 | the gray default is returned exactly for strings other than the three status names |
| `Dashboard.StatusColorsDistinct` | Frontend/src/components/PoliceDashboard.tsx:170-177 | the three statuses get three pairwise distinct styles, none of them the default |
| `Dashboard.PriorityColor` | Frontend/src/components/PoliceDashboard.tsx:179-186 | the gray default is returned exactly for strings other than the three priority names |
| `Dashboard.PriorityColorsDistinct` | Frontend/src/components/PoliceDashboard.tsx:179-186 | the three priorities get three pairwise distinct styles, none of them the default |
| `Officers.SigningKey` | Backend/routes/police.js:47 | the environment secret is used when set and non-empty, otherwise 'secretkey' |
| `Officers.TokenFor` | Backend/routes/police.js:45-49 | the token carries the officer's id, badge number and station, expires in one day (86400 s) and is signed with the chosen key |
| `Officers.OfficerStore.FindByBadge` | Backend/routes/police.js:13 | returns the first officer with the badge, or none iff there is no such officer |
| `Officers.OfficerStore.FindByBadgeAndStation` | Backend/routes/police.js:33 | returns the first officer with both badge and station, or none iff there is no such officer |
| `Officers.RegisterResponsesDistinct` | Backend/routes/police.js:15-24 | the outcomes 201, 400 'Police officer already registered' and 500 'Server error' have pairwise distinct codes and messages |
| `Officers.LoginResponsesDistinct` | Backend/routes/police.js:35-51 | success (200, 'Login successful') and failure (400, 'Invalid credentials') differ in code and message; all failures share both |
| `Officers.OfficerStore.Register` | Backend/routes/police.js:8-26 | an existing badge is rejected with `AlreadyRegistered` (400) and the store is unchanged; a fresh badge whose save fails gives `RegisterServerError` (500) and changes nothing; a fresh badge whose save succeeds appends exactly one officer with the given badge, station and password; badges stay pairwise distinct |
| `Officers.OfficerStore.Login` | Backend/routes/police.js:29-55 | succeeds iff some officer has both the badge and the station and the password matches; a correct badge at the wrong station fails; an unknown officer and a wrong password give the same 'Invalid credentials' response; the token is that officer's; the store is not modified |
| `Officers.RegisterThenLogin` | Backend/routes/police.js:8-55 | after registering a fresh badge, logging in with the same badge, station and password succeeds with the new officer's claims |
| `Users.UserStore.FindByEmail` | Backend/routes/user.js:21 | returns the first user with the email, or none iff there is no such user |
| `Users.RegisterResponsesDistinct` | Backend/routes/user.js:23-42 | the outcomes 201, 400 'Email already registered' and 500 'Server error' have pairwise distinct codes and messages |
| `Users.LoginResponsesDistinct` | Backend/routes/user.js:53-62 | success (200, 'Login successful') and failure (400, 'Invalid email or password') differ in code and message; all failures share both |
| `Users.UserStore.Register` | Backend/routes/user.js:7-44 | an existing email is rejected with `EmailTaken` (400) and the store is unchanged; a fresh email whose save fails gives `RegisterServerError` (500) and changes nothing; a fresh email whose save succeeds appends exactly one user carrying all eight submitted fields; emails stay pairwise distinct |
| `Users.UserStore.Login` | Backend/routes/user.js:47-67 | succeeds iff some user has the email and the password matches, returning that user's id; both failures give 'Invalid email or password'; the store is not modified |
| `Users.RegisterLoginRegisterAgain` | Backend/routes/user.js:7-67 | a fresh registration then a login yields the new id; a second registration with the same email is refused and adds nothing |
| `Users.OwnerOf` | Backend/routes/missingReport.js:99 | the owner is none iff no user has the id; otherwise it is that user's full name and email |
| `Reports.StoredName` | Backend/routes/missingReport.js:29-32 | the stored name begins with the clock digits and "-" and ends with the original name |
| `Reports.FirstIndexOf` | Backend/routes/missingReport.js:29-32 | the position found is the first occurrence of the character, or none iff it does not occur |
| `Reports.StoredNameRoundTrip` | Backend/routes/missingReport.js:29-32 | parsing a stored name gives back the clock reading and the original name, even when the original name contains '-' |
| `Reports.StoredNameInjective` | Backend/routes/missingReport.js:29-32 | two uploads share a stored name only if they have the same original name and clock reading |
| `Reports.StoredNames` | Backend/routes/missingReport.js:78-80 | one stored name per uploaded file, in upload order |
| `Reports.SubmitResponsesDistinct` | Backend/routes/missingReport.js:88-91 | the handler's answers, 200 'Report submitted' and 500 'Failed to submit report', differ in code and message |
| `Reports.ReportStore.Submit` | Backend/routes/missingReport.js:74-93 | an unauthenticated request gives `Unauthorized` and more than five files `TooManyFiles`, neither creating a report; the handler runs exactly when both checks pass, and then answers `SubmitFailed` iff the save fails, appending nothing; on success the report's photos are the stored names in upload order (or the body's when the request is not multipart), its user is the authenticated id whatever the body said, its id is new, and exactly one report is appended |
| `Reports.ReportStore.List` | Backend/routes/missingReport.js:97-100 | every stored report in store order, each with its owner resolved; the store is not modified |
| `ReportForm.Set` | src/components/MissingPersonReport.tsx:158 | editing one field changes only that field of the form data |
| `ReportForm.RequiredFields` | src/components/MissingPersonReport.tsx:161-397 | definition: the rendered inputs carrying `required`; characterised by `ReportForm.PersonRequiredFields`, `ReportForm.ItemRequiredFields` and `ReportForm.OptionalFieldsNeverRequired` |
| `ReportForm.Submittable` | src/components/MissingPersonReport.tsx:161-397 | definition of the browser's constraint validation; characterised by `ReportForm.PersonSubmittable`, `ReportForm.ItemSubmittable` and `ReportForm.EmptyFormNotSubmittable` |
| `ReportForm.PersonRequiredFields` | src/components/MissingPersonReport.tsx:161-380 | a person report requires exactly reporterName, reporterPhone, personName, personAge, personGender, lastSeenLocation and lastSeenTime |
| `ReportForm.ItemRequiredFields` | src/components/MissingPersonReport.tsx:161-380 | an item report requires exactly reporterName, reporterPhone, itemName, itemType, lastSeenLocation and lastSeenTime |
| `ReportForm.OptionalFieldsNeverRequired` | src/components/MissingPersonReport.tsx:181-397 | reporterRelation, personHeight, personClothing, itemBrand, itemColor, itemValue and description are never required |
| `ReportForm.PersonSubmittable` | src/components/MissingPersonReport.tsx:161-380 | a person report passes validation iff its seven required fields are non-empty |
| `ReportForm.ItemSubmittable` | src/components/MissingPersonReport.tsx:161-380 | an item report passes validation iff its six required fields are non-empty |
| `ReportForm.EditingUnrequiredFieldKeepsSubmittable` | src/components/MissingPersonReport.tsx:158-397 | editing a field that is not required for the report type does not change whether the form can be submitted |
| `ReportForm.EmptyFormNotSubmittable` | src/components/MissingPersonReport.tsx:24-46 | the initial, all-empty form cannot be submitted for either report type |
| `ReportForm.ReportFormState.constructor` | src/components/MissingPersonReport.tsx:23-47 | the form starts as a person report with every field empty and no photos |
| `ReportForm.ReportFormState.SelectReportType` | src/components/MissingPersonReport.tsx:109-125 | switching the report type leaves the form data and photos untouched |
| `ReportForm.ReportFormState.EditField` | src/components/MissingPersonReport.tsx:158 | one field takes the input's value; the type and photos are unchanged |
| `ReportForm.ReportFormState.HandlePhotoUpload` | src/components/MissingPersonReport.tsx:61-65 | new photos are the old photos followed by the selected files; no file list leaves them unchanged; the count never decreases and there is no cap |

## Left out

- Backend/index.js is not part of this model. It holds Express middleware, static file hosting, the database connection and the listener.
- HTTP, JSON parsing, `fetch` and the React setters are not modelled. Each route is a method on an in-memory store; the dashboard's input is the parsed listing as `ReportJson` values, whose `status` the backend model does not produce (see below).
- Password hashing (the pre-save hook and `comparePassword`) and JWT signing are foreign code. The comparison is the `matches` parameter. A token is the record of its claims, its lifetime and its key.
- The clock (`Date.now()`) is the `receivedAt` reading of each upload. Multer names every file with its own call to the clock.
- Dashboard.FormatCase: the `time` column is the raw last-seen string, because `toLocaleString()` depends on the locale and clock.
- Text.Lower: folds ASCII letters only, because full Unicode `toLowerCase` is outside what the model captures.
- The authentication middleware (`../middleware/auth.js`) is not part of this model. It appears only as the optional authenticated id. The status codes of its refusal and of multer's limit error are not modelled.
- Multer's disk writes are not modelled. Files already written before the limit error fires are not modelled either. A file sent under a field name other than `photos` is refused by multer with the same unexpected-file error as a sixth photo, and no report is created; `files` cannot express that request, so `Submit` does not cover it.
- The file-type check is not modelled: the route has no file filter.
- The Mongoose schemas of reports, officers and users are not part of this model. Only a save the store rejects is modelled, as `saved` false.
- Reports.ReportStore.Submit: the schema's defaults are not modelled, so a stored `Report` has no status; the dashboard takes `ReportJson.status` as given, one of the three `Status` values, and nothing the backend model stores produces it. A report stored without photos is given `[]`.
- Reports.ReportStore.Submit: the schema's filtering of undeclared body keys (strict mode) and its casting of the declared ones (such as `personAge`) are not modelled, so `fields` is the body as sent.
- Requests are modelled one at a time. In the routes the lookup and the save of a registration are separate awaits, so two interleaved registrations with the same badge or email can both pass the lookup. `BadgesUnique` and `EmailsUnique` then hold only for sequential requests, or when a unique index in the absent schemas makes the second save fail (`saved` false).
- Database failures on lookups (the 500 responses of the catch blocks around `findOne` and `find`) are not modelled. Only a failed save is.
- A listing field that is absent (JavaScript `undefined`) is not modelled. Every text field is a string, so "(undefined)" in the reporter column is not captured.
- The hard-coded dashboard statistics, alerts (never filled), `getAlertIcon`, tabs, the details modal and all rendering are presentation and are left out.
- The form's simulated submit (`setTimeout` and `alert`) is left out. Submitting is captured only as the browser's `required` validation, `Submittable`.
- No status transitions, officer approval or authorization on listing are modelled, because the code has none.
