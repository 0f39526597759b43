# AI Resume Analyzer front end — a Dafny model

This project models the browser client of the AI Resume Analyzer. Users sign in, upload a résumé with a job description, and read the analysis reports the server returns. The model covers:

- the route guard (`src/App.jsx`);
- the sidebar (`src/components/Sidebar.jsx`);
- the sign-in and sign-up screen (`Auth.jsx`);
- the upload screen (`UploadResume.jsx`);
- both dashboards (`Dashboard.js`, `Dashboard.jsx`);
- the report list (`Reports.jsx`) and report details (`ReportDetails.jsx`);
- the settings screen (`Settings.jsx`);
- both profile screens (`Profile.js`, `Profile.jsx`);
- the account menu (`UserProfileMenu.jsx`).

`App.jsx` imports `./components/Dashboard` and `./components/Profile` without an extension. Both files of each pair are therefore modelled, each in its own module.

How the client is represented:

- **Values.** What a component reads from the server is a JavaScript value (`JsValues.JsVal`). JavaScript's truthiness, `||`, property access and optional chaining are modelled as `Truthy`, `Or`, `Get` and `Member`.
- **Storage.** `localStorage` is a `BrowserStorage.Storage` object. Its one field, a `map<string, string>`, is reassigned by `SetItem` and `RemoveItem`.
- **Screens.** Each screen is a class whose fields are the component's React state. Each handler is a method with a `modifies` clause naming the state it sets.
- **Async handlers.** Each async handler is split at its `await`. One method runs up to the call and returns the request it would send. A second method takes the gateway's answer as a parameter (`ApiOutcome`: rejected, or resolved with a value) and applies the rest of the handler.
- **Pure helpers.** Validation, initials, previews, route matching and the settings codec are functions. Lemmas state what they promise.

Shared pieces:

- `JsStrings` holds `trim`, `toUpperCase`/`toLowerCase`, `split(c)[0]`, `split(c).pop()`, `charAt(0)` and `substring`.
- `ReportList` holds the report-list operations that several screens share:
  - deletion by id (`filter`);
  - the three most recent reports;
  - the envelope readers `res?.reports || res || []` and the `status`-gated read of `Dashboard.js`.
- `getInitials` is the same code in `src/components/Profile.js:67-74` and `src/components/Profile.jsx:67-73`. `ProfileJs.Initials` models both.

Behaviour of the code that a reader might not expect, and that the model follows:

- `Dashboard.js` keeps the previous reports when the answer's `status` is false; it does not empty the list.
- `Dashboard.jsx` and `Reports.jsx` never read a `data` field and never enter an error state on `status: false`:
  - `Dashboard.jsx` shows an empty list.
  - `Reports.jsx` stores the failure object itself (see Findings).
- Deleting a report in `Dashboard.jsx` and `Reports.jsx` removes it from the list whatever the server answers. Only `Dashboard.js` checks `status` first.
- `Profile.jsx` requires only a non-blank display name. `Profile.js` also requires at least two characters and a well-formed phone number.

## Model

| member | source | states |
|---|---|---|
| JsValues.NatToStringInjective | src/components/ReportDetails.jsx:15 | two numbers with the same decimal text are equal, so `String(r.id)` tells numeric ids apart |
| JsStrings.TrimEmptyIff | src/components/UploadResume.jsx:55 | `trim()` yields "" exactly when every character is JavaScript white space |
| App.LoggedInIff | src/App.jsx:15 | a session exists exactly when storage holds a non-empty `email` |
| App.PublicRoute | src/App.jsx:17-19 | a public route redirects to "/dashboard" exactly when signed in, and otherwise renders its child |
| App.ProtectedRoute | src/App.jsx:21-23 | a protected route renders its child exactly when signed in, and otherwise redirects to "/" |
| App.MatchProtected | src/App.jsx:52-57 | no protected path maps to the sign-in screen; "/report/:id" maps to the details screen for that id |
| App.Route | src/App.jsx:31-62 | "/" and "/register" go through the public guard; the six protected paths go through the protected guard; every other path redirects to "/" |
| App.RedirectTargets | src/App.jsx:17-62 | every redirect goes to "/" or "/dashboard" |
| App.Resolve | src/App.jsx:17-62 | following redirects renders the routed screen, and with no hops left a redirect renders nothing |
| App.TwoHopsSuffice | src/App.jsx:17-62 | from any path and any storage, at most two redirects reach a rendered screen |
| App.OneHopIsNotEnough | src/App.jsx:62 | signed in, an unknown path needs two redirects ("/" then "/dashboard") |
| App.LoggedOutRendersOnlyAuth | src/App.jsx:15-62 | signed out, the only screen any path can render is the sign-in screen |
| App.LoggedInNeverRendersAuth | src/App.jsx:15-62 | signed in, the sign-in screen is never rendered, and a protected path renders its own screen directly |
| App.RoutingDependsOnlyOnEmail | src/App.jsx:15 | two storages with the same `email` entry route every path identically |
| Sidebar.MenuItems | src/components/Sidebar.jsx:5-26 | the menu always begins with Dashboard, Upload Resume and Reports |
| Sidebar.MenuShape | src/components/Sidebar.jsx:14-26 | signed in, the menu adds Profile and Settings (5 items); signed out, it adds Login (4 items) |
| Sidebar.UserItemsExcludeAuthItem | src/components/Sidebar.jsx:14-24 | Login is shown exactly when Profile is not, and Profile exactly when Settings is |
| Sidebar.DistinctTargets | src/components/Sidebar.jsx:41-44 | no two menu items link to the same path, so at most one is highlighted as active |
| Sidebar.TargetsReachScreens | src/components/Sidebar.jsx:7-26 | signed in, every link renders its screen; signed out, every link ends on the sign-in screen after one redirect |
| UploadResume.ExtensionHasNoDot | src/components/UploadResume.jsx:24 | the extension contains no dot: it is the last dot-separated part of the name |
| UploadResume.Extension | src/components/UploadResume.jsx:24 | the lower-cased last dot-separated part of the name; its meaning is stated by `ExtensionHasNoDot`, `ExtensionAfterLastDot` and `ExtensionOfDotlessName` |
| UploadResume.ValidateFile | src/components/UploadResume.jsx:18-34 | the verdict on a chosen file, checking presence, then extension, then size; stated by `ValidateFileVerdict`, `SizeLimitInclusive` and `ExtensionCheckedBeforeSize` |
| UploadResume.ValidateFileVerdict | src/components/UploadResume.jsx:18-34 | a file is accepted exactly when it is present, its extension is pdf, doc or docx and its size is at most 5 MB; each rejection carries its own message |
| UploadResume.ExtensionAfterLastDot | src/components/UploadResume.jsx:24 | the extension is the lower-cased text after the last dot |
| UploadResume.ExtensionOfDotlessName | src/components/UploadResume.jsx:24 | a name without a dot is its own extension, lower-cased |
| UploadResume.UpperCasePdfAccepted | src/components/UploadResume.jsx:24-25 | "X.PDF" within the size limit is accepted |
| UploadResume.SizeLimitInclusive | src/components/UploadResume.jsx:29-31 | exactly 5 MB is accepted and one byte more is rejected |
| UploadResume.ExtensionCheckedBeforeSize | src/components/UploadResume.jsx:25-31 | a wrong extension is reported whatever the size |
| UploadResume.Advance | src/components/UploadResume.jsx:72 | one timer tick; `TicksMonotone` states that it never lowers progress nor takes it above 90 |
| UploadResume.AfterTicks | src/components/UploadResume.jsx:71-73 | the progress after n ticks; `TicksFromZero` states that from 0 it is min(10n, 90) |
| UploadResume.TicksFromZero | src/components/UploadResume.jsx:71-73 | after n ticks from 0, progress is min(10n, 90) |
| UploadResume.TicksMonotone | src/components/UploadResume.jsx:72 | ticks never lower progress, and never take it above 90 or off the multiples of ten |
| UploadResume.UploadScreen.constructor | src/components/UploadResume.jsx:10-16 | no file, empty description and messages, not loading, progress 0, no timer |
| UploadResume.UploadScreen.SelectFile | src/components/UploadResume.jsx:36-47 | an invalid file clears the selection and shows its error; a valid one is selected and clears the error |
| UploadResume.UploadScreen.SetDescription | src/components/UploadResume.jsx:189 | the description is the typed text |
| UploadResume.UploadScreen.RemoveFile | src/components/UploadResume.jsx:157 | the selection is cleared |
| UploadResume.UploadScreen.StartUpload | src/components/UploadResume.jsx:49-75 | no file or a blank description stops with its message; no session navigates to "/"; otherwise the upload is submitted with progress 0 and one running timer |
| UploadResume.UploadScreen.Tick | src/components/UploadResume.jsx:71-73 | a timer tick adds 10 up to 90 |
| UploadResume.UploadScreen.Respond | src/components/UploadResume.jsx:75-92 | success shows 100 and redirects; a refusal shows the server's message or "Upload failed." and resets progress; a rejection or a nullish answer shows the network error and resets progress; a rejection leaves the timer running; the message changes only on success, the error on every other path |
| UploadResume.UploadScreen.RespondCorrected | src/components/UploadResume.jsx:70-92 | the same state as `Respond` on each of the four paths (success, refusal, nullish answer, rejection), except that the timer is stopped on every path |
| UploadResume.IntervalLeaksAfterNetworkError | src/components/UploadResume.jsx:71-89 | after a rejected upload one timer is still live, and its next tick moves progress from 0 to 10 |
| UploadResume.NoIntervalAfterNetworkErrorCorrected | src/components/UploadResume.jsx:71-89 | with the timer cleared on every path, no timer is live and progress stays 0 |
| ReportList.Without | src/components/Dashboard.js:47 | removal keeps only reports whose id differs |
| ReportList.WithoutIsSubsequence | src/components/Dashboard.js:47 | removal keeps the remaining reports in their order |
| ReportList.WithoutCounts | src/components/Dashboard.js:47 | each report with another id keeps its multiplicity; reports with the id are gone |
| ReportList.WithoutAbsent | src/components/Dashboard.js:47 | removing an id that is not present changes nothing |
| ReportList.WithoutUniquePresent | src/components/Dashboard.js:47 | with unique ids, removing a present id shortens the list by exactly one |
| ReportList.Recent | src/components/Dashboard.js:58 | `reports.slice(0, 3)`; `RecentIsPrefix` states that it is the first min(3, n) reports |
| ReportList.RecentIsPrefix | src/components/Dashboard.js:58 | the recent reports are the first min(3, n); some are hidden exactly when n > 3 |
| ReportList.ReportsOrSelf | src/components/Dashboard.jsx:23 | `res?.reports \|\| res \|\| []` is always truthy |
| ReportList.ReportsOrSelfBareArray | src/components/Dashboard.jsx:23 | a bare array answer is used as it is |
| ReportList.ReportsOrSelfField | src/components/Reports.jsx:19 | a truthy `reports` field wins over the answer itself |
| ReportList.ReportsOrSelfObject | src/components/Reports.jsx:19 | an object without a truthy `reports` field is kept whole |
| ReportList.AccountStatus | src/components/Dashboard.js:98 | the status is "Active" exactly when there is a report, else "New" |
| ReportList.StatusGated | src/components/Dashboard.js:25-31 | the list `Dashboard.js` takes from an answer, or none; stated by `StatusGatedLoadedIff`, `StatusGatedReportsFirst`, `StatusGatedData` and `StatusGatedNeedsStatus` |
| ReportList.StatusGatedLoadedIff | src/components/Dashboard.js:25-29 | the answer is taken exactly when `status` is truthy or it is a bare array, and a bare array is taken whole |
| ReportList.StatusGatedReportsFirst | src/components/Dashboard.js:26 | with a truthy status, an array `reports` field is the list |
| ReportList.StatusGatedData | src/components/Dashboard.js:26 | with a truthy status and no truthy `reports`, an array `data` field is the list |
| ReportList.StatusGatedNeedsStatus | src/components/Dashboard.js:25-31 | an object without a truthy `status` is not loaded, whatever else it carries |
| DashboardJs.DashboardScreen.constructor | src/components/Dashboard.js:8-10 | no reports, loading, no error |
| DashboardJs.DashboardScreen.StartLoad | src/components/Dashboard.js:14-22 | without a session, the login error and no request; otherwise the error is cleared and the request is for that email |
| DashboardJs.DashboardScreen.ReportsArrived | src/components/Dashboard.js:22-38 | a loaded answer replaces the list and leaves the error as it was; any other answer keeps the list and sets a truthy error; loading ends |
| DashboardJs.DashboardScreen.Remove | src/components/Dashboard.js:43-55 | a successful delete removes that id and keeps the order; a failed one keeps the list and sets the error |
| DashboardJs.ShowViewAll | src/components/Dashboard.js:115 | whether "View All" shows; `ViewAllIffHidden` states that it shows exactly when the recent cards leave a report out |
| DashboardJs.ViewAllIffHidden | src/components/Dashboard.js:115-119 | "View all" shows exactly when some reports are hidden |
| DashboardJs.DescriptionText | src/components/Dashboard.js:148 | the card text is never empty and is the description when one is given |
| DashboardJs.AnalysisPreview | src/components/Dashboard.js:153-157 | the placeholder for no text, the whole text up to 150 characters, else its first 150 plus "..." |
| DashboardJs.PreviewBounded | src/components/Dashboard.js:153-157 | a preview is at most 153 characters and starts with the text |
| DashboardJs.PreviewIgnoresTail | src/components/Dashboard.js:154-155 | long texts that agree on their first 150 characters have the same preview |
| DashboardJsx.Normalise | src/components/Dashboard.jsx:23-24 | the list is the array that `res?.reports \|\| res \|\| []` yields, or empty when that is not an array |
| DashboardJsx.NormaliseBareArray | src/components/Dashboard.jsx:23-24 | a bare array answer is the list |
| DashboardJsx.NormaliseReportsField | src/components/Dashboard.jsx:23-24 | an object's array `reports` field is the list |
| DashboardJsx.NormaliseOtherObject | src/components/Dashboard.jsx:23-24 | any other object, a failure object included, gives the empty list |
| DashboardJsx.DashboardScreen.constructor | src/components/Dashboard.jsx:9-11 | no reports, loading, no error |
| DashboardJsx.DashboardScreen.StartLoad | src/components/Dashboard.jsx:15-22 | without a session, an error and no request; otherwise a request for that email |
| DashboardJsx.DashboardScreen.ReportsArrived | src/components/Dashboard.jsx:22-29 | the list is the normalised answer; loading ends |
| DashboardJsx.DashboardScreen.Remove | src/components/Dashboard.jsx:35-38 | the id is removed, the rest keep their order |
| DashboardJsx.SummaryPreview | src/components/Dashboard.jsx:96 | the first 100 characters of the summary (or none) followed by "..." |
| Reports.ReportsScreen.constructor | src/components/Reports.jsx:6-8 | an empty array, loading, no error |
| Reports.ReportsScreen.StartLoad | src/components/Reports.jsx:12-18 | without a session, an error and no request; otherwise a request for that email |
| Reports.ReportsScreen.ReportsArrived | src/components/Reports.jsx:18-24 | the stored value is `res?.reports \|\| res \|\| []`, always truthy; loading ends |
| Reports.ReportsScreen.Remove | src/components/Reports.jsx:29-32 | the id is removed from the list, the rest keep their order |
| Reports.Render | src/components/Reports.jsx:34-73 | loading, error, empty and list views each arise exactly in their case; a non-array value makes the render throw |
| Reports.FailedFetchBreaksRender | src/components/Reports.jsx:19 | a failure answer `{status: false, message}` is stored as it is and the render throws |
| Reports.NormaliseCorrected | src/components/Reports.jsx:19 | the corrected reading always yields an array, the same one whenever the original yields an array |
| Reports.CorrectedNeverThrows | src/components/Reports.jsx:34-73 | with the corrected reading, no answer makes the render throw |
| ReportDetails.FirstWithId | src/components/ReportDetails.jsx:15 | the index of the first report whose id text equals the route id, or the length |
| ReportDetails.FindReport | src/components/ReportDetails.jsx:14-15 | a non-array list throws; otherwise a report is found exactly when some `String(id)` equals the route id, and it is the first such report in the list |
| ReportDetails.FoundIsFirst | src/components/ReportDetails.jsx:14-15 | for any answer whose list is an array, the first matching report is the one found |
| ReportDetails.FoundIsFirstInEnvelope | src/components/ReportDetails.jsx:14-15 | for a `{reports: [...]}` answer, the first matching report of that field is the one found |
| ReportDetails.NumericAndTextIdsMeet | src/components/ReportDetails.jsx:15 | the number n and the text "n" match the same route, and the earlier one wins |
| ReportDetails.DistinctNumericIdsDistinctRoutes | src/components/ReportDetails.jsx:15 | different numeric ids never share a route |
| ReportDetails.Keywords | src/components/ReportDetails.jsx:75-83 | keywords are listed exactly when there is a non-empty list |
| ReportDetails.Render | src/components/ReportDetails.jsx:21-83 | "Loading" exactly when there is no report; otherwise its details and keywords |
| ReportDetails.ReportDetailsScreen.constructor | src/components/ReportDetails.jsx:9 | no report |
| ReportDetails.ReportDetailsScreen.StartLoad | src/components/ReportDetails.jsx:13 | the request is the stored email, even when absent |
| ReportDetails.ReportDetailsScreen.ReportsArrived | src/components/ReportDetails.jsx:13-16 | the found report is stored; not found clears it; a throw leaves it unchanged |
| ReportDetails.LoadingUnlessFound | src/components/ReportDetails.jsx:21-22 | the screen leaves "Loading" exactly when the lookup finds a report |
| Settings.KeyName | src/components/Settings.jsx:13-21 | every setting has a non-empty storage key |
| Settings.KeyNameInjective | src/components/Settings.jsx:61-62 | no two settings share a storage key |
| Settings.KeysComplete | src/components/Settings.jsx:13-21 | the saved keys list every setting once |
| Settings.Names | src/components/Settings.jsx:61-62 | every listed setting's key is among the names |
| Settings.NamesOfKeys | src/components/Settings.jsx:61-62 | a name is present exactly when some listed setting has it as key |
| Settings.ToString | src/components/Settings.jsx:62 | flags become "true"/"false"; texts are kept |
| Settings.With | src/components/Settings.jsx:53 | one setting takes the new value, all others keep theirs |
| Settings.PrefsExtensional | src/components/Settings.jsx:48 | two settings records that agree on every setting are equal |
| Settings.LoadKey | src/components/Settings.jsx:31-40 | flags load as flags and texts as non-empty texts |
| Settings.Load | src/components/Settings.jsx:31-40 | each setting is read from its own key, and the result is well-formed |
| Settings.LoadEmptyIsDefaults | src/components/Settings.jsx:31-40 | with nothing stored, the defaults load |
| Settings.FlagSentinels | src/components/Settings.jsx:32-39 | default-on flags are off only for a stored "false"; two-factor is on only for a stored "true" |
| Settings.Serialised | src/components/Settings.jsx:61-63 | saving writes exactly the setting keys, each with its value as text |
| Settings.SaveTouchesOnlySettingKeys | src/components/Settings.jsx:61-63 | saving leaves every other storage key as it was |
| Settings.LoadKeyOfWritten | src/components/Settings.jsx:31-40 | a value written in its own text form loads back as itself |
| Settings.SerialisedStep | src/components/Settings.jsx:61-63 | each loop step writes one more key |
| Settings.SaveThenLoad | src/components/Settings.jsx:31-63 | loading after saving a well-formed record gives it back |
| Settings.LoadSaveLoad | src/components/Settings.jsx:31-63 | saving what was loaded and loading again changes nothing |
| Settings.HasChanges | src/components/Settings.jsx:47-49 | the change flag the comparing effect computes; `HasChangesIffSomeKeyDiffers` states that it is set exactly when some setting differs from the saved copy |
| Settings.HasChangesIffSomeKeyDiffers | src/components/Settings.jsx:47-49 | there are changes exactly when some setting differs from the saved one |
| Settings.SettingsScreen.constructor | src/components/Settings.jsx:8-23 | defaults, no saved copy, no messages |
| Settings.SettingsScreen.Mount | src/components/Settings.jsx:25-44 | without a session it navigates to "/"; otherwise the stored settings load and become the saved copy |
| Settings.SettingsScreen.HandleSettingChange | src/components/Settings.jsx:52-55 | one setting changes, the error clears, and the change flag is recomputed |
| Settings.SettingsScreen.StartSave | src/components/Settings.jsx:57-59 | before the wait, saving starts and the current settings are the ones to be written |
| Settings.SettingsScreen.HandleSave | src/components/Settings.jsx:59-69 | after the wait, every setting of the sent copy is written to storage and becomes the saved copy; the change flag stays set only if the settings were edited meanwhile; saving ends with the success message |
| ProfileJs.Apply | src/components/Profile.js:93-94 | an input changes its own field only; the email never changes |
| ProfileJs.DefaultDisplayName | src/components/Profile.js:35-37 | the email's local part with its first letter upper-cased |
| ProfileJs.DefaultDisplayNameHasNoAt | src/components/Profile.js:35-37 | the default name carries no "@" past its first letter |
| ProfileJs.StoredOr | src/components/Profile.js:40 | a stored non-empty value, else the fallback |
| ProfileJs.MountForm | src/components/Profile.js:35-42 | on mount, the name is derived from the email, the phone is empty, and theme and notifications are read from storage |
| ProfileJs.CancelForm | src/components/Profile.js:135-142 | cancel reloads the saved name and phone as well |
| ProfileJs.MountIgnoresSavedName | src/components/Profile.js:35-42 | a saved display name is not shown on mount but is restored on cancel |
| ProfileJs.Index0 | src/components/Profile.js:71 | `s[0]` is defined exactly for a non-empty string |
| ProfileJs.FirstTwoParts | src/components/Profile.js:69 | the first two space-separated parts of the name |
| ProfileJs.UpperPlusChars | src/components/Profile.js:71 | `(a + b).toUpperCase()` throws exactly when both characters are `undefined` |
| ProfileJs.Initials | src/components/Profile.js:67-74 | "U" for no name; the first two letters of a single word, upper-cased; with a space, it throws exactly when the name starts with a space followed by another space or nothing, and, when the name does not start with a space, starts with its first letter |
| ProfileJs.InitialsOfLeadingSpacesThrow | src/components/Profile.js:69-71 | " " and any name starting with two spaces make `getInitials` throw |
| ProfileJs.InitialsOfTwoWords | src/components/Profile.js:67-74 | a name of two or more parts whose first two parts are non-empty gives the first letters of those two parts, upper-cased ("Ann Lee Smith" gives "AL") |
| ProfileJs.InitialsOfLeadingSpace | src/components/Profile.js:69-71 | a name starting with one space gives "UNDEFINED" followed by the next letter, upper-cased |
| ProfileJs.InitialsOfTrailingSpace | src/components/Profile.js:69-71 | a word with a trailing space gives its letter followed by "UNDEFINED" |
| ProfileJs.InitialsCorrected | src/components/Profile.js:67-74 | at most two upper-cased letters of the name, "U" for none |
| ProfileJs.InitialsCorrectedOfLeadingSpaces | src/components/Profile.js:67-74 | where the original throws, the correction gives no initials |
| ProfileJs.InitialsCorrectedAgrees | src/components/Profile.js:67-74 | the correction agrees with the original on two-word names |
| ProfileJs.NameError | src/components/Profile.js:79-83 | an error exactly for a trimmed name shorter than 2: "required" when empty, else "too short" |
| ProfileJs.FormErrors | src/components/Profile.js:76-91 | errors for exactly the bad name and the bad phone, each with its message, and nothing else |
| ProfileJs.FormValidIff | src/components/Profile.js:76-91 | valid exactly when the trimmed name has 2 characters or more and the phone is empty or well-formed |
| ProfileJs.BlankNameIsRequired | src/components/Profile.js:79-83 | an all-space name is reported as required |
| ProfileJs.SavedItemsKeys | src/components/Profile.js:113-119 | saving writes the name, theme and notifications, and the phone only when non-empty; every other key is kept |
| ProfileJs.SavedItemsValues | src/components/Profile.js:113-119 | each written key holds its form value |
| ProfileJs.SavedItems | src/components/Profile.js:113-119 | the storage after a save; `SavedItemsKeys`, `SavedItemsValues` and `WriteProfile` state which keys it writes, with which values, and that it keeps every other key |
| ProfileJs.CancelAfterSave | src/components/Profile.js:113-142 | cancelling after saving a valid form shows that form again |
| ProfileJs.CancelRestoresClearedPhone | src/components/Profile.js:117-139 | clearing the phone and saving does not clear it: cancel brings the old number back |
| ProfileJs.HeaderName | src/components/Profile.js:177 | the display name, or the email's local part when it is empty |
| ProfileJs.SpaceNameBreaksHeader | src/components/Profile.js:177-186 | a display name of one space makes the header's initials throw, whatever the email |
| ProfileJs.LastAnalysisDate | src/components/Profile.js:167-171 | "Never" exactly when there are no reports, else "Recently" |
| ProfileJs.WriteProfile | src/components/Profile.js:114-119 | the storage afterwards is exactly the saved items |
| ProfileJs.ProfileScreen.constructor | src/components/Profile.js:8-26 | the form starts with the session email, light theme and notifications on |
| ProfileJs.ProfileScreen.Mount | src/components/Profile.js:28-46 | without a session it navigates to "/"; otherwise it loads the form and requests the reports |
| ProfileJs.ProfileScreen.ReportsArrived | src/components/Profile.js:53-64 | a loaded answer replaces the reports, any other keeps them; loading ends |
| ProfileJs.ProfileScreen.HandleInputChange | src/components/Profile.js:93-99 | the field changes, and that field's error is cleared when it had one |
| ProfileJs.ProfileScreen.ValidateForm | src/components/Profile.js:76-91 | the errors are the form's errors; the result says whether there are none |
| ProfileJs.ProfileScreen.StartSave | src/components/Profile.js:101-111 | before the wait, the errors are the form's errors; an invalid form stops there, a valid one starts saving, clears the message and is the form to be written |
| ProfileJs.ProfileScreen.HandleSave | src/components/Profile.js:111-130 | after the wait, the sent form is written to storage, and the editor closes with the success message and saving ended |
| ProfileJs.ProfileScreen.FinishSave | src/components/Profile.js:120-129 | the success message shows, editing ends and saving ends |
| ProfileJs.ProfileScreen.HandleCancel | src/components/Profile.js:133-146 | the form is reloaded from storage, the errors and message are cleared, and editing ends |
| ProfileJsx.FirstGivenIndex | src/components/Profile.jsx:35-38 | the index of the first non-empty candidate, or the length |
| ProfileJsx.FirstGiven | src/components/Profile.jsx:35-38 | an `a \|\| b \|\| …` chain: the first non-empty candidate, none when all are empty |
| ProfileJsx.SessionEmail | src/components/Profile.jsx:9 | the session email; `SessionEmailPrecedence` states the order in which the user record and storage are consulted |
| ProfileJsx.SessionEmailPrecedence | src/components/Profile.jsx:8-9 | the user record's email wins over the stored email; there is no session when both are empty |
| ProfileJsx.MountName | src/components/Profile.jsx:35-45 | the name shown on mount; `MountNamePrecedence` and `MountShowsSavedName` state its precedence |
| ProfileJsx.MountNamePrecedence | src/components/Profile.jsx:35-45 | the name is the user's `userName`, then `name`, then the stored display name, then the name derived from the email |
| ProfileJsx.MountForm | src/components/Profile.jsx:42-51 | on mount, the name follows that precedence, and phone, theme and notifications are read from storage |
| ProfileJsx.MountShowsSavedName | src/components/Profile.jsx:35-45 | without names in the user record, a saved display name is shown |
| ProfileJsx.FormErrors | src/components/Profile.jsx:75-82 | the only possible error is "required" on a blank name |
| ProfileJsx.FormValidIff | src/components/Profile.jsx:75-82 | valid exactly when the name is not all space |
| ProfileJsx.LaxerThanProfileJs | src/components/Profile.jsx:77-79 | every form `Profile.js` accepts is accepted here, and the name "A" only here |
| ProfileJsx.WriteProfile | src/components/Profile.jsx:90-99 | the same keys and values as `Profile.js` are written |
| ProfileJsx.NameFirstSameStorage | src/components/Profile.jsx:90-99 | writing the name before the theme and the notifications flag ends in the same storage as `Profile.js`'s order |
| ProfileJsx.SaveThenMount | src/components/Profile.jsx:42-99 | mounting after saving a valid form shows that form again |
| ProfileJsx.TotalResumes | src/components/Profile.jsx:109 | `reports.length`: the count of an array, the length of a string, the field of an object, undefined for a number or a boolean |
| ProfileJsx.CountOfLoadedList | src/components/Profile.jsx:235-245 | a loaded list counts its reports, and "View reports" shows exactly when there is one; a failure object counts as undefined and hides it |
| ProfileJsx.ProfileScreen.constructor | src/components/Profile.jsx:11-27 | the form starts with the session email, light theme and notifications on; empty reports, loading |
| ProfileJsx.ProfileScreen.Mount | src/components/Profile.jsx:29-54 | without a session it navigates to "/"; otherwise it loads the form and requests the reports |
| ProfileJsx.ProfileScreen.ReportsArrived | src/components/Profile.jsx:56-65 | the stored value is `res?.reports \|\| res \|\| []`; loading ends |
| ProfileJsx.ProfileScreen.StartEditing | src/components/Profile.jsx:159-164 | editing starts |
| ProfileJsx.ProfileScreen.HandleInputChange | src/components/Profile.jsx:127-133 | the field changes |
| ProfileJsx.ProfileScreen.Cancel | src/components/Profile.jsx:144-149 | editing ends, and the form keeps its edits |
| ProfileJsx.ProfileScreen.ValidateForm | src/components/Profile.jsx:75-82 | the errors are the form's errors; the result says whether there are none |
| ProfileJsx.ProfileScreen.StartSave | src/components/Profile.jsx:84-88 | before the wait, the errors are the form's errors; an invalid form stops there, a valid one starts saving and is the form to be written |
| ProfileJsx.ProfileScreen.FinishSave | src/components/Profile.jsx:101-103 | saving ends, the editor closes and the success message shows |
| ProfileJsx.ProfileScreen.HandleSave | src/components/Profile.jsx:88-103 | after the wait, the sent form is written to storage, and saving ends with the editor closed and the success message |
| UserProfileMenu.LocalPart | src/components/UserProfileMenu.jsx:13 | the email's prefix before its first "@" |
| UserProfileMenu.Initials | src/components/UserProfileMenu.jsx:11-18 | "U" without an email; otherwise the first one or two characters of the local part, upper-cased |
| UserProfileMenu.EmptyLocalPartHasNoInitials | src/components/UserProfileMenu.jsx:13-17 | an email starting with "@" shows no initials at all |
| UserProfileMenu.DisplayName | src/components/UserProfileMenu.jsx:21-25 | "User" without an email; otherwise the same name `Profile.js` derives |
| UserProfileMenu.InitialsPrefixDisplayName | src/components/UserProfileMenu.jsx:11-25 | the initials start with the display name's first letter and are no longer than it |
| UserProfileMenu.MenuShownIffLoggedIn | src/components/UserProfileMenu.jsx:122-124 | the menu renders exactly when the route guard sees a session |
| UserProfileMenu.EntriesReachScreens | src/components/UserProfileMenu.jsx:65-89 | every navigating entry renders its screen for a signed-in user |
| UserProfileMenu.LogoutIsLastAndOnlyDanger | src/components/UserProfileMenu.jsx:114-119 | Logout is the last entry and the only dangerous one |
| UserProfileMenu.LogoutEndsSession | src/components/UserProfileMenu.jsx:59-63 | after logout there is no session, protected paths redirect to "/", and every other key is kept |
| UserProfileMenu.LoginThenLogout | src/components/UserProfileMenu.jsx:59-63 | after signing in and out the stored user record remains, but the profile screen is out of reach |
| UserProfileMenu.MenuState.constructor | src/components/UserProfileMenu.jsx:6 | the menu starts closed |
| UserProfileMenu.MenuState.Toggle | src/components/UserProfileMenu.jsx:130 | the trigger flips the menu |
| UserProfileMenu.MenuState.Choose | src/components/UserProfileMenu.jsx:69-119 | an entry closes the menu and then navigates, opens a window, or logs out |
| UserProfileMenu.MenuState.HandleLogout | src/components/UserProfileMenu.jsx:59-63 | the email is removed from storage, the menu closes, and the router goes to "/" |
| Auth.InitialTab | src/components/Auth.jsx:8-9 | the register tab exactly for "/register", else login |
| Auth.Judge | src/components/Auth.jsx:40-43 | a rejected or nullish answer throws; a truthy `status` accepts; any other answer refuses with its message or the fallback |
| Auth.RefusalMessage | src/components/Auth.jsx:41 | a refusal shows a truthy message as it is, otherwise the fallback |
| Auth.SessionItems | src/components/Auth.jsx:49-50 | signing in adds `user` and `email` and keeps every other key |
| Auth.SignedInAfterLogin | src/components/Auth.jsx:49-50 | after signing in, "/" redirects to the dashboard and the dashboard renders |
| Auth.AuthScreen.constructor | src/components/Auth.jsx:8-28 | the tab follows the path; empty forms, no messages, nothing loading |
| Auth.AuthScreen.ShowLogin | src/components/Auth.jsx:107-110 | the login tab shows and the router goes to "/" |
| Auth.AuthScreen.ShowRegister | src/components/Auth.jsx:118-121 | the register tab shows and the router goes to "/register" |
| Auth.AuthScreen.EditLogin | src/components/Auth.jsx:148-168 | the login form takes the typed values |
| Auth.AuthScreen.EditRegister | src/components/Auth.jsx:217-253 | the register form takes the typed values |
| Auth.AuthScreen.SubmitLogin | src/components/Auth.jsx:31-38 | an empty required field submits nothing; otherwise messages clear, loading starts and the form is sent |
| Auth.AuthScreen.LoginResponded | src/components/Auth.jsx:38-61 | a refusal or a throw shows its error and leaves storage alone; only an accepted sign-in with a user record writes the session and heads for the dashboard; loading ends |
| Auth.AuthScreen.LoginRespondedAsWritten | src/components/Auth.jsx:3-60 | with `getUser` missing from the gateway, no answer writes the session or heads for the dashboard, and an accepted sign-in ends in "Unable to login. Please try again." |
| Auth.AuthScreen.LoginRespondedCorrected | src/components/Auth.jsx:38-61 | with a user fetch that answers, an accepted sign-in leaves a session the route guard sees and heads for a dashboard that renders; any other answer leaves storage alone |
| Auth.AuthScreen.SubmitRegister | src/components/Auth.jsx:65-72 | an empty required field submits nothing; otherwise messages clear, loading starts and the form is sent |
| Auth.AuthScreen.RegisterResponded | src/components/Auth.jsx:72-96 | a refusal or a throw shows its error and keeps the form; an acceptance shows the success message, empties the form and heads for "/"; loading ends |
| Auth.AuthScreen.AfterRegisterDelay | src/components/Auth.jsx:88-91 | back to the login tab at "/" |

## Left out

- The HTTP gateway `src/api/api.js` is not part of this model. Each call's answer is a method parameter (`ApiOutcome`), and the request a handler sends is its return value.
- `getReports` and `deleteReport` turn every transport failure into a `{status: false}` value and never reject. The `catch` branches behind them are therefore unreachable and are not modelled: `Dashboard.js:33-35`, the delete `catch` of `Dashboard.js:51-54`, `Dashboard.jsx:25-26`, `Reports.jsx:20-21`, `Profile.js:60-61` and `Profile.jsx:60-61`.
- Storage writes are taken never to throw (a full quota, say). So the `catch` at `Profile.js:126-128` is not modelled, and neither is a throw from the writes at `Auth.jsx:49-50` or from the unguarded loop at `Settings.jsx:61-63`.
- `api.js` does not export `getUser`, which `Auth.jsx` imports (see Findings). The user fetch after a sign-in is an abstract outcome (`Auth.UserFetch`): either a failure that throws, or the record's JSON text, which is stored as it is.
- `JSON.parse` and `JSON.stringify` are not modelled. The stored user record is read as an already parsed `ProfileJsx.UserRecord`.
- Timers are not modelled as clock time. This covers the simulated save delays (600, 800 and 1000 ms), the delayed redirects (1000 and 2000 ms), and the clearing of messages after 3000 ms. A delayed navigation is returned as a request (`navigateLater`). The upload's progress timer is modelled as a count of live intervals and an explicit `Tick`.
- Rendering is not modelled, except for the view choices stated above: JSX markup, CSS, icons, drag-and-drop, the menu's click-outside and Escape listeners, and the effect of `window.open`.
- Text handling is simplified. Case mapping is ASCII only, because `toUpperCase`/`toLowerCase` are Unicode-aware. Numbers are integers; no fractional value is modelled.
- Strings are sequences of Unicode code points, not of UTF-16 code units. JavaScript's `length`, `substring`, `charAt` and `[i]` count UTF-16 units, so for characters outside the Basic Multilingual Plane (an emoji, say) the lengths and cut points differ. This affects `ProfileJs.NameError` and `ProfileJs.FormErrors` ("😀" has length 2 in JavaScript and passes the length check), `DashboardJs.AnalysisPreview` (150), `DashboardJsx.SummaryPreview` (100), `UserProfileMenu.Initials` and `ProfileJs.Initials` (which can split a surrogate pair), and `ProfileJsx.TotalResumes` on a string.
- App.MatchProtected: matches paths exactly and case-sensitively. React Router's trailing-slash tolerance and URL decoding are not modelled.
- The other fields of a report are not modelled: `atsScore`, `jobMatch`, `strengths`, `improvements` and `jobRecommendation`. Neither is the `missingKeywords < 1` comparison at `Reports.jsx:158`, which compares an array with a number.
- Report fields that are `null` and fields that are absent are both `None`.
- `Profile.js` `getLastLoginDate` is not modelled: it formats the current date. Neither is the message of `handleChangePassword`, which only announces a feature that does not exist.
- `Profile.jsx`'s `error` state is never set by the component, so it is not modelled.
- Only the non-emptiness of the `required` inputs is modelled. The browser's format check on `type="email"` inputs is not.
- ProfileJsx.TotalResumes: requires a value that is not `null` or `undefined`, on which `reports.length` throws; the screen never holds either, since it starts with `[]` and stores only the truthy `res?.reports || res || []`. A `length` field that is not a number is compared as "not above zero". JavaScript's coercion of such values is not modelled.
- ReportDetails.ReportDetailsScreen.ReportsArrived: the `TypeError` that `find` raises on a non-array answer is modelled as a `Threw` lookup that leaves the state unchanged. The unhandled promise rejection is not modelled.
- The bundler's choice between `Dashboard.js`/`Dashboard.jsx` and `Profile.js`/`Profile.jsx` is not modelled. Both variants are modelled.

## Findings

| source | as written | input that shows it | evidently intended | confidence | as-written member | corrected member |
|---|---|---|---|---|---|---|
| src/components/UploadResume.jsx:87-89 | the `catch` path resets progress but never clears the interval started at line 71 | a rejected upload call: the timer stays live and its next tick moves progress from 0 to 10, and on up to 90 | the interval is cleared on every path, as on the success path | not executed | UploadResume.IntervalLeaksAfterNetworkError | UploadResume.NoIntervalAfterNetworkErrorCorrected |
| src/components/Profile.js:71 | `first[0] + last[0]` with `last` an empty string concatenates `undefined` | the name "Ann " gives "AUNDEFINED" | only existing letters are used: "A" | not executed | ProfileJs.InitialsOfTrailingSpace | ProfileJs.InitialsCorrected |
| src/components/Profile.js:71 | `parts[0][0] + parts[1][0]` with both parts empty is `undefined + undefined`, the number NaN, and `NaN.toUpperCase()` throws a TypeError; the same code is at `Profile.jsx:71` | typing a single space as the display name: the header calls `getInitials(" ")` and the render crashes | no crash: only existing letters are used, none for " " | not executed | ProfileJs.InitialsOfLeadingSpacesThrow | ProfileJs.InitialsCorrectedOfLeadingSpaces |
| src/components/Reports.jsx:19 | `res?.reports \|\| res \|\| []` stores a failure answer as it is, and the render calls `.map` on it | `{status: false, message: "Network error"}` from `getReports` makes the render throw | a non-array answer is read as an empty list | not executed | Reports.FailedFetchBreaksRender | Reports.CorrectedNeverThrows |
| src/components/Auth.jsx:3 | `getUser` is imported from `api.js`, which does not export it, so the call at line 46 throws (or the bundler refuses the import) | any sign-in the server accepts: the `catch` shows "Unable to login. Please try again." and the session at lines 49-50 is never written | the user record is fetched, the session is stored and the dashboard opens | not executed | Auth.AuthScreen.LoginRespondedAsWritten | Auth.AuthScreen.LoginRespondedCorrected |
