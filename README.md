# SPARRC patient app: view-state machine and forms, in Dafny

This project models the client-side logic of the SPARRC patient-portal app (React Native). It covers five parts:

- The root component's view-state machine (`App.js`). It has seven state fields (`appStatus`, `activeTab`, `patientData`, `isModalVisible`, `isRefreshing`, `activeScreen`, `isSaving`).
- The handlers that change those fields: splash finish, load, pull-to-refresh, profile save, appointment added, and the tab, screen and modal setters.
- The effect that starts the first load, and the rule that picks what is on screen.
- The profile edit form (`ProfileScreen.js`) and the appointment request modal (`AddAppointmentModal.js`).
- The dashboard's selectors and fallbacks (`DashboardScreen.js`) and the header's avatar initial (`getInitials` in `Header.js`).

Files and modules:

- `records.dfy` (`Records`): the patient record, its appointments and messages. A JSON field that may be absent or `null` is an `Option`. JavaScript falsiness of a text field is `Truthy`.
- `header.dfy` (`Header`): `Initials`.
- `dashboard.dfy` (`Dashboard`): `NextAppointment`, `AppointmentCount`, `WelcomeName`, `FormatDateTime`, `PainScoreText`, and `Render` for the whole tab.
- `profile.dfy` (`Profile`): `WithField`, `HasRequiredFields`, and the class `ProfileScreen` with the `editablePatient` field.
- `appointment_modal.dfy` (`AppointmentModal`): JavaScript's `trim`, `ReasonAccepted`, `BuildRequest`, and the class `AddAppointmentForm` with the `specialty` field.
- `app.dfy` (`AppRoot`): `State`, `Event`, the transition function `Step` (`Apply` for the handler, then `AfterRender` for the effect), the selection rule `Render`, and the class `App`.
  - The constructor of `App` is proved to set its fields to `Init()`, and `RunEffect` to move them as `AfterRender`. Every other method of `App` is proved to move them exactly as `Step` moves a `State`.
  - Each asynchronous handler is split in two: a step that begins the call, and a completion step that takes the network outcome as input.
  - A fetch outcome is a record or `None`. `fetchPatientData` turns a non-2xx response or any thrown error into `null`.
  - A save outcome is success or failure.
  - Calls that have begun and not yet completed are kept in `inFlight`. A completion names one of them by its index.

Notable behaviour the proofs establish:

- A refresh whose fetch fails writes `null` over the record already on screen. The spinner then replaces the main app, and the effect on `[appStatus, patientData]` starts exactly one more load (`FailedRefreshDropsRecord`).
- When the first load fails, the record goes from `null` to `null`, so the effect does not run again. The spinner stays up with nothing in flight (`FailedFirstLoadStrandsSpinner`).
- The dashboard counts and selects an appointment that has no `appointment_date`. Its card still reads "No upcoming appointments.", the same text as an empty list (`UndatedNextAppointmentReadsAsNone`).

Facts about the code that the model keeps:

- A failed refresh does not keep the previous record. `loadData` stores the fetch result, which is `null` after a failure (sparrc-app-final/App.js:28-29).
- Loads carry no sequence numbers. Each completed load overwrites the record, in whatever order the loads complete.
- A successful save stores the record the form submitted, not a value returned by the server (sparrc-app-final/App.js:54).
- A booking checks only that the reason is not blank after trimming (sparrc-app-final/src/components/AddAppointmentModal.js:9). The request it builds is never sent anywhere: `handleAppointmentAdded` ignores its argument (sparrc-app-final/App.js:64-69).
- Errors are not told apart. A failed fetch is `null`, and a failed save is one catch block.

## Model

| member | source | states |
|---|---|---|
| `AppRoot.Init` | sparrc-app-final/App.js:16-22 | The mount state: status 'loading', tab 'dashboard', no record, modal hidden, not refreshing, screen 'main', not saving. It renders the splash and has nothing in flight. |
| `AppRoot.Render` | sparrc-app-final/App.js:111-138 | The splash exactly while status is 'loading'. Otherwise the spinner exactly while there is no record. Otherwise the main app exactly when the screen is 'main', else the profile form. The profile form gets the record and `isSaving`. The main app gets the header initial, the tab content, the tab, the modal flag and `isRefreshing` for its refresh indicator. Pull-to-refresh is offered only on tabs other than chatbot and appointments. |
| `AppRoot.Apply` | sparrc-app-final/App.js:24-69 | The handlers' updates, field by field. Only the splash's finish changes the status, to 'loaded'. Only a completed load, or a successful save, changes the record, and a completed load sets it to the fetch result. The tab changes only on a tab change or a completed load. The screen changes only on the profile's open and back buttons or a completed save. The modal flag changes only on its setter or a booking. `isRefreshing` changes only when a refresh begins or a load completes. `isSaving` changes only when a save begins or completes. A completion removes exactly its own call from the calls in flight. Each begin step appends one call and keeps the others. The other events leave the calls in flight alone. |
| `AppRoot.AfterRender` | sparrc-app-final/App.js:41-48 | The effect changes nothing but the calls in flight, where it may append one effect load. It appends one exactly when the status or the record changed since the last render, the status is 'loaded' and no record is held. |
| `AppRoot.MainContent` | sparrc-app-final/App.js:71-79 | Each of the four tab names selects its screen with the props it receives. Any other tab value selects nothing. |
| `AppRoot.SplashFinishBeginsFirstLoad` | sparrc-app-final/App.js:41-48 | Finishing the splash from the mount state sets status 'loaded', begins exactly one effect load, and shows the spinner. |
| `AppRoot.EffectLoadCondition` | sparrc-app-final/App.js:41-48 | The effect begins a load exactly when the step leaves status 'loaded' with no record and either changed the status or dropped a record. What it appends is an effect load. |
| `AppRoot.LoadStoresFetchResult` | sparrc-app-final/App.js:24-33 | A completed load sets the record to exactly what the fetch resolved to, whatever began the load. The screen, the modal and `isSaving` are unchanged. |
| `AppRoot.RefreshFlagAroundLoad` | sparrc-app-final/App.js:35-39 | Refresh sets `isRefreshing` and appends its load as the last call in flight. If that load completes next, the flag is false, for a record and for `null` alike. |
| `AppRoot.RefreshLoadLowersFlag` | sparrc-app-final/App.js:35-39 | Whatever events came in between, completing any load begun by a refresh leaves `isRefreshing` false, for a record and for `null` alike. |
| `AppRoot.FailedRefreshDropsRecord` | sparrc-app-final/App.js:28-29 | A refresh that fails while a record is shown leaves no record. The spinner is shown, the refreshing flag is down, and one more effect load is begun. |
| `AppRoot.FailedFirstLoadStrandsSpinner` | sparrc-app-final/App.js:41-48 | If the first load fails after the splash, the spinner stays with no call in flight. |
| `AppRoot.SaveBegins` | sparrc-app-final/App.js:50-53 | Beginning a save raises `isSaving` and leaves the record and the screen unchanged. |
| `AppRoot.SaveCompletion` | sparrc-app-final/App.js:50-62 | A completed save lowers `isSaving` on both paths. On success the record is exactly the submitted one and the screen is 'main'. On failure the record and the screen are unchanged. |
| `AppRoot.AppointmentAddedIgnoresRequest` | sparrc-app-final/App.js:64-69 | Adding an appointment hides the modal, begins one reload, and leaves the tab and the record unchanged. Two different requests give the same state. |
| `AppRoot.TabSwitchAfterBookingReload` | sparrc-app-final/App.js:65-67 | The tab becomes 'appointments' when the booking's reload completes. The other loads leave the tab unchanged. |
| `AppRoot.BookingShowsServerList` | sparrc-app-final/App.js:64-79 | After a booking and a successful reload, the main app shows the appointments tab with exactly the fetched list. The modal is hidden. |
| `AppRoot.StepKeepsValid` | sparrc-app-final/App.js:35-62 | Every event keeps five facts. Status is 'loading' or 'loaded'. Screen is 'main' or 'profile'. `isRefreshing` implies a refresh is in flight. `isSaving` implies a save is in flight. No effect load exists while status is 'loading'. |
| `AppRoot.RunKeepsValid` | sparrc-app-final/App.js:24-69 | Any sequence of events from a valid state ends in a valid state. |
| `AppRoot.ReachableIsValid` | sparrc-app-final/App.js:16-69 | Every state reachable from the mount state is valid. |
| `AppRoot.App.constructor` | sparrc-app-final/App.js:16-22 | The fields start as `Init`. |
| `AppRoot.App.RunEffect` | sparrc-app-final/App.js:41-48 | The effect on the fields, as `AfterRender`. |
| `AppRoot.App.FinishSplash` | sparrc-app-final/App.js:112 | The fields move as `Step` on the splash's finish. |
| `AppRoot.App.BeginRefresh` | sparrc-app-final/App.js:35-37 | The fields move as `Step` when a refresh begins. |
| `AppRoot.App.AppointmentAddedHandler` | sparrc-app-final/App.js:64-69 | The fields move as `Step` when a booking is handed over. |
| `AppRoot.App.CompleteLoad` | sparrc-app-final/App.js:28-29 | The fields move as `Step` when a load completes, including the continuation of the handler that began it. |
| `AppRoot.App.BeginSave` | sparrc-app-final/App.js:50-53 | The fields move as `Step` when a save begins. |
| `AppRoot.App.CompleteSave` | sparrc-app-final/App.js:53-61 | The fields move as `Step` when a save resolves or throws. |
| `AppRoot.App.SetActiveTab` | sparrc-app-final/App.js:99 | The fields move as `Step` on a tab change. |
| `AppRoot.App.OpenProfile` | sparrc-app-final/App.js:85 | The fields move as `Step` when the avatar is pressed. |
| `AppRoot.App.CloseProfile` | sparrc-app-final/App.js:133 | The fields move as `Step` on the profile's back button. |
| `AppRoot.App.SetModalVisible` | sparrc-app-final/App.js:103 | The fields move as `Step` when the modal is opened or closed. |
| `Profile.WithField` | sparrc-app-final/src/screens/ProfileScreen.js:53-79 | Editing one field sets that field to the typed text. Every other form field and every other part of the record is unchanged. |
| `Profile.EditsCommuteOnDistinctFields` | sparrc-app-final/src/screens/ProfileScreen.js:53-79 | Edits to two different fields give the same record in either order. |
| `Profile.HasRequiredFields` | sparrc-app-final/src/screens/ProfileScreen.js:33 | A save is accepted exactly when neither the name field nor the mobile field is missing or empty. |
| `Profile.OtherEditsKeepRequiredFields` | sparrc-app-final/src/screens/ProfileScreen.js:33 | Editing the email, gender or occupation never changes whether a save is accepted. |
| `Profile.RequiredFieldsDecideSave` | sparrc-app-final/src/screens/ProfileScreen.js:33 | Clearing the name or the mobile number makes a save rejected. Typing non-empty text into both makes it accepted. |
| `Profile.WhitespaceOnlyPasses` | sparrc-app-final/src/screens/ProfileScreen.js:33 | The check does not trim, so a name and mobile number made of spaces pass it. |
| `Profile.ProfileScreen.constructor` | sparrc-app-final/src/screens/ProfileScreen.js:25 | The editable copy starts equal to the patient prop. |
| `Profile.ProfileScreen.PropChanged` | sparrc-app-final/src/screens/ProfileScreen.js:27-29 | A new patient prop replaces the editable copy and discards unsaved edits. |
| `Profile.ProfileScreen.ChangeText` | sparrc-app-final/src/screens/ProfileScreen.js:53-79 | An input's change sets only its own field of the editable copy. |
| `Profile.ProfileScreen.PressSave` | sparrc-app-final/src/screens/ProfileScreen.js:31-38 | While saving, the button does nothing. Otherwise, when the name or mobile number is missing or empty, the save is rejected and `onSave` is not called. Otherwise `onSave` receives exactly the editable copy. |
| `AppointmentModal.IsJsWhitespace` | sparrc-app-final/src/components/AddAppointmentModal.js:9 | The code points `trim` removes. Among ASCII characters, these are exactly space, tab, line feed, vertical tab, form feed and carriage return. |
| `AppointmentModal.Trim` | sparrc-app-final/src/components/AddAppointmentModal.js:9 | `trim` removes JavaScript whitespace at both ends. A non-empty result neither starts nor ends with whitespace. |
| `AppointmentModal.TrimEmptyIffBlank` | sparrc-app-final/src/components/AddAppointmentModal.js:9 | The trimmed text is empty exactly when every character is whitespace. |
| `AppointmentModal.TrimIsInfix` | sparrc-app-final/src/components/AddAppointmentModal.js:9 | The trimmed text is the slice of the input between a blank prefix and a blank suffix. |
| `AppointmentModal.ReasonAccepted` | sparrc-app-final/src/components/AddAppointmentModal.js:9-12 | A reason is accepted exactly when it has a character that is not whitespace. |
| `AppointmentModal.BuildRequest` | sparrc-app-final/src/components/AddAppointmentModal.js:14-19 | The request carries the text as typed, untrimmed. Its doctor is 'D002', its date '2025-09-15' and its time '14:00:00', whatever is typed. |
| `AppointmentModal.AddAppointmentForm.constructor` | sparrc-app-final/src/components/AddAppointmentModal.js:6 | The reason field starts as ''. |
| `AppointmentModal.AddAppointmentForm.ChangeText` | sparrc-app-final/src/components/AddAppointmentModal.js:36-37 | Each edit sets the field to the new text. |
| `AppointmentModal.AddAppointmentForm.PressAdd` | sparrc-app-final/src/components/AddAppointmentModal.js:8-22 | A blank reason submits nothing and keeps the typed text. An accepted reason submits the fixed request built from it and clears the field to ''. |
| `Dashboard.Render` | sparrc-app-final/src/screens/DashboardScreen.js:26-58 | With no patient, only the loading placeholder. Otherwise the welcome name (`WelcomeName`, never empty), the card (`Card`), the pain score (`PainScoreText`) and the appointment count. The card shows an appointment exactly when the count is positive. |
| `Dashboard.NextAppointment` | sparrc-app-final/src/screens/DashboardScreen.js:32-34 | An appointment is chosen exactly when the list is present and non-empty, and it is the entry at position 0. |
| `Dashboard.NextIgnoresLaterEntries` | sparrc-app-final/src/screens/DashboardScreen.js:32-34 | The list is not sorted. The first entry is chosen whatever follows it. |
| `Dashboard.AppointmentCount` | sparrc-app-final/src/screens/DashboardScreen.js:56 | The count is the list length, or 0 when the list is missing. |
| `Dashboard.NextAppointmentIffCount` | sparrc-app-final/src/screens/DashboardScreen.js:32-56 | The card shows an appointment exactly when the counter is positive. |
| `Dashboard.WelcomeName` | sparrc-app-final/src/screens/DashboardScreen.js:38 | The welcome name is never empty. It is the patient's name when the name is non-empty, else 'User'. |
| `Dashboard.FormatDateTime` | sparrc-app-final/src/screens/DashboardScreen.js:6-16 | A fixed text is returned exactly for a missing or empty input, and that text is 'No upcoming appointments.'. Any other input is handed to locale formatting unchanged. |
| `Dashboard.Card` | sparrc-app-final/src/screens/DashboardScreen.js:40-52 | The card holds an upcoming appointment exactly when the count is positive. Its time text is `FormatDateTime` of the first entry's date, and its doctor line is `DoctorLine` of the first entry. With no appointment, the card shows 'No upcoming appointments.'. |
| `Dashboard.DoctorLine` | sparrc-app-final/src/screens/DashboardScreen.js:47 | The line is 'with ' followed by the doctor name, or nothing after it when the name is absent. |
| `Dashboard.PainScoreText` | sparrc-app-final/src/screens/DashboardScreen.js:55 | The pain score is the pain scale's text followed by '%'. |
| `Dashboard.NumberText` | sparrc-app-final/src/screens/DashboardScreen.js:55 | An integer's text reads back as that integer. An absent value gives 'undefined' and `null` gives 'null'. |
| `Dashboard.IntTextRoundTrip` | sparrc-app-final/src/screens/DashboardScreen.js:55 | Reading an integer's decimal text back gives the integer. |
| `Dashboard.NatTextRoundTrip` | sparrc-app-final/src/screens/DashboardScreen.js:55 | The decimal text of a natural number reads back as that number and has no leading zero. |
| `Dashboard.UndatedNextAppointmentReadsAsNone` | sparrc-app-final/src/screens/DashboardScreen.js:44-48 | If the first appointment has no date, the count is at least 1 and the card's time text is 'No upcoming appointments.'. |
| `Header.Initials` | sparrc-app-final/src/components/Header.js:9-12 | The result is exactly one character. A missing or empty name gives '?'. Otherwise the result is the upper-case form of the first character, and never a lower-case ASCII letter. |
| `Header.UpperAscii` | sparrc-app-final/src/components/Header.js:11 | A lower-case ASCII letter maps to its upper-case form. Every other character is unchanged. |
| `Header.SameFirstCharSameInitial` | sparrc-app-final/src/components/Header.js:11 | Names that share a first character get the same initial. |
| `Header.InitialIgnoresCase` | sparrc-app-final/src/components/Header.js:11 | Names starting with the two cases of one ASCII letter get the same initial. |
| `Header.InitialsIdempotent` | sparrc-app-final/src/components/Header.js:9-12 | Taking the initial of an initial gives the same initial. |

## Left out

- Network I/O. `fetchPatientData` (sparrc-app-final/src/api.js:6-24) is an input to `LoadCompleted`: the parsed record, or `None` for a non-2xx response or any thrown error.
- `updatePatientData` is imported at sparrc-app-final/App.js:4, but sparrc-app-final/src/api.js exports only `fetchPatientData`. The import is therefore `undefined`, and the call at sparrc-app-final/App.js:53 throws inside the `try`, so as written every save takes the catch path. The model keeps the save's outcome as the `succeeded` input of `SaveCompleted`, so that the success path of the handler is modelled too.
- The catch block of `loadData` is not modelled. `fetchPatientData` never throws, so the catch never runs.
- Concurrency. `InteractionManager` deferral and overlapping handlers are modelled only as a list of calls in flight, completed one at a time in any order. Nothing is proved about races.
- Alerts, console logging, the splash animation and its timer are left out. The timer only decides when `SplashFinished` happens.
- Rendering of the event controls. Events are not restricted to the screen that shows their control. For example, the model allows `RefreshBegun` during the splash, while the app offers no such control there.
- Mount and unmount of the forms. The forms are separate objects. Their constructors stand for a mount. The model does not show that leaving the main app or the profile screen resets their state.
- Profile.ProfileScreen.PropChanged: the effect runs when the prop is a different object. Object identity is not modelled, so the caller decides when the method is called.
- `AppRoot.AfterRender` compares the previous record by value, not by object identity. The effect only acts when the new record is `null`, so both comparisons start the same loads.
- Header.UpperAscii: `toUpperCase` is modelled for ASCII letters only. Other characters are left unchanged, so the model does not show that 'ß' becomes the two characters "SS".
- Dashboard.NumberText: only integer pain scales are modelled. Fractions and exponent notation (from 10^21 up) are not.
- Locale date formatting (`toLocaleString`) is represented by `LocaleDateTime(iso)` and not computed.
- The chatbot, reports and appointments screens, the bottom navigation highlight, the side menu, the logo, the report PDF and all styles are presentation only. The tab content records only which props those screens receive.
- The Express/MySQL backend, including its mock appointment and message data.
