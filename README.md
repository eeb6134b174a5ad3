# AirGuard admin dashboard, modelled in Dafny

This project models the decision rules and state transitions of the AirGuard
admin dashboard. AirGuard is a Next.js/React front end for an air-quality
monitor.

What is modelled:

- **AQI classifiers.** There are three tables.
  - The live card uses `getAqiLevel`.
  - The history timeline uses `getRiskLevel`/`getAqiColor`.
  - The announcement dialog uses `getAirQualityStatus`.

  The module `Bands` states the banding rule the three share.
- **Live readings.** This covers the card's current/previous snapshot and the
  trend arrow of each pollutant. It also covers the radar chart's mapping from
  a reading to its entries, and the time-window filter of the pollutant chart.
- **Accounts table.**
  - Loading users newest first, and the refresh counter the two user charts
    follow.
  - The bulk delete that stops at the first failed request.
  - The edit schema and its payload.
  - The spreadsheet import's extension check.
- **The two user charts.** These are role counts with rounded percentages, and
  status counts.
- **Forms.** The login form with the outcomes of a sign-in. The add-user form
  with its password rule and credentials email.
- **Group chat and announcements.**
  - The group chat's send sequence and its push recipients.
  - The announcement dialog's recipient list and report.
  - Its five-step send sequence.
- **Session.** Logging in and out, restoring from storage, and redirecting.

How the source is mapped:

- Each remote call is an `Outcome` parameter, either `Ok(value)` or
  `Fail(msg)`. For requests whose reply is not used, the parameter is a
  boolean "this request succeeds".
- A component's `useState` fields are the fields of a class.
- Each handler is a method whose `ensures` state the component's new state in
  terms of the old state and the outcomes.
- A handler that awaits several requests in turn keeps a log of the requests
  it made. Its contract says that log is the handler's plan up to and
  including the first failure (`Seqs.ThroughFirstFailure`).
- Pure expressions are functions, with the properties the code promises proved
  as lemmas.
- JavaScript semantics are kept where they decide a branch:
  - `""` is falsy and `undefined === undefined`;
  - `trim` removes ECMAScript white space;
  - `"".split(",")` is `[""]`;
  - `a || b` on strings.

There are two modelling choices worth knowing:

- Dafny integers are unbounded. Readings are modelled as integers and
  timestamps as integer milliseconds.
- `Strings`, `Seqs`, `Wrappers`, `Readings` and `UserRecord` hold what several
  components share.

## Model

| member | source | states |
|---|---|---|
| Bands.BandOf | src/components/timeline-stepper.tsx:66-74 | The band of a value is the first inclusive upper bound it does not exceed, or one past the last bound. |
| Bands.BandOfMonotone | src/components/timeline-stepper.tsx:66-85 | A larger AQI never falls into an earlier band. |
| Bands.BandOfInterval | src/components/charts/PollutantsDisplay.tsx:46-53 | With increasing bounds, band b is exactly the interval (bounds[b-1], bounds[b]]. |
| PollutantsDisplay.LevelMaxes | src/components/charts/PollutantsDisplay.tsx:37-44 | The level maxima are 20, 40, 90, 200, 280 and 400, strictly increasing. |
| PollutantsDisplay.LevelIndex | src/components/charts/PollutantsDisplay.tsx:46-53 | The chosen level is the first whose max is at least the AQI, or the last level when the AQI exceeds 400. |
| PollutantsDisplay.GetAqiLevel | src/components/charts/PollutantsDisplay.tsx:46-53 | The search loop returns exactly that first matching level, falling back to "Extremely High". |
| PollutantsDisplay.LevelOfMonotone | src/components/charts/PollutantsDisplay.tsx:37-53 | A higher AQI never gets a level with a smaller max. |
| PollutantsDisplay.DeviceOn | src/components/charts/PollutantsDisplay.tsx:141-145 | "ON" is shown only for a present reading, and the test is case-sensitive: a status of "ON" or "off" shows "OFF". |
| PollutantsDisplay.GetTrend | src/components/charts/PollutantsDisplay.tsx:94-106 | Flat when a reading is missing or the values are equal. Up iff the current value is greater, down iff it is smaller. |
| PollutantsDisplay.TrendReverses | src/components/charts/PollutantsDisplay.tsx:94-106 | Swapping the two readings turns up into down and keeps flat. |
| PollutantsDisplay.LevelShown | src/components/charts/PollutantsDisplay.tsx:108 | The level shown is that of the current AQI, or the first level when there is no reading. |
| PollutantsDisplay.CardValue | src/components/charts/PollutantsDisplay.tsx:219 | A pollutant card shows "-" exactly when there is no reading, and the value otherwise. |
| PollutantsDisplay.EmptyPanel | src/components/charts/PollutantsDisplay.tsx:141-145 | With no reading the card shows "Very Low", the device as OFF, "-" and a flat arrow. |
| PollutantsDisplay.Display.constructor | src/components/charts/PollutantsDisplay.tsx:56-61 | Model "modelx21", no readings and no update time, with the loading and lazy flags on. |
| PollutantsDisplay.Display.FetchData | src/components/charts/PollutantsDisplay.tsx:63-85 | On success, the reading the running closure captured, when there is one, becomes the previous one. The latest reading, when there is one, becomes current with the update time. Lazy clears. A failure keeps all of these. Loading is false after every outcome. |
| PollutantsDisplay.Display.Refresh | src/components/charts/PollutantsDisplay.tsx:198 | The Refresh button sees the reading in hand, so on success the current reading, if any, becomes the previous one. |
| PollutantsDisplay.Display.PollTick | src/components/charts/PollutantsDisplay.tsx:87-92 | The mount call and each 2 s tick run the first render's closure, in which `readings` is null, so the previous reading never changes. The latest reading still becomes current. |
| PollutantsDisplay.PollsKeepTrendsFlat | src/components/charts/PollutantsDisplay.tsx:71-95 | From mount, any run of polls alone leaves every card's arrow flat. |
| PollutantsDisplay.RefreshesShowTrend | src/components/charts/PollutantsDisplay.tsx:94-106 | Two refreshes with readings r1 then r2 show the direction each field moved from r1 to r2, so a rise shows the up arrow. |
| Readings.FirstReading | src/components/charts/PollutantsDisplay.tsx:69 | The first element of the list, or none exactly when the list is empty. |
| PollutantsRadar.RadarEntries | src/components/charts/PollutantsRadar.tsx:50-55 | Four entries: PM 2.5, PM 10, Carbon Monoxide and Nitrogen Dioxide. PM 2.5, CO and NO2 are copied from the reading; PM 10 is the constant 21. |
| PollutantsRadar.ReadingDropsVoc | src/components/charts/PollutantsRadar.tsx:24-30 | The initial chart has five zero entries, and it is the reading's chart with VOC inserted before Nitrogen Dioxide. |
| PollutantsRadar.Pm10Ignored | src/components/charts/PollutantsRadar.tsx:52 | Readings that agree on PM 2.5, CO and NO2 give the same chart, whatever their PM 10. |
| PollutantsRadar.Radar.constructor | src/components/charts/PollutantsRadar.tsx:41-42 | The chart starts as the initial data, with loading on. |
| PollutantsRadar.Radar.FetchData | src/components/charts/PollutantsRadar.tsx:45-61 | A first reading replaces the chart with its entries and clears loading. An empty list keeps the chart and clears loading. A failure keeps both. |
| PollutantsTime.WindowMs | src/components/charts/PollutantsTime.tsx:104-116 | The window is 24 hours for "24h", 7 days for "7d" and 30 days for "30d"; any other value gives 90 days. |
| PollutantsTime.WindowsGrow | src/components/charts/PollutantsTime.tsx:104-116 | 24h < 7d < 30d < the 90-day default. |
| PollutantsTime.FilteredData | src/components/charts/PollutantsTime.tsx:99-119 | Every kept reading is from the data and dated at or after now minus the window. Every such reading is kept. |
| PollutantsTime.NarrowerWindow | src/components/charts/PollutantsTime.tsx:99-119 | Filtering by a shorter window after a longer one equals filtering by the shorter one, so its result is never longer. |
| PollutantsTime.FilteredDataAppend | src/components/charts/PollutantsTime.tsx:99-119 | The filter distributes over concatenation, so the kept readings stay in fetch order. |
| PollutantsTime.DescriptionFor | src/components/charts/PollutantsTime.tsx:145-151 | Only "24h" and "7d" set their texts; any other range keeps the previous description. |
| PollutantsTime.DescriptionIdempotent | src/components/charts/PollutantsTime.tsx:145-151 | Re-running the effect for the same range changes nothing. |
| PollutantsTime.Chart.constructor | src/components/charts/PollutantsTime.tsx:69-72 | No data, range "24h", description "" and loading on. |
| PollutantsTime.Chart.DescriptionEffect | src/components/charts/PollutantsTime.tsx:145-151 | The description becomes the one for the current range. |
| PollutantsTime.Chart.SetTimeRange | src/components/charts/PollutantsTime.tsx:145-151 | Choosing a range stores it and runs the description effect for it. |
| PollutantsTime.Chart.FetchData | src/components/charts/PollutantsTime.tsx:75-86 | Success replaces the data wholesale and clears loading; a failure keeps both. |
| TimelineStepper.RiskLevel | src/components/timeline-stepper.tsx:66-74 | The risk label is always one of the six labels. |
| TimelineStepper.RiskLevelIsBand | src/components/timeline-stepper.tsx:66-74 | The label is that of the band for bounds 20, 40, 90, 200 and 280. The 900 branch gives "Hazardous" like the fall-through. |
| TimelineStepper.AqiColor | src/components/timeline-stepper.tsx:77-85 | The colour is always one of the seven classes. |
| TimelineStepper.AqiColorIsBand | src/components/timeline-stepper.tsx:77-85 | The colour is that of the band for bounds 20, 40, 90, 200, 280 and 900, with purple-700 above 900. |
| TimelineStepper.RiskLevelMonotone | src/components/timeline-stepper.tsx:66-74 | A higher AQI never gets a less severe label. |
| TimelineStepper.Severity | src/components/timeline-stepper.tsx:66-74 | The rank of a label in the table, and -1 exactly for a string outside it. |
| TimelineStepper.SeverityOfBand | src/components/timeline-stepper.tsx:66-74 | The label of band b ranks b. |
| TimelineStepper.ColorRefinesRisk | src/components/timeline-stepper.tsx:66-85 | The colour bands refine the risk bands: colour band 6 lies inside risk band 5, and the others coincide. |
| TimelineStepper.StepStateOf | src/components/timeline-stepper.tsx:61-62 | Exactly one of completed (index < current), current or upcoming holds. |
| TimelineStepper.PreviousTarget | src/components/timeline-stepper.tsx:166 | Previous targets max(0, current - 1). |
| TimelineStepper.NextTarget | src/components/timeline-stepper.tsx:172 | Next targets min(count - 1, current + 1). |
| TimelineStepper.NavigationStaysInRange | src/components/timeline-stepper.tsx:164-176 | Given at least one step, a step in range stays in range under Previous and Next, which move it at most one place. |
| TimelineStepper.Stepper.constructor | src/components/timeline-stepper.tsx:39-40 | The stepper holds the given steps and starts at the given initial step. |
| TimelineStepper.Stepper.SetSteps | src/components/timeline-stepper.tsx:39 | A new list of steps from the parent is stored. |
| TimelineStepper.Stepper.StepChange | src/components/timeline-stepper.tsx:42-45 | `handleStepChange` sets the current step to the index. |
| TimelineStepper.Stepper.Previous | src/components/timeline-stepper.tsx:164-170 | Moves to the previous target, stays in range, and goes back exactly one step when the button is enabled. |
| TimelineStepper.Stepper.Next | src/components/timeline-stepper.tsx:171-176 | Moves to the next target, stays in range, and goes forward exactly one step when the button is enabled. |
| TimelineStepper.SortNewestFirst | src/components/timeline-stepper.tsx:215-219 | In-place insertion sort: afterwards the steps are newest first and a permutation of the input. |
| TimelineStepper.InsertNewestFirst | src/components/timeline-stepper.tsx:215-219 | One insertion pass extends the sorted prefix by one and keeps the multiset. |
| TimelineStepper.InsertingStart | src/components/timeline-stepper.tsx:215-219 | A sorted prefix meets the insertion invariant at its end. |
| TimelineStepper.InsertingSwap | src/components/timeline-stepper.tsx:215-219 | Swapping the moving entry past an older one keeps the invariant and the multiset. |
| TimelineStepper.InsertingDone | src/components/timeline-stepper.tsx:215-219 | When the entry stops, the prefix one longer is newest first. |
| TimelineStepper.Dates | src/components/timeline-stepper.tsx:234 | The dates of the steps, position by position. |
| TimelineStepper.FirstIndex | src/components/timeline-stepper.tsx:234 | The position of the first occurrence of a date. |
| TimelineStepper.FirstIndexAppend | src/components/timeline-stepper.tsx:234 | Appending keeps existing first occurrences; a new date first occurs at the end. |
| TimelineStepper.Unique | src/components/timeline-stepper.tsx:234 | `[...new Set(...)]` holds each date of the list, and holds it once. |
| TimelineStepper.UniqueInFirstOccurrenceOrder | src/components/timeline-stepper.tsx:234 | The unique dates are in the order of their first occurrence in the list. |
| TimelineStepper.DateFilter | src/components/timeline-stepper.tsx:236-244 | A date keeps exactly the steps with that date, in order. No date, or the empty string, restores the full list. |
| TimelineStepper.DateFilterKeepsOrder | src/components/timeline-stepper.tsx:239 | The filter distributes over concatenation, so relative order is kept. |
| TimelineStepper.OfferedDateIsNonEmpty | src/components/timeline-stepper.tsx:234-240 | A date offered in the dropdown always selects at least one step. |
| TimelineStepper.TimelineData.constructor | src/components/timeline-stepper.tsx:185-189 | Empty lists, loading on, no error and no selected date. |
| TimelineStepper.TimelineData.FetchData | src/components/timeline-stepper.tsx:191-228 | On success both lists become the fetched steps sorted newest first, as a permutation. A failure sets the error and keeps the lists. Loading is false afterwards. |
| TimelineStepper.TimelineData.HandleDateFilter | src/components/timeline-stepper.tsx:236-244 | Stores the chosen date and shows the date filter of the full list. |
| TimelineStepper.Stepper.PreviousDisabled | src/components/timeline-stepper.tsx:166-167 | Previous is disabled iff it would not move; when enabled it moves one step back. |
| TimelineStepper.Stepper.NextDisabled | src/components/timeline-stepper.tsx:172-173 | Next is disabled iff it would not move; when enabled it moves one step forward. |
| AnnouncementModal.AirQualityStatus | src/components/modals/AnnouncementModal.tsx:19-56 | The status is always one of the six fixed statuses. |
| AnnouncementModal.AirQualityStatusIsBand | src/components/modals/AnnouncementModal.tsx:19-56 | The status is that of the band for bounds 10, 40, 90, 200 and 280: Optimal up to Emergency. |
| AnnouncementModal.RiskAgreesWithTimeline | src/components/modals/AnnouncementModal.tsx:19-56 | The announcement's risk matches the timeline's for 21 to 280. The two part at and below 20: "Minimal Risk" up to 10 and "Mild Risk" from 11 to 20, against "Low Risk". Above 280 they part as "Extremely High" against "Hazardous". |
| AnnouncementModal.KeptEmails | src/components/modals/AnnouncementModal.tsx:101-103 | Every kept address is a present entry that is non-blank after trimming, and every such entry is kept. |
| AnnouncementModal.EmailsOf | src/components/modals/AnnouncementModal.tsx:103 | `map(item => item.email || '')` keeps the length and maps each entry to its address or "". |
| AnnouncementModal.KeptEmailsAppend | src/components/modals/AnnouncementModal.tsx:101-103 | Filtering and mapping a concatenation gives the kept addresses of the first part followed by those of the second, so the list keeps the server's order. |
| AnnouncementModal.KeptEmailsOne | src/components/modals/AnnouncementModal.tsx:101-103 | A single entry is kept, as its own address, iff it is present and non-blank. |
| AnnouncementModal.Recipients | src/components/modals/AnnouncementModal.tsx:101-104 | The "To" field is "" iff no address is kept. |
| AnnouncementModal.RecipientsRoundTrip | src/components/modals/AnnouncementModal.tsx:104 | With no kept address the field is "". Otherwise, if no address holds a comma, splitting the field at commas gives the kept addresses back. |
| AnnouncementModal.ReportLines | src/components/modals/AnnouncementModal.tsx:122 | The report has nine lines. |
| AnnouncementModal.IntHasNoNewline | src/components/modals/AnnouncementModal.tsx:122 | A printed number holds no line break. |
| AnnouncementModal.ReportSplitsIntoLines | src/components/modals/AnnouncementModal.tsx:122 | When time, date, risk and condition hold no line break, splitting the report at line breaks gives its nine lines back. |
| AnnouncementModal.AlertCalls | src/components/modals/AnnouncementModal.tsx:132-170 | The plan is email, history, chat, getNotifs and push, in that order, each with its outcome. |
| AnnouncementModal.AlertBody | src/components/modals/AnnouncementModal.tsx:135-152 | The alert text is the message, a line break, then the air-quality report. |
| AnnouncementModal.AlertRequests | src/components/modals/AnnouncementModal.tsx:132-170 | The email goes to "To" with the subject and body message + "\n" + report. The history holds the date, time, reading, the username, "modelx21" and the message. The chat post carries that body, the sender name and role, and the chat time and date. The push goes to the fetched tokens (none on failure), titled "Air Guard Chat", with body "Admin: " + message + "\n" + report and sound "default". |
| AnnouncementModal.AttemptedCalls | src/components/modals/AnnouncementModal.tsx:129-180 | The requests made are the plan up to its first failure, and the block completes iff all five succeed. |
| AnnouncementModal.RunAlertSteps | src/components/modals/AnnouncementModal.tsx:131-170 | The awaited steps make exactly the plan through its first failure, and report success iff every step succeeded. |
| AnnouncementModal.Dialog.constructor | src/components/modals/AnnouncementModal.tsx:89-95 | Empty fields, subject "Air Quality Alert", closed and not loading. |
| AnnouncementModal.Dialog.FetchEmails | src/components/modals/AnnouncementModal.tsx:97-110 | The "To" field becomes the kept addresses joined by commas; a failure leaves it. |
| AnnouncementModal.Dialog.FetchAirQuality | src/components/modals/AnnouncementModal.tsx:112-127 | The first reading's status sets message and subject, and the report is built from it. On failure or an empty list the report becomes the failure text and message and subject are untouched. |
| AnnouncementModal.Dialog.OpenChange | src/components/modals/AnnouncementModal.tsx:183-186 | Opening stores the flag and fetches the air quality: `sendAQ` becomes the first reading of a fetched list (none when empty) and is kept on failure, and the advisory and report follow it. Closing changes nothing else. |
| AnnouncementModal.Dialog.EditSubject | src/components/modals/AnnouncementModal.tsx:205 | The subject input sets the subject. |
| AnnouncementModal.Dialog.EditMessage | src/components/modals/AnnouncementModal.tsx:213 | The message input sets the message. |
| AnnouncementModal.Dialog.SendAlert | src/components/modals/AnnouncementModal.tsx:129-180 | The log grows by the plan through its first failure. Only a complete run closes the dialog with "Sent successfully"; otherwise "Unknown error occurred.". Loading is false in every outcome. |
| DateFormat.ChatFormatDate | src/components/modals/AnnouncementModal.tsx:70-76 | `chatFormatDate` is at least seven characters: MM/DD/ then the year. |
| DateFormat.ChatFormatDateFields | src/components/GroupChat.tsx:30-36 | Slashes at positions 2 and 5, two digits for the 1-based month, two digits for the day, then `String(year)`. The month and day read back as their values. |
| DateFormat.ChatFormatDateInjective | src/components/modals/AnnouncementModal.tsx:70-76 | Different dates format differently. |
| GroupChat.OwnMessageHasOneOwner | src/components/GroupChat.tsx:127 | A message is drawn as its own for exactly one name: its sender, or no name when it has none. |
| GroupChat.IsOwn | src/components/GroupChat.tsx:127 | A message drawn as one's own has a sender exactly when the name is present. |
| GroupChat.SendDisabled | src/components/GroupChat.tsx:138 | The send button is disabled iff the message is white space only or the first load is pending. |
| GroupChat.EnabledButtonSends | src/components/GroupChat.tsx:138 | The button is enabled only for a message that gets past the handler's guard; a blank message disables it. |
| GroupChat.PushRecipients | src/components/GroupChat.tsx:82 | Every recipient is a listed token other than the sender's device token, and every such token is a recipient. |
| GroupChat.PushRecipientsAppend | src/components/GroupChat.tsx:82 | Filtering a concatenation gives the recipients of each part in turn, so the kept tokens stay in the server's order. |
| GroupChat.PushRecipientsExact | src/components/GroupChat.tsx:82 | Without the sender's token the list is kept as it is; with it, that token never remains. |
| GroupChat.SendCalls | src/components/GroupChat.tsx:72-92 | The post carries the text, the sender's name and role, and the chat time and date. Next come the user lookup by the sender's id and getNotifs. The push follows iff each of those succeeds and a token remains; it goes to the remaining tokens, titled "Air Guard Chat". |
| GroupChat.PushBody | src/components/GroupChat.tsx:89 | The push body is the sender's name ("undefined" when absent), ": ", then the message. |
| GroupChat.SentThroughFirstFailure | src/components/GroupChat.tsx:71-101 | A run that stops at its first failed step has made the plan through that step. |
| GroupChat.RunSendSteps | src/components/GroupChat.tsx:71-92 | The awaited steps make exactly the plan through its first failure, and report success iff all succeeded. |
| GroupChat.Chat.constructor | src/components/GroupChat.tsx:21-24 | No messages, an empty input, the first load pending and nothing being sent. |
| GroupChat.Chat.FetchMessages | src/components/GroupChat.tsx:48-60 | A poll replaces the messages wholesale; a failure keeps them and raises "Something went wrong...". The first-load flag clears either way. |
| GroupChat.Chat.EditMessage | src/components/GroupChat.tsx:137 | The input sets the new message. |
| GroupChat.Chat.HandleSendMessage | src/components/GroupChat.tsx:68-102 | A blank message changes nothing, and any other is sent. |
| GroupChat.Chat.Send | src/components/GroupChat.tsx:70-101 | The log grows by the plan through its first failure. Exactly the returned message is appended when the post succeeds. The input is cleared only when every step succeeded, and a failure raises a toast. |
| LoginPage.ValidateLogin | src/app/page.tsx:21-24 | Each field's error is present iff the field is empty, with its message. |
| LoginPage.LoginFeedback | src/app/page.tsx:39-80 | The page's reaction to a sign-in outcome; a redirect only ever goes to "/admin". |
| LoginPage.OnlyAdminsProceed | src/app/page.tsx:48-56 | A redirect happens iff the sign-in succeeded with role Admin. Only then does the spinner keep turning, and the alert is then off. |
| LoginPage.AlertRaised | src/app/page.tsx:52-69 | An alert is raised iff a non-admin signed in, or the server said "Student does not exists" or "Invalid id or password". Its text is one of the two messages. |
| LoginPage.ErrorMessages | src/app/page.tsx:48-79 | "Student does not exists" shows "Account do not exists. Please try again."; "Invalid id or password" and a non-admin sign-in show "Wrong account ID or password. Please try again."; any other error keeps the alert and its text as they were. The two texts differ. |
| LoginPage.Page.constructor | src/app/page.tsx:34-36 | Not loading, no alert, an empty description. |
| LoginPage.Page.HandleLogin | src/app/page.tsx:39-80 | A success stores the session through `login` for every role, then applies the feedback. A failure leaves the session and applies the feedback as well. |
| LoginPage.Page.Submit | src/app/page.tsx:132 | The schema runs first. A failing form leaves the page and every session field as they were. A passing form gets `handleLogin`'s feedback, and a successful sign-in stores the session, whatever the role. |
| AuthContext.StoreSession | src/app/context/AuthContext.tsx:94-95 | Storage holds the user and the token under "user" and "token", and every other key as it was. |
| AuthContext.ClearSession | src/app/context/AuthContext.tsx:103-104 | Both keys are removed and every other key is kept. |
| AuthContext.LogoutUndoesLogin | src/app/context/AuthContext.tsx:89-105 | Logging out after logging in leaves storage as logging out alone would, and as it started if neither key was there. |
| AuthContext.Restored | src/app/context/AuthContext.tsx:60-67 | A session is restored iff a stored user and a non-empty stored token exist. |
| AuthContext.LoginThenRestore | src/app/context/AuthContext.tsx:60-96 | After a login with a non-empty token, a reload restores exactly that user and token. |
| AuthContext.LogoutThenRestore | src/app/context/AuthContext.tsx:60-105 | After a logout nothing is restored. |
| AuthContext.RedirectFor | src/app/context/AuthContext.tsx:72 | The target is "/admin" iff the role is Admin, and "/dashboard" otherwise. |
| AuthContext.RedirectsFrom | src/app/context/AuthContext.tsx:70-71 | A restore redirects only from "/" or "/login", never from either target page. |
| AuthContext.UseAuth | src/app/context/AuthContext.tsx:36-42 | Inside a provider the hook returns its context; outside it fails with the provider message. |
| AuthContext.Session.constructor | src/app/context/AuthContext.tsx:49-53 | No user, token or pending redirect, not authenticated, no dialog, and the storage as given. |
| AuthContext.Session.CheckAuth | src/app/context/AuthContext.tsx:58-87 | Restores user and token only when a user and a non-empty token are stored. On "/" or "/login" it shows the session dialog and schedules the role's redirect. |
| AuthContext.Session.RedirectTimerFires | src/app/context/AuthContext.tsx:75-79 | The scheduled redirect closes the dialog and navigates once. |
| AuthContext.Session.SetSessionActive | src/app/context/AuthContext.tsx:109 | The dialog's `onOpenChange` sets the flag. |
| AuthContext.Session.Login | src/app/context/AuthContext.tsx:89-96 | Sets user, token and the authenticated flag, and stores both keys. |
| AuthContext.Session.Logout | src/app/context/AuthContext.tsx:98-105 | Resets the three fields and removes both keys. |
| AddUserModal.ValidateUser | src/components/modals/AddUserModal.tsx:35-40 | Errors iff the account ID is under ten UTF-16 code units, the name is empty, or a present email fails the email check. Each error has its message, the email's being "Invalid email". |
| AddUserModal.FiveEmojiAccountIdPasses | src/components/modals/AddUserModal.tsx:36 | An account ID of five emoji is five characters but ten code units, and passes the length check. |
| AddUserModal.EmptyEmailBlocks | src/components/modals/AddUserModal.tsx:38 | An email field left as "" (present but empty) blocks submission. |
| AddUserModal.PasswordFor | src/components/modals/AddUserModal.tsx:59 | The password is "@Student01" for a student and "@Admin01" for an administrator. |
| AddUserModal.PasswordsDiffer | src/components/modals/AddUserModal.tsx:59 | The two passwords differ. |
| AddUserModal.NewUserPayload | src/components/modals/AddUserModal.tsx:61-67 | The sign-up body renames the account ID and name and copies email and role. Its password is the role's. |
| AddUserModal.SendsCredentials | src/components/modals/AddUserModal.tsx:74 | Credentials are mailed iff the email is absent or non-empty (`undefined != ""` holds). |
| AddUserModal.CredentialEmailAsWritten | src/components/modals/AddUserModal.tsx:75-79 | The email goes to the form's address with subject "Your password for AirGuard App" and says the student password. |
| AddUserModal.AsWrittenMailsWrongPassword | src/components/modals/AddUserModal.tsx:78 | The credentials email as written always says "Password: @Student01", so for an administrator it does not state the password the account was created with. |
| AddUserModal.CredentialEmail | src/components/modals/AddUserModal.tsx:74-86 | The corrected email goes to the form's address and states the account's actual password. |
| AddUserModal.CredentialEmailForStudents | src/components/modals/AddUserModal.tsx:74-86 | For a student the corrected and the written email coincide. |
| AddUserModal.ErrorMessage | src/components/modals/AddUserModal.tsx:101 | The server's `message` when it is a non-empty string, and its `error` field otherwise. |
| AddUserModal.Dialog.constructor | src/components/modals/AddUserModal.tsx:45-52 | Closed, not loading, no duplicate flag, and the blank form with role Student. |
| AddUserModal.Dialog.SetOpen | src/components/modals/AddUserModal.tsx:121-123 | Opening or closing sets the flag. |
| AddUserModal.Dialog.EditForm | src/components/modals/AddUserModal.tsx:45 | The form holds what the user typed. |
| AddUserModal.Dialog.AddUser | src/components/modals/AddUserModal.tsx:56-118 | Every attempt sends the payload. A success closes the dialog and mails the credential email as written iff the email is not "". It also resets the form and refetches once. Only "User already exists." raises the duplicate flag. Loading is false at the end. |
| AddUserModal.Dialog.Submit | src/components/modals/AddUserModal.tsx:199 | The schema runs first; a failing form changes nothing else. A passing form gets every effect of `addUser` on the form as typed, for each way the sign-up ends. |
| UsersCount.CountRoles | src/components/charts/UsersCount.tsx:26-33 | Total is the list length, and admins and students are the matching filter lengths, so admins + students <= total. |
| UsersCount.Percentage | src/components/charts/UsersCount.tsx:50-56 | Zero for no users; otherwise the nearest integer to 100*count/total, with halves rounded up. |
| UsersCount.PercentageAtMost100 | src/components/charts/UsersCount.tsx:50-56 | A count within the total gives at most 100. |
| UsersCount.PercentagesAddUp | src/components/charts/UsersCount.tsx:50-56 | The two percentages add up to at most 101. |
| UsersCount.ViewOf | src/components/charts/UsersCount.tsx:87-145 | A spinner while loading, otherwise the pie iff total > 0, otherwise the empty state. |
| UsersCount.PiePercentagesInRange | src/components/charts/UsersCount.tsx:45-58 | Whenever the pie is drawn, both its percentages lie in [0, 100]. |
| UsersCount.Card.constructor | src/components/charts/UsersCount.tsx:17-20 | Zero counts and loading on. |
| UsersCount.Card.FetchUsers | src/components/charts/UsersCount.tsx:22-39 | Success sets the role counts of the list; a failure keeps the counts. Loading is false afterwards. |
| UsersCount.Card.Render | src/components/charts/UsersCount.tsx:41-43 | A refetch happens on mount and whenever the refresh value changes, and only then. |
| UsersStatus.CountStatuses | src/components/charts/UsersStatus.tsx:26-33 | Total is the list length, and ready and blocked are the matching filter lengths, so ready + blocked <= total. |
| UsersStatus.RenderStatusChart | src/components/charts/UsersStatus.tsx:61-69 | A zero count renders the number placeholder, and any other count a ring in its colour. |
| UsersStatus.ViewOf | src/components/charts/UsersStatus.tsx:117-124 | Loading first, then "No users found" iff total is 0, otherwise the two charts. |
| UsersStatus.SomeChartDrawn | src/components/charts/UsersStatus.tsx:61-124 | When every user is Ready or Blocked and there is one, at least one ring is drawn. |
| UsersStatus.Card.constructor | src/components/charts/UsersStatus.tsx:17-20 | Zero counts and loading on. |
| UsersStatus.Card.FetchUsers | src/components/charts/UsersStatus.tsx:22-39 | Success sets the status counts; a failure keeps them. Loading is false afterwards. |
| UsersStatus.Card.Render | src/components/charts/UsersStatus.tsx:41-43 | A refetch happens on mount and whenever the refresh value changes, and only then. |
| DataTable.ValidateEdit | src/app/admin/accounts/data-table.tsx:65-71 | The edit form passes iff the account ID has at least 10 UTF-16 code units, the name is non-empty, the role is Admin or Student and the status Ready or Blocked. Each error comes with its message. |
| DataTable.FormFromUser | src/app/admin/accounts/data-table.tsx:173-181 | Selecting a user loads its account ID, name, email, role and status into the form. |
| DataTable.EditPayload | src/app/admin/accounts/data-table.tsx:185 | accountId→account_id and name→username; email, role and status are copied. |
| DataTable.UnchangedEditResends | src/app/admin/accounts/data-table.tsx:173-185 | Saving an untouched form resends the user's own values. Such a form passes iff the record itself meets the schema. |
| DataTable.ImportExtensions | src/app/admin/accounts/data-table.tsx:108 | Names ending in .xlsx, .xls or .csv are accepted. An accepted name ends in x, s or v, so upper-case extensions and trailing suffixes are refused. |
| DataTable.AcceptedImport | src/app/admin/accounts/data-table.tsx:108 | An accepted name has a '.' four or five characters from its end. |
| DataTable.UploadToast | src/app/admin/accounts/data-table.tsx:129-138 | Success shows the server's message or "Excel file imported successfully!". An axios failure shows the server's message or "Failed to import Excel file"; any other failure shows the latter. |
| DataTable.OrElse | src/app/admin/accounts/data-table.tsx:129 | The first string when it is present and non-empty, the fallback otherwise. |
| DataTable.SelectedUsers | src/app/admin/accounts/data-table.tsx:200 | The selected rows are users of the table. Every selected index within the table is among them, and none are selected when the selection is empty. |
| DataTable.SelectedIndexes | src/app/admin/accounts/data-table.tsx:200 | The selected row indexes within the table, each exactly once, in increasing order. |
| DataTable.SelectedUsersInOrder | src/app/admin/accounts/data-table.tsx:200 | The selected rows are exactly the users at the selected indexes, in table order. |
| DataTable.DeletedToast | src/app/admin/accounts/data-table.tsx:205 | An info toast "(n) User/s has been deleted." whose number reads back as the count. |
| DataTable.SendDeletes | src/app/admin/accounts/data-table.tsx:200-204 | The loop sends deletes for the selected rows in order through the first failure, and succeeds iff none failed. |
| DataTable.Table.constructor | src/app/admin/accounts/data-table.tsx:79-98 | Refresh 0, no users, the table loading, nothing selected and nothing open or uploading. |
| DataTable.Table.FetchUsers | src/app/admin/accounts/data-table.tsx:147-157 | Success sets the users to the server list reversed, a permutation whose reverse is the list, and adds exactly 1 to refresh. A failure keeps both. The table is no longer loading either way. |
| DataTable.Table.SetRowSelection | src/app/admin/accounts/data-table.tsx:360 | The delete control is shown iff the selection holds a row. |
| DataTable.Table.DeleteControlShown | src/app/admin/accounts/data-table.tsx:360 | The delete control is shown iff some row is selected. |
| DataTable.Table.SetDeleteModalOpen | src/app/admin/accounts/data-table.tsx:365 | The delete dialog's flag. |
| DataTable.Table.SetOpenEditDialog | src/app/admin/accounts/data-table.tsx:518 | The edit dialog's `onOpenChange` sets its flag; the selection and the form are kept. |
| DataTable.Table.SetOpenViewDialog | src/app/admin/accounts/data-table.tsx:625 | The details dialog's `onOpenChange` sets its flag. |
| DataTable.Table.DeleteUser | src/app/admin/accounts/data-table.tsx:197-215 | Deletes are sent in order through the first failure. Only if all succeed is the selection cleared (hiding the control), loading reset and a refetch made. On failure the dialog closes, loading stays on and the selection is kept. |
| DataTable.Table.SelectForEdit | src/app/admin/accounts/data-table.tsx:163-181 | Opens the edit dialog with the user selected. The form is loaded from the user when the selection changes, and kept as typed when the same user is picked again. |
| DataTable.Table.ViewDetails | src/app/admin/accounts/data-table.tsx:168-181 | Opens the details dialog with the user selected. The form is loaded as for editing when the selection changes, and otherwise kept. |
| DataTable.Table.EditFields | src/app/admin/accounts/data-table.tsx:536-597 | The edit inputs set the form to what was typed or picked. |
| DataTable.Table.EditUser | src/app/admin/accounts/data-table.tsx:183-195 | Sends the payload for the selected user's id. Success closes the dialog, clears loading and refetches. A failure keeps the dialog open and loading on. |
| DataTable.Table.SubmitEdit | src/app/admin/accounts/data-table.tsx:610 | The schema runs first; a failing form sends nothing and requests no refetch. A passing form sends its payload to the selected user's id, with the effects of `editUser` on success and on failure. |
| DataTable.Table.HandleFileChange | src/app/admin/accounts/data-table.tsx:104-145 | No file does nothing. A refused name raises the extension error and uploads nothing, leaving the uploading flag alone. Otherwise the upload's outcome decides the toast and refetch, and the flag and input are cleared in every outcome. |
| DataTable.Table.ImportDisabled | src/app/admin/accounts/data-table.tsx:380 | The Import button is disabled iff an upload is running, so it is enabled again after every upload. |
| Seqs.Filter | src/components/charts/UsersCount.tsx:28-29 | `filter` keeps exactly the satisfying elements. |
| Seqs.FilterDisjointCounts | src/components/charts/UsersCount.tsx:28-33 | For two exclusive tests, the two filter lengths add up to at most the list length. |
| Seqs.ReverseReverse | src/app/admin/accounts/data-table.tsx:150 | Reversing twice gives the list back. |
| Seqs.ThroughFirstFailurePrefix | src/app/admin/accounts/data-table.tsx:201-204 | A run stopped by its n-th step failing, or completed at n, has made exactly the first n steps. |
| Strings.Trim | src/components/GroupChat.tsx:69 | `trim()` is empty iff the text is white space only, and otherwise starts and ends with a non-space. |
| Strings.Utf16Length | src/components/modals/AddUserModal.tsx:36 | `.length` counts code units: between the number of characters and twice it, and equal to it iff no character is astral. |
| Strings.AstralCountsTwice | src/components/modals/AddUserModal.tsx:36 | A text of astral characters only has twice as many code units as characters. |
| Strings.SplitJoin | src/components/modals/AnnouncementModal.tsx:104 | Splitting a join of a non-empty list whose items lack the separator gives the list back. |
| Strings.JoinStartsWithFirst | src/components/modals/AnnouncementModal.tsx:104 | A join is "" iff the list is empty, and otherwise begins with the first item. |
| Strings.NatToStringValue | src/components/modals/AnnouncementModal.tsx:72-73 | `String(n)` reads back as n. |
| Strings.TwoDigits | src/components/modals/AnnouncementModal.tsx:72-73 | `padStart(2, '0')` of a number below 100 is two digits that read back as the number. |

## Left out

- HTTP: each request is an outcome parameter. The server, the payload decoding (`response.data...`) and the shape of errors other than those the handlers branch on are not modelled.
- Timers: the polling intervals (1 s, 2 s, 36 s) and React's effect scheduling are not modelled. Each tick or effect run is one call of the corresponding method, on the state the registered closure reads: the live card's poll is `PollTick`, which runs the first render's `fetchData`. The 3 s redirect timer is an explicit `RedirectTimerFires` step.
- Interleaving: in-flight responses are not interleaved. Each handler runs to completion in one method, and a handler's un-awaited `fetchUsers()` is recorded as a request count.
- Dates and locale formatting: the clock values handlers read are parameters. These are `toLocaleTimeString`, `toLocaleString`, `toISOString` and the `Date` getters used by `chatFormatDate`. Time zones and the daylight-saving behaviour of `setDate` are not modelled, and the chart windows are fixed lengths in milliseconds.
- Timeline sort key: `new Date(date + " " + timestamp)` becomes an abstract integer key `instant`. The sort is specified by order and permutation only; stability is not.
- AddUserModal.ValidateUser: zod's `.email()` check is an opaque predicate parameter.
- Strings: a string is a sequence of Unicode scalar values, so a JavaScript string holding a lone surrogate cannot be represented. Lengths the schemas compare are counted in UTF-16 code units by `Strings.Utf16Length`.
- Numbers: readings are integers. Floating point and `toLocaleString` of the AQI figure are not modelled.
- UsersCount.Percentage: `Math.round` of the floating-point quotient is modelled as exact rounding half up on non-negative integers. Floating-point error at an exact half is not modelled.
- react-table: sorting, column filters, pagination and visibility are not modelled. A selection is a set of row indexes into the loaded list, and the selected rows are taken in list order.
- JSX: markup, recharts, Tailwind classes, skeleton visuals and scrolling are not modelled beyond the branch conditions above. This includes the chat's Enter-key handler, which calls the same send handler.
- AuthContext.Restored: a stored user is either a user record or plain text. `JSON.parse` throwing on malformed storage is not modelled.
- The router: a redirect is recorded as a target path.
- DataTable.Table.SelectForEdit, DataTable.Table.ViewDetails: the selection effect runs when `selectedUser` changes by reference. The model compares users by value, so picking a refetched but identical record again does not reload the form.
- The timeline's `onChange` callback: a callback into the parent is not modelled.
- `handleImportClick`: it only clicks the hidden input.
- Other files: the layout pages (src/app/admin/page.tsx, src/app/admin/accounts/page.tsx, src/app/admin/chat/page.tsx), the sidebar and team switcher, and the column definitions of columns.tsx are not modelled. Only their `User` record type is used.

## Findings

| source | as written | input that shows it | evidently intended | confidence | as-written member | corrected member |
|---|---|---|---|---|---|---|
| src/components/modals/AddUserModal.tsx:78 | The credentials email always says "Password: @Student01". | Creating a user with role Admin and email "a@b.co": the account gets "@Admin01" but the email says "@Student01". | The email states the password the account was created with ("Password: " + password). | high; not executed | AddUserModal.AsWrittenMailsWrongPassword | AddUserModal.CredentialEmail |
| src/components/charts/PollutantsDisplay.tsx:71-72 | The 2 s poll runs the first render's `fetchData`, whose `readings` is always null, so `setPreviousReadings` never runs from a poll. The arrows stay flat until the first Refresh, and afterwards compare against the reading current at the last Refresh. | Polls return [r1] then [r2] with a higher PM 2.5 in r2, and nobody presses Refresh: the PM 2.5 arrow stays flat. | Each poll compares the new reading with the one before it. | medium; not executed | PollutantsDisplay.PollsKeepTrendsFlat | PollutantsDisplay.RefreshesShowTrend |

`AddUserModal.Dialog.AddUser` mails `AddUserModal.CredentialEmailAsWritten`, as the handler does. `AddUserModal.CredentialEmail` is the intended email, and `AddUserModal.CredentialEmailForStudents` shows the two agree for every student account.

`PollutantsDisplay.Display.PollTick` models the poll as it runs. `PollutantsDisplay.Display.Refresh` runs `fetchData` on the reading in hand, which is what every poll evidently should do. `PollutantsDisplay.RefreshesShowTrend` proves that doing so shows the direction of each change.
