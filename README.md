# Sensor vitals and admin dashboard: a Dafny model

This project models two parts of a sensor back end: the vitals engine and the admin dashboard.

**The vitals engine** (`server/vitals.js`) does four things:
- A periodic heartbeat sweep moves each location's `sentVitalsAlertAt` flag through disconnection, rate-limited reminder and reconnection.
- A low-battery throttler runs inside a transaction.
- Particle heartbeat webhooks are ingested: the payload is checked, the location found, the door-last-seen time computed and index-encoded state transitions decoded.
- Every alert fans out to all responder and heartbeat numbers of the location's client.

**The admin dashboard** (`server/dashboard.js`) contributes:
- the "time since" string;
- the alert-type display name;
- the session check;
- the decision ladders of the four forms that create and edit clients and locations.

Files:

- `option.dfy`: the `Option` type.
- `text.dfy`: JavaScript's `trim`, `split(',')` and integer rendering, with their laws.
- `records.dfy`: the `Location` record (fields of `server/Location.js`), `Client`, the sensor vital row and the state/reason tables.
- `vitals.dfy`: the specification functions of the engine, and the class `Store`.
  - `Store` has the locations table, the vitals rows, the outbox of sent notices and the log.
  - Its methods follow the source's step-by-step form: a `for` loop over the locations, early exits, and writes to the table.
  - Each method is proved against a specification function (`SweptTable`, `SweepNotices`, `SweepLogs`, `LowBatteryEffect`).
- `vitals_properties.dfy`: what those specification functions promise.
- `dashboard.dfy`: the dashboard logic.
  - The time string is built step by step in a method and proved equal to a closed-form decomposition.
  - The submit handlers are read-only methods: their `for` scans and early returns are kept. Every status they answer, and the database write with its redirect, is stated as an if-and-only-if of the request and the tables.

**How time, transactions and database calls are modelled:**
- Time is integer milliseconds, and thresholds are whole seconds.
- The database clock and the environment thresholds are parameters. So are the failures that a `try`/`catch` handles: a per-location `Sweep` fault, a `TxFault` in the low-battery transaction, and a `ReadFault` in the heartbeat webhook (the core-id lookup or the clock read throws), plus the failing vitals write.
- A `Sweep` value carries the per-location faults of a sweep. A `TxFault` says which step of the low-battery transaction throws, and whether the rollback itself succeeds.
- A transaction is a snapshot of the locations table, restored on rollback.

## Model

| member | source | states |
|---|---|---|
| Vitals.FanOut | server/vitals.js:28-34 | one notice per recipient, in order, each from the client's from-number with the same message |
| Vitals.Store.SendSingleAlert | server/vitals.js:25-35 | the outbox grows by one notice per responder number and then one per heartbeat number of the location's client; nothing is sent for an unknown location; table and log unchanged |
| Vitals.HeartbeatExceeded | server/vitals.js:15-19 | the delay in seconds exceeds the threshold exactly when the millisecond delay is strictly greater than threshold*1000 |
| Vitals.MostRecentVital | server/vitals.js:86 | absent exactly when the location has no vitals row; otherwise the last row of that location |
| Vitals.StateMachineLocations | server/vitals.js:79 | exactly the locations that run the firmware state machine, taken from the table |
| Vitals.SweepStep | server/vitals.js:80-117 | a location that sends nothing keeps its `sentVitalsAlertAt` |
| Vitals.Store.CheckLocation | server/vitals.js:81-117 | one loop iteration: the table, outbox and log change exactly as `SweepStep` prescribes for that location |
| Vitals.Store.CheckHeartbeat | server/vitals.js:72-119 | after the sweep the table is `SweptTable` of the old table, and the outbox and log grew by the notices and log entries of every state-machine location in order; ids stay unique |
| Vitals.SweepIteration | server/vitals.js:80-118 | each loop step extends the swept prefix by one location, whose row is still untouched when it is reached |
| Vitals.SweepComplete | server/vitals.js:80-118 | sweeping every state-machine location one by one gives `SweptTable`, and ids stay unique |
| Vitals.SweptTable | server/vitals.js:80-118 | the table keeps its length and every row except its `sentVitalsAlertAt`; rows that do not run the state machine, and inactive locations or clients, are unchanged |
| Vitals.SweepFinished | server/vitals.js:80-118 | the state after the last iteration is the whole sweep's table, notices and logs |
| Vitals.VitalsAlertWrite | server/vitals.js:103-111 | writing `sentVitalsAlertAt` changes that location's flag only and keeps ids unique |
| Vitals.LowBatteryAlertWrite | server/vitals.js:156 | writing `sentLowBatteryAlertAt` changes that location's field only and keeps ids unique |
| Vitals.Store.Rollback | server/vitals.js:160-167 | the table is restored to the snapshot and exactly one entry says whether the rollback itself failed; sent notices stay |
| Vitals.Store.SendLowBatteryAlert | server/vitals.js:133-169 | table, outbox and log change exactly as `LowBatteryEffect` prescribes for the given fault |
| Vitals.LowBatteryDue | server/vitals.js:142-146 | a notice is due only for an active location of an active client; with no earlier notice it is due exactly then |
| Vitals.LowBatteryError | server/vitals.js:133-169 | a missing location is always an error; without a fault the only error is a missing location; a step failure names the injected step; a failing COMMIT always fails the transaction |
| Vitals.LowBatteryEffect | server/vitals.js:133-169 | any error leaves the table as it was; a notice goes out only when the location exists and the notice is due |
| VitalsProperties.LowBatteryCommits | server/vitals.js:142-159 | without a fault: when active and (never alerted or at least timeout*1000 ms since) the client is notified and the time stamped; otherwise nothing changes but the commit |
| VitalsProperties.LowBatteryThrottle | server/vitals.js:145 | after an alert at t1, a second report at t2 alerts again exactly when t2 - t1 >= timeout*1000 (non-strict) |
| VitalsProperties.LowBatteryRollsBack | server/vitals.js:160-167 | any failure restores the table and ends the log with the rollback or the rollback failure |
| VitalsProperties.LowBatteryErrorCases | server/vitals.js:139-159 | the transaction fails exactly when the location is missing or a fault hits a step that is actually reached |
| VitalsProperties.SentNoticesSurviveRollback | server/vitals.js:148-162 | a failure after sending leaves the notices sent while the stamp is rolled back |
| VitalsProperties.DecideCases | server/vitals.js:89-113 | disconnect iff down with no outstanding alert (with which sensors are down); remind iff down, outstanding and older than the reminder threshold; reconnect iff up with an outstanding alert, carrying the reset reason |
| Vitals.Decide | server/vitals.js:89-113 | only a monitored location with a vitals row is acted on; a disconnection only when no alert is outstanding and at least one sensor is down; a reminder only when an alert is outstanding and older than the reminder threshold; a reconnection only when an alert is outstanding, carrying the latest row's reset reason |
| VitalsProperties.ThresholdIsStrict | server/vitals.js:92-95 | a delay exactly at both thresholds is not a disconnection; one millisecond later it is |
| VitalsProperties.ReminderWindow | server/vitals.js:105 | a reminder is not sent exactly at the reminder threshold and is sent one millisecond after it |
| VitalsProperties.SkippedLocationUntouched | server/vitals.js:81-88 | an inactive location or client, or a location with no vitals row, is skipped with no write, no notice and no log |
| VitalsProperties.FaultStaysLocal | server/vitals.js:85-117 | a failure at another location does not change this location's step; a failed read logs one error and changes nothing |
| VitalsProperties.FlagTracksSensor | server/vitals.js:95-113 | after a fault-free step the flag is set exactly when a sensor is down |
| VitalsProperties.DisconnectionNotifiesEveryone | server/vitals.js:96-104 | a first disconnection stamps the flag with the sweep time and sends exactly one initial message to each responder and heartbeat number |
| VitalsProperties.ReminderRateLimited | server/vitals.js:105-108 | with an outstanding alert a reminder (and new stamp) happens iff more than the reminder threshold has passed; otherwise nothing |
| VitalsProperties.ReconnectionClearsFlag | server/vitals.js:109-113 | an outstanding alert with healthy sensors is cleared with one reconnection message and log; with no alert nothing happens |
| VitalsProperties.SweptRowSettled | server/vitals.js:95-113 | a swept row calls for no further action in a fault-free sweep at the same time |
| VitalsProperties.SweptRows | server/vitals.js:80-118 | the swept rows of the state-machine locations, in order |
| VitalsProperties.StateMachineLocationsOfSwept | server/vitals.js:79 | sweeping keeps the set and order of state-machine locations |
| VitalsProperties.SettledRowsQuiet | server/vitals.js:80-118 | sweeping swept rows sends nothing and logs nothing |
| VitalsProperties.SweepIdempotent | server/vitals.js:72-119 | a second fault-free sweep at the same time changes nothing, sends nothing and logs nothing |
| Vitals.StateAt | server/vitals.js:122-125 | index 0..3 names idle, initial_timer, duration_timer, stillness_timer; any other index is undefined |
| Vitals.ReasonAt | server/vitals.js:123-126 | index 0..5 names the six reasons; any other index is undefined |
| Vitals.ConvertStateArrayToObject | server/vitals.js:121-130 | time passes through unchanged; state and reason are defined exactly for indices in range |
| Vitals.DecodeStates | server/vitals.js:194 | the decoded list has the same length and order, element by element |
| Vitals.DoorLastSeenAt | server/vitals.js:191-192 | door-last-seen is the database time minus the reported milliseconds |
| Vitals.LocationByCoreId | server/vitals.js:179 | a found location is in the table with that core id; absent only when no location has it |
| Vitals.Store.HandleHeartbeat | server/vitals.js:173-222 | every path answers 200; a bad request, an unknown core id, a throwing lookup or clock read, or a parse error changes no data; otherwise the low-battery step runs before the vitals row is appended, and a failed row write logs an error |
| Dashboard.GenerateCalculatedTimeDifferenceString | server/dashboard.js:26-65 | the string built step by step is the rendering of the closed-form days/hours/minutes(/seconds) decomposition |
| Dashboard.DecomposeSteps | server/dashboard.js:38-57 | the source's conditional divisions and remainders give exactly the closed-form counts, and seconds appear iff days + hours = 0 |
| Dashboard.DecomposeReconstructs | server/dashboard.js:36-57 | for non-negative time hours < 24, minutes < 60, seconds < 60, and the counts add back to the elapsed whole seconds (whole minutes when seconds are omitted) |
| Dashboard.DecomposeNegative | server/dashboard.js:36-57 | a negative elapsed time shows zero days, hours and minutes and a second count between -60 and 0; within a minute before the reference time, that count is the floor of the elapsed seconds |
| Dashboard.Decompose | server/dashboard.js:36-57 | seconds are shown exactly when days and hours are both zero; for a non-negative elapsed time days are non-negative, hours below 24, minutes and seconds below 60 |
| Dashboard.Render | server/dashboard.js:42-62 | the rendered text always ends with " ago" |
| Dashboard.DayHourRemainder | server/dashboard.js:40-46 | the remainder by the hour within a day is the remainder by the hour of the whole, and fewer than 24 hours remain |
| Dashboard.HourMinuteRemainder | server/dashboard.js:46-57 | the remainder by the minute within an hour is the remainder by the minute of the whole, and fewer than 60 minutes remain |
| Dashboard.JsRemainder | server/dashboard.js:40-56 | JavaScript's `%`: equal to the Euclidean remainder for a non-negative dividend; for a negative one, the remainder in (-b, 0] of the quotient truncated toward zero |
| Dashboard.RenderEnding | server/dashboard.js:42-62 | the string always ends with " ago", and with "second(s) ago" exactly when seconds are shown |
| Dashboard.SecondsShownWithinAnHour | server/dashboard.js:55-62 | the time string ends in seconds exactly when there are no days and no hours |
| Dashboard.EndingWithSeconds | server/dashboard.js:55-62 | with seconds shown the string ends with "second ago" for one second and "seconds ago" otherwise |
| Dashboard.EndingWithoutSeconds | server/dashboard.js:53-62 | without seconds the string ends with the minute unit, never a seconds unit |
| Dashboard.UnitWordSingular | server/dashboard.js:42-59 | a unit uses the singular word exactly when its count is 1 |
| Dashboard.GetAlertTypeDisplayName | server/dashboard.js:67-78 | "Duration" exactly for SENSOR_DURATION, "Stillness" exactly for SENSOR_STILLNESS, "Unknown" exactly otherwise |
| Dashboard.ClientFormValid | server/dashboard.js:340-343 | valid exactly when display name and from-number are present and not blank, and either the responder phone or both the API key and the push id are |
| Dashboard.SessionChecker | server/dashboard.js:109-115 | the request proceeds exactly when both a non-empty session user and the `user_sid` cookie are present; otherwise redirect to login |
| Dashboard.Field | server/dashboard.js:340-342 | a sanitised field is empty exactly when missing or whitespace-only |
| Dashboard.NullIfBlank | server/dashboard.js:367-369 | an optional client field is null exactly when missing or blank, otherwise its value as received |
| Dashboard.FindDuplicateClient | server/dashboard.js:404-410 | the scan finds a clash exactly when another client (not the edited one) has the display name |
| Dashboard.SubmitNewClient | server/dashboard.js:345-383 | 401 iff no session; 400 iff session but invalid form; 409 iff valid but the name exists; the create and the redirect to the new id happen iff there is a session, the form is valid and the name is free; the create carries nulls for blank optional fields; no other status |
| Dashboard.SubmitEditClient | server/dashboard.js:390-428 | as for a new client, except that the client's own id never clashes: the update of the route id and its redirect happen iff there is a session, the form is valid and no other client has the name; no other status |
| Dashboard.EditKeepsOwnName | server/dashboard.js:404-410 | with unique ids, keeping a client's own name clashes exactly when another client has it |
| Dashboard.ClientWithId | server/dashboard.js:464-470 | the client found has that id; null exactly when no client has it |
| Dashboard.SubmitNewLocation | server/dashboard.js:443-492 | 401 iff no session; 400 iff a required field is blank or the client is unknown; 409 iff the location id exists; the create and its redirect happen iff there is a session, all fields are filled, the id is new and the client exists; no other status |
| Dashboard.SubmitEditLocation | server/dashboard.js:515-566 | 401 iff no session; 400 iff a required field is blank or the client is unknown; the update of the route's location and its redirect happen iff there is a session, all fields are filled and the client exists; no other status |
| Dashboard.PhoneList | server/dashboard.js:541-542 | one entry per comma-separated part, each the trimmed part, none containing a comma |
| Dashboard.PhoneListTrimmed | server/dashboard.js:541-542 | no listed phone number starts or ends with whitespace |
| Dashboard.EditFlagsExact | server/dashboard.js:550-551 | `isActive` and `firmwareStateMachine` are true exactly when the (trimmed) field is "true" |
| Text.Trim | server/dashboard.js:340-342 | the result has no whitespace at either end and is empty exactly for a blank input |
| Text.TrimSlice | server/dashboard.js:340-341 | trimming keeps a contiguous slice with only whitespace cut off around it |
| Text.TrimIdempotent | server/dashboard.js:340-341 | trimming twice is trimming once |
| Text.Split | server/dashboard.js:541-542 | splitting never yields an empty list and no part contains the separator |
| Text.JoinSplit | server/dashboard.js:541-542 | joining the parts with the separator gives back the input |
| Text.NatToString | server/dashboard.js:42 | a count renders as decimal digits with no leading zero |
| Text.ParseNatString | server/dashboard.js:42 | reading back a rendered count gives the count |
| Text.IntToString | server/dashboard.js:59 | a rendered integer is never empty and starts with '-' exactly when negative |
| Text.IntToStringDigits | server/dashboard.js:59 | after the optional '-', the rendering is decimal digits that read back as the magnitude of the integer, so a negative second count shows its digits |

## Left out

- **Heartbeat sweep:** `db.getActiveFirmwareStateMachineLocations` is modelled as the state-machine locations of the table. Its SQL is not part of this model, and the sweep re-checks `isActive` itself.
- **Location lookup by core id:** it is assumed to match the radar core id, because `db.getLocationFromParticleCoreID` is not part of this model.
- **The `db` module, the alert dispatcher, i18next message text, Sentry and console logging:**
  - Database calls are operations on the in-memory `Store`.
  - Messages are a datatype of kinds carrying their parameters.
  - Log lines are a datatype of entries.
- **Unawaited sends:** sends that the source does not await (`forEach(async …)` and the unawaited disconnection, reminder and reconnection messages) are modelled as sequential outbox appends in order. Their interleaving, and the unhandled rejection when `getLocationData` returns null inside `sendSingleAlert`, are not modelled. An unknown location sends nothing.
- **The database's `NOW()`:** it is modelled as the time read at the start of the sweep or request. Writes stamp `sentVitalsAlertAt`/`sentLowBatteryAlertAt` with that time, not a later clock reading. The low-battery step of a heartbeat reuses the webhook's clock reading instead of reading the clock again as `sendLowBatteryAlert` does.
- **Vitals row timestamp:** the row's `createdAt` is modelled as `currentDbTime`.
- **`differenceInSeconds`:** luxon's floating-point seconds are modelled as exact rationals (`real`). `HeartbeatExceeded` proves that this equals the millisecond comparison, and the rest of the model uses the millisecond form.
- **`JSON.parse` of the heartbeat data:** it is a parameter that is either a decoded payload or a parse failure. Out-of-range state indices decode to undefined (`None`), as JavaScript's array lookup gives.
- **Sweep-level reads:** in the heartbeat sweep, the threshold settings, `db.getCurrentTime()` and `db.getActiveFirmwareStateMachineLocations()` run outside the per-location `try`. They are assumed to succeed. A throw there would abandon the whole sweep before any location is checked.
- **Low-battery clock and timeout reads:** a throw from `db.getCurrentTime()` or from reading the timeout setting, before the transaction begins, is modelled by `FailsAt(BeginTransaction)`. The effect is the same (nothing sent, nothing written, a rollback attempt logged), and only the logged cause differs.
- **Transactions:** a transaction is a snapshot of the locations table that a rollback restores. Locking and isolation between concurrent requests are not modelled.
- **Concurrent sweeps and webhooks:** they are not modelled; each operation runs alone.
- **Dashboard.GenerateCalculatedTimeDifferenceString:** it works on integer milliseconds where the source divides by 1000 into floating-point seconds.
  - The counts agree because each unit is a whole number of seconds.
  - The seconds count is `Math.floor` of the remaining (possibly negative) seconds, which Dafny's division with a positive divisor gives.
  - Floating-point rounding is not modelled.
- **Dashboard.NullIfBlank:** an optional client field is passed on as received. It is not trimmed, because it is unclear whether the trim sanitizer inside `oneOf` rewrites the body.
- **Dashboard.SubmitNewLocation:** it validates all eight fields the code lists. Integration tests that post fewer fields are not reflected.
- **500 responses:** the 500 responses of the dashboard handlers (a thrown database call) are not modelled, and the database reads are total.
- **Dashboard rendering, login, CSV export and template loading:** these are user interface and I/O. This includes the render handlers that set `location.sessionStart` in place.
- **The siren escalation handler:** its source is not part of this model.
