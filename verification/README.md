# Mapty workout tracker — Dafny model

This project models the core of the Mapty activity tracker. A user clicks a point on a map, fills in a
form, and the app records a workout at that point. A workout is a run or a ride. `script.js` holds all
the logic, and four parts are modelled here:

- **Workouts** (`workouts.dfy`). `Workout` has two variants, `Running | Cycling`. Both share `id`,
  `date`, `distance` (km), `duration` (min) and `coords`. A run stores its cadence and its pace,
  which is `duration / distance`. A ride stores its elevation gain and its speed, which is
  `distance / (duration / 60)`. Numbers are Dafny `real`s, so these quotients are exact.
- **Validation** (`validation.dfy`). `validInputs` and `allPositiveInput` become functions over a
  sequence of parsed fields. A parsed field is an `Option<real>`, and `None` stands for NaN or
  ±Infinity. A run needs distance, duration and cadence all finite and > 0. A ride needs all three
  fields finite, but only distance and duration > 0.
- **Session** (`session.dfy`). The state holds the pending click (`#mapEvent`) and the workout list
  (`#workouts`). `ShowForm` and `Submit` are pure transitions over that state. `Run` folds them over a
  sequence of user events.
- **Description** (`description.dfy`). This is the `_setDescription` title, for example
  `"Running on July 3 "`. `ParseLabel` reads a title back into its parts. Two lemmas prove that the
  two directions are inverse to each other.

`wrappers.dfy` defines `Option`. `scenarios.dfy` (module `Scenarios`) states concrete sessions and
labels that follow from the general model.

Behaviour of script.js that the model keeps:
- A submission does not clear the pending click. `#mapEvent` is never reset, so a later submission
  without a new click reuses the same coordinate. `_hideForm` clears the inputs and hides
  the form but leaves `#mapEvent` in place.
- If the type selector holds neither `"running"` nor `"cycling"`, no check runs. The initial value
  `[]` is still pushed, and the model writes it as `Entry.Placeholder`.
- If a submission arrives before any click, `_newWokout` throws when it reads `#mapEvent.latlng`, before
  anything changes. `Submit` therefore requires a pending click. In an event trace, `Step` leaves the
  state unchanged for that case.
- The title prints `getDay()`, the day of the week from 0 to 6, not the day of the month. The model
  keeps this.
- The title is not stored. The constructors compute it and throw the result away, and rendering calls
  `_setDescription` again. `Describe(w)` computes it from the workout.

The clock is a parameter. `Clock.now` stands for `Date.now()`, which becomes the id. `Clock.date`
stands for the month and weekday of `new Date()`. The clicked coordinate and the parsed form are
parameters too.

## Model

| member | source | states |
|---|---|---|
| Workouts.CalcPace | script.js:37-40 | pace times distance gives back the duration; for positive distance and duration the pace is positive |
| Workouts.CalcSpeed | script.js:50-53 | speed times duration gives back distance times 60; for positive distance and duration the speed is positive |
| Workouts.NewRunning | script.js:29-36 | a `Running` workout that keeps the given id, date, coordinates, distance, duration and cadence, and whose stored pace solves pace * distance == duration |
| Workouts.NewCycling | script.js:42-49 | a `Cycling` workout that keeps the given id, date, coordinates, distance, duration and elevation gain, and whose stored speed solves speed * duration == distance * 60 |
| Workouts.RecomputeAgrees | script.js:37-53 | recomputing pace or speed from a stored well-formed workout returns the stored value, and that value is positive, so recomputing is idempotent |
| Workouts.NewWorkoutsWellFormed | script.js:29-53 | the constructors, given positive distance and duration (and a positive cadence for a run), build well-formed workouts whose stored metric is the exact quotient |
| Description.Upper | script.js:24 | `toUpperCase` on one character maps a lower-case ASCII letter to its capital and leaves every other character alone |
| Description.Capitalize | script.js:24 | only the first character changes, to its upper case; the rest of the type string is copied unchanged and the length is kept |
| Description.DigitChar | script.js:26 | a weekday prints as the one decimal digit whose value it is |
| Description.Label | script.js:20-27 | the title is the capitalised type, " on ", the month name from the 12-entry table, a space, the weekday digit and a trailing space; the month lookup is always in bounds |
| Description.Describe | script.js:20-27 | the title of a stored workout, as rendered in its list entry and popup, parses back to exactly the workout's kind, creation month and weekday, and ends in a space |
| Description.MonthNamesDistinct | script.js:22 | no two entries of the month table are equal |
| Description.KindPrefixes | script.js:24 | the two type names capitalise to "Running" and "Cycling" |
| Description.ParseLabelOfLabel | script.js:20-27 | a title parses back to the kind, month and weekday it was built from |
| Description.LabelOfParseLabel | script.js:20-27 | every string that parses is exactly the title of what it parses to |
| Description.DescribeInjective | script.js:20-27 | two workouts get the same title if and only if they agree on kind, month and weekday |
| Validation.ValidInputs | script.js:116-117 | `validInputs` holds exactly when every input is finite |
| Validation.AllPositive | script.js:120 | `allPositiveInput` holds exactly when every input is a number greater than zero |
| Validation.RunningGuardExact | script.js:123-129 | the running guard (`RunningGuard`, the `if` condition as written) passes if and only if distance, duration and cadence are all finite and strictly positive |
| Validation.CyclingGuardExact | script.js:135-141 | the cycling guard (`CyclingGuard`, the `if` condition as written) passes if and only if all three fields are finite and distance and duration are strictly positive |
| Validation.GuardsAsymmetric | script.js:125-141 | a finite zero or negative third field passes the cycling guard but fails the running guard |
| Session.ShowForm | script.js:91-95 | a click makes its coordinate the pending one, replacing any earlier click, and leaves the workout list alone |
| Session.Submit | script.js:106-147 | a rejection happens exactly for the invalid running or cycling forms; it raises the alert and changes nothing. An acceptance keeps the pending click, appends exactly one entry at the end, keeps all earlier entries in order, and records the form's values at the pending coordinate with the clock's id and date (or the placeholder for another type). A recorded workout is well formed |
| Session.Step | script.js:89-109 | a map click makes its coordinate pending and leaves the list alone; a submission with no click yet leaves the state exactly as it was (the read of `#mapEvent.latlng` throws first); any other submission is `Submit` |
| Session.RunSnoc | script.js:89-147 | handling one more event after a session is the same as handling it at the end of the event sequence |
| Session.RunAppendOnly | script.js:59-147 | over any sequence of clicks and submissions the list only grows at its end; earlier entries never change or move |
| Session.RunPendingIsLastClick | script.js:91-92 | after any sequence of events the pending coordinate is the last click's, or the starting one if there was no click |
| Session.RunKeepsWellFormed | script.js:106-147 | every workout a session records has positive distance and duration, a positive cadence for a run, and the exact pace or speed |
| Scenarios.JulyLabel | script.js:20-27 | a run from July on weekday 3 is titled exactly "Running on July 3 ", trailing space included |
| Scenarios.RunningRejections | script.js:123-129 | a running form with distance 0 or -5, a non-finite duration, or cadence 0 is rejected |
| Scenarios.RecordOneRun | script.js:106-147 | a click, then a 5.2 km / 30 min / cadence 180 run, records exactly that run at the click with pace 30 / 5.2 |
| Scenarios.SubmissionsInOrder | script.js:147 | three accepted submissions are listed in the order they were made, after the earlier entries, and the three new entries record the first, second and third form respectively |
| Scenarios.LatestClickWins | script.js:91-110 | after two clicks, an accepted run or ride is recorded at the second click |

## Left out

- Geolocation (`_getPosition`, `_loadMap`) is left out. It is a browser callback with an alert and has no state logic.
- The Leaflet calls (map set-up, tile layer, `_renderMarker`, popups) are left out. They belong to an external library.
- The DOM work is left out: `_hideForm` with its `setTimeout`, `_toggleElevationField`, `_moveToPopup` (which only logs an id) and the `querySelector` wiring.
- `_renderWorkout` builds HTML and rounds with `toFixed(1)`. That is display formatting and is not modelled. Its markup is malformed and its unit labels are swapped; neither is modelled.
- Turning a string into a number with `+input.value` is not modelled. For example, `''` becomes 0. The model receives only the resulting field, finite or not.
- IEEE-754 rounding is not modelled. Pace and speed are exact real quotients.
- Workouts.NewRunning: requires a nonzero distance, and Workouts.NewCycling requires a nonzero duration. In JavaScript a zero divisor yields Infinity or NaN. The only caller constructs a workout after validation, so that case cannot arise.
- Validation.AllPositive: a non-finite field counts as not positive. JavaScript would count +Infinity as positive. `_newWokout` evaluates the positivity check only after the finiteness check has passed, so the difference cannot show.
- Description.Upper: covers ASCII letters only. The type names are lower-case ASCII, so this is enough.
- Ids come from `Date.now()` and are taken as a parameter. They are not claimed to be unique, because two workouts created in the same millisecond share an id.
