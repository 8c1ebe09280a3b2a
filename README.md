# Workout map: a verified model of its records, validation and workout list

The application logs running and cycling workouts on a map. The user clicks a
location, fills in a form, and the workout list is kept in the browser's local
storage. This project models the part of `script.js` that holds logic:

- **Workout records** (`Workout`, `Running`, `Cycling`), module `Workouts`.
  They become one datatype with a `Kind()` discriminant. Distances, durations
  and the derived metrics are `real`. The pace is `duration / distance` in
  min/km. The speed is `distance / (duration / 60)` in km/h. The description
  is "Running on May 12"-style text built from the 12-entry `months` table.
  `ParseDescription` reads a description back, and that inverse is proved.
- **Decimal text** of whole numbers (`${date.getDate()}` in the description),
  module `Decimal`. Reading the text back is proved to give the number.
- **Submission validation** (`validInputs` / `allPositive` in `_newWorkout`),
  module `Validation`. A form field after the `+` coercion is a `Num`: a
  finite real, an infinity or NaN. This way `x > 0` and `Number.isFinite`
  are modelled exactly.
- **The controller's workout list** (`App.#workouts`), module `WorkoutApp`.
  It is a class whose `seq<Workout>` field is changed by `NewWorkout` (append
  or alert) and `LoadWorkouts` (startup replace). `FindById` is the list-click
  lookup. A `Storage` object stands for the local-storage entry `workouts`.
  `SaveWorkouts` writes it and `Reset` removes it.

`WorkoutApp.SampleSession` replays the two sample records noted in the
source: a 10 km run in 30 min at cadence 200 has pace 3, and a 5 km ride in
10 min has speed 30. It also replays a rejected run with cadence -1, a reload
that restores the list, and a reset after which a reload starts empty.

Two behaviours of `script.js` worth stating plainly:
- A run's cadence is accepted as any finite positive number, not only an
  integer (script.js:167-171).
- Stored text that is not valid JSON makes `JSON.parse` throw
  (script.js:306). The model's storage holds either nothing or a parsed
  list, so this case does not arise (see below).

## Model

| member | source | states |
|---|---|---|
| Decimal.NatToString | script.js:28 | the day's text is non-empty and all digits, and begins with '0' only for 0 |
| Decimal.ValueOfNatToString | script.js:28 | reading the decimal text of n gives n back |
| Decimal.NatToStringInjective | script.js:28 | different numbers have different decimal texts |
| Workouts.MonthNamesDistinct | script.js:4 | the 12 entries of the months table are pairwise different |
| Workouts.TypeName | script.js:38 | the `type` field of each kind ('running' at line 38, 'cycling' at line 56) is non-empty and starts with a lower-case letter, the one the description upper-cases |
| Workouts.Label | script.js:26 | the type with its first letter upper-cased, then " on ", is exactly "Running on " or "Cycling on " |
| Workouts.Description | script.js:25-29 | a description starts with its kind's label |
| Workouts.ParseDescriptionOfDescription | script.js:25-29 | from any description, the kind, month index and day it was built from can be read back |
| Workouts.DescriptionInjective | script.js:25-29 | two records with different kinds or different month/day never share a description |
| Workouts.Pace | script.js:48-52 | pace times distance is the duration (min/km), and pace is positive for positive inputs |
| Workouts.Speed | script.js:65-69 | speed times duration is 60 times the distance (km/h), and speed is positive for positive inputs |
| Workouts.SpeedTimesPace | script.js:48-69 | for the same distance and duration, speed (km/h) times pace (min/km) is 60 |
| Workouts.NewRunning | script.js:40-46 | the running constructor keeps its inputs and computes pace and description from them at construction |
| Workouts.NewCycling | script.js:58-63 | the cycling constructor keeps its inputs and computes speed and description from them at construction |
| Validation.IsFinite | script.js:152 | `Number.isFinite`: true exactly for a value that is neither NaN nor an infinity |
| Validation.IsPositive | script.js:153 | the comparison `inp > 0`: true for +Infinity and for finite values above 0, false for NaN, -Infinity and the rest |
| Validation.ValidInputs | script.js:151-152 | true exactly when every input is finite |
| Validation.AllPositive | script.js:153 | true exactly when every input compares greater than 0 |
| Validation.Accepts | script.js:166-188 | a run passes iff distance, duration and cadence are all finite and positive; a ride passes iff all three are finite and distance and duration are positive |
| Validation.CyclingAcceptsAnyFiniteElevation | script.js:180-188 | an accepted ride stays accepted with any finite elevation, zero or negative included |
| WorkoutApp.MakeWorkout | script.js:158-191 | a record is made exactly when validation passes; it has the form's kind, clicked coordinates and values, positive distance and duration, and consistent derived fields |
| WorkoutApp.FirstWithId | script.js:286-288 | the index found is that of the first record with the id, or the list length when no record has it |
| WorkoutApp.Storage.constructor | script.js:306 | the `localStorage` entry 'workouts' that `getItem` reads here, `setItem` writes at line 302 and `removeItem` clears at line 318 holds the given parsed list, or nothing when absent |
| WorkoutApp.App.constructor | script.js:84-95 | a new app holds the stored list if it is present and non-empty, and otherwise an empty list |
| WorkoutApp.App.LoadWorkouts | script.js:305-315 | the list is replaced by the stored data only when it is present with length > 0, otherwise unchanged |
| WorkoutApp.App.SaveWorkouts | script.js:301-303 | storage holds the whole current list afterwards |
| WorkoutApp.App.NewWorkout | script.js:150-208 | an invalid form alerts and changes neither list nor storage; a valid one appends exactly one record at the end, keeps all earlier entries, saves the list, and keeps every record well-formed |
| WorkoutApp.App.FindById | script.js:281-288 | no result when no workout element was hit; otherwise the first record with the clicked id, and none exactly when no record has it |
| WorkoutApp.App.Reset | script.js:317-320 | the stored list is removed |

## Left out

- Workouts.Pace: requires a non-zero distance. Dividing by zero in JavaScript gives Infinity or NaN. The only caller builds records after validation has made distance and duration positive.
- Workouts.Speed: requires a non-zero duration, for the same reason as `Pace`.
- Workouts.NewRunning: carries the non-zero distance requirement of `Pace`.
- Workouts.NewCycling: carries the non-zero duration requirement of `Speed`.
- The clock: `new Date()` and the time-derived id `(Date.now() + '').slice(-10)` are parameters. The source's id is the last 10 digits of the millisecond count, so two records get the same id when made in the same millisecond or a multiple of 10^10 ms (about 115.7 days) apart. The model does not exclude duplicate ids either: `id` is a free parameter, and `FindById` returns the first match, as `find` does.
- Dates are reduced to the month index and day of month that the description uses. After a reload, the stored `date` is a JSON string rather than a `Date`; the model does not capture this.
- IEEE floating point: metrics are exact reals. The `+` string-to-number coercion is not modelled; a field arrives already coerced to a `Num`. Signed zero is not distinguished.
- `toUpperCase` is modelled for ASCII letters only. The type names are ASCII.
- The type selector offers only running and cycling, so `FormInput.kind` is a `Kind`. For any other value the source would push `undefined` onto the in-memory list and then throw a TypeError reading `workout.type` (script.js:216) before `_saveWorkouts`, so the list would grow while storage stays unchanged.
- The clicked map position (`#mapEvt`) is a parameter of `NewWorkout`. The source would throw if no map click had happened, which the hidden form prevents.
- WorkoutApp.App.FindById: returns nothing when no record has the clicked id. The source then throws on `workout.coords`.
- `JSON.stringify`/`JSON.parse` are left out. Storage holds either nothing or a list of records. Malformed or non-array stored text is not representable.
- Presentation is left out: form show/hide, the `setTimeout` reset, `alert`, the type toggle, list-item HTML and `toFixed(1)`.
- The map library (map, tiles, markers, popups, `setView`) and geolocation are left out. These are third-party and browser APIs. So is the page reload after a reset; a reload is modelled as constructing a new `App` on the same `Storage`.
