# Workout tracker: the in-progress workout draft

This project models the stateful core of a browser workout tracker
(`app.js`). A signed-in user starts a workout from a saved routine, which
creates an in-memory **draft**: one entry per routine exercise, each holding
a list of logged sets (weight × reps). Clicks on the workout screen add,
delete and edit sets in place, and "finish" inserts the draft into the
workouts table and clears it. The routine form, whose submit builds the
routine's exercise list and chooses between update and insert, is modelled
too.

Layout:

- `wrappers.dfy` (`Wrappers`): `Option` and `Result`.
- `routines.dfy` (`Routines`): routine exercises, the form's exercise list
  and the write request the form submits.
- `drafts.dfy` (`Drafts`): the draft as values, and add / delete / edit set
  as functions from the draft before a click to the draft after it, each with
  a frame-style contract (what changes, and that nothing else does).
- `traces.dfy` (`Traces`): any sequence of such clicks, and lemmas tying
  several operations together.
- `session.dfy` (`Tracker`): the page's two mutable variables `currentUser`
  and `currentWorkout` as the fields of class `Session`, one method per
  handler that changes them. The three set clicks are proved against the
  matching `Drafts` functions, start against `Drafts.NewDraft`, and finish
  against `Tracker.FinishRequest`; `CheckUser` only assigns the user.
  `Scenario` is a client that derives concrete outcomes from those
  contracts alone.

Modelling choices:

- Parses are inputs. `parseFloat`/`parseInt` results are `Option` values,
  with `None` standing for NaN. A prompt's answer is `Cancelled` (the
  prompt returned null) or `Entered(parsed)`.
- Weight is `real` and reps are `int`. The code stores and displays these
  numbers but never computes with them.
- The handlers never catch exceptions. When a handler reads `.sets` of a missing exercise, or
  `.weight` of a missing set, it throws a TypeError and the draft stays as it
  was. That outcome is `Status.TypeError`. "Guard false" is `Ignored`, and
  "ran to the end and re-rendered" is `Rendered`.
- `splice(setIndex, 1)` with an index past the end removes nothing. The
  delete handler still runs to its end in that case.
- Remote calls are inputs. The routine read in `startWorkout` comes in as a
  `Result`. The workout insert's success comes in as a `bool`. The clock's
  ISO date comes in as a string. The session reported by the identity
  provider comes in as an `Option`.
- Finishing stores the draft's exercises verbatim (`app.js:353`). Weights
  are never converted, and the display hard-codes kg (`app.js:290`,
  `app.js:402`). The routine form stores only exercise names (`app.js:166`).
- A failed routine read in `startWorkout` returns early. It leaves any earlier draft in place
  rather than clearing it (`app.js:264-267`). `StartWorkout` keeps this.

## Model

| member | source | states |
|---|---|---|
| `Routines.ExercisesFromInputs` | app.js:165-166 | the routine's exercise list has exactly one entry per form input, carrying that input's name, in form order |
| `Routines.InputsFromNames` | app.js:166 | round trip: rebuilding an exercise list from its own names gives back the same list |
| `Routines.SaveRoutineRequest` | app.js:157-185 | no write without a signed-in user; otherwise the record carries the routine name, the user and the input names in order, and it is an update of `routineId` exactly when that id is non-empty, an insert otherwise |
| `Drafts.EmptyEntries` | app.js:272 | one draft entry per routine exercise, same name and position, with an empty set list |
| `Drafts.NewDraft` | app.js:269-273 | the new draft records the routine id and name, lists the routine's exercise names in order, and every set list is empty |
| `Drafts.AddSet` | app.js:312-323 | ignored exactly when the weight or the reps is NaN; with both numbers and a missing exercise it throws; otherwise `{weight, reps}` is appended to that exercise's sets whatever their sign or zero-ness, and the routine, the other exercises and the existing sets are unchanged; in the non-rendered cases the draft is unchanged |
| `Drafts.DeleteSet` | app.js:325-329 | throws exactly when the exercise is missing (draft unchanged); otherwise that exercise's sets lose exactly the element at the index (length one less, earlier sets kept, later ones shifted down) or stay as they are when the index is past the end, and nothing else changes |
| `Drafts.EditedWeight` | app.js:338 | the new weight is the parsed answer unless it is NaN or 0, in which case the old weight is kept; so an edit never makes a non-zero weight zero |
| `Drafts.EditedReps` | app.js:339 | the same falsy fallback for reps: a NaN or 0 answer keeps the old reps, so no edit sets a set's reps to 0 |
| `Drafts.EditSet` | app.js:331-342 | throws exactly when the set is missing; is ignored exactly when a prompt is cancelled; in both cases the draft is unchanged; otherwise only the targeted set is rewritten, through the falsy fallback on each field, with the number of sets, all other sets, the other exercises and the routine unchanged |
| `Traces.ApplyKeepsShape` | app.js:308-343 | a single set click never creates or drops the draft and never changes its routine id, routine name or exercise names |
| `Traces.RunKeepsShape` | app.js:308-343 | after any sequence of set clicks the draft still exists and has the routine id, name and exercise names it started with |
| `Traces.StartedDraftFollowsRoutine` | app.js:262-343 | a workout started from a routine built from form inputs lists exactly those names, in order, after any sequence of set clicks |
| `Traces.AddThenDeleteRestores` | app.js:316-327 | adding a set to an existing exercise always succeeds for parsed numbers, and deleting the set at the old length afterwards gives back the original draft |
| `Traces.EditIsIdempotent` | app.js:331-342 | repeating an edit with the same prompt answers changes nothing further |
| `Tracker.FinishRequest` | app.js:346-354 | nothing is sent without a user or without a draft; otherwise the record carries the user, the date, the draft's routine id and name and the draft's exercises exactly, unconverted |
| `Tracker.SavedWorkoutFollowsForm` | app.js:157-356 | a signed-in user's form submit always produces a write; a workout started from the exercise list that write carries (assuming the store returns it as written), edited by any set clicks and finished by that user, is saved under that routine with the form's exercise names in form order |
| `Tracker.Session.constructor` | app.js:44-260 | a fresh page has no user and no draft |
| `Tracker.Session.CheckUser` | app.js:48-61 | the current user becomes the session's user, or none |
| `Tracker.Session.StartWorkout` | app.js:262-278 | a successful routine read replaces the draft with the new draft for that routine; a failed read leaves the draft as it was |
| `Tracker.Session.AddSetClick` | app.js:312-323 | the new draft and the status are exactly those of `Drafts.AddSet` on the old draft |
| `Tracker.Session.DeleteSetClick` | app.js:325-329 | the new draft and the status are exactly those of `Drafts.DeleteSet` on the old draft |
| `Tracker.Session.EditSetClick` | app.js:331-342 | the new draft and the status are exactly those of `Drafts.EditSet` on the old draft |
| `Tracker.Session.FinishWorkout` | app.js:345-365 | the request sent is `FinishRequest` of the current user and the old draft; the draft becomes none only when a request was sent and the insert succeeded, and is otherwise left intact |

## Left out

- Calls to the hosted data store and the identity provider are left out: sign-in, sign-up, sign-out, and every select, insert, update and delete on routines and workouts. These are remote services. Only their outcomes enter the model, as parameters. The same holds for `public/supabase.js`, which only constructs that client.
- DOM rendering and event wiring are left out (`renderWorkoutExercises`, `loadRoutines`, `loadWorkoutHistory`, `showSection`, the history details toggle, `alert`, `confirm`, `prompt`). These are user interface. `prompt` is modelled only through its answer.
- The routines list's edit and delete buttons are left out (`app.js:228-251`). They fill the form or delete a row remotely; they do not touch the draft.
- The login/sign-up mode toggle `isLogin` is left out (`app.js:63-71`). It is a boolean flip that only changes UI text.
- The exact string semantics of `parseFloat` and `parseInt` are left out: leading whitespace, trailing garbage, `Infinity`, truncation of "3.7" to 3. Each parse is an `Option`.
- Floating-point weights: weight is a `real`. `-0` is covered as the real 0.
- The order of `async` handlers: each handler runs to completion as one step.
- A routine row whose `exercises` column is not an array is left out. The code would throw in `map` in that case. The model assumes the stored list the routine form always writes.
- Element indices are taken as non-negative integers. The page only ever renders such values into `data-ex-index` and `data-set-index`.
- In-place updates: the exercise objects and set arrays are updated in place in the code. Here each handler assigns a new draft value to the `draft` field. Two other references to these objects exist. The finish handler puts `currentWorkout.exercises` itself, not a copy, into the record it sends (`app.js:353`) and holds it across the `await` of the insert (`app.js:356`). The edit handler binds the targeted set object to a local `set` (`app.js:333`), which only that handler uses. Because each handler is one atomic step here, the model does not show a set added while the insert is pending: in the code that set enters the shared array and is then dropped from the page by `currentWorkout = null` (`app.js:362`). This race belongs to the async-ordering item above.
