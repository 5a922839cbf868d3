# RepTitan rep counter and exercise statistics: a Dafny model

RepTitan is a fitness tracker. The browser runs a pose-estimation model on webcam
frames, and for each frame one of three detectors turns the landmarks into
exercise feedback:

- a push-up detector and a squat detector count repetitions with a small state
  machine (stage `null` / `up` / `down` / `transition`, a rep count, and a debounce
  timestamp);
- a plank detector times how long the position is held.

At the end of a session the server stores a summary. It also computes statistics
over stored sessions and keeps one goal record per user.

This project models both parts:

- `exercise_detection.dfy` (module `ExerciseDetection`) covers the visibility
  gate, the angle normalisation and the three detectors.
  - Each detector is a class. Its `Detect` method updates the class's fields in
    the same order as the source does.
  - The method is proved equal to a pure step function: `RepStep` for push-ups
    and squats, and `PlankStep` for the plank.
  - The contract of each step function states the promised behaviour. Lemmas
    over `RepRun` / `PlankRun` (the step function folded over a sequence of
    frames) state properties of whole sessions: counts never drop, debouncing,
    no counting while staying up, and hold timing.
- `goals.dfy` (module `Goals`) covers the goals router:
  - session save: validation, the calorie rate table, defaults;
  - session statistics: totals, mean, and the per-type breakdown, built by a
    loop as in the source and proved equal to a declarative definition, with
    conservation lemmas;
  - goal upsert over a map keyed by user id.
- `js_math.dfy` holds `Math.round`. `wrappers.dfy` holds `Option`.

Inputs that the model takes in place of hidden computations:

- A joint angle enters as the signed turn between the two rays at the joint, in
  degrees. This is what the `atan2` difference computes. `CalculateAngle` then
  does the normalisation the source does: absolute value, then reflection above
  180.
- The clock enters as an explicit `now` in milliseconds.
- Real numbers stand in for JavaScript doubles.

Properties of the code that the model makes explicit:

- **The angle never exceeds 180, for any turn.** It is at least 0 only for turns
  within one full circle. The `atan2` difference always lies in that range, but
  an arbitrary input does not.
- **Two comparisons can never fire.** Every normalised angle is at most 180
  degrees. So the push-up's `leftBodyAngle < 205` test is always true
  (`BodyStraightUpperBoundIsDead`). The plank's `avgBodyAngle > 200` branch, which
  replies "Hips sagging! Engage core", can never run (`SaggingIsUnreachable`).
- **The plank's `totalHoldTime` is not a running sum across holds.** It is the
  length of the latest hold, in whole seconds. A new hold overwrites what the
  previous one banked from the second frame of the new hold on (`HoldTiming`).
- **A hold that starts at time 0 never advances.** The code tests `holdStartTime`
  for truthiness, and 0 is falsy (`HoldStartedAtZeroNeverTimes`).
- **Saving a goal for an existing user merges fields.** It updates only the
  fields the request supplies; the others keep their values. The ORM ignores
  `undefined` values in an update.

## Model

| member | source | states |
|---|---|---|
| `ExerciseDetection.AllUsable` | apps/web/src/lib/exerciseDetection.ts:87-89 | the `every` over a list of indices is true iff each indexed landmark exists and has visibility above 0.5 |
| `ExerciseDetection.IsPersonVisible` | apps/web/src/lib/exerciseDetection.ts:79-90 | true iff the landmarks at 11, 12, 23 and 24 all exist with visibility strictly above 0.5 |
| `ExerciseDetection.CalculateAngle` | apps/web/src/lib/exerciseDetection.ts:58-66 | the angle is at most 180 for every turn, and at least 0 for a turn in [-360, 360]; it is the turn's magnitude or 360 minus it; interior angles in [0, 180] pass through unchanged |
| `ExerciseDetection.AngleSymmetric` | apps/web/src/lib/exerciseDetection.ts:58-63 | swapping the outer points (negating the turn) gives the same angle |
| `ExerciseDetection.AngleFullTurn` | apps/web/src/lib/exerciseDetection.ts:58-63 | turns a full circle apart give the same angle |
| `JsMath.Round` | apps/web/src/lib/exerciseDetection.ts:187 | `Math.round`: the result is within half a unit of the input, halves rounding up |
| `ExerciseDetection.TextInjective` | apps/web/src/lib/exerciseDetection.ts:150-179 | different feedback messages, the push-up, squat and plank wordings and every 'Holding! Ns' included, are different strings, so the model's message values stand for the exact strings returned |
| `ExerciseDetection.RepStep` | apps/web/src/lib/exerciseDetection.ts:104-189 | one push-up or squat frame. Out of frame: state unchanged, reply 'Move into frame', form false, current count. Otherwise: the count rises by at most 1, and by exactly 1 iff the angle is at or above the up threshold, the stage was down or transition, and the debounce interval has passed; `lastCountTime` becomes `now` exactly then. The stage is up / down / transition by band. Form equals the straightness test. A crooked frame gets the form warning. The bonus message appears iff the angle is below the bonus angle and form is straight. Otherwise a counted rep says 'Rep counted', and an uncounted frame gets its band's cue: the up cue in the up band, the down cue in the down band, and in the transition band the good-depth cue below the transition angle (120 / 130), else the keep-going cue |
| `ExerciseDetection.RunKeepsReps` | apps/web/src/lib/exerciseDetection.ts:143-153 | over any sequence of frames the count never decreases and rises by at most one per frame |
| `ExerciseDetection.RunRateLimit` | apps/web/src/lib/exerciseDetection.ts:147-151 | over any session, k counted reps move the last-count time forward by at least k times the minimum interval |
| `ExerciseDetection.InvisibleRunChangesNothing` | apps/web/src/lib/exerciseDetection.ts:105-112 | frames with the subject out of view leave the rep detector's state unchanged |
| `ExerciseDetection.StayingUpCountsNothing` | apps/web/src/lib/exerciseDetection.ts:143-153 | from stage null or up, frames that stay in the up band (or out of view) never count a rep |
| `ExerciseDetection.PushUpCycleCountsOne` | apps/web/src/lib/exerciseDetection.ts:143-159 | up (170), down (70), up (170) at least 500 ms after the last count: count 0 after the first and second frames, 1 after the third |
| `ExerciseDetection.SquatCycleCountsOne` | apps/web/src/lib/exerciseDetection.ts:249-265 | standing (170), squatting (100), standing (170) at least 600 ms after the last count: count 0 after the first and second frames, 1 after the third |
| `ExerciseDetection.DebounceSuppressesRep` | apps/web/src/lib/exerciseDetection.ts:147-153 | a return to the up band inside the debounce interval only sets the stage to up; no rep is counted |
| `ExerciseDetection.CrookedRepStillCounts` | apps/web/src/lib/exerciseDetection.ts:143-175 | a countable frame with bad form still counts the rep, and the reply has the form warning with form false |
| `ExerciseDetection.BodyStraightUpperBoundIsDead` | apps/web/src/lib/exerciseDetection.ts:136 | for every turn, the push-up straightness test on the normalised angle reduces to `angle > 155` |
| `ExerciseDetection.PushUpDetector.constructor` | apps/web/src/lib/exerciseDetection.ts:96-98 | a new detector has stage null, count 0, last-count time 0 |
| `ExerciseDetection.PushUpDetector.Detect` | apps/web/src/lib/exerciseDetection.ts:104-189 | with the elbow angles averaged and the body test `155 < angle < 205`, the new fields and the reply are those of `RepStep` under the push-up thresholds 150 / 100 / 120 / 80 and the 500 ms interval |
| `ExerciseDetection.PushUpDetector.Reset` | apps/web/src/lib/exerciseDetection.ts:191-195 | stage null, count 0, last-count time 0 |
| `ExerciseDetection.SquatDetector.constructor` | apps/web/src/lib/exerciseDetection.ts:202-204 | a new detector has stage null, count 0, last-count time 0 |
| `ExerciseDetection.SquatDetector.Detect` | apps/web/src/lib/exerciseDetection.ts:210-295 | with the knee angles averaged and the back test `angle > 150`, the new fields and the reply are those of `RepStep` under the squat thresholds 155 / 110 / 130 / 90 and the 600 ms interval |
| `ExerciseDetection.SquatDetector.Reset` | apps/web/src/lib/exerciseDetection.ts:297-301 | stage null, count 0, last-count time 0 |
| `ExerciseDetection.PlankStep` | apps/web/src/lib/exerciseDetection.ts:312-382 | one plank frame. Every reply has count 0 and the banked seconds. Out of frame: state unchanged, 'Move into frame', form false. In position (`160 < body < 200` and `elbow < 120`): the first frame only starts the timer at `now`; later frames with a truthy start time set the banked seconds to the floor of the elapsed time over 1000 ms; the reply is 'Holding! Ns' with form true. Out of position: holding cleared, start time null, banked seconds kept, form false, and the message chosen by angle below 160 / above 200 / otherwise |
| `ExerciseDetection.HoldKeepsTime` | apps/web/src/lib/exerciseDetection.ts:354-356 | while a hold with a truthy start time runs, the banked seconds are the whole seconds from the start to the latest frame |
| `ExerciseDetection.HoldTiming` | apps/web/src/lib/exerciseDetection.ts:350-360 | a hold entered at a nonzero time and kept for at least two frames banks the whole seconds from its first frame to its last, replacing what an earlier hold banked |
| `ExerciseDetection.FiveSecondPlank` | apps/web/src/lib/exerciseDetection.ts:350-357 | in-position frames 5000 ms apart from a fresh detector bank 5 seconds |
| `ExerciseDetection.HoldStartedAtZeroNeverTimes` | apps/web/src/lib/exerciseDetection.ts:354 | a hold whose start time is 0 never changes state while the position is kept |
| `ExerciseDetection.InvisiblePlankRunChangesNothing` | apps/web/src/lib/exerciseDetection.ts:313-321 | frames with the subject out of view leave the plank state unchanged |
| `ExerciseDetection.SaggingIsUnreachable` | apps/web/src/lib/exerciseDetection.ts:362-367 | for every pair of body turns, the 'Hips sagging' reply never occurs |
| `ExerciseDetection.PlankDetector.constructor` | apps/web/src/lib/exerciseDetection.ts:308-310 | a new detector is not holding, start time null, 0 seconds |
| `ExerciseDetection.PlankDetector.Detect` | apps/web/src/lib/exerciseDetection.ts:312-382 | with the body angles averaged and the left elbow angle, the new fields and the reply are those of `PlankStep` |
| `ExerciseDetection.PlankDetector.Reset` | apps/web/src/lib/exerciseDetection.ts:384-388 | not holding, start time null, 0 seconds |
| `Goals.CalorieRate` | apps/server/src/routers/goals.ts:169-176 | the rate is 7 iff pushup, 8 iff squat, 3 iff plank, and 5 iff any other type |
| `Goals.CaloriesBurned` | apps/server/src/routers/goals.ts:165-177 | the calories are the rate times the duration over 60, rounded to the nearest integer |
| `Goals.CaloriesInIntegers` | apps/server/src/routers/goals.ts:175-177 | the rounded calories equal `(rate * duration + 30) div 60` |
| `Goals.CaloriesMonotone` | apps/server/src/routers/goals.ts:175-177 | a longer session of the same type never burns fewer calories |
| `Goals.SessionStore.SaveExercise` | apps/server/src/routers/goals.ts:148-199 | rejected with 400 'Missing required fields' iff the user id is falsy, the type is falsy, or the duration is missing; then nothing is stored. Otherwise one session is appended with the submitted user, type and duration, the computed calories, and reps and form quality defaulting to 0 when falsy |
| `Goals.TotalSessionsIsLength` | apps/server/src/routers/goals.ts:258 | counting each session once gives the number of sessions |
| `Goals.MeanFormQuality` | apps/server/src/routers/goals.ts:262-264 | 0 for no sessions; otherwise the mean times the number of sessions is the sum of the form qualities |
| `Goals.FormTotalBounds` | apps/server/src/routers/goals.ts:263 | if each session's form quality lies in [lo, hi], the sum lies in [n*lo, n*hi] |
| `Goals.MeanWithinBounds` | apps/server/src/routers/goals.ts:262-264 | the mean lies within any bounds that every session's form quality respects |
| `Goals.Breakdown` | apps/server/src/routers/goals.ts:265-279 | the in-place reduce over the sessions yields exactly the declarative breakdown: one key per type that occurs, holding its count and its reps, duration and calorie sums |
| `Goals.ComputeStats` | apps/server/src/routers/goals.ts:257-280 | total sessions is the number of sessions; total duration, calories and reps are the sums; the average is the mean; the breakdown is the declarative breakdown |
| `Goals.BreakdownCountsPositive` | apps/server/src/routers/goals.ts:266-274 | each breakdown key is the type of some session and has a count of at least 1 |
| `Goals.CountIsMultiplicity` | apps/server/src/routers/goals.ts:274 | a type's count is the number of sessions of that type |
| `Goals.SumOverTypesIsTotal` | apps/server/src/routers/goals.ts:274-277 | summed over any duplicate-free list covering the occurring types, the per-type sums give the overall sum |
| `Goals.BreakdownConservation` | apps/server/src/routers/goals.ts:257-279 | over the breakdown's keys, the counts add up to the number of sessions, and reps, durations and calories to the overall totals |
| `Goals.Upsert` | apps/server/src/routers/goals.ts:58-119 | the store gains the user's key and keeps every other key unchanged. The user's record has every submitted field. An unsubmitted field is present only if the record existed with it, and then keeps its old value |
| `Goals.UpsertIdempotent` | apps/server/src/routers/goals.ts:65-91 | saving the same goal twice leaves the store as saving it once |
| `Goals.UpsertStoresSubmitted` | apps/server/src/routers/goals.ts:92-118 | for a new user, or a request supplying every field, the stored record is exactly the submitted one |
| `Goals.GoalStore.SaveGoal` | apps/server/src/routers/goals.ts:27-129 | a falsy user id gives 400 'User ID is required' and no change. Otherwise the store becomes the upsert, the reply carries the stored record, and the message is 'Goal updated successfully' iff a record existed before, else 'Goal saved successfully' |

## Left out

- Trigonometry: `Math.atan2`, the radian-to-degree conversion and `calculateDistance` (`Math.sqrt`) are not modelled. The turns are inputs, and only the normalisation is modelled.
- Floating point:
  - Angles, durations over 60 and the form-quality mean are exact reals.
  - NaN and rounding error are not modelled. A NaN angle fails every band comparison, so a rep detector's stage would stay unchanged. Its feedback would be the form warning if the form test failed, otherwise empty, and its reply angle would be `Math.round(NaN)`.
- CalculateAngle: the lower bound 0 is stated for turns within one full circle only, because it fails beyond that. The upper bound 180 holds for every real. The `atan2` difference always lies within one full circle.
- The wall clock `Date.now()` becomes the `now` parameter of each `Detect`.
- Landmark acquisition: the pose model, the camera and any landmark index other than the four gate indices are not modelled.
- The UI glue that feeds `Detect` and saves a session is not modelled.
- JavaScript prototype keys are not modelled. With an exercise type such as `constructor`, the rate lookup and the breakdown accumulator would find an inherited property; the model treats both as plain dictionaries.
- Request values are typed as the handlers' callers send them:
  - numeric user ids and integer durations;
  - `null` field values and string ids are not modelled.
- Goal creation: a new record holds exactly the supplied fields, and the fields not supplied are absent. The database schema's defaults or nulls for the columns left out are not part of this model.
- HTTP 500 replies from database errors are not modelled. Neither are the database-generated session fields (id, session date).
- The stats query's date window, `days` defaulting to 7 and counted back from the current date, is a database query on the clock. ComputeStats takes the sessions that query returns.
- The router's other handlers are not modelled: GET `/:userId`, DELETE `/:userId`, and GET `/exercise/:userId` with its optional date filter and limit.
