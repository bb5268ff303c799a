# Study metrics and mission progression, modelled in Dafny

This project models the two pieces of logic in the learning tool's Python missions screen:

- **The metrics recorder** (`src/MetricsTracker.jsx`) has several parts:
  - the anonymous session id (`session-<timestamp>-<random>`), kept in browser storage;
  - the persisted metrics record: `attempts`, `errors`, `skips`, `completedChallenges` and the append-only `challengeDetails` log;
  - the mutable challenge-start cell that times each completion;
  - export and reset.
- **The mission state machine** (`src/Python.jsx`) has these parts:
  - question loading and selection;
  - the completion handlers of standard and learning mode;
  - attempt counting and the day-streak rule;
  - the per-question draft-code map;
  - the values handed to the question renderer.

Files and modules:

| file | module | contents |
|---|---|---|
| `wrappers.dfy` | `Wrappers` | `Option` (null/undefined) and `Result` (a call that may throw) |
| `session_ids.dfy` | `SessionIds` | the session-id format, its decimal rendering, and a parser proved to be its inverse |
| `metrics_record.dfy` | `MetricsRecord` | the record, the updates handed to `setMetrics`, elapsed time, the export snapshot, and invariant lemmas |
| `profiles.dfy` | `Profiles` | the fields of the learning profile that the screen touches, and the streak rule |
| `browser_storage.dfy` | `BrowserStorage` | browser storage with one field for each key the app uses |
| `metrics_tracker.dfy` | `MetricsTracker` | the provider as a class (record, start cell, const session id), `getSessionId`, the initial-record loader, mounting |
| `missions.dfy` | `Missions` | loading and selection, the draft-code map, the pure progression steps, `progressInfo`, and the component as a class |

Modelling choices:

- **Time, days and randomness.**
  - Instants are integer milliseconds.
  - `toDateString()` days are integer day numbers, so "yesterday" is `today - 1`.
  - `Math.floor(Math.random() * 1000000)` is a parameter `random < 1000000`.
  - `timeSpent` and `duration` are exact `real` quotients by 1000.
- **Browser storage** is a class with three fields, one per key: `bitvoyager_session_id`, `bitvoyager_metrics` and `pythonLearningProfile`.
  - The metrics key holds either `Document(record)`, a record the recorder serialized, or `Text(s)`, any other text.
- **External modules are parameters.** `PythonQuestion`, `selectQuestions`, `updateSkillLevels` and `getUserProfile` are passed in. `saveUserProfile` becomes a write of the profile key.
- **The React rule** "read the state as it was at render time, then apply updates" is followed.
  - `OnMissionComplete` saves `currentAttempts` before `handleTestAttempt(true)` increments it.
  - The completion record therefore carries the attempt count from before that final attempt.
- **Modes are strings**, with `""` standing for "no mode".
  - `startMode` receives the lower-cased mode (ASCII lower-casing).
  - The handlers compare the raw mode against `"standard"`. Every other mode takes the learning branch, as in the source.
- **Out-of-range difficulty lookup.** `DIFFICULTY_ORDER[i]` past the end of the table is `undefined`. It is modelled as `None`, so `completedDifficulties` is a sequence of `Option<string>`.
- **The handlers have no precondition about what is on screen.** Their own guards are modelled, including the defensive ones:
  - `index < length` before recording a completion;
  - the learning branch's early return when there is no profile or no question.

Where the code departs from what its comments and names lead one to expect, the model follows the code:

- An empty list from `selectQuestions` is a success. Only a null or undefined result (or an exception) is an error. The screen then shows "No question available".
- The error value is tested for truthiness (`Failed`). An exception with an empty message, such as `new Error()`, gives the error `""`, which is falsy. A later run of the effect then keeps the questions it installed before (`EmptyMessageKeepsQuestions`). A thrown value without a `message` gives `undefined`; the model writes it as `Raised("")`, since both are falsy and show nothing.
- A stored metrics value that is not a record is not treated as absent. The `JSON.parse` call is unguarded, so `LoadMetrics` and `Mount` fail. Only an absent key or an empty string gives a fresh record.
- `resetMetrics` does not update the provider's `sessionId`. In the model that field is a `const`, so an export after a reset is still named after the old session (`ExportAfterResetNamesTheOldSession`).
- A reset is meant to start a new session (src/MetricsTracker.jsx:141-144). The code yields a different id exactly when the clock reading or the random draw differs. `GenerateSessionIdInjective` proves the non-trivial half: different inputs always give different ids. A reset in the same millisecond with the same draw gives the same id again.
- `getSessionId` has no fallback for unavailable storage; a failing `localStorage` call throws. In the model storage is always available.

## Model

| member | source | states |
|---|---|---|
| `SessionIds.Decimal` | src/MetricsTracker.jsx:17 | the rendering of an integer is a non-empty string of digits with no leading zero |
| `SessionIds.ParseDecimalInverse` | src/MetricsTracker.jsx:17 | reading a rendered integer back gives the integer |
| `SessionIds.GenerateSessionId` | src/MetricsTracker.jsx:14-18 | a generated id is non-empty (truthy) and starts with `session-` |
| `SessionIds.SessionIdRoundTrip` | src/MetricsTracker.jsx:14-18 | the timestamp and the random component can both be recovered from a generated id |
| `SessionIds.GenerateSessionIdInjective` | src/MetricsTracker.jsx:14-18 | two generated ids are equal only if they come from the same clock reading and random draw |
| `MetricsRecord.Fresh` | src/MetricsTracker.jsx:35-43 | the initial record is tagged with the session id, starts now, has zero counters and an empty log, and satisfies the invariant |
| `MetricsRecord.Elapsed` | src/MetricsTracker.jsx:86-89 | with a start instant, elapsed seconds times 1000 is the interval in ms (non-negative when the interval is); with no start it is 0 |
| `MetricsRecord.AttemptEffect` | src/MetricsTracker.jsx:68-74 | `Apply` on an attempt (the `recordAttempt` updater): `attempts` grows by exactly 1; `errors` grows by 1 iff the attempt failed; no other field changes |
| `MetricsRecord.SkipEffect` | src/MetricsTracker.jsx:77-82 | `Apply` on a skip (the `recordSkip` updater): `skips` grows by exactly 1 and no other field changes |
| `MetricsRecord.CompletionEffect` | src/MetricsTracker.jsx:91-104 | `Apply` on a completion (the `recordChallengeCompletion` updater): `completedChallenges` grows by 1; exactly one record is appended at the end; earlier records and other fields are untouched |
| `MetricsRecord.ApplyKeepsInvariant` | src/MetricsTracker.jsx:67-104 | each update keeps `errors <= attempts` and `completedChallenges` equal to the log length; counters never decrease; the log is only extended |
| `MetricsRecord.ReplayKeepsInvariant` | src/MetricsTracker.jsx:67-104 | over any history without a reset: the invariant holds, every counter is non-decreasing, the log is append-only, and attempts and records are counted one per event |
| `MetricsRecord.Snapshot` | src/MetricsTracker.jsx:115-123 | `getMetricsData`: the export carries the record unchanged, the export instant, and a duration whose 1000-fold is the time since `startTime` |
| `MetricsRecord.ExportStable` | src/MetricsTracker.jsx:115-123 | two exports with no change in between carry the same record; their durations differ by the time between them |
| `Profiles.WithCompletedQuestion` | src/Python.jsx:178-180 | the question id is appended to `completedQuestions` and no other field changes |
| `Profiles.StreakRule` | src/Python.jsx:192-203 | `UpdateStreak`: same day: unchanged; the day after the last session: one more day; any other or no date: 1; afterwards the last session is today; no other field changes |
| `Profiles.StreakIdempotent` | src/Python.jsx:192-203 | a second mission on the same day leaves the profile as the first left it |
| `Profiles.ConsecutiveDaysGrowStreak` | src/Python.jsx:192-203 | missions on n consecutive days grow the streak by one per day after the first |
| `BrowserStorage.LocalStorage.RemoveStudyKeys` | src/Python.jsx:229-232 | the session, metrics and profile keys are all removed |
| `MetricsTracker.StoredSessionId` | src/MetricsTracker.jsx:22-23 | a stored id is used iff it is present and not the empty string |
| `MetricsTracker.GetSessionId` | src/MetricsTracker.jsx:21-28 | returns the stored id without writing; otherwise stores and returns a freshly generated id; afterwards the store holds the returned id |
| `MetricsTracker.SessionIdIsStable` | src/MetricsTracker.jsx:21-28 | a second lookup returns the same id as the first, and the stored id is that id; an id already stored is never overwritten |
| `MetricsTracker.LoadMetrics` | src/MetricsTracker.jsx:33-44 | fails iff the stored value is non-empty text that is not a record; a stored record is taken unchecked; an absent or empty value gives the fresh record |
| `MetricsTracker.Mount` | src/MetricsTracker.jsx:30-49 | resolves the session id, then loads the record (failing exactly as the parse does, and then writing no record), persists it, and leaves the start cell empty |
| `MetricsTracker.MetricsProvider.constructor` | src/MetricsTracker.jsx:30-49 | the provider holds the id and the initial record, no interval is active, and the stored record equals the in-memory one |
| `MetricsTracker.MetricsProvider.Persist` | src/MetricsTracker.jsx:46-49 | afterwards the stored record equals the in-memory record |
| `MetricsTracker.MetricsProvider.StartMode` | src/MetricsTracker.jsx:52-60 | `standard` or `learning` starts the interval now; any other mode changes nothing |
| `MetricsTracker.MetricsProvider.CompleteMode` | src/MetricsTracker.jsx:63-65 | no interval is active afterwards |
| `MetricsTracker.MetricsProvider.RecordAttempt` | src/MetricsTracker.jsx:68-74 | the record gets the attempt update, the stored copy equals it, and nothing else changes |
| `MetricsTracker.MetricsProvider.RecordSkip` | src/MetricsTracker.jsx:77-82 | the record gets the skip update, the stored copy equals it, and nothing else changes |
| `MetricsTracker.MetricsProvider.RecordChallengeCompletion` | src/MetricsTracker.jsx:85-108 | appends `{id, difficulty, elapsed since the start instant or 0, attempts, now}`; re-arms the start at now; the stored copy equals the record |
| `MetricsTracker.MetricsProvider.StartChallenge` | src/MetricsTracker.jsx:110-112 | the interval starts now |
| `MetricsTracker.MetricsProvider.ExportMetrics` | src/MetricsTracker.jsx:126-139 | returns the snapshot of the current record, named `bitvoyager_metrics_<provider session id>.json`, and changes nothing |
| `MetricsTracker.MetricsProvider.ResetMetrics` | src/MetricsTracker.jsx:142-159 | stores and returns a new id; replaces the record with a fresh zeroed one tagged with it; stores that record |
| `MetricsTracker.CompletionsAreTimedFromThePreviousOne` | src/MetricsTracker.jsx:85-108 | after `startMode` at t0, completions at t1 and t2 take t1 - t0 and t2 - t1; after `completeMode` a completion takes 0 |
| `MetricsTracker.ExportAfterResetNamesTheOldSession` | src/MetricsTracker.jsx:126-158 | after a reset the record carries the new id, but the export file is still named after the provider's mount-time id |
| `Missions.DifficultyLabel` | src/Python.jsx:25 | positions 0..2 map to easy, medium, hard; any other position gives undefined |
| `Missions.Lower` | src/Python.jsx:88 | the lower-cased mode has the same length, with each character lower-cased |
| `Missions.LoadQuestionBank` | src/Python.jsx:31-38 | the loop builds `QuestionBank`: the bank holds exactly the ids in 1..29 whose load did not throw, each mapped to its loaded question |
| `Missions.QuestionsFor` | src/Python.jsx:28-55 | an error value iff the selector returns nothing or throws, and no questions and an empty bank with it; otherwise the selection (even an empty one) and the bank; the error counts as a failure (is truthy) iff the selector returned nothing or threw with a non-empty message |
| `Missions.InitializeQuestions` | src/Python.jsx:28-55 | the loading loop followed by selection produces exactly `QuestionsFor` |
| `Missions.InitialCodeMap` | src/Python.jsx:108-113 | the `forEach` loop builds `CodeMapOf`, the id-to-default-code map with later questions winning |
| `Missions.CodeMapKeys` | src/Python.jsx:108-113 | the keys of `CodeMapOf` are exactly the ids of the selected questions |
| `Missions.InitialCodeIsDefault` | src/Python.jsx:108-113 | when the ids are distinct, each selected question first displays its own default code |
| `Missions.DisplayedCode` | src/Python.jsx:337 | the displayed code is the question's default or its stored draft, and is empty only if the default is empty |
| `Missions.EditIsDisplayed` | src/Python.jsx:221-226 | after an edit the question shows the new code, or its default if the new code is empty |
| `Missions.EditLeavesOthers` | src/Python.jsx:221-226 | an edit leaves every other question's displayed code unchanged |
| `Missions.AdvanceInRange` | src/Python.jsx:186-207 | `Advance`, the shared step: it keeps the index in range; it increments the index iff a question is left, resetting the attempt count; otherwise the mission completes on the last question and the export is offered |
| `Missions.AdvanceStandardLog` | src/Python.jsx:142-161 | `AdvanceStandard`: a standard step appends the position's difficulty iff the question was completed; then it advances by one or completes the mission in place |
| `Missions.StandardRunProgress` | src/Python.jsx:142-161 | through a standard mission the index follows the outcomes; the log lists the labels of exactly the completed positions; the mission completes on the last question after the last outcome |
| `Missions.ThreeCompletedQuestions` | src/Python.jsx:142-161 | three completed questions log easy, medium, hard and complete the mission at index 2 |
| `Missions.LearningOutcome` | src/Python.jsx:163-203 | returns a result iff there is a profile and a question at the index; the skill update gets attempts 0 when skipped, else the count plus one; the completed question's id is appended to the updated profile; before the last question that is the result; on the last question the streak rule follows: same day unchanged, the day after one more day, otherwise 1, the last session becomes today, and no other field changes |
| `Missions.MissionMetricsEffect` | src/Python.jsx:117-133 | `MissionMetrics`: a skip is recorded iff skipped; a record is appended iff the question was completed, not skipped, and exists, and it is `{question id, question difficulty, elapsed since the start instant, the render-time attempts, now}` with `completedChallenges` one higher; otherwise the log and the count are unchanged |
| `Missions.ProgressInfoFor` | src/Python.jsx:355-369 | position 1..total; difficulty from the table in standard mode, else from the question; attempts, completed difficulties and mode passed through; the profile exactly in learning mode; retry and previously-failed flags exactly as the profile says, and only in learning mode |
| `Missions.MissionSession.constructor` | src/Python.jsx:58-73 | no mode, no profile, index 0, no attempts, nothing completed, no questions, no error, empty code map |
| `Missions.MissionSession.SelectMode` | src/Python.jsx:58 | the mode is set |
| `Missions.MissionSession.RunModeEffect` | src/Python.jsx:84-115 | no mode: nothing happens. Otherwise the clock starts for a tracked lower-cased mode; learning mode fetches the profile; the initialisation result is installed on the first run or when its error is truthy; otherwise the installed questions, bank, error and drafts stay |
| `Missions.EmptyMessageKeepsQuestions` | src/Python.jsx:101-114 | a re-run of the effect whose selector throws with an empty message keeps the questions, bank, error and drafts already installed |
| `Missions.MissionSession.TakeQuestions` | src/Python.jsx:102-114 | installs the questions, bank and error, marks the questions initialised, and seeds the code map from the questions |
| `Missions.MissionSession.HandleTestAttempt` | src/Python.jsx:211-214 | `currentAttempts` grows by 1 and the success flag is recorded unchanged |
| `Missions.MissionSession.HandleStandardModeComplete` | src/Python.jsx:142-161 | the progression takes the standard step; the clock is cleared iff the mission completes |
| `Missions.MissionSession.HandleLearningModeComplete` | src/Python.jsx:163-209 | no profile or no question: nothing changes. Otherwise the learned profile is kept and saved, the progression takes the shared step, and the clock is cleared iff the mission completes |
| `Missions.MissionSession.RecordOutcome` | src/Python.jsx:117-133 | the recorder receives the skip and the timed completion as `MissionMetricsEffect` describes; the clock is re-armed iff a completion was recorded |
| `Missions.MissionSession.HandleMissionCompleteWith` | src/Python.jsx:117-140 | records the outcome, then takes the standard branch for `standard` and the learning branch otherwise; the mission completes only on the last question; the clock is cleared when the mission ends, re-armed at the completion instant when a completion was recorded, and otherwise untouched; in standard mode the profile and its stored copy are unchanged |
| `Missions.MissionSession.HandleMissionComplete` | src/Python.jsx:117-140 | as `HandleMissionCompleteWith`, with the current attempt count: the metrics change, the standard step, and in learning mode the profile saved and the step taken exactly as `LearningOutcome` says; the clock is cleared when the mission ends, re-armed at the completion instant when a completion was recorded, and otherwise untouched; in standard mode the profile and its stored copy are unchanged |
| `Missions.MissionSession.HandleSkip` | src/Python.jsx:216-218 | records exactly one skip and no challenge record; in standard mode it advances without logging a difficulty; in learning mode the skill update gets attempts 0 and the profile and step follow `LearningOutcome`; the clock is cleared when the mission ends and otherwise untouched; in standard mode the profile and its stored copy are unchanged |
| `Missions.MissionSession.OnMissionComplete` | src/Python.jsx:346-352 | a completed, non-skipped question first counts as a successful attempt; the completion record uses the render-time attempt count; in learning mode the skill update gets that count plus one, and the profile and step follow `LearningOutcome`; the clock is cleared when the mission ends, re-armed at the completion instant when a completion was recorded, and otherwise untouched; in standard mode the profile and its stored copy are unchanged |
| `Missions.MissionSession.HandleCodeChange` | src/Python.jsx:221-226 | only the edited question's draft changes |
| `Missions.MissionSession.ResetStudy` | src/Python.jsx:229-234 | the three storage keys are removed |
| `Missions.StandardMissionOfThree` | src/Python.jsx:142-161 | three completed standard questions: the log is easy, medium, hard; three records are appended; the mission is complete; the clock is cleared |

## Left out

- Rendering is not modelled: JSX, icons, buttons, `ModeSelection`, `MetricsExportButton`, and the error, completion and "No question available" screens.
- The download mechanics of `exportMetrics` are not modelled: `Blob`, `URL.createObjectURL`, and creating and clicking the anchor. This is browser I/O. Only the returned data and the file name are modelled.
- `JSON.stringify`/`JSON.parse` are abstracted. A stored record is either a serialized record or "other text".
  - Any non-empty other text is modelled as a parse failure, including well-formed JSON of another shape.
  - After a round trip through storage, `startTime` becomes a string, and the reset record stores it as an ISO string. The resulting NaN `duration` is not modelled; `duration` is modelled only for numeric instants.
- Time is simplified. Instants before 1970 (negative timestamps) are not modelled. `Decimal` matches the JavaScript number rendering only below 10^21. `toDateString` and calendar arithmetic become day numbers.
- `Lower` lower-cases only ASCII letters; the Unicode case mapping of `toLowerCase` is not modelled.
- The learning module's own functions keep their bodies outside the model: `selectQuestions`, `updateSkillLevels`, `getUserProfile`, `saveUserProfile` and `PythonQuestion`. Only the profile fields that `Python.jsx` reads or writes are modelled.
- The profile is treated as a value. If `updateSkillLevels` returned the very object it was given, the aliasing would not be visible in this model. Because `setUserProfile` and the streak mutation act on the same object, the final state is the same either way.
- When the mode-initialisation effect runs is not modelled.
  - The effect depends on `startMode`, which is a fresh closure on every provider render. So it also re-runs after every metrics change, and each re-run restarts the challenge clock and re-fetches the learning profile.
  - Only the effect's body is modelled, as `RunModeEffect`.
  - Effect ordering and batching of state updates are not modelled beyond the render-time reading rule.
- `Missions.MissionSession.HandleStandardModeComplete`: "calls `completeMode` exactly once" is stated through its only observable effect, the cleared start instant. Calls are not counted.
- Console output is not modelled: the `console.warn` for a question that fails to load (src/Python.jsx:36) and the `console.error` for an invalid mode (src/MetricsTracker.jsx:54).
- How many times `saveUserProfile` writes is not modelled. On the last learning question the source saves again after the streak update, when the last session was not today; the model states only the final stored profile.
- `MetricsTracker.MetricsProvider.ResetMetrics`: the source reads the clock twice, once in `generateSessionId` and once for `startTime`. The model uses one instant `now` for both.
- `MetricsTracker.Mount`: likewise, the id generated by `getSessionId` and the fresh record's `startTime` come from two clock readings in the source and from one instant `now` in the model.
- `MetricsTracker.MetricsProvider.RecordChallengeCompletion`: the source reads the clock twice, once for the end instant and once to re-arm the start. The model uses one instant `now` for both, so the few milliseconds between the two readings are not modelled.
- `Missions.MissionSession.ResetStudy`: the page reload after the keys are removed is a page lifecycle and is not modelled.
- The retry and "Start New Journey" buttons only reload the page; they are not modelled.
- `handleSuccessfulCompletion` (src/Python.jsx:236-245) is never wired to any event and is not modelled. If it were called, it would record the completion twice: once itself and once more through `handleMissionComplete(true, false)`.
- `useChallengeTiming` (src/MetricsTracker.jsx:185-213), the optional counter wrapper, is not modelled.
- Several tabs writing the same storage concurrently is not modelled; neither is storage being unavailable.
