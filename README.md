# inorbit edge SDK: mission engine, range encoder and field validators

This project models three parts of the InOrbit edge SDK for Python and proves properties of them in Dafny.

- **The mission engine** (`inorbit_edge/missions.py`).
  - `MissionsModule` receives "message" commands from the robot session. It parses the `inorbit_run_mission` and `inorbit_cancel_mission` sub-commands and passes them to a `MissionExecutor`.
  - A `Mission` is built from a parsed JSON program as a list of steps: PublishToTopic, RunScript, NavigateTo, WaitSeconds and SetData.
  - `Mission.execute` runs the steps in order. It publishes a tracking report before each step and one final report after the loop.
  - The robot session appears only as an object that records every `dispatch_command` and every published report. Whether a command raises and whether a waypoint is reached are given as oracles (`SessionEnv`).
- **The range encoder** `encode_floating_point_list` (`inorbit_edge/utils.py`). It turns a list of ranges into the lengths of alternating runs of +inf and finite values, plus the finite values in order.
- **The field validators** of the configuration models (`inorbit_edge/models.py`): `check_quality_range`, `check_positive` and `check_whitespace`, and how they are wired to the fields of `CameraConfig` and `RobotSessionModel`.

Modules:
- `Wrappers`: Option and Result.
- `Json`: parsed JSON values and Python's subscript errors.
- `Text`: `str.split(" ")`, `" ".join` and `str(int)`.
- `Types`: `Pose` and `SpatialTolerance`.
- `Steps`: step construction and what each step dispatches.
- `Reports`: `build_report`.
- `MissionRuns`: what one call of `execute` does, as a function, plus the lemmas about runs.
- `Missions`: the session, `Mission`, `MissionExecutor` and `MissionsModule` as classes whose methods are proved to follow `MissionRuns`.
- `Commands`: command-text parsing.
- `FloatingPointList`: the encoder.
- `Models`: the validators.

The imperative parts stay imperative:
- `Mission.Execute` is a `while` loop over the mission's fields. It is proved against the function `MissionRuns.RunSpec`.
- `EncodeRuns` is the encoder's `for` loop, proved against the function `Encode`.
- The executor and the module are classes whose fields the methods update.

Behaviours of the code that the model keeps as written:
- `run_mission` never stores the mission it starts, so `executor.mission` stays `None`. The single-mission guard never fires. Every accepted cancel raises `AttributeError` when it calls `self.mission.cancel()` on `None` (`Missions.RunThenCancel`).
- `cancel_mission` cancels the current mission even when the id does not match.
- `handle_cancel_mission` checks `len(args) != 1` on the argument *string*, so only one-character mission ids can be cancelled.
- `cancel()` sets the state to "Aborted", the same state a failing step produces. The status stays as it was.
- `success()` of a step is never consulted.
- `command_callback` and `PublishToTopic.execute` treat the message arguments as a string (`inorbit_edge/missions.py:38-40` and `:250`). `inorbit_edge/tests/test_missions.py:85` sends the run request as a list `[message]`, and lines 98 and 103 expect `["hello world"]`. The test and the code disagree here; the model follows the code.
- `completedPercent` is the exact ratio `current_step_idx / len(steps)`. With no steps, the division raises `ZeroDivisionError` in the final report. `execute` then leaves by that exception, and the executor is never set idle again (`MissionRuns.EmptyProgramCrashes`).

## Model

| member | source | states |
|---|---|---|
| Json.Subscript | inorbit_edge/missions.py:138 | `j[key]` succeeds exactly on a dict holding the key and yields its value; a missing key raises KeyError, a non-dict raises TypeError |
| Json.GetOrDefault | inorbit_edge/missions.py:256 | `dict.get(key, default)`: the stored value when the key is present, the default otherwise |
| Text.Split | inorbit_edge/missions.py:39 | `split(" ")` yields at least one field and no field contains a space |
| Text.Join | inorbit_edge/missions.py:40 | `" ".join(parts)` starts with the first field, followed by a space when there are more fields; no fields give "" |
| Text.SplitCount | inorbit_edge/missions.py:69-70 | splitting yields two or more fields exactly when the text contains a space |
| Text.JoinSplit | inorbit_edge/missions.py:39-40 | joining the fields of a split with " " gives back the original text |
| Text.SplitJoin | inorbit_edge/missions.py:73-74 | splitting a " "-join of space-free fields gives back those fields |
| Text.NatToString | inorbit_edge/missions.py:185 | `str(n)` of a non-negative int is a non-empty string of decimal digits |
| Text.ParseNatToString | inorbit_edge/missions.py:187 | the decimal text of `n` reads back as `n` |
| Text.NatToStringInjective | inorbit_edge/missions.py:187 | distinct indices get distinct `str` texts |
| Text.IntToStringNonNegative | inorbit_edge/missions.py:185-187 | `str(i)` of a step index reads back as that index |
| Commands.SplitMessage | inorbit_edge/missions.py:38-40 | `cmd` has no space; with a space in the message `cmd + " " + cmd_args` is the message; without one `cmd` is the whole message and `cmd_args` is "" |
| Commands.Classify | inorbit_edge/missions.py:33-56 | any command name other than "message" is ignored; a run or cancel request carries exactly the text after its sub-command name |
| Commands.ParseRunMission | inorbit_edge/missions.py:67-74 | the run-mission arguments are accepted exactly when they hold a space; the id has no space, and id + " " + program text is the argument string |
| Commands.CancelArgument | inorbit_edge/missions.py:83-87 | a cancel reaches the executor exactly when its argument string has length one, and it passes that one character |
| Commands.RunMissionRoundTrip | inorbit_edge/missions.py:67-74 | a space-free id and any program text survive both the command split and the argument split unchanged |
| Commands.FirstFieldIsPrefix | inorbit_edge/missions.py:38-40 | a space-free head followed by " " and any rest splits back into that head and that rest |
| Commands.CancelNeedsOneCharacter | inorbit_edge/missions.py:83-87 | a cancel message for an id is classified as a cancel of that id, and it is accepted exactly when the id has one character |
| Steps.PublishToTopicFromDef | inorbit_edge/missions.py:252-257 | succeeds exactly when the label and `action.message` are present; the step holds the label, that message and `timeoutMs` or the default |
| Steps.SetDataFromDef | inorbit_edge/missions.py:268-273 | succeeds exactly when the label and `data` are present; the step holds the label, that data and `timeoutMs` or the default |
| Steps.RunScriptFromDef | inorbit_edge/missions.py:286-292 | succeeds exactly when the label, `action.fileName` and `action.args` are present; the step holds them and `timeoutMs` or the default |
| Steps.WaitSecondsFromDef | inorbit_edge/missions.py:302-306 | succeeds exactly when the label and `seconds` are present; the step holds them and always the default timeout -1 |
| Steps.NavigateToFromDef | inorbit_edge/missions.py:310-338 | succeeds exactly when the label, the waypoint with x, y, theta and frameId, and the tolerance with both fields are present; the step holds the label, the `Pose` and `SpatialTolerance` that `__init__` builds from those fields, and `timeoutMs` or the default |
| Steps.BuildStep | inorbit_edge/missions.py:215-226 | a step of each variant is built only from its own tag ("Action" with the action type, or the top-level type) and carries the definition's label; each known tag builds exactly what its own `build_from_def` builds, with the default timeout -1 |
| Steps.BuildStepList | inorbit_edge/missions.py:212 | the list comprehension succeeds exactly when every definition builds, and then holds one step per definition in order |
| Steps.BuildSteps | inorbit_edge/missions.py:209-213 | no "steps" means no steps; a list builds its definitions in order and fails when one fails; an empty dict or string gives no steps; any other value raises TypeError |
| Steps.StepCommands | inorbit_edge/missions.py:249-326 | PublishToTopic, RunScript and NavigateTo dispatch exactly one command; WaitSeconds and SetData dispatch none |
| Steps.DataEffect | inorbit_edge/missions.py:265-266 | a SetData step with a dict merges it into the data: its keys take its values and every other key keeps its value; other steps leave the data alone |
| Steps.NavGoalArgs | inorbit_edge/missions.py:318-326 | the "navGoal" arguments are a list of one dict whose keys are exactly x, y, theta and frameId, holding the waypoint's values |
| Steps.SleepAccepts | inorbit_edge/missions.py:300 | `time.sleep` accepts a non-negative number or a bool and raises for a negative number, null, a string, a list or a dict |
| Steps.TagsBuildTheirVariant | inorbit_edge/missions.py:215-225 | each of the five recognised tags builds its own variant once the fields that variant reads are present |
| Steps.UnknownTagsRaise | inorbit_edge/missions.py:226 | a step type or action type outside the recognised ones raises the unknown-step error |
| Steps.TimeoutDefaultsToMinusOne | inorbit_edge/missions.py:142 | a definition without "timeoutMs" gets -1, and a WaitSeconds step always has -1 |
| Steps.BuildStepCommands | inorbit_edge/missions.py:249-338 | a built step dispatches what its definition names: ("message", action.message), ("customCommand", [action.fileName, action.args]), ("navGoal", [{x, y, theta, frameId}] of the waypoint), and nothing for WaitSeconds and SetData |
| Reports.Tasks | inorbit_edge/missions.py:186-189 | one task per step, in order: task i has id `str(i)` and step i's label |
| Reports.BuildReport | inorbit_edge/missions.py:174-198 | raises ZeroDivisionError exactly when there are no steps; otherwise inProgress and currentTaskId are present exactly while executing, currentTaskId is `str` of the current index, the mission's id, label, start and end times are copied, tasks are the `Tasks` of the steps, and completedPercent is the index over the step count |
| Reports.Ratio | inorbit_edge/missions.py:195 | the exact quotient: times the step count it gives the index; it lies in [0, 1] for an index in range and is 1 exactly at the end |
| Reports.TaskIdsAreIndices | inorbit_edge/missions.py:186-189 | each task id reads back as its position, so task ids are distinct and in step order |
| MissionRuns.Iteration | inorbit_edge/missions.py:156-167 | one loop pass never changes the mission's id, label, start, end or steps |
| MissionRuns.Iterations | inorbit_edge/missions.py:155-167 | the loop never changes the mission's id, label, start, end or steps |
| MissionRuns.StepOutcomeCases | inorbit_edge/missions.py:249-330 | only NavigateTo can wait for ever; a dispatching step raises exactly when its dispatch raises; NavigateTo returns exactly when the dispatch succeeds and the waypoint is reached; WaitSeconds returns exactly when `time.sleep` accepts its argument; SetData exactly when its payload is a dict |
| MissionRuns.Finish | inorbit_edge/missions.py:168-171 | after the loop a still-executing mission becomes Completed one step further on, any other state is kept, and the end timestamp is set |
| MissionRuns.RunSpec | inorbit_edge/missions.py:153-172 | a whole `execute` call always ends (finished, crashed or hung) and changes only the end timestamp among the mission's fixed fields |
| MissionRuns.ReportBefore | inorbit_edge/missions.py:158-160 | the report before step j of an undisturbed run is in progress, Executing, has currentTaskId str(j), completedPercent j/len(steps) and the data after the first j steps |
| MissionRuns.StepReports | inorbit_edge/missions.py:155-160 | the undisturbed run's reports before steps 0..k-1, one per step, in order |
| MissionRuns.IterationsSettled | inorbit_edge/missions.py:156-157 | once the loop has stopped, the remaining iterations change nothing |
| MissionRuns.IterationsUndisturbed | inorbit_edge/missions.py:155-167 | while every step returns and nobody cancels, the loop runs the steps strictly in order, dispatching their commands and reporting before each |
| MissionRuns.NextIteration | inorbit_edge/missions.py:156-167 | after an undisturbed prefix, step k's outcome decides the state: raising gives Aborted/Error; returning, or waiting for ever (which hangs), keeps Executing unless a cancel came during the step, which gives Aborted |
| MissionRuns.CompletedReport | inorbit_edge/missions.py:174-198 | the final report of a completed mission is not in progress, has no current task and is 100% complete |
| MissionRuns.UndisturbedLoop | inorbit_edge/missions.py:155-167 | in an undisturbed run the loop visits every step and leaves the mission Executing at the last step |
| MissionRuns.CompletedRun | inorbit_edge/missions.py:153-172 | if no step raises and nobody cancels, the run finishes Completed with the status unchanged, current_step_idx == len(steps), end_ts set, all commands in order, one report per step and exactly one final 100% report |
| MissionRuns.EmptyProgramCrashes | inorbit_edge/missions.py:195 | with no steps nothing is dispatched or published: the final report divides by zero |
| MissionRuns.FailedRun | inorbit_edge/missions.py:162-172 | a step that raises leaves the mission Aborted with status Error at that step; no later step dispatches, and the final report is still published |
| MissionRuns.CancelledRun | inorbit_edge/missions.py:206-207 | a cancel during step k stops the loop before step k+1 with state Aborted and the status unchanged, and the final report is published |
| MissionRuns.HungRun | inorbit_edge/missions.py:327-330 | a NavigateTo step whose waypoint is never reached keeps the run waiting with no final report; the state is Executing, or Aborted when a cancel came while it waits |
| Missions.NewMission | inorbit_edge/missions.py:136-148 | constructing a mission succeeds exactly when the program is a dict with a label whose steps build; it then starts Starting/OK at index -1 with no data; no "steps" means no steps |
| Missions.Mission.constructor | inorbit_edge/missions.py:136-148 | a new mission starts Starting, status OK, index -1, no current step, no end time and empty data |
| Missions.Mission.SetData | inorbit_edge/missions.py:150-151 | `dict.update`: the payload's keys take its values and every other key keeps its value |
| Missions.Mission.Cancel | inorbit_edge/missions.py:206-207 | cancelling sets the state to Aborted and changes no other field |
| Missions.Mission.PublishReport | inorbit_edge/missions.py:200-204 | publishes the built report, or raises and publishes nothing when there are no steps |
| Missions.Mission.AwaitWaypoint | inorbit_edge/missions.py:327-330 | the polling loop returns exactly when the session reports the waypoint reached within the observed polls |
| Missions.Mission.ExecuteStep | inorbit_edge/missions.py:249-330 | running a step dispatches exactly its commands, publishes nothing, applies its data effect only when it returns, and ends as the session oracles decide |
| Missions.Mission.ExecuteIteration | inorbit_edge/missions.py:156-167 | one pass of the loop body moves the mission, the commands and the reports exactly as one iteration of the run specification |
| Missions.Mission.RunSteps | inorbit_edge/missions.py:155-167 | the loop of `execute` follows the specification's iterations, and it reports a hang exactly when a waypoint is never reached |
| Missions.Mission.Conclude | inorbit_edge/missions.py:168-172 | the end of `execute` finishes the mission and publishes the final report, or crashes when building it raises |
| Missions.Mission.Execute | inorbit_edge/missions.py:153-172 | the mission's final state, the commands dispatched, the reports published and how the call ends are exactly those of `RunSpec` |
| Missions.MissionExecutor.constructor | inorbit_edge/missions.py:96-103 | a new executor holds no mission and is idle |
| Missions.MissionExecutor.RunMission | inorbit_edge/missions.py:105-115 | with a mission recorded nothing happens; otherwise the mission runs as `RunSpec` says, the executor is idle again only if the run finished, and no mission is ever recorded |
| Missions.MissionExecutor.CancelMission | inorbit_edge/missions.py:125-133 | with no mission recorded the cancel raises AttributeError and changes nothing; otherwise the recorded mission is aborted whatever id was given, with its other fields unchanged, then forgotten, and the executor is idle |
| Missions.Launch | inorbit_edge/missions.py:67-80 | a mission starts exactly when the argument check, the parse and the construction all succeed, and it is the mission the construction builds, with the request's id |
| Missions.MissionsModule.constructor | inorbit_edge/missions.py:27-31 | a new module owns a fresh idle executor on the same session, with no mission |
| Missions.MissionsModule.CommandCallback | inorbit_edge/missions.py:33-56 | non-message commands and pause, resume and event do nothing; run requests launch and run a mission; an accepted cancel aborts the recorded mission (other fields unchanged) and leaves the executor idle, or raises AttributeError with none; a rejected cancel changes nothing; every command other than an accepted cancel leaves the recorded mission untouched; only a run dispatches or publishes |
| Missions.MissionsModule.HandleRunMission | inorbit_edge/missions.py:67-81 | a failed argument check, parse or construction starts nothing; otherwise the executor runs the mission |
| Missions.MissionsModule.HandleCancelMission | inorbit_edge/missions.py:83-87 | an argument string whose length is not one changes neither the executor nor its recorded mission; otherwise the executor's cancel runs: the recorded mission is aborted with its other fields unchanged and the executor is idle, or AttributeError is raised |
| Missions.RunThenCancel | inorbit_edge/missions.py:105-111 | after any run-mission command, cancelling that same mission raises AttributeError, because the executor never records the missions it starts |
| FloatingPointList.Extend | inorbit_edge/utils.py:17-27 | one more element lengthens the open run when it is of that run's kind, and otherwise opens a run of one of its own kind |
| FloatingPointList.ExtendSums | inorbit_edge/utils.py:17-27 | each element adds one to the run total and keeps the finite runs in step with the values |
| FloatingPointList.ExtendCanonical | inorbit_edge/utils.py:17-27 | processing an element keeps every later run non-empty and the finite runs equal to the value count |
| FloatingPointList.Encode | inorbit_edge/utils.py:12-29 | there is always at least one run, and the last run's kind is that of the last element |
| FloatingPointList.EncodeCanonical | inorbit_edge/utils.py:38-44 | every run after the first is at least one, and the odd-indexed runs sum to the number of values |
| FloatingPointList.EncodeCoversList | inorbit_edge/utils.py:32-36 | the runs sum to the length of the list |
| FloatingPointList.EncodeKeepsFiniteValues | inorbit_edge/utils.py:26-27 | the values are exactly the elements other than +inf, in their original order |
| FloatingPointList.EncodeFirstRun | inorbit_edge/utils.py:12-29 | the first run counts the leading +inf elements: it is 0 exactly when the list starts with a finite value, and the empty list encodes as runs [0] and no values |
| FloatingPointList.DecodeEncode | inorbit_edge/utils.py:4-8 | expanding the runs alternately as +inf copies and consecutive values gives back the input exactly |
| FloatingPointList.EncodeDecode | inorbit_edge/utils.py:4-8 | every encoding meeting the three checked invariants is the encoding of what it decodes to, so the representation is unique |
| FloatingPointList.SelfCheck | inorbit_edge/utils.py:32-44 | the three checks pass exactly when the runs sum to the length, no later run is empty and the finite runs count the values; a bad sum is reported first |
| FloatingPointList.SelfCheckPasses | inorbit_edge/utils.py:32-44 | none of the three `raise` statements can be reached |
| FloatingPointList.EncodeStep | inorbit_edge/utils.py:16-27 | one loop pass over the open run: the same kind lengthens it, the other kind closes it and opens a run of one |
| FloatingPointList.EncodeRuns | inorbit_edge/utils.py:12-29 | the loop and the closing append produce exactly `Encode` of the input |
| FloatingPointList.EncodeFloatingPointList | inorbit_edge/utils.py:4-46 | the encoder never raises, returns the encoding of the input, which meets the three invariants and decodes back to the input |
| Models.CheckQualityRange | inorbit_edge/models.py:36-55 | None or 1..100 passes unchanged; anything else fails with "Must be between 1 and 100" |
| Models.CheckPositive | inorbit_edge/models.py:58-76 | None or a value above zero passes unchanged; zero and negatives fail with "Must be positive and non-zero" |
| Models.ContainsWhitespace | inorbit_edge/models.py:124 | true exactly when some character is whitespace |
| Models.CheckWhitespace | inorbit_edge/models.py:109-126 | None, the empty string and any value without whitespace pass unchanged; a value with a whitespace character fails with "Whitespaces are not allowed" |
| Models.ValidateCamera | inorbit_edge/models.py:30-76 | a camera config is valid exactly when quality is in range and rate and scaling are positive (each when given); errors name only those fields |
| Models.ValidateSession | inorbit_edge/models.py:99-126 | a session model is valid exactly when robot_id, robot_name and the two keys (when given) have no whitespace; every error is the whitespace message |
| Models.ValidatorsIdempotent | inorbit_edge/models.py:53-55 | each validator applied to what it accepted accepts it again unchanged |
| Models.SpaceRejected | inorbit_edge/models.py:124-125 | a value with a space anywhere in it is rejected |

## Left out

- Threads and locks: `run_mission` runs the mission to the end of `execute` before it returns. A `cancel()` from another thread is given as the set of step indices during which it arrives. It sets the state to Aborted when that step's `execute` returns or while a NavigateTo step keeps polling; the loop sees it at its next check. Where exactly inside a step the write lands is not modelled, since no step reads the state. `wait_until_idle` is not modelled.
- Time: `time.time()` readings are parameters (`startTs`, `endTs`). `time.sleep(5)` between report and step, and `time.sleep(1)` between waypoint polls, take no time in the model.
- Steps.SleepAccepts: it keeps only the argument check of `time.sleep`. A negative number raises, and so does a non-number other than a bool. The model accepts every number of zero or more. `time.sleep` also raises OverflowError for infinity (which `json.loads` yields for `Infinity` or `1e400`) and for a duration whose nanosecond count overflows a 64-bit integer (about 9.2e9 seconds); the model does not. `time.sleep(nan)` raises ValueError, but a JSON number here is a real, so NaN and ±inf cannot be written at all.
- `json.loads` is a parameter: a parse that raises is `None`.
- Logging and `print` calls have no modelled effect.
- The robot session's `dispatch_command`, `publish_key_values` and `reached_waypoint` have no implementation here. The session records the calls, and `SessionEnv` decides whether a dispatch raises and whether a waypoint is reached.
- SessionEnv: whether a dispatch raises depends only on the command, and whether a waypoint is reached depends only on the pose, the tolerance and the poll number. Two equal commands therefore always have the same outcome, and two NavigateTo steps to the same pose see the same polls. A real session may fail a command once and accept it later; runs of that kind are not covered.
- `register_command_callback` (`inorbit_edge/missions.py:30`) is not modelled: `MissionsModule.CommandCallback` is called directly.
- Missions.Mission.AwaitWaypoint: it observes only the first `maxPolls` polls of the session oracle. A waypoint not reached by then counts as never reached, so the mission hangs.
- Reports carry a snapshot of the mission's data. Later mutation of the shared dict is not visible in reports already published.
- SetData steps treat a payload that is not a JSON object as raising. Python's `dict.update` also accepts an empty string, an empty list or a list of key/value pairs.
- `completedPercent` is an exact rational, not a float. The `else` branch at `inorbit_edge/missions.py:196-197` is unreachable, because the index is always an int.
- `MissionExecutor.state` (`"idle"`) is never read and is not modelled. `handle_pause`, `handle_resume` and `handle_event` are empty and appear only as requests that do nothing.
- The `options` argument of `command_callback` is never read and is not modelled.
- Step timeouts (`timeoutMs`) are carried but never enforced, as in the code.
- FloatingPointList: elements are `PosInf` or a finite real. -inf and NaN count as "not +inf", which is all the code tests. Floating-point formatting of the exception texts is not modelled; the three error cases are proved unreachable.
- Models.CheckPositive, Models.ValidateCamera: `scaling` is a real here, so NaN and ±inf are not modelled. The source accepts NaN for `scaling`, because `value <= 0` is false for NaN (`inorbit_edge/models.py:74`). The row's "exactly when scaling is positive" therefore holds only for the values the model can represent.
- Models: pydantic's coercion of inputs, the URL types, `use_ssl` and the environment-variable defaults of `RobotSessionModel` are not modelled. The validators receive already-typed values. `rate` is an int checked by the positivity check through its real value.
- Models.IsSpace lists the characters for which Python's `str.isspace` holds in Unicode. No character database is consulted.
- `inorbit_edge/robot.py`, `video.py`, `metrics.py` and the demo scripts are not part of this model.
