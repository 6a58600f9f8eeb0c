# vlmcar agent core in Dafny

A model of the sequential logic of a small robot-car agent that asks a
vision-language model what to do next. It covers three pieces:

- **The agent step** (`agent.py`, `run_agent`). Two module-level lists act as
  capacity-bounded FIFO windows: `images` keeps the 3 most recent camera
  frames and `logs` keeps the 3 most recent decisions. `logs` starts as
  `['<START>']`. Each step adds the current image, sends the old logs and the
  new image window to the oracle, and on success adds the decision to the
  logs. A decision (`ResponseType`) is one of four commands plus a note.
- **The camera frame buffer** (`api.py`, `StreamingOutput.write`). It holds a
  single frame and the newest write wins. It also keeps a write counter and
  the time of the last write, and it warns when two frames are more than one
  second apart.
- **The motion primitives** (`api.py`, `LocalRobot`). `forward`, `reverse`,
  `rotate_right` and `rotate_left` each set the four motor duties, wait, and
  stop through `finish`. `move_dist` and `rotate_deg` are meant to choose a
  primitive by the sign of their argument; as written neither moves the
  robot (see Findings). The model has both the code as written and the
  corrected dispatch.

Files:

- `options.dfy`: `Option` and `Result`.
- `window.dfy`: the bounded window as the pure function `Push`. Proved
  against `LastK`, the k most recent items of the full history.
- `agent.dfy`: the command enum and its validation. The class `AgentState`
  has fields `images` and `logs`; its method `RunAgent` is proved against
  the ghost histories of every image and every decision.
- `streaming.dfy`: the class `StreamingOutput`, proved against the pure
  state function `AfterWrite`.
- `motion.dfy`: the class `LocalRobot`. The motor is a trace of accepted
  commands and completed waits. Which step raises an exception is an input
  (`Fault`).

Three facts about the agent step shape the model:

- `run_agent` never executes the decision it receives; only the log window
  changes.
- An `agent.run` failure is not caught in `run_agent`; the exception
  propagates, which `RunAgent` returns as `Failed`.
- `logs` holds the `ResponseType` objects themselves, not rendered text.

## Model

| member | source | states |
|---|---|---|
| `Window.LastK` | agent.py:65-66 | the reference window of the k most recent items holds min(length of s, k) of them |
| `Window.LastKAt` | agent.py:65-66 | the reference window's items are the last ones of the history, in order |
| `Window.Push` | agent.py:70-77 | one append-then-evict step keeps a window within its capacity, with the new item last |
| `Window.PushAll` | agent.py:86-89 | repeated steps keep a window within its capacity |
| `Window.PushKeepsBound` | agent.py:70-77 | if the window was within its capacity it still is; its length grows by one until full; the new item is at the tail and only the single oldest item is dropped |
| `Window.PushDropsAtMostOldest` | agent.py:86-89 | whatever the old length, a push gives the old window plus the new item, or that minus its head |
| `Window.PushLastK` | agent.py:70-77 | pushing onto the k most recent items of a history gives the k most recent items of the extended history |
| `Window.PushAllLastK` | agent.py:86-89 | any run of pushes leaves exactly the k most recent items of everything pushed, in insertion order |
| `Agent.CommandName` | agent.py:44 | every command's wire name is one of the four literals |
| `Agent.ParseCommand` | agent.py:43-45 | a command string is accepted iff it is one of `forward`, `reverse`, `rot_right`, `rot_left` |
| `Agent.CommandRoundTrip` | agent.py:44 | parsing inverts naming, and a string parses to a command iff it is that command's name |
| `Agent.DecodeResponse` | agent.py:43-45 | a raw result decodes iff its command is valid; the decoded command has that name and the notes are kept |
| `Agent.ImageFor` | agent.py:70-75 | an image part has detail `low` and a URL that is the JPEG data-URL prefix followed by exactly the base64 image |
| `Agent.History` | agent.py:68 | the full log history starts with the `<START>` sentinel and has one more entry than there are decisions |
| `Agent.HistoryAt` | agent.py:86 | after the sentinel, the history lists every decision in order |
| `Agent.HistoryAppend` | agent.py:86 | appending a decision extends the full log history by that decision |
| `Agent.SentinelEvictedAfterThreeDecisions` | agent.py:66-68 | the sentinel is in the log window iff fewer than three decisions have been appended |
| `Agent.AgentState.Valid` | agent.py:65-68 | each window is the last 3 of its history, so `images` holds at most 3 and `logs` holds between 1 and 3 |
| `Agent.AgentState.constructor` | agent.py:67-68 | initially `images` is empty and `logs` is exactly `['<START>']` |
| `Agent.AgentState.AppendImage` | agent.py:70-77 | `images` becomes the push of the new image, which joins the image history; the logs are untouched; the invariant is kept |
| `Agent.AgentState.AppendLog` | agent.py:86-89 | `logs` becomes the push of the decision, which joins the decision history; the images are untouched; the invariant is kept |
| `Agent.AgentState.RunAgent` | agent.py:69-89 | the image is pushed first; the oracle sees the old logs and the new image window; on success the decision is pushed onto the logs; on failure the images are already updated and the logs are unchanged; windows keep their bounds |
| `Agent.SentinelScenario` | agent.py:66-89 | over four successful steps from the start, the sentinel is in the first three contexts and not the fourth, which holds three decisions |
| `Agent.ImageWindowScenario` | agent.py:65-85 | over four steps from the start, whatever the oracle answers, the contexts carry the images so far and the fourth only the last three |
| `Streaming.LongInterval` | api.py:39-41 | no gap is long when no earlier write time exists (it is 0) or the clock has not advanced; a long gap exceeds one second |
| `Streaming.AfterWrite` | api.py:33-48 | a write holds `buf`, records `now`, counts one more write, keeps earlier warnings and adds one iff the gap is long, that gap being over one second |
| `Streaming.AfterWrites` | api.py:33-48 | a run of writes, one `write` call after another, counts one write per call and adds at most one warning per call |
| `Streaming.Reachable` | api.py:26-48 | the buffer's invariant: no write yet means the initial state, every reported gap is over one second, and there are fewer warnings than writes, so none before the first write |
| `Streaming.WriteKeepsReachable` | api.py:33-48 | a write keeps the buffer's invariant: every reported gap is over one second, and each write reports at most one gap, the first write none |
| `Streaming.LatestWins` | api.py:33-48 | after any run of writes only the last buffer is held, the counter grew by the number of writes, the time is the last one, and earlier warnings are kept |
| `Streaming.StreamingOutput.constructor` | api.py:26-30 | no frame, write time 0, counter 0, nothing logged |
| `Streaming.StreamingOutput.Valid` | api.py:26-48 | the object's fields satisfy `Reachable`, so before any write there is no frame and no warning |
| `Streaming.StreamingOutput.Write` | api.py:33-54 | the frame becomes `buf`, the counter grows by one, the write time becomes `now`, and a warning is logged iff a previous time exists and the gap exceeds 1.0 s; the first write never warns; the call always completes |
| `Motion.DriveSpeeds` | api.py:124-158 | every drive command is not the stop command, drives both wheels of a side alike, and uses duty 2000 or -2000 per side |
| `Motion.OppositePrimitives` | api.py:124-158 | reverse's duties negate forward's and rotate-left's negate rotate-right's; no drive command is the stop command |
| `Motion.FinishTrace` | api.py:171-176 | `finish` issues only a wait and a stop, and the stop exactly when the wait completes and the stop does not raise |
| `Motion.PrimitiveTrace` | api.py:120-161 | a primitive issues nothing iff its drive command raises, otherwise starts with its drive command, and ends with a stop iff nothing raises |
| `Motion.PrimitiveErrors` | api.py:120-176 | a primitive logs at most one error, none iff nothing raises or the wait is cancelled (`except Exception` does not catch a cancellation), under its own name for a failed drive and under `finish` otherwise |
| `Motion.MotorState` | api.py:124-174 | the duties the motors run at after a trace: the last command issued, or the initial duties if none; always the initial duties or a command in the trace |
| `Motion.PrimitiveDrivesThenStops` | api.py:120-176 | a primitive that completes issues exactly its drive command, waits the duration, then issues exactly one stop `(0,0,0,0)` |
| `Motion.PrimitiveMotorState` | api.py:120-176 | after a completed primitive the motors are stopped; after a failed drive command they are unchanged; after a failed or cancelled wait or a failed stop they keep running at the drive duties |
| `Motion.CancelledWaitLeavesMotorsRunning` | api.py:171-176 | a wait interrupted by a cancellation or keyboard interrupt issues no stop and logs nothing, so the motors are left at the drive duties |
| `Motion.MoveCall` | api.py:138-143 | corrected `move_dist` dispatch: a `forward` or `reverse` call with a non-negative duration |
| `Motion.RotateCall` | api.py:163-169 | corrected `rotate_deg` dispatch: a rotation call with a non-negative duration |
| `Motion.MoveCallSign` | api.py:138-143 | a move reverses iff the distance is negative, for abs(dist) seconds, mirroring the opposite move |
| `Motion.RotateCallSign` | api.py:163-169 | a rotation runs counter-clockwise iff the angle is negative, for abs(degrees)·1.4/180 seconds, mirroring the opposite rotation |
| `Motion.MoveCallAsWritten` | api.py:138-143 | as written, `move_dist` picks the same primitive as the corrected dispatch, agrees with it for non-negative distances, and passes a negative duration otherwise |
| `Motion.EffectiveWait` | api.py:173 | a requested wait runs for its duration when positive and for no time otherwise |
| `Motion.MoveCallAsWrittenReversesForNoTime` | api.py:141 | as written, a negative distance is the duration given to `reverse`, so the wait returns at once; the corrected call waits for abs(dist) |
| `Motion.RotateCallAsWritten` | api.py:163-166 | as written, `rotate_deg` fails with `NameError` on the name `deg` |
| `Motion.RotateCallAsWrittenAlwaysRaises` | api.py:166 | as written, `rotate_deg` raises for every angle and so never yields the corrected rotation call |
| `Motion.LocalRobot.constructor` | api.py:82 | empty trace and error log; motors stopped |
| `Motion.LocalRobot.Motor` | api.py:82 | the motors' current duties: stopped, or a command the motor accepted |
| `Motion.LocalRobot.SetMotorModel` | api.py:124 | a command is recorded iff it does not raise |
| `Motion.LocalRobot.Finish` | api.py:171-176 | waits then stops; an `Exception` in either step is caught, logged once, and ends the call; a cancelled wait escapes with nothing logged and no stop |
| `Motion.LocalRobot.Run` | api.py:120-127 | drive command, then `finish`; a failing drive command is logged under the primitive's name and no stop is issued; a cancelled wait escapes to the caller |
| `Motion.LocalRobot.Forward` | api.py:120-127 | trace gains `(2000,2000,2000,2000)`, a wait, then a stop; the default duration is 1.0; the motors end stopped when nothing raises, unchanged when the drive command raises, and at the drive duties otherwise; it escapes exactly when the wait is cancelled |
| `Motion.LocalRobot.Reverse` | api.py:129-136 | as `Forward`, with `(-2000,-2000,-2000,-2000)` |
| `Motion.LocalRobot.RotateRight` | api.py:145-152 | as `Forward`, with `(2000,2000,-2000,-2000)` and a default duration of 0.4 |
| `Motion.LocalRobot.RotateLeft` | api.py:154-161 | as `Forward`, with `(-2000,-2000,2000,2000)` and a default duration of 0.4 |
| `Motion.LocalRobot.MoveDist` | api.py:138-143 | corrected: runs `reverse` for -dist when dist < 0, otherwise `forward` for dist |
| `Motion.LocalRobot.MoveDistAsWritten` | api.py:138-143 | as written: the primitive's call is built but never awaited, so motors and log are untouched |
| `Motion.LocalRobot.RotateDeg` | api.py:163-169 | corrected: runs `rotate_left` when degrees < 0, otherwise `rotate_right`, for abs(degrees)·1.4/180 s |
| `Motion.LocalRobot.RotateDegAsWritten` | api.py:163-166 | as written: raises `NameError` with motors and log untouched |
| `Motion.MissingAwaitCounterexample` | api.py:141-143 | for every distance, as written the motors see nothing, while the corrected dispatch issues a drive and a stop |

## Left out

- API-key loading, model and agent construction, the system prompt and the printing (agent.py:19-63, 78, 87). These are configuration and I/O.
- The remote inference call `agent.run`. It is a function parameter `oracle` from request to reply. Its internal result validation and retries are not modelled. A different oracle can be passed on every step, so the model has no stand-in for its nondeterminism.
- The rendering of the text part (`Distance from sensor: …\nLogs: …`) and of the content-part types. `Context` carries the distance, the log window and the image parts as values.
- The `__main__` loops in both files, `get_current_frame`, `get_distance`, hardware initialisation and `cleanup`. These are process driving, sensors and the camera library.
- The lock and the condition variable in `StreamingOutput`, and the wake-up of readers. The model only covers the sequential state update, and `time.time()` is the parameter `now`.
- `Streaming.StreamingOutput.Write`: the `except` branch is not modelled. Nothing in the sequential update can raise, so no error path is represented.
- Real `asyncio.sleep` timing. A wait is recorded as an event with its requested duration; `EffectiveWait` says that zero or less returns at once.
- `Motor.setMotorModel` is a recorder of accepted commands. The Motor driver file is not part of this model.
- Python floats (`time.time()`, the durations, `1.4/180`) are Dafny `real`, so rounding is not modelled.
- `Motion.LocalRobot.Motor`: the motors are assumed to start stopped when the robot is created; the driver behind `Motor()` (api.py:82) is not part of this model.
- Exceptions that are not `Exception`s outside the wait. A cancellation or keyboard interrupt is modelled only where the event loop delivers it, in `await asyncio.sleep(dur)` (`SleepCancelled`); one arriving elsewhere is not.
- Debug and error message text. Errors are recorded as the primitive or `finish` that logged them.

## Findings

| source | as written | input that shows it | evidently intended | confidence | as-written member | corrected member |
|---|---|---|---|---|---|---|
| api.py:166 | `rotate_deg` tests the unbound name `deg` | any angle, e.g. `rotate_deg(90)` raises `NameError` | test `degrees < 0` | high, not executed | `Motion.RotateCallAsWrittenAlwaysRaises` | `Motion.RotateCallSign` |
| api.py:141 | `move_dist` and `rotate_deg` call the async primitives without `await` (api.py:141, 143, 167, 169) | `move_dist(1.0)` never moves: the coroutine is dropped | `await self.reverse(...)` / `await self.forward(...)` | high, not executed | `Motion.MissingAwaitCounterexample` | `Motion.LocalRobot.MoveDist` |
| api.py:141 | a negative distance is passed as the duration to `reverse`; `rotate_deg` does the same with a negative `rot_dur` at api.py:167 | `move_dist(-0.5)` would sleep for -0.5 s, so zero time | a duration of `-dist` (and `-rot_dur`) | high, not executed | `Motion.MoveCallAsWrittenReversesForNoTime` | `Motion.MoveCallSign` |
