# PowerCore control core, modelled in Dafny

This project models the control and state logic of the `PowerCore` object in
`klippy/extras/powercore.py`, an extension for a wire-handling machine tool built
on the Klipper firmware host. The object does three things:

- **Move segmentation.** `split_move` cuts one commanded linear move into
  `ceil(move_d / move_split_dist)` sub-moves. The sub-moves chain from the
  current position to exactly the requested end point.
- **Feed scaling.** A PID loop follows the duty cycle of a power sensor.
  While scaling is enabled, every sub-move's speed is replaced by the PID
  output mapped linearly into the configured feed range `[min, max]`
  (mm/min), divided by 60. Sub-moves go to the motion executor (the
  toolhead) front first, and the first executor error ends the run.
- **Wire tension.** A second PID loop follows a load cell. It drives the
  non-primary wire actuator with `round(output * 255)`. The primary actuator
  takes only the manual `SET_WIRE_FEED` command. While the loop is off, that
  command sets both actuators.

Modules, one file each:

- `wrappers.dfy`: `Option` and `Result`.
- `rounding.dfy`: Python's `round` (ties to even), `round(x, 3)` and
  `math.ceil`, on exact reals.
- `segmentation.dfy`: `Segment`, the segment count, the rounded waypoint
  grid, the reference definition `Segments`, and the loop `SplitMove`.
- `pid.dfy`: the PID controller. The control law is opaque and its output
  is clamped to the output limits `(0, 1)`. Reset forgets the readings.
- `motion.dfy`: the feedrate mapping and the move check. Also `Execute`,
  the reference definition of what a run of sub-moves queues, with lemmas
  about it, and the executor as a sink (`Toolhead`).
- `wire.dfy`: routing between the two actuators (`OtherOf`, `AutoTarget`,
  `ManualTargets`), the `0..255` tension command, and the actuator sink
  (`WireMover`).
- `powercore.dfy`: the `PowerCore` class with its fields, its callbacks and
  its commands. Also `Reporter`, a sink that records error replies and the
  `gcode:command_error` event.
- `scenarios.dfy`: what a caller can conclude from the contracts in a few
  end-to-end situations.

The PID controllers, the two actuators, the executor and the reporter are
objects. The methods that change them carry `modifies` clauses and state the
whole new state. Each of those methods is tied to a pure function that
defines its result (`CheckMove`, `Execute`, `Segments`, `UpdateFeedRange`,
`TensionCommand`, `ManualTargets`). The properties are proved as lemmas
about those functions.

Choices the code forces on the model:

- **The PID output starts unset.** `self.output` is first assigned at
  line 226, in the duty-cycle callback. The model keeps the output as an
  `Option`, starting at `None`. A scaled move that reads it before the
  first duty-cycle sample fails with `OutputUnset`. This is the
  AttributeError of line 302, which `execute_moves` does not catch.
- **A zero-length move fails.** With scaling on, a zero-length move gives
  `ceil(0 / L) = 0` segments and then `0 / 0` at line 356. `Move` returns
  `Raised(ZeroDistance)` in that case.
- **The tension loop starts enabled** (line 121), while feed scaling starts
  disabled (line 101).
- **A PID call always returns an output.** `simple_pid` returns its last
  output when it is called too soon, so the model's `Update` always
  returns one. The model has no throttling (see below).
- **The output can change during a run.** Each `toolhead.move` at line 319
  runs `check_move`, which reads `self.output` again (line 302). Between
  sub-moves, `reactor.pause` (line 329) lets `pwm_in_callback` run. The
  model therefore takes, as a parameter, the duty-cycle samples that arrive
  in the pause after each queued sub-move (`pauses(i)`). It checks each
  sub-move against the output stored at that moment (`SeenOutputs`).
- **The wire actuators have no executor.** The actuators are built with
  `self.toolhead`, which is still `None` at that point (lines 26 and
  122-135). The connect handler (line 237) rebinds only the core's own
  reference, so `set_speed` fails at line 413. The class models the
  evidently intended actuator that records each speed; the code as written
  is modelled beside it (see "## Findings").

## Model

| member | source | states |
|---|---|---|
| `Rounding.RoundHalfEven` | klippy/extras/powercore.py:182 | Python `round` lands within 1/2 of its argument |
| `Rounding.RoundHalfEvenWithin` | klippy/extras/powercore.py:182 | rounding a value inside an integer interval stays inside it |
| `Rounding.Round3` | klippy/extras/powercore.py:358-361 | `round(x, 3)` moves a coordinate by at most 1/2000 |
| `Rounding.Ceil` | klippy/extras/powercore.py:355 | `math.ceil` is the least integer not below its argument |
| `Segmentation.SegmentCount` | klippy/extras/powercore.py:353-355 | for a positive distance and split length the count `n = ceil(d/L)` is at least 1, with `(n-1)*L < d <= n*L` |
| `Segmentation.Advance` | klippy/extras/powercore.py:367-370 | one rounded step keeps the direction's dimension, each coordinate within 1/2000 of `start + len*v` |
| `Segmentation.Waypoint` | klippy/extras/powercore.py:364-371 | the point after `k` rounded steps has the position's dimension; its distance from the exact point is bounded by `WaypointDrift` |
| `Segmentation.WaypointDrift` | klippy/extras/powercore.py:364-373 | after `k` rounded steps each coordinate is within `k/2000` of the exact point, the drift the forced last end discards |
| `Segmentation.Segments` | klippy/extras/powercore.py:355-374 | the move is cut into exactly `ceil(d/L)` sub-moves; the chain shape is stated by `SegmentsFormChain` |
| `Segmentation.SegmentsFormChain` | klippy/extras/powercore.py:355-374 | `ceil(d/L)` sub-moves; the first starts at the start, each starts where the previous ended, the last ends exactly at the end, all at the input speed, and inner joints lie on the rounded waypoint grid |
| `Segmentation.SplitMove` | klippy/extras/powercore.py:346-376 | the append loop plus the overwrite of the last end yields exactly `Segments`, so it has the count, chain, endpoint and speed properties |
| `Pid.LawOutput` | klippy/extras/powercore.py:85-93 | the controller output always lies within the output limits `[0, 1]` |
| `Pid.PidController.Update` | klippy/extras/powercore.py:180 | a call records the reading (with the gains and setpoint in force) and returns the clamped output in `[0, 1]` |
| `Pid.PidController.Reset` | klippy/extras/powercore.py:214 | reset forgets the readings; setpoint and gains stay |
| `Motion.ScaledFeedrate` | klippy/extras/powercore.py:304-308 | PID output 0 gives `min/60` and output 1 gives `max/60` |
| `Motion.ScaledFeedrateInRange` | klippy/extras/powercore.py:301-309 | an output in `[0, 1]` with `min <= max` gives a speed in `[min/60, max/60]` |
| `Motion.ScaledFeedrateMonotone` | klippy/extras/powercore.py:304-306 | a larger PID output never gives a slower feedrate |
| `Motion.CheckMove` | klippy/extras/powercore.py:294-309 | a move that passes the check was accepted by the executor's own check and keeps its start and end |
| `Motion.CheckMoveCases` | klippy/extras/powercore.py:294-309 | the executor's check always runs first; with scaling off an accepted move is unchanged; with scaling on it fails exactly when no output exists and otherwise keeps its geometry and gets the scaled speed and adjustment acceleration |
| `Motion.Execute` | klippy/extras/powercore.py:314-333 | a run queues at most one move per sub-move; it completes exactly when every sub-move was queued, and a stopped run stops at the index of the first sub-move not queued |
| `Motion.ExecuteInOrder` | klippy/extras/powercore.py:314-319 | sub-moves are queued front first, the `k`-th queued move being the `k`-th sub-move sent from where the previous one ended |
| `Motion.ExecuteStopsAtFirstFailure` | klippy/extras/powercore.py:314-333 | a stopped run stops at the first sub-move whose check, against the output stored when it was sent, failed, and nothing after it is queued |
| `Motion.ExecuteScaled` | klippy/extras/powercore.py:301-319 | with scaling on, every queued sub-move of any run, completed or stopped, found an output when it was sent and got the feedrate scaled from that output and the adjustment acceleration; an output in `[0, 1]` puts the speed in `[min/60, max/60]` |
| `Motion.ExecuteCompletes` | klippy/extras/powercore.py:314-333 | a run completes when the executor accepts each of its own sub-moves, sent from where the previous one ended, and, with scaling on, an output is stored at every submission |
| `Motion.ScaledMoveQueuesChain` | klippy/extras/powercore.py:335-338 | end to end with scaling on, an output in `[0, 1]` stored at each submission and an executor that accepts each sub-move of `Segments` from where the previous one ended: `ceil(d/L)` queued moves chained from the current position to exactly the requested end, each at the feedrate scaled from its own output, within the speed band |
| `Motion.Toolhead.Queue` | klippy/extras/powercore.py:319 | the executor's queue grows by exactly the move and its commanded position becomes the move's end |
| `Wire.OtherOf` | klippy/extras/powercore.py:183-186 | the other actuator differs from the given one |
| `Wire.PrimaryOf` | klippy/extras/powercore.py:136 | the sender is primary exactly when `sender_is_primary` |
| `Wire.AutoTarget` | klippy/extras/powercore.py:183-186 | the automatic loop drives the non-primary actuator: the receiver exactly when the sender is primary |
| `Wire.ManualTargets` | klippy/extras/powercore.py:188-199 | `SET_WIRE_FEED` sets both actuators while the loop is off and only the primary one while it runs |
| `Wire.SourcesNeverShareAnActuator` | klippy/extras/powercore.py:183-199 | while the loop runs, an actuator is left to the manual command exactly when it is not the automatic loop's target |
| `Wire.TensionCommand` | klippy/extras/powercore.py:181-182 | `round(output*255)` of an output in `[0, 1]` lies in `[0, 255]`; output 0 gives 0 and output 1 gives 255 |
| `Wire.SetSpeedAsWritten` | klippy/extras/powercore.py:412-414 | `set_speed` as written fails exactly when the actuator has no executor; with one it records the speed |
| `Wire.WireMover.SetSpeed` | klippy/extras/powercore.py:412-414 | the actuator's newest command is the given speed (the evidently intended actuator, see Findings) |
| `PowerCoreModel.UpdateFeedRange` | klippy/extras/powercore.py:244-256 | missing MIN/MAX default to the current values; the update is refused exactly when MIN > MAX, and an accepted range is the requested one |
| `PowerCoreModel.FeedRangeStaysOrdered` | klippy/extras/powercore.py:69-74 | from an ordered range (guaranteed by the option bounds), the range after the command is still ordered |
| `PowerCoreModel.ReportedOutcome` | klippy/extras/powercore.py:330-333 | only an executor `gcode.error` is caught by `execute_moves`; any other fault escapes |
| `PowerCoreModel.RunNotices` | klippy/extras/powercore.py:330-333 | the error reply and the command-error event are emitted exactly on a caught executor error |
| `PowerCoreModel.Reporter.Emit` | klippy/extras/powercore.py:331-332 | the notices grow by exactly the given ones, in order |
| `PowerCoreModel.LoopAfter` | klippy/extras/powercore.py:223-226 | the callbacks of a batch of duty-cycle samples leave the scaling flag, the control law, the gains and the setpoint as they were |
| `PowerCoreModel.LoopAfterAppend` | klippy/extras/powercore.py:223-226 | two batches of samples in a row have the same effect as one batch of both, so the callbacks of a whole run compose |
| `PowerCoreModel.SeenOutputsWithinLimits` | klippy/extras/powercore.py:223-226 | the output a sub-move is checked against lies within the output limits, and once set it stays set for the rest of the run |
| `PowerCoreModel.RunStaysInFeedRange` | klippy/extras/powercore.py:301-333 | with scaling on and an ordered range, every queued sub-move of a run fed by duty-cycle samples in its pauses is at the feedrate scaled from the output stored when it was sent, within `[min/60, max/60]`, however many samples each pause brings and however the run ends |
| `PowerCoreModel.RunStep` | klippy/extras/powercore.py:315-333 | one pass of the run: the front sub-move is checked against the output stored at its submission; a failure is where `Execute` stops, a success queues it and moves the run one sub-move on |
| `PowerCoreModel.WireTensionCallbackAsWritten` | klippy/extras/powercore.py:176-186 | a load-cell batch that raises leaves the actuator's commands as they were; with the loop off nothing changes |
| `PowerCoreModel.WireTensionCallbackRaisesAsWritten` | klippy/extras/powercore.py:176-186 | as written, every batch with the loop on raises after the wire PID took the last sample, and the actuator is never set |
| `PowerCoreModel.WireTensionCallbackWithExecutor` | klippy/extras/powercore.py:176-186 | with an executor the batch completes: the wire PID takes the last sample and the automatic target gets `round(output*255)` |
| `PowerCoreModel.ManualFeedCalls` | klippy/extras/powercore.py:188-199 | the actuators `SET_WIRE_FEED` calls are exactly those of `ManualTargets` |
| `PowerCoreModel.SetSpeedsAsWritten` | klippy/extras/powercore.py:188-199 | a sequence of `set_speed` calls raises exactly when there is no executor and at least one call |
| `PowerCoreModel.SetWireFeedSetsNothingAsWritten` | klippy/extras/powercore.py:188-199 | as written, `SET_WIRE_FEED` raises and sets no actuator, although at least one is meant to be set |
| `PowerCoreModel.SetWireFeedWithExecutor` | klippy/extras/powercore.py:188-199 | with an executor, `SET_WIRE_FEED` sets exactly the actuators of `ManualTargets` and does not raise |
| `PowerCoreModel.PowerCore.constructor` | klippy/extras/powercore.py:66-136 | start-up state: scaling off, output unset, tension loop on, feed range and setpoints from the options, fresh PIDs with no readings |
| `PowerCoreModel.PowerCore.WireTensionCallback` | klippy/extras/powercore.py:161-186 | loop off: nothing changes; loop on: only the last sample goes to the wire PID and only the non-primary actuator gets `round(output*255)`, in `[0, 255]`; an empty batch fails with nothing changed |
| `PowerCoreModel.PowerCore.SetWireFeed` | klippy/extras/powercore.py:188-200 | exactly the actuators in `ManualTargets` get the speed; the others are untouched |
| `PowerCoreModel.PowerCore.SetWireTensionTarget` | klippy/extras/powercore.py:202-206 | the wire PID setpoint becomes the target, without a reset |
| `PowerCoreModel.PowerCore.EnableWireTensionLoop` | klippy/extras/powercore.py:208-217 | the flag becomes `ENABLE != 0`; the wire PID is reset exactly when the flag is set |
| `PowerCoreModel.PowerCore.ResetWireTensionPid` | klippy/extras/powercore.py:219-221 | the wire PID is reset |
| `PowerCoreModel.PowerCore.EnableScaling` | klippy/extras/powercore.py:287-289 | the feedrate PID is reset and scaling is on |
| `PowerCoreModel.PowerCore.DisableScaling` | klippy/extras/powercore.py:291-292 | only the scaling flag changes, to off |
| `PowerCoreModel.PowerCore.PwmInCallback` | klippy/extras/powercore.py:223-226 | scaling off: output and PID untouched; scaling on: the sample goes to the feedrate PID and its output becomes the stored output |
| `PowerCoreModel.PowerCore.ResetFeedratePid` | klippy/extras/powercore.py:258-260 | the feedrate PID is reset |
| `PowerCoreModel.PowerCore.SetTargetDutyCycle` | klippy/extras/powercore.py:262-266 | the target (defaulting to the current one) becomes the feedrate PID setpoint |
| `PowerCoreModel.PowerCore.SetPidParams` | klippy/extras/powercore.py:268-273 | the gains become the given ones, each missing gain keeping its value |
| `PowerCoreModel.PowerCore.SetFeedRange` | klippy/extras/powercore.py:244-256 | an accepted range replaces both fields; a refused one leaves them and is reported; `min <= max` is kept |
| `PowerCoreModel.PowerCore.SubmitMove` | klippy/extras/powercore.py:294-299 | one executor call: the move from the commanded position is checked and queued exactly when `CheckMove` succeeds |
| `PowerCoreModel.PowerCore.ReportFault` | klippy/extras/powercore.py:330-333 | the `except` clause: a caught error is reported and raises the event; others escape |
| `PowerCoreModel.PowerCore.Pause` | klippy/extras/powercore.py:329 | the duty-cycle callbacks that run during a pause bring the feedrate loop to `LoopAfter` of the samples, and the controller stays valid |
| `PowerCoreModel.PowerCore.SubmitAndPause` | klippy/extras/powercore.py:318-329 | a sub-move is queued exactly when `CheckMove` on the current state succeeds, and only then does the run pause and take the samples; a failed call changes neither the executor nor the feedrate loop |
| `PowerCoreModel.PowerCore.SubmitNext` | klippy/extras/powercore.py:315-333 | one pass of the loop keeps the run in step with `Execute`, or ends it where `Execute` stops with the executor and the loop as the queued moves left them |
| `PowerCoreModel.PowerCore.ExecuteMoves` | klippy/extras/powercore.py:314-333 | the executor's queue grows by exactly what `Execute` queues when each sub-move is checked against the output the duty-cycle callbacks stored before it; the commanded position ends at the last queued end; the outcome and notices follow how the run ended; the feedrate loop has taken exactly the samples of the pauses after the queued sub-moves |
| `PowerCoreModel.PowerCore.Move` | klippy/extras/powercore.py:335-340 | scaling off: exactly one executor call with the unmodified `(newpos, speed)` and the feedrate loop untouched; scaling on: the sub-moves of `Segments` from the commanded position are executed as `ExecuteMoves` states; a zero-length scaled move fails and changes nothing |
| `Scenarios.TenMillimetreMoveInFiveSubMoves` | klippy/extras/powercore.py:335-376 | with an executor that accepts every move, a 10 mm move along X with 2 mm segments is queued as five sub-moves from the origin ending at 2, 4, 6, 8 and exactly 10 mm, each at the feedrate scaled from the output stored when it was sent, within the speed band |
| `Scenarios.TenMillimetreSegmentEnds` | klippy/extras/powercore.py:362-373 | a 10 mm move along X with 2 mm segments has five sub-moves whose inner ends are exactly 2, 4, 6 and 8 mm |

## Left out

- The PID internals of `simple_pid` are not modelled: gains arithmetic, the integral, anti-windup, sample-time throttling (which returns the previous output when called too soon), the time source and `auto_mode`. The library is not part of this model. The controller is an opaque control law over the readings since the last reset, clamped to `[0, 1]`.
- Pid.PidController.Update: states only the clamp to `[0, 1]` and what is recorded, not the value of the output, because the control law is not part of this model.
- The sensor drivers (`PowerCorePWMReader`, the load-cell setup) are I/O. They become the arguments of `PwmInCallback` and `WireTensionCallback`.
- `GET_POWERCORE_DUTY_CYCLE` (lines 275-277) only reads the PWM sensor and replies. It is sensor I/O.
- The pin driver behind `WireMover` is I/O. An actuator records the speeds it was set to.
- Wire.WireMover.SetSpeed: records every speed it is given. As written, every call fails at line 413, because the actuator holds no executor. So `PowerCore.WireTensionCallback` and `PowerCore.SetWireFeed` model the evidently intended behaviour, and the code as written is modelled beside them (see "## Findings").
- The timing in `execute_moves` is cooperative-scheduler and executor behaviour: the look-ahead callback, the flush, `reactor.pause`, `move_overlap_time`, and the unused `processing_moves` flag. Each executor call either succeeds or raises. Which duty-cycle samples arrive during each pause is a parameter (`pauses`); a pause that does not happen delivers none.
- PowerCoreModel.PowerCore.Move: load-cell batches that arrive during the pauses of a scaled move (the load-cell client of line 106 can run in `reactor.pause` at line 329, like `pwm_in_callback`) are not modelled. Across a move, `Move`, `ExecuteMoves` and `Pause` keep the wire tension loop, the wire PID and both actuators unchanged. A caller must not conclude from that that no load-cell batch ran. The wire loop's effect of one batch is `WireTensionCallback`.
- The monkey-patching of the kinematics' `check_move` and the move-transform hook (lines 230-242) are plumbing. `SubmitMove` calls the check explicitly, and the kinematics check is the executor's `accepts` predicate.
- Binary floating point and the Euclidean norm are not modelled. Coordinates are exact reals. The move's length and unit direction come from the executor's move object, which is not part of this model, so they are inputs to `Move`.
- For an extruder-only move, the executor's move object moves the end point's X/Y/Z back to the start. That is not modelled: the last sub-move ends at the requested position.
- Segmentation.SplitMove: requires a positive distance. The zero-distance case (0 / 0 at line 356) is handled one level up, in `Move`.
- Command registration, `respond_info` texts, logging and the verbose flags are left out. So is the wording of the feed-range error message.
- The configuration bounds (line 66-97 `minval`/`above` checks) are a precondition of the constructor (`ValidConfig`). Configuration parsing is not part of this model.

## Findings

| source | as written | input that shows it | evidently intended | confidence | as-written member | corrected member |
|---|---|---|---|---|---|---|
| klippy/extras/powercore.py:176-186 | the actuators are built with `self.toolhead` while it is `None` (lines 26, 122-135), so `set_speed` raises at line 413, after the wire PID has already taken the sample | any load-cell batch with the tension loop enabled | the non-primary actuator is set to `round(output*255)` | not executed | `PowerCoreModel.WireTensionCallbackRaisesAsWritten` | `PowerCoreModel.WireTensionCallbackWithExecutor` |
| klippy/extras/powercore.py:188-199 | `SET_WIRE_FEED` raises at its first `set_speed`, for the same reason, and sets no actuator | `SET_WIRE_FEED SPEED=40` with the loop off or on | the actuators of `ManualTargets` get the speed | not executed | `PowerCoreModel.SetWireFeedSetsNothingAsWritten` | `PowerCoreModel.SetWireFeedWithExecutor` |
