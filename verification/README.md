# Verified model of the MSPM0 car firmware

This Dafny project models the decision-making parts of the car firmware and proves what they promise over every
input, every run and every interleaving: the closed-loop turn controller, the straight-run controller, the IMU
attitude filter with its bias learning and its calibrations, the liveness and safe-stop machinery, the vision link,
odometry, quadrature decoding, the log ring and the line sensor.

Every stateful part appears twice. A function on values (`TurnController.Step`, `VisionParser.Next`,
`AppTasks.Apply`, `ImuDevice.Sampled`, `YawCalibration.Updated`, `StraightRun.Step`, `LineSensor.Updated`, ...) says
what one step does; a class with the firmware's own variables does that step in place, branch by branch, and each of
its methods is proved to change the state by exactly that function. The theorems are then stated over runs: sequences
of inputs and states in which each state follows from the one before by one step, from power-on.

| file | what it holds |
|---|---|
| `Ticks` | the wrapping 32-bit millisecond counter beside an unbounded uptime |
| `Motors` | the two-channel motor bank with its command timeout |
| `Traces` | the states a step function goes through, for concrete runs |
| `TurnController`, `TurnHistory`, `TurnLaws` | the turn task of the turn test firmware, its history, and its laws: starts, duties, fine pulses, phases, faults |
| `TurnTraces`, `StuckTraces` | a run that completes a sequence, and one whose car sticks short of its target |
| `StraightRun`, `StraightHistory`, `StraightLaws` | the run task of the straight calibration firmware, its history, and its transitions and duties in numbers |
| `StraightTraces` | a run that ends in a fault with the status of a success |
| `HealthMonitor`, `FaultManager`, `AppTasks` | deadlines, the fault latch, the watchdog and the tasks of the main firmware as interleaved steps |
| `SafeStopTraces` | whole runs of those tasks from boot that show two limits of the design |
| `Bytes`, `VisionParser`, `VisionStream` | the vision link's byte parser, and encoder, soundness, round trips, resynchronisation |
| `VisionTargets` | targets and commands from the sender's values to the receiver's |
| `Quaternions`, `AttitudeFilter` | quaternion norms, Mahony step, Euler angles, yaw unwrapping |
| `AttitudeGeometry`, `GravityFeedback` | what the filter's formulas mean in space: rotations, tilt and heading, the pull towards gravity |
| `ImuFilters`, `ImuSettings` | low-pass, complementary and quaternion filter sample by sample, and the settings, over runs from power-on |
| `ImuDevice`, `ImuHistory` | the device's sample pipeline (low-pass, stationarity, bias learning, attitude) and every call that configures it, over runs from power-on |
| `Streaks` | counting in a row, with steps that count, break or do neither |
| `GyroCalibration` | the start-up bias calibration and its statistics |
| `YawCalibration`, `YawCalibrationHistory`, `CalibrationTraces` | the yaw-scale calibration of the IMU service, its history, and a run that completes |
| `Odometry`, `QuadratureEncoder` | dead reckoning, and the two quadrature decoders against the shaft they watch |
| `RttLog` | the log ring with a host that reads at any moment |
| `LineSensor`, `LineSensorHistory` | the line frame: contrast, strength, smoothed position |

Conventions. Floats are exact reals. `sqrt`, `sin`, `cos` and `atan2` are arbitrary functions with a contract
(`r >= 0` and `r * r == x`; `s * s + c * c == 1`; the range of an angle; where it is needed, the double-angle formulas
and `atan2` as the angle of a point). `uint32_t` times wrap; theorems about time
relate the wrapped difference to the true one through `Ticks.SinceIsElapsed`. Registers, pins, sensor values and the
clock are inputs of a step.

Where the code does not do what one would expect, the model follows the code and says so with a concrete run and the
exact condition:

- `docs/ARCHITECTURE.md:55-56` says a missed heartbeat causes motor output to stop. The health task does stop the
  motors, but the control task may drive them again at its next tick (`SafeStopTraces.MotorsCanMoveAfterAFault`, a run
  from boot in which telemetry falls silent); after any fault, the health task's own included, they stay still exactly
  while no control tick asks for forward duty (`AppTasks.FaultStopsMotorsUntilRecommanded`). What does hold for ever is
  that the watchdog is never fed again (`AppTasks.FaultIsForEver`), so the reset follows in time
  (`AppTasks.SilenceIsResetInTime`).
- The start-up grace of the health monitor reopens when the tick counter wraps: four tasks that fall silent just before
  the wrap go unnoticed for two seconds (`SafeStopTraces.GraceReopensAfterTheWrap`); `AppTasks.FeedsAtAnyUptime` is the
  exact condition at any uptime.
- A calibration START during an active calibration records 1.0 as the scale to return to
  (`YawCalibrationHistory.RestartedCalibrationLosesTheScale`, `YawCalibrationHistory.RestartForgetsTheUserScale`).
- An IMU that stops being ready during the pause of a sequence leads to the waiting state, not to a fault
  (`TurnHistory.DropoutFaultsExactlyWhenMoving`).
- The vision parser's payload index can exceed the length, exactly after a length byte smaller than the index the
  previous frame left (`VisionParser.LengthByteMayUndercut`, `VisionStream.ShorterHeaderUndercuts`); the type byte
  clears it before a byte is stored.
- The vision parser drops `AA AA 55`: behind noise without a header, the start of any frame is seen exactly when the
  noise ends in an even number of sync bytes (`VisionStream.StartIsSeenAfterEvenNoise`). Then the frame is parsed as it
  was sent; otherwise nothing is reported, except that a frame holding a second header may contain another frame
  (`VisionStream.FrameAfterNoise`). `VisionStream.StraySyncSwallowsACommand` is a stream that loses a command.
- Odometry cannot tell reverse from forward (`Odometry.ReversingIsInvisible`): driving there and back adds up
  (`Odometry.DrivingBackAddsUp`), and the distance is the signed path exactly as long as no wheel turned backwards
  (`Odometry.DistanceIsSignedWithoutReversing`).
- In the straight-run controller a system fault keeps the status of a run that has recorded one, so a faulted controller
  can show the status of a success. `StraightHistory.FaultAfterARun`, `StraightHistory.FaultDuringARun` and
  `StraightHistory.FaultStatus` say exactly when; `StraightTraces.FaultCanLookLikeSuccess` is a whole run.
- The synchronisation deadband of three pulses decides nothing: the truncation already swallows twelve
  (`StraightHistory.DeadbandIsIdle`).
- Dead branches are proved dead: the reset of a vanishing quaternion (`AttitudeFilter.RotationKeepsUnit`), the clamp
  before the arc sine (`AttitudeFilter.ClampIsIdle`), the upper scale limit and the last scale check of a yaw
  calibration (`YawCalibrationHistory.CompletionCondition`), the negative-variance clamp
  (`GyroCalibration.VarianceIsMeanSpread`).

## Model

| member | source | states |
|---|---|---|
| Ticks.SinceIsElapsed | system/health_monitor.c:34-38 | the wrapped tick difference is the elapsed time modulo 2^32, and equals it exactly while less than one wrap has passed |
| Motors.MotorBank.SetSignedDuty | modules/motor/bsp_motor.c:75-85 | the clamped duty on one channel, the other untouched, and the command timer restarted |
| Motors.MotorBank.SetDuty | modules/motor/bsp_motor.c:67-73 | the same with reverse duties clamped to zero |
| Motors.MotorBank.Brake | modules/motor/bsp_motor.c:87-93 | one channel braked without restarting the command timer |
| Motors.MotorBank.SafetyTick | modules/motor/bsp_motor.c:100-109 | both channels released when a duty is on and the last command is more than 100 ms old, else nothing |
| TurnController.TurnPwm | tests/turn_test.c:323-345 | the coarse duty lies in [160, 300], and is at least 220 from 20 degrees of error on |
| TurnController.TurnTask.Debounce | tests/turn_test.c:447-459 | one sample of the button debouncer |
| TurnController.TurnTask.Gate | tests/turn_test.c:461-481 | faults and IMU readiness gate the state |
| TurnController.TurnTask.Launch | tests/turn_test.c:483-516 | a press while idle or done starts the leg it names |
| TurnController.TurnTask.AdaptPulse | tests/turn_test.c:597-613 | the fine pulse strength adapts to the previous pulse |
| TurnController.TurnTask.StartPulse | tests/turn_test.c:597-621 | a fine pulse towards the error, with its bookkeeping |
| TurnController.TurnTask.BrakePhase | tests/turn_test.c:560-624 | settling, completion, the attempt limit and the next pulse |
| TurnController.TurnTask.Pause | tests/turn_test.c:625-642 | the pause between the legs aims the second leg at the first target plus 90 degrees |
| TurnController.TurnTask.Drive | tests/turn_test.c:518-648 | the phase machine of a turning tick |
| TurnController.TurnTask.RunTick | tests/turn_test.c:433-660 | the whole task body equals `Step` |
| TurnHistory.AlwaysSane | tests/turn_test.c:518-648 | in every reachable state: at most 20 fine attempts, pulse strength in [140, 260], fewer than 15 settled samples, a fault status exactly in the fault state, direction and target that belong to the leg |
| TurnHistory.DriveIsSafe | tests/turn_test.c:534-653 | after every tick the duties are opposite, at most 300, nonzero exactly in a driving phase, and always turn towards the target |
| TurnHistory.TurnPwmSlowsDown | tests/turn_test.c:323-345 | the coarse duty is even in the error, never grows as the error shrinks, is full iff the error is 75 degrees or more and rests at 220 between 20 and 55.25 degrees |
| TurnHistory.ControlTask | tests/turn_test.c:433-660 | the task's loop goes through exactly the states of a run |
| TurnHistory.FaultIsAbsorbing | tests/turn_test.c:650-653 | after a fault, for ever in the fault state with still motors |
| TurnHistory.DropoutFaultsExactlyWhenMoving | tests/turn_test.c:471-478 | an IMU that is merely not ready faults a turn, sends a pausing sequence to the waiting state, and stops the motors either way |
| TurnHistory.CompletionTick | tests/turn_test.c:561-592 | a tick completes a leg if and only if it is the fifteenth quiet braked tick, in time, healthy and within 0.2 degrees |
| TurnHistory.SettleCountsTicks | tests/turn_test.c:561-568 | the settle counter is the number of consecutive settling ticks of the current brake phase: that many settled and the tick before them did not |
| TurnHistory.CompletionIsSettled | tests/turn_test.c:561-592 | a leg completes only after 15 consecutive ticks, all braked, at least 120 ms into one brake phase, at most 1 dps, IMU ready, no fault, and ends within 0.2 degrees of its target |
| TurnHistory.SequenceTarget | tests/turn_test.c:511-515 | the target in every state of a sequence, from the heading at the button press |
| TurnHistory.SequencePausesAtTheQuarterTurn | tests/turn_test.c:586-589 | the first leg of a sequence ends within 0.2 degrees of a quarter turn clockwise |
| TurnHistory.SequenceReturnsToItsHeading | tests/turn_test.c:628-638 | a completed sequence ends within 0.2 degrees of the heading at the press: the first leg's error does not accumulate |
| TurnTraces.SequenceCompletes | tests/turn_test.c:433-660 | a run from power-on at 10 ms ticks in which a sequence starts, brakes, settles, pauses for 700 ms, turns back and completes |
| TurnHistory.BusyIsBounded | tests/turn_test.c:523-526 | with ticks at most P ms apart, a single turn is left within 12 s of its press, the second leg starts less than 12.7 s + P after it, and a whole sequence lasts less than 24.7 s + P, across phase loops and tick wraparound |
| TurnHistory.EveryTurnEnds | tests/turn_test.c:518-648 | so no turn or sequence is in progress any longer than that |
| TurnHistory.DebounceIsHistory | tests/turn_test.c:447-459 | the debouncer's variables are the recent history of the samples |
| TurnHistory.PressIsAFreshHold | tests/turn_test.c:454-459 | a press is reported if and only if one button alone has now been held for three ticks and was not the last one so held |
| TurnLaws.PulsesAdapt | tests/turn_test.c:597-621 | for consecutive fine pulses of a leg, from the yaws read and the duties left behind: a pulse that gained less than 0.05 degrees is followed by one stronger by 20, up to 260; one that left the error no smaller by one weaker by 20, down to 140; any other by the same |
| TurnLaws.FirstPulse | tests/turn_test.c:597-621 | the first fine pulse of a leg drives with 180 |
| TurnLaws.LegIsHistory | tests/turn_test.c:483-516 | a leg's timer and origin are the tick and the yaw it began with, and its attempts are the pulses it started |
| TurnLaws.PhasesFollow | tests/turn_test.c:533-624 | how the phases of a leg follow each other: braking iff at most 3 degrees are left, a pulse ends iff 20 ms are over or the target is reached, a new pulse starts iff the car settled off the target |
| TurnLaws.ForceIsLawful | tests/turn_test.c:323-345 | the coarse duty in numbers for every error (160 and 3 per degree below 20, 220 to 55, 4 per degree to 75, 300 beyond), and the pulse's own strength during a pulse |
| TurnLaws.WhyALegFaults | tests/turn_test.c:461-624 | a leg faults in a tick iff it has a cause, with that cause's status: system -5, the IMU's own or -1, IMU lost -4, more than 12 s -2, less than 2 degrees gained from 600 ms on -3, off target after 20 pulses -6 |
| TurnLaws.WhyATickFaults | tests/turn_test.c:461-481 | the same for every tick of every state |
| TurnLaws.LegsBeginOnFreshPresses | tests/turn_test.c:483-516 | a turn begins iff its button alone has now been down for three ticks and was not the last one so held, in a healthy tick without a turn in progress; its target is a quarter turn from the heading |
| StuckTraces.StuckCarGivesUp | tests/turn_test.c:597-624 | a run whose car sticks one degree short: twenty pulses of 180, 200, 220, 240, 260, ..., then the fault with status -6 |
| StraightRun.StraightTask.Debounce | tests/straight_cal_test.c:204-222 | one sample of the start/stop button |
| StraightRun.StraightTask.LineDetected | tests/straight_cal_test.c:348-358 | the scan with early exit finds the starting level iff some channel shows it |
| StraightRun.StraightTask.Watch | tests/straight_cal_test.c:334-369 | leaving the start line and validating the finish line |
| StraightRun.StraightTask.Answer | tests/straight_cal_test.c:317-332 | the button starts a run or stops the running one |
| StraightRun.StraightTask.RunWheels | tests/straight_cal_test.c:371-415 | timeout, arrival or the two wheel commands |
| StraightRun.StraightTask.Drive | tests/straight_cal_test.c:371-426 | the motor part of a tick in every state |
| StraightRun.StraightTask.RunTick | tests/straight_cal_test.c:295-436 | the whole task body equals `Step` |
| StraightHistory.WheelStopsExactlyAtItsTarget | tests/straight_cal_test.c:224-252 | a wheel's own duty is 0 iff its count has reached the target, else in [220, 300] |
| StraightHistory.WheelNeverSpeedsUp | tests/straight_cal_test.c:235-252 | the unsynchronised duty is non-increasing in the count |
| StraightHistory.DesiredLeftIsNearest | tests/straight_cal_test.c:257-260 | the desired left count is the integer nearest to right * 7344 / 7314 |
| StraightHistory.CorrectionFollowsTheError | tests/straight_cal_test.c:261-279 | the correction is odd in the error, within 15, and never opposes it |
| StraightHistory.DeadbandIsIdle | tests/straight_cal_test.c:265-278 | the deadband branch never changes the result; after the ramp the correction is 0 iff the error is within 12 pulses and saturated iff it is 188 or more |
| StraightHistory.CorrectionIsShared | tests/straight_cal_test.c:398-403 | what one wheel gains the other loses |
| StraightHistory.DutiesObeyTheLaw | tests/straight_cal_test.c:392-403 | the commanded duties are 0 exactly for arrived wheels and in [205, 315] otherwise |
| StraightHistory.DriveIsSafe | tests/straight_cal_test.c:371-430 | after every tick of every run: those duties while running, braked for the hold time when done, released otherwise |
| StraightHistory.ControlTask | tests/straight_cal_test.c:295-436 | the task's loop goes through exactly the states of a run |
| StraightHistory.StateTick | tests/straight_cal_test.c:310-389 | how each state can be entered and left |
| StraightHistory.FaultIsAbsorbing | tests/straight_cal_test.c:310-332 | a fault is never left |
| StraightHistory.RunIsBounded | tests/straight_cal_test.c:380-382 | a run in progress is at most 15 s old and its timer is its first tick, across tick wraparound |
| StraightHistory.EveryRunEnds | tests/straight_cal_test.c:380-382 | every run has ended by the first tick more than 15 s after its start |
| StraightHistory.BrakeTimerIsTheEnd | tests/straight_cal_test.c:328-388 | the brake timer is the tick that ended the run |
| StraightHistory.BrakeHoldsThenReleases | tests/straight_cal_test.c:416-423 | the wheels are braked exactly during the first 300 ms after the end, modulo the counter's wrap, and still at all times |
| StraightHistory.WatchIsHistory | tests/straight_cal_test.c:334-369 | the line variables are history: left iff five ticks in a row were off the start level, seen iff later five armed ticks in a row were back on it |
| StraightHistory.StatusTellsTheRun | tests/straight_cal_test.c:359-388 | a run's status is 3 or 1 when it ended by distance with or without a seen finish line, 2 or 0 when stopped by the button |
| StraightHistory.FaultStatus | tests/straight_cal_test.c:310-315 | a fault's status is negative iff it was the timeout or the status was not positive before |
| StraightHistory.FaultAfterARun | tests/straight_cal_test.c:310-389 | a system fault any time after a run leaves the fault state with that run's status: 3 or 1 (ended by distance, with or without a seen finish line), 2 (stopped, finish line seen before), and only otherwise -5 |
| StraightHistory.FaultDuringARun | tests/straight_cal_test.c:310-369 | a system fault during a run shows 2 if the finish line had been seen and -5 if not |
| StraightLaws.PressIsAFreshHold | tests/straight_cal_test.c:204-222 | a press is reported iff the button has now been down for three ticks and was up when it last was steady |
| StraightLaws.EveryTransition | tests/straight_cal_test.c:310-389 | the state after every tick, from the presses, the system fault, the true time since the run began and the counts: a run ends by a press, by 15 s or by the full metre and in no other way |
| StraightLaws.DutiesAreExact | tests/straight_cal_test.c:224-279 | the duties of every tick of a run in integers: each wheel's own, plus what the wheels owe each other, given to the left and taken from the right |
| StraightTraces.FaultCanLookLikeSuccess | tests/straight_cal_test.c:310-389 | a run from power-on at 10 ms ticks and 25 pulses a tick: launched on line A, both lines seen, done with status 3, then faulted and still showing 3 |
| Health.WithBit | system/health_monitor.c:37-37 | setting a task's bit adds that task and no other |
| Health.HealthMonitor.Beat | system/health_monitor.c:23-28 | a beat stores the time of a known task and ignores others |
| Health.HealthMonitor.Check | system/health_monitor.c:30-45 | the mask of the loop is the stale mask, and healthy means it is zero |
| Health.StaleMaskNamesTheStale | system/health_monitor.c:34-40 | bit t is set iff the grace is over and task t is past its deadline; the mask is 0 iff none is |
| Health.MaskIsUnique | system/health_monitor.c:34-40 | that property determines the mask |
| Faults.FaultManager.Raise | system/fault_manager.c:13-21 | raising stops both motors and latches the first fault only |
| Faults.FaultManager.IsActive | system/fault_manager.c:31-34 | whether a fault is latched |
| AppTasks.AppSystem.FastTask | app/app_tasks.c:54-70 | the fast task as one step |
| AppTasks.AppSystem.ControlTask | app/app_tasks.c:72-90 | the control task as one step that commands both channels |
| AppTasks.AppSystem.TelemetryTask | app/app_tasks.c:92-112 | the telemetry task as one step |
| AppTasks.AppSystem.ImuHeartbeat | modules/imu/imu_service.c:436-444 | the IMU task's heartbeat as one step |
| AppTasks.AppSystem.HealthTask | app/app_tasks.c:114-131 | the health task feeds, or raises the stale mask |
| AppTasks.AppSystem.RaiseFault | system/fault_manager.c:13-21 | a fault raised by another part as one step |
| AppTasks.FaultIsForEver | system/fault_manager.c:13-21 | the first fault is kept for ever and no watchdog feed follows it, in any interleaving |
| AppTasks.BeatsAreHistory | system/health_monitor.c:23-28 | the stored beats are the last beats of the run |
| AppTasks.FeedsAtAnyUptime | app/app_tasks.c:123-128 | when the watchdog is fed, at any uptime, in terms of wrapped ages |
| AppTasks.FeedsExactlyWhenPunctual | app/app_tasks.c:123-128 | before the first wrap a health tick feeds iff no fault is latched and, after the grace, the fast task beat within 50 ms, IMU and control within 100, telemetry within 500; a late task latches a fault and stops the motors |
| AppTasks.SeenDeadlineIsReal | system/health_monitor.c:30-45 | before the first wrap the health task sees a missed deadline iff the grace is over and a task is really late |
| AppTasks.MissedDeadlineStarvesTheWatchdog | app/app_tasks.c:123-128 | at any uptime, once the health task has seen a missed deadline no feed follows, even if the task resumes |
| AppTasks.LatchIsClearExactlyWhileClean | system/fault_manager.c:13-21 | at any uptime a fault is latched iff some event gave cause for it: a raised fault or a missed deadline seen by the health task |
| AppTasks.LatchNamesTheFirstFault | system/fault_manager.c:13-21 | a latched fault is the first one raised: with its code and detail, or with a mask that names exactly the tasks whose last beat was too old |
| AppTasks.LastCommandHolds | control/chassis.c:209-210 | a control tick gives each wheel its own duty, clamped to [0, 1000], a bridge driving iff its duty is not zero; until the next one the motors are still or exactly as it left them |
| AppTasks.MotorsRunUntilStopped | modules/motor/bsp_motor.c:100-109 | between two control ticks moving motors stop iff a fault is raised or the fast task finds the command more than 100 ms old |
| AppTasks.ControlStopStopsTheMotors | modules/motor/bsp_motor.c:100-109 | if the control task stops, both duties are zero 100 ms and one fast period later and stay zero, across tick wraparound |
| AppTasks.FaultStopsMotorsUntilRecommanded | app/app_tasks.c:123-128 | after any fault, raised elsewhere or by the health task for a missed heartbeat, the motors stay still iff no control tick asks for forward duty |
| AppTasks.CleanRunIsNeverReset | ti_msp_dl_config.c:511-526 | with health ticks less than 500 ms apart the watchdog never expires as long as every event is clean, at any uptime |
| AppTasks.SilenceIsResetInTime | app/app_tasks.c:123-128 | after a task's last beat at t0 the watchdog has expired by max(E + 2000, t0 + deadline) + 500, whatever the other tasks do; E is when the tick counter last was zero |
| SafeStopTraces.ForgivenTicksFeed | system/health_monitor.c:30-45 | in a periodic run from boot the watchdog is fed by every health tick as long as each one sees the grace or recent beats |
| SafeStopTraces.MotorsCanMoveAfterAFault | app/app_tasks.c:123-128 | a run from boot, fed every 20 ms, in which telemetry misses its deadline, the health task latches the fault and stops the motors, and the next control tick drives them |
| SafeStopTraces.GraceReopensAfterTheWrap | system/health_monitor.c:34-34 | a run from boot in which all tasks are punctual for 49.7 days, fall silent 16 ms before the tick counter wraps, and the watchdog is still fed two seconds later |
| Bytes.XorCancels | modules/vision/dev_vision.c:103-111 | exclusive or with the same byte keeps different sums different |
| VisionParser.Next | modules/vision/dev_vision.c:70-140 | every byte keeps len and index at most 32, index below len while data is stored, index equal to len in the trailer, and index at most len in every state but the one that awaits the type byte |
| VisionParser.LengthByteMayUndercut | modules/vision/dev_vision.c:91-106 | the index exceeds the length iff the byte was an accepted length byte smaller than the index left by the frame before, and then the type byte is awaited |
| VisionParser.VisionLink.Dispatch | modules/vision/dev_vision.c:11-45 | the event and the stored target are the little-endian meaning of the payload |
| VisionParser.VisionLink.OnRxByte | modules/vision/dev_vision.c:70-140 | one byte: new parser state, verdict and event |
| VisionParser.VisionLink.ResetParser | modules/vision/dev_vision.c:57-68 | the parser is idle again, target and payload kept |
| VisionParser.VisionLink.HasFreshTarget | modules/vision/dev_vision.c:142-150 | reading the fresh flag consumes it |
| VisionStream.AlwaysRemembers | modules/vision/dev_vision.c:80-137 | in every reachable state the parser's variables are the recent bytes of the stream |
| VisionStream.AcceptanceIsSound | modules/vision/dev_vision.c:80-137 | a byte is accepted only if the bytes just consumed are a whole encoded frame of a known type, and the event is its meaning |
| VisionStream.FrameVerdict | modules/vision/dev_vision.c:101-132 | a frame-shaped run of bytes is accepted iff sum, line ending and type are right, and only at its last byte |
| VisionStream.FrameRoundTrip | modules/vision/dev_vision.c:80-137 | parsing an encoded frame gives back what was encoded |
| VisionStream.StreamRoundTrip | modules/vision/dev_vision.c:80-137 | any frames interleaved with sync-free noise are parsed into exactly the recognised frames, in order |
| VisionStream.SumDependsOnEveryByte | modules/vision/dev_vision.c:101-121 | changing one payload byte changes the sum |
| VisionStream.CorruptionIsRejected | modules/vision/dev_vision.c:101-132 | altering any one byte after the length byte suppresses the frame's event |
| VisionStream.NoiseIsIgnored | modules/vision/dev_vision.c:81-85 | bytes other than the sync byte leave an idle parser idle |
| VisionStream.PatienceRunsOut | modules/vision/dev_vision.c:80-137 | how many bytes each state can still consume |
| VisionStream.AlwaysResynchronises | modules/vision/dev_vision.c:80-137 | from any state the parser is idle within 38 bytes |
| VisionStream.SyncsArePaired | modules/vision/dev_vision.c:81-89 | over header-free noise the parser's state is the parity of the trailing sync bytes |
| VisionStream.StartIsSeenAfterEvenNoise | modules/vision/dev_vision.c:81-89 | behind such noise the next sync byte is taken for the start of a frame iff that parity is even |
| VisionStream.FrameAfterNoise | modules/vision/dev_vision.c:81-89 | any frame behind such noise is parsed as sent, and alone, if that parity is even; if it is odd nothing is reported, for every frame without a second header |
| VisionStream.StraySyncSwallowsACommand | modules/vision/dev_vision.c:81-89 | from power-on, one stray sync byte before a command frame suppresses it |
| VisionStream.ShorterHeaderUndercuts | modules/vision/dev_vision.c:91-99 | from power-on, any frame followed by the header of a shorter one reaches such a state |
| VisionTargets.TargetArrives | modules/vision/dev_vision.c:11-33 | a target encoded from its values (two's complement, low byte first) arrives as those values and the arrival time, once, and is stored fresh |
| VisionTargets.CommandArrives | modules/vision/dev_vision.c:35-42 | a command arrives as it was sent and leaves the stored target alone |
| VisionTargets.OtherFramesAreDropped | modules/vision/dev_vision.c:11-45 | any other frame is dropped: a short target, an unknown type |
| VisionTargets.StoredTargetIsTheLast | modules/vision/dev_vision.c:16-24 | the stored target is the last one the stream carried, fresh once there was one |
| Quaternions.FourSquares | modules/imu/device/dev_icm45688.c:362-369 | the norm of the integrated quaternion is the product of the norms |
| Quaternions.IncrementNorm | modules/imu/device/dev_icm45688.c:350-360 | the truncated increment's squared norm is 1 + s^3/360 - s^4/960 + s^5/14400 |
| Quaternions.IncrementNormIsBounded | modules/imu/device/dev_icm45688.c:350-360 | that polynomial stays above 0.19 for every s >= 0 |
| AttitudeFilter.WrapDegrees180 | modules/imu/device/dev_icm45688.c:144-154 | the two loops end at the one representative in (-180, 180] |
| AttitudeFilter.WrapIsTheRepresentative | modules/imu/device/dev_icm45688.c:144-154 | that representative is congruent and unique |
| AttitudeFilter.UnwrappingFollows | modules/imu/device/dev_icm45688.c:259-264 | one unwrapping step adds the true change iff that change is in (-180, 180], and stays congruent anyway |
| AttitudeFilter.YawTracksHeading | modules/imu/device/dev_icm45688.c:259-264 | over unbounded runs the unwrapped yaw changes by exactly the cumulative heading |
| AttitudeFilter.ReadingRange | modules/imu/device/dev_icm45688.c:259-261 | a yaw reading is always strictly inside (-180, 180) |
| AttitudeFilter.ClampIsIdle | modules/imu/device/dev_icm45688.c:256-258 | for a unit quaternion the clamp before the arc sine is the identity |
| AttitudeFilter.FromEulerIsUnit | modules/imu/device/dev_icm45688.c:224-240 | a quaternion rebuilt from angles has unit norm |
| AttitudeFilter.RotationKeepsUnit | modules/imu/device/dev_icm45688.c:345-383 | from a unit quaternion the reset branch is dead and the result has unit norm, whatever the rates |
| AttitudeFilter.MahonyKeepsUnit | modules/imu/device/dev_icm45688.c:292-390 | a Mahony step keeps unit norm; a locked yaw does not move, a free one follows its reading |
| AttitudeGeometry.RotationsCompose | modules/imu/device/dev_icm45688.c:362-369 | seen from a body that has turned on, the world is what the body saw before, turned by the increment |
| AttitudeGeometry.RotationFormula | modules/imu/device/dev_icm45688.c:345-369 | what a turn about an axis does to a vector seen from the body |
| AttitudeGeometry.AnglesAreTheAttitude | modules/imu/device/dev_icm45688.c:242-265 | pitch and roll are the tilt of gravity against the body, yaw the heading of its forward axis |
| AttitudeGeometry.EulerIsThreeTurns | modules/imu/device/dev_icm45688.c:224-240 | the quaternion rebuilt from angles turns by yaw, roll and pitch in that order |
| AttitudeGeometry.EulerHasItsTilt | modules/imu/device/dev_icm45688.c:224-240 | it has exactly the tilt of those angles, whatever the yaw |
| GravityFeedback.AccelAnglesAreTheTilt | modules/imu/device/dev_icm45688.c:273-279 | the angles computed from an acceleration are those of an attitude in which gravity shows that acceleration |
| GravityFeedback.ErrorRestores | modules/imu/device/dev_icm45688.c:301-311 | the error is orthogonal to the measured and the estimated vertical, vanishes iff they are parallel, and turning about it carries the estimate towards the measurement |
| GravityFeedback.FeedbackLaw | modules/imu/device/dev_icm45688.c:301-338 | the corrected rate: the gyro's, plus the proportional and integral share of half the cross product of measured and estimated vertical if the sample is heard and accepted, by the angle between them |
| GravityFeedback.TiltApproachesGravity | modules/imu/device/dev_icm45688.c:292-390 | while the car does not turn, a sample never lowers the cosine between estimated and measured vertical, and raises it unless they are parallel |
| GravityFeedback.IncrementTurnsAtTheRate | modules/imu/device/dev_icm45688.c:349-360 | the increment turns about the measured rate, in its sense, by rate times sample time up to the cut series |
| GravityFeedback.StepTurnsTheView | modules/imu/device/dev_icm45688.c:362-383 | a step turns everything the body sees by the increment and takes out its length |
| GravityFeedback.StepAnglesAreTheAttitude | modules/imu/device/dev_icm45688.c:340-390 | after a step the angles are those of the quaternion it arrived at; a locked yaw ignores the rate about the vertical and rebuilds the quaternion from pitch, roll and the held yaw |
| ImuDevice.Imu.ApplyLowPass | modules/imu/device/dev_icm45688.c:156-191 | the first sample is taken as it is, later ones are filtered |
| ImuDevice.Imu.UpdateStationary | modules/imu/device/dev_icm45688.c:392-432 | the stationarity counter |
| ImuDevice.Imu.UpdateAutoBias | modules/imu/device/dev_icm45688.c:434-466 | counting calm samples and learning the bias |
| ImuDevice.Imu.UpdateComplementary | modules/imu/device/dev_icm45688.c:267-290 | the complementary filter |
| ImuDevice.Imu.EulerFromQuat | modules/imu/device/dev_icm45688.c:242-265 | angles from the quaternion, with yaw unwrapped |
| ImuDevice.Imu.StepMahony | modules/imu/device/dev_icm45688.c:292-390 | the quaternion filter in place |
| ImuDevice.Imu.Update | modules/imu/device/dev_icm45688.c:807-862 | a whole sample in order, keeping unit norm; nothing changes when the device is not ready or the read fails |
| ImuDevice.Imu.Begin | modules/imu/device/dev_icm45688.c:717-784 | bringing the sensor up clears the measurements and counters and keeps the bias |
| ImuDevice.Imu.SetFilter | modules/imu/device/dev_icm45688.c:491-502 | usable sample times and blend factors are stored, others ignored |
| ImuDevice.Imu.SetSampleLowPass | modules/imu/device/dev_icm45688.c:504-516 | the cut-offs, with negative ones off |
| ImuDevice.Imu.ResetSampleLowPass | modules/imu/device/dev_icm45688.c:518-525 | the next sample is taken as it is |
| ImuDevice.Imu.SetAttitudeMode | modules/imu/device/dev_icm45688.c:527-543 | entering the quaternion filter rebuilds its quaternion, of unit norm, from the angles |
| ImuDevice.Imu.SetAccelTrustWindow | modules/imu/device/dev_icm45688.c:545-554 | the window, with negative ones off |
| ImuDevice.Imu.SetAccelRejection | modules/imu/device/dev_icm45688.c:556-572 | the threshold from the clamped angle |
| ImuDevice.Imu.SetMahonyGains | modules/imu/device/dev_icm45688.c:574-588 | gains that are not negative are stored |
| ImuDevice.Imu.ResetAttitude | modules/imu/device/dev_icm45688.c:590-606 | the attitude is level, everything else kept |
| ImuDevice.Imu.SetGyroBias | modules/imu/device/dev_icm45688.c:632-645 | the bias is replaced and the calm count cleared; stationarity is kept |
| ImuDevice.Imu.SetGyroScale | modules/imu/device/dev_icm45688.c:647-665 | positive scales are stored, others ignored |
| ImuDevice.Imu.SetStationaryDetection | modules/imu/device/dev_icm45688.c:667-686 | new thresholds restart stationarity and the calm count |
| ImuDevice.Imu.SetGyroBiasAutoUpdate | modules/imu/device/dev_icm45688.c:688-701 | learning is switched and the calm count cleared; stationarity is kept |
| Streaks.StreakReaches | modules/imu/device/dev_icm45688.c:420-431 | a streak has reached n iff some unbroken stretch up to now holds n counting steps |
| ImuHistory.NormIsOneForEver | modules/imu/device/dev_icm45688.c:340-390 | over every run from power-on of samples, resets, calibrations and reconfigurations the quaternion has unit norm |
| ImuHistory.StillCountIsTheQuietRun | modules/imu/device/dev_icm45688.c:420-431 | the saturating counter is the length of the current run of samples that turn slowly enough at 1 g, capped; broken by noise, new thresholds and initialisation, and by no other call |
| ImuHistory.StationaryExactlyWhenHeldQuiet | modules/imu/device/dev_icm45688.c:392-432 | stationary iff the last hold_samples samples were all quiet, with no new thresholds or initialisation since; whatever else was called in between |
| ImuHistory.CalmCountIsTheCalmRun | modules/imu/device/dev_icm45688.c:445-456 | the calm counter is the length of the current run of samples at rest, at most 0.35 dps on every axis, with learning on, capped at 600; it restarts when bias, learning or thresholds are set |
| ImuHistory.BiasLearnsOnlyAfterLongCalm | modules/imu/device/dev_icm45688.c:434-466 | the bias moves exactly in samples that follow 600 calm ones, by the learning step, never leaving the hull of old bias and raw rate, and otherwise changes only when it is set |
| ImuHistory.BiasConvergesGeometrically | modules/imu/device/dev_icm45688.c:458-465 | on a constant rate the bias error shrinks by (1 - rate)^n over n learning samples, whatever is called in between that leaves bias and learning alone |
| ImuHistory.BeginOperation | modules/imu/imu_service.c:212-222 | the calls that end the start-up calibration, in order |
| ImuHistory.OperationBeginsStill | modules/imu/imu_service.c:212-222 | they keep the device as stationary as it was, install the bias, switch learning on and start its calm count afresh |
| ImuHistory.PublishedRateUsesTheCurrentBias | modules/imu/device/dev_icm45688.c:838-853 | with the gyro low-pass off a sample publishes (raw - current bias) * the scale then set, learning steps included |
| ImuHistory.LockedYawNeverDrifts | modules/imu/device/dev_icm45688.c:385-389 | while every sample locks the yaw and nobody levels it, it does not move at all, in either filter |
| ImuHistory.PublishedYawTracksHeading | modules/imu/device/dev_icm45688.c:242-265 | in the quaternion filter the published yaw follows the heading over any stretch of unlocked samples, across bias, scale and gain changes |
| ImuFilters.SampleIsLowPassed | modules/imu/device/dev_icm45688.c:119-191 | each sample moves acceleration and bias-free rate by one implicit step of their own first-order low-pass; the first one is taken as it is |
| ImuFilters.ComplementarySample | modules/imu/device/dev_icm45688.c:267-290 | a sample adds what the car turned and, if heard, keeps the share alpha of the difference to the accelerometer's angles |
| ImuFilters.ComplementaryForgets | modules/imu/device/dev_icm45688.c:267-290 | at rest the difference to the accelerometer's angle is alpha^n times the first one after n samples |
| ImuFilters.SampleApproachesGravity | modules/imu/device/dev_icm45688.c:292-390 | in every run a sample of the quaternion filter without rotation brings the estimated vertical closer to the measured one, unless they are parallel |
| ImuFilters.SwitchingKeepsTheAttitude | modules/imu/device/dev_icm45688.c:527-543 | switching to the quaternion filter gives it the attitude that the angles describe |
| ImuSettings.SettingsAreTheLastSet | modules/imu/device/dev_icm45688.c:491-701 | every setting is the last usable value passed for it, and always usable |
| ImuSettings.LearningUsesItsRate | modules/imu/device/dev_icm45688.c:458-465 | the gain of bias learning is the learning rate last set |
| ImuSettings.RejectionIsTheLastAngle | modules/imu/device/dev_icm45688.c:556-572 | the rejection threshold is a quarter of the squared sine of the angle, clamped to a right angle |
| GyroCalibration.VarianceIsMeanSpread | modules/imu/imu_service.c:68-83 | the variance from running sums is the mean squared distance from the mean, so the clamp never acts |
| GyroCalibration.StdDevIsTheRoot | modules/imu/imu_service.c:68-83 | the standard deviation squared is that variance |
| GyroCalibration.PassingMeansCloseSamples | modules/imu/imu_service.c:199-210 | a block passes iff its samples spread at most n * limit^2 around their mean; then each sample is within sqrt(n) limits |
| GyroCalibration.OnlyTheMeanCentres | modules/imu/imu_service.c:212-216 | the mean is the one bias that centres the block at zero |
| GyroCalibration.Measure | modules/imu/imu_service.c:178-197 | the accumulation loop with its warm-up gives the sums of the kept samples |
| GyroCalibration.Calibrate | modules/imu/imu_service.c:157-225 | the retry loop against its specification |
| GyroCalibration.CalibratesInTheFirstQuietBlock | modules/imu/imu_service.c:157-225 | success means: error-free noisy blocks, then a quiet one, whose mean is the bias |
| GyroCalibration.NoisyBlocksAreSkipped | modules/imu/imu_service.c:205-210 | error-free noisy blocks do not influence the outcome |
| GyroCalibration.OutcomeIsTheFirstDecision | modules/imu/imu_service.c:157-225 | the outcome is o iff, after error-free noisy blocks only, o is decided: broken with the status of a fault that comes before the next block is full, unfinished if the readings end before, or that block's mean if it is quiet |
| GyroCalibration.BiasCentresItsReadings | modules/imu/imu_service.c:178-216 | the bias of a successful calibration centres, on every axis, exactly the readings after the warm-up of the deciding block |
| YawCalibration.ImuService.Fail | modules/imu/imu_service.c:232-240 | failure restores the recorded scale and levels the attitude |
| YawCalibration.ImuService.Start | modules/imu/imu_service.c:242-254 | a start records the scale in force and runs unscaled |
| YawCalibration.ImuService.CompleteCalibration | modules/imu/imu_service.c:256-284 | the checks and the resulting scale |
| YawCalibration.ImuService.UpdateYawCalibration | modules/imu/imu_service.c:286-349 | one update of the eight-state machine |
| YawCalibration.ImuService.ServiceRequests | modules/imu/imu_service.c:351-371 | a pending cancel, then a pending start |
| YawCalibrationHistory.ResultIsTheHarmonicMean | modules/imu/imu_service.c:271-273 | the result is the harmonic mean of the direction scales, lies between them, and makes the mean of the laps read 1440 degrees |
| YawCalibrationHistory.CompletionCondition | modules/imu/imu_service.c:256-284 | the calibration completes iff both laps are at most 1440/0.85 degrees and their scales agree within 2 %; all other checks are dead |
| YawCalibrationHistory.ScaleRange | modules/imu/imu_service.c:308-318 | a captured lap's scale is always below 1.15, and valid iff the lap is at most 1440/0.85 degrees |
| YawCalibrationHistory.AlwaysConsistent | modules/imu/imu_service.c:232-371 | over every sequence of updates, starts and cancels: scale 1.0 while active, the result when complete, the recorded scale after a failure |
| YawCalibrationHistory.PreviousIsBeforeLatestStart | modules/imu/imu_service.c:351-366 | failure and cancel return to the scale just before the latest start |
| YawCalibrationHistory.RestartForgetsTheUserScale | modules/imu/imu_service.c:242-251 | that is the user's own scale iff the calibration was not restarted midway or the scale was 1.0 |
| YawCalibrationHistory.RestartedCalibrationLosesTheScale | modules/imu/imu_service.c:242-251 | a run in which two starts and a cancel lose the scale |
| YawCalibrationHistory.SettleIsHistory | modules/imu/imu_service.c:291-346 | the settle counter is the number of consecutive settling updates of the phase: that many settled and the event before them did not |
| YawCalibrationHistory.MilestoneIsSettled | modules/imu/imu_service.c:291-346 | levelling and both captures happen exactly with the fortieth update in a row that rests and, in a lap, has gone 1296 degrees the right way |
| YawCalibrationHistory.MotionIsSeen | modules/imu/imu_service.c:303-331 | the waits for motion end iff the gyro shows 5 degrees per second in the lap's direction |
| YawCalibrationHistory.LevellingIsAtMilestones | modules/imu/imu_service.c:286-349 | the attitude is levelled iff the car has stood still before the first lap, the second lap is captured, or the first one was too long |
| YawCalibrationHistory.CompletionWentThroughAllPhases | modules/imu/imu_service.c:286-349 | completion is reached only from a start through the five phases in order, and the scale is 2880 degrees over the two laps measured as differences of the yaws at the captures |
| CalibrationTraces.CalibrationCompletes | modules/imu/imu_service.c:286-349 | a run that starts, turns both laps and completes with the scale 2880/2894 |
| Odometry.WrapPiLocal | control/chassis.c:23-28 | the two loops end in [-pi, pi], a whole number of turns away |
| Odometry.WrapPiIsUnique | control/chassis.c:23-28 | which representative the loops stop at |
| Odometry.Normalised | control/chassis.c:39-61 | every unusable measure is replaced by its default, and no other one changes |
| Odometry.Chassis.ResetOdometry | control/chassis.c:111-123 | a reset sets the pose, clears the distance and zeroes both encoders with their diagnostics |
| Odometry.Chassis.IntegrateOdometry | control/chassis.c:63-73 | mid-point integration in place |
| Odometry.Chassis.Tick | control/chassis.c:179-191 | the encoder part of a tick: integrates exactly the unreported counts of both wheels and marks them reported |
| Odometry.DistanceIsThePathLength | control/chassis.c:72-72 | the distance is the mean of the two wheels' paths and never shrinks |
| Odometry.NeverFartherThanTravelled | control/chassis.c:63-73 | since any reset, (x-x0)^2 + (y-y0)^2 <= distance^2 |
| Odometry.HeadingIsTheWheelDifference | control/chassis.c:65-71 | from the first tick on theta stays in [-pi, pi]; up to whole turns it is the start heading plus the right path less the left path, over the wheel base |
| Odometry.TicksMoveAlongTheHeading | control/chassis.c:63-73 | each tick moves the car by its mean wheel travel along the heading half-way through its turn, x by the cosine and y by the sine |
| Odometry.ReversingIsInvisible | control/chassis.c:181-188 | negating every wheel delta changes nothing |
| Odometry.DistanceIsSignedWithoutReversing | control/chassis.c:181-188 | the distance is never below the signed path, and equals it iff no wheel delta so far was negative |
| Odometry.DrivingBackAddsUp | control/chassis.c:181-188 | a run forth and back that ends with a distance, and a place, of a third of a metre |
| QuadratureEncoder.DecodeMatchesMovement | modules/encoder/bsp_encoder.c:28-38 | the table recovers a movement modulo four, and cannot tell two steps from none |
| QuadratureEncoder.BoardEncoder.Interrupt | modules/encoder/bsp_encoder.c:195-218 | the interrupt samples the wheels with a pending edge |
| QuadratureEncoder.BoardEncoder.Poll | modules/encoder/bsp_encoder.c:102-119 | polling updates the diagnostics and no count |
| QuadratureEncoder.BoardEncoder.GetDelta | modules/encoder/bsp_encoder.c:121-139 | the delta since the last read, and what it marks as reported |
| QuadratureEncoder.BoardEncoder.Reset | modules/encoder/bsp_encoder.c:151-173 | a reset zeroes one wheel's counts and diagnostics and leaves the other wheel alone |
| QuadratureEncoder.TotalIsTheDisplacement | modules/encoder/bsp_encoder.c:195-216 | if the shaft moves at most one step between handled edges the total is its displacement since the reset, under any interleaving |
| QuadratureEncoder.MissedEdgesKeepParity | modules/encoder/bsp_encoder.c:195-216 | with missed edges, total and displacement differ by twice the slips modulo four, so parity always agrees |
| QuadratureEncoder.DeltasAddUp | modules/encoder/bsp_encoder.c:121-139 | the returned deltas add up to the reported total, and to the total right after a read |
| QuadratureEncoder.DiagnosticsAreHistory | modules/encoder/bsp_encoder.c:102-119 | since a reset, the seen mask is exactly the phases polled and the change counter the number of changes modulo 2^32 |
| QuadratureEncoder.QuadDriver.Poll | platform/mspm0g3507/drivers/drv_quad_encoder.c:38-52 | one poll with the direction sign |
| QuadratureEncoder.QuadDriver.GetDelta | platform/mspm0g3507/drivers/drv_quad_encoder.c:54-65 | the pending delta is handed out once |
| QuadratureEncoder.PolledTotalIsTheDisplacement | platform/mspm0g3507/drivers/drv_quad_encoder.c:38-65 | polled often enough, the total is the signed displacement and deltas conserve it |
| RttLog.Space | modules/telemetry/rtt_log.c:68-75 | the space is one cell less than the unused cells |
| RttLog.UpBuffer.Write | modules/telemetry/rtt_log.c:77-92 | all or nothing, with host reads at any step: bytes read followed by bytes stored are the accepted messages in order; refused exactly when empty, too large, or not fitting the space seen |
| RttLog.UpBuffer.CopyByte | modules/telemetry/rtt_log.c:86-89 | copying into free cells is invisible to the host |
| RttLog.UpBuffer.Publish | modules/telemetry/rtt_log.c:90-91 | only the published offset appends the message |
| RttLog.UpBuffer.HostReads | modules/telemetry/rtt_log.c:6-13 | the host takes the oldest bytes and loses none |
| RttLog.PublishingAppends | modules/telemetry/rtt_log.c:86-91 | moving the write offset over written cells appends them |
| LineSensor.Sensor.FindExtremes | modules/line_sensor/dev_line_sensor.c:145-154 | the loop finds the darkest and the brightest channel |
| LineSensor.Sensor.Fill | modules/line_sensor/dev_line_sensor.c:138-143 | the values are read if a reader or an array is there, else kept; unused channels are cleared |
| LineSensor.Sensor.Weigh | modules/line_sensor/dev_line_sensor.c:156-160 | the loop computes strength and moment |
| LineSensor.Sensor.BitsFromRaw | modules/line_sensor/dev_line_sensor.c:62-78 | the channels at least half-way up the contrast |
| LineSensor.Sensor.Measure | modules/line_sensor/dev_line_sensor.c:145-169 | extremes, contrast, strength, on-line decision, and the bits from the array's pins or from the values |
| LineSensor.Sensor.Update | modules/line_sensor/dev_line_sensor.c:110-188 | one frame in place, for sensors with a reader, a pin array or neither |
| LineSensor.ExtremesAreUnique | modules/line_sensor/dev_line_sensor.c:145-154 | the extremes are attained bounds |
| LineSensor.MomentIsBounded | modules/line_sensor/dev_line_sensor.c:156-160 | the moment is at most (n - 1) times the strength |
| LineSensorHistory.OneBrightIsExact | modules/line_sensor/dev_line_sensor.c:171-174 | one bright channel on an even background gives exactly that channel's place, -1 and 1 only at the ends |
| LineSensorHistory.FrameIsReported | modules/line_sensor/dev_line_sensor.c:145-169 | what every frame of a run reports, in numbers: levels, contrast, strength, line decision, and the channels at least half-way up |
| LineSensorHistory.PositionIsTheCentroid | modules/line_sensor/dev_line_sensor.c:156-174 | the position of any row is the centroid of the light above the darkest channel |
| LineSensorHistory.BiasAveragesTheSightings | modules/line_sensor/dev_line_sensor.c:171-185 | after any run the bias is the moving average of the on-line frames alone, and last_bias always equals it |
| LineSensorHistory.BiasStaysInRange | modules/line_sensor/dev_line_sensor.c:171-185 | bias and last_bias lie in [-1, 1] in every reachable state |
| LineSensorHistory.MirrorImagesStayOpposite | modules/line_sensor/dev_line_sensor.c:110-188 | sensors fed mirror-image readings keep exactly opposite positions and reflected bits for ever |
| LineSensorHistory.AmbientLightIsInvisible | modules/line_sensor/dev_line_sensor.c:145-185 | light added evenly to all channels changes nothing but the two extreme levels |

## Left out

- Floating-point rounding: floats are exact reals, so limits such as the 0.2 degrees hold up to rounding in the firmware.
- The C library's `sqrt`, `sin`, `cos` and `atan2` beyond their contracts; `asin` is arbitrary.
- Drivers, register bring-up, the vendor's IMU library, UART, OLED, ADC, PWM and GPIO access: they are inputs of a step or are absent.
- User interface, telemetry formatting and parsing, published snapshots and status texts.
- PID, dead-zone feed-forward, debug duties, the mission layer and the small filters: the duties of a control tick are inputs of `AppTasks`.
- The build without encoders and the encoder-calibration variant of the turn test.
- FreeRTOS scheduling: task bodies are atomic steps with assumed periods. Only the log ring's copy loop and the encoder interrupt interleave inside a body.
- Null-pointer arguments of the C interfaces.
- The widths of encoder totals (`int64_t`) and deltas (`int32_t`), of the odometer's floats and of the retry counters.
- StraightRun.StraightTask.RunTick: the totals are inputs, limited to 390000 pulses so that every integer cast is exact, and read as zero in the tick that has just reset the encoders; the yaw reference and error, which are only published, are not kept.
- The fast task of the straight firmware: between its control ticks only the safety tick of `Motors` runs, which can only stop the motors.
- ImuHistory.PublishedYawTracksHeading: says nothing about samples that lock the yaw, in which the quaternion is rebuilt from the held angle.
- AttitudeFilter.RotationKeepsUnit: the model also guards the division by `sqrt(norm)`, which the contract of `sqrt` makes nonzero.
- GyroCalibration.Calibrate: takes the published rates as readings; the calls that install the result are `ImuHistory.BeginOperation`.
- The hardware watchdog itself: `AppTasks` counts 500 ms from each feed, and from boot; the reset it then causes is not modelled.
- The tasks' real periods in `SafeStopTraces`: every task runs once in each 20 ms slot, well within its deadline.
- AppTasks.FeedsExactlyWhenPunctual: restricted to the first 2^32 ms of uptime, because the start-up grace reopens at the wrap; `AppTasks.FeedsAtAnyUptime` has no such limit.
- AppTasks.SeenDeadlineIsReal: restricted to the first 2^32 ms of uptime; later the health task judges wrapped ages, as `AppTasks.FeedsAtAnyUptime` states them.
- AppTasks.SilenceIsResetInTime: restricted to silences shorter than 2^32 ms; a longer one looks short to the health task again, but the watchdog has expired long before.
- VisionStream.StreamRoundTrip: noise must be free of the sync byte, because the parser drops a frame behind an odd number of them (`VisionStream.FrameAfterNoise`).
- VisionStream.FrameAfterNoise: says nothing about a frame that holds a second header and whose start was swallowed; the parser may find another frame from that header on.
- GravityFeedback.TiltApproachesGravity: restricted to samples without rotation that do not lock the yaw, to gains without an integral and to a proportional gain of at most 2 over the sample time. A locked sample rebuilds the quaternion from degrees, and the two degree constants are not exact inverses of each other; with rotation or an integral the estimate moves for other reasons too, and `GravityFeedback.FeedbackLaw` says by how much.
- GravityFeedback.IncrementTurnsAtTheRate: restricted to half turns of at most one radian per sample, beyond which the cut series no longer approximate a turn.
