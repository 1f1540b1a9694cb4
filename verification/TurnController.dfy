/** The closed-loop turn controller: one tick of the control task of the turn test
    firmware, as a step on the controller's variables and the motor bank, and as
    the imperative task body proved equal to it. */
module TurnController {
  import opened Ticks
  import opened Motors

  const TURN_ANGLE_DEG := 90.0
  const PRECISION_DEG := 0.2
  const FINE_MAX_ATTEMPTS := 20
  const TIMEOUT_MS := 12000
  const TURN_PWM_MAX := 300
  const TURN_PWM_MIN := 220
  const TURN_KP := 4.0
  const APPROACH_WINDOW_DEG := 20.0
  const PWM_APPROACH_MIN := 160
  const FINE_ENTRY_DEG := 3.0
  const SETTLE_RATE_DPS := 1.0
  const SETTLE_SAMPLES := 15
  const BRAKE_MIN_MS := 120
  const FINE_PWM_INITIAL := 180
  const FINE_PWM_MIN := 140
  const FINE_PWM_MAX := 260
  const FINE_PWM_STEP := 20
  const FINE_PULSE_MS := 20
  const FINE_PROGRESS_MIN_DEG := 0.05
  const DIRECTION_CHECK_MS := 600
  const DIRECTION_PROGRESS_DEG := 2.0
  const SEQUENCE_PAUSE_MS := 700
  const DEBOUNCE_SAMPLES := 3

  datatype Button = NoButton | CwButton | CcwButton | SequenceButton

  datatype State = WaitImu | Idle | Cw | Ccw | SequenceCw | SequencePause | SequenceCcw | Done | Fault

  datatype Phase = Coarse | Brake | FinePulse

  datatype ImuState = Off | Initializing | Calibrating | Ready | ImuFault

  datatype Imu = Imu(state: ImuState, status: int, ready: bool, yaw: real, gz: real)
  {
    predicate Usable() {
      state == Ready && ready && status == 0
    }
  }

  /** What one tick reads: the clock, the three buttons, the system fault latch and
      the latest IMU snapshot. */
  datatype Input = Input(now: Tick, cwDown: bool, ccwDown: bool, sequenceDown: bool,
                         systemFault: bool, imu: Imu)

  type Direction = d: int | -1 <= d <= 1

  /** The variables the control task keeps between ticks. */
  datatype Control = Control(
    candidate: Button, stable: Button, stableSamples: nat,
    state: State, phase: Phase,
    target: real, origin: real, expected: Direction,
    settle: nat, phaseStarted: Tick, segmentStarted: Tick, faultStatus: int,
    finePwm: int, fineAttempts: nat, fineDirection: Direction,
    fineStartYaw: real, fineErrorBefore: real)

  datatype World = World(ctl: Control, motors: Bank)

  function InitialControl(): Control {
    Control(NoButton, NoButton, DEBOUNCE_SAMPLES, WaitImu, Coarse, 0.0, 0.0, 0,
            0, 0, 0, 0, FINE_PWM_INITIAL, 0, 0, 0.0, 0.0)
  }

  function Initial(): World {
    World(InitialControl(), PowerOn())
  }

  predicate Turning(s: State) {
    s == Cw || s == Ccw || s == SequenceCw || s == SequenceCcw
  }

  function Abs(x: real): real {
    if x < 0.0 then -x else x
  }

  /** `x * (float)d` for a direction. */
  function Along(x: real, d: Direction): real {
    if d == 1 then x else if d == -1 then -x else 0.0
  }

  function ReadButtons(i: Input): Button {
    if i.cwDown && !i.ccwDown && !i.sequenceDown then CwButton
    else if !i.cwDown && i.ccwDown && !i.sequenceDown then CcwButton
    else if !i.cwDown && !i.ccwDown && i.sequenceDown then SequenceButton
    else NoButton
  }

  function TurnPwm(error: real): (pwm: int)
    ensures PWM_APPROACH_MIN <= pwm <= TURN_PWM_MAX
    ensures Abs(error) >= APPROACH_WINDOW_DEG ==> pwm >= TURN_PWM_MIN
  {
    var m := Abs(error);
    var magnitude :=
      if m < APPROACH_WINDOW_DEG
      then PWM_APPROACH_MIN as real + (TURN_PWM_MIN - PWM_APPROACH_MIN) as real * m / APPROACH_WINDOW_DEG
      else m * TURN_KP;
    var floored :=
      if m >= APPROACH_WINDOW_DEG && magnitude < TURN_PWM_MIN as real then TURN_PWM_MIN as real else magnitude;
    (if floored > TURN_PWM_MAX as real then TURN_PWM_MAX as real else floored).Floor
  }

  function ClampFine(pwm: int): int {
    if pwm < FINE_PWM_MIN then FINE_PWM_MIN else if pwm > FINE_PWM_MAX then FINE_PWM_MAX else pwm
  }

  function StopMotors(b: Bank, now: Tick): Bank {
    SignedPair(b, 0, 0, now)
  }

  /** A positive error turns counterclockwise: left wheel back, right wheel forward. */
  function ApplyTurn(b: Bank, error: real, pwm: int, now: Tick): Bank {
    if error > 0.0 then SignedPair(b, -pwm, pwm, now) else SignedPair(b, pwm, -pwm, now)
  }

  // ----- the stages of one tick -----

  function Sampled(c: Control, sample: Button): Control {
    if sample != c.candidate then c.(candidate := sample, stableSamples := 1)
    else if c.stableSamples < DEBOUNCE_SAMPLES then c.(stableSamples := c.stableSamples + 1)
    else c
  }

  predicate Changed(c: Control) {
    c.stableSamples >= DEBOUNCE_SAMPLES && c.stable != c.candidate
  }

  /** The press this tick reports, if any. */
  function Pressed(c: Control, i: Input): Button {
    var s := Sampled(c, ReadButtons(i));
    if Changed(s) then s.candidate else NoButton
  }

  function Debounced(c: Control, i: Input): Control {
    var s := Sampled(c, ReadButtons(i));
    if Changed(s) then s.(stable := s.candidate) else s
  }

  function Failed(c: Control, status: int): Control {
    c.(state := Fault, faultStatus := status)
  }

  function Gated(c: Control, i: Input): Control {
    if i.systemFault then Failed(c, if c.faultStatus == 0 then -5 else c.faultStatus)
    else if i.imu.state == ImuFault || i.imu.status != 0 then
      Failed(c, if i.imu.status != 0 then i.imu.status else -1)
    else if i.imu.state != Ready || !i.imu.ready then
      if Turning(c.state) then Failed(c, -4)
      else if c.state != Fault then c.(state := WaitImu)
      else c
    else if c.state == WaitImu then c.(state := Idle)
    else c
  }

  function Rearmed(c: Control, now: Tick): Control {
    c.(settle := 0, phaseStarted := now, segmentStarted := now, phase := Coarse,
       finePwm := FINE_PWM_INITIAL, fineAttempts := 0)
  }

  function StartLeg(c: Control, s: State, origin: real, target: real, d: Direction, now: Tick): Control {
    Rearmed(c, now).(state := s, origin := origin, target := target, expected := d)
  }

  function Launched(c: Control, pressed: Button, i: Input): Control {
    if (c.state == Idle || c.state == Done) && pressed != NoButton && i.imu.Usable() then
      var y := i.imu.yaw;
      match pressed
      case CcwButton => StartLeg(c, Ccw, y, y + TURN_ANGLE_DEG, 1, i.now)
      case CwButton => StartLeg(c, Cw, y, y - TURN_ANGLE_DEG, -1, i.now)
      case _ => StartLeg(c, SequenceCw, y, y - TURN_ANGLE_DEG, -1, i.now)
    else c
  }

  /** Everything before the motors are driven. */
  function Prepared(c: Control, i: Input): Control {
    Launched(Gated(Debounced(c, i), i), Pressed(c, i), i)
  }

  function BeginBrake(w: World, now: Tick): World {
    World(w.ctl.(phase := Brake, phaseStarted := now, settle := 0), BrakePair(w.motors))
  }

  function CoarseStep(w: World, i: Input): World {
    var error := w.ctl.target - i.imu.yaw;
    if Abs(error) <= FINE_ENTRY_DEG || Along(error, w.ctl.expected) <= 0.0
    then BeginBrake(w, i.now)
    else w.(motors := ApplyTurn(w.motors, error, TurnPwm(error), i.now))
  }

  function PulseStep(w: World, i: Input): World {
    var error := w.ctl.target - i.imu.yaw;
    if Along(error, w.ctl.fineDirection) <= 0.0 || Since(i.now, w.ctl.phaseStarted) >= FINE_PULSE_MS
    then BeginBrake(w, i.now)
    else w.(motors := ApplyTurn(w.motors, w.ctl.fineDirection as real, w.ctl.finePwm, i.now))
  }

  predicate Quiet(c: Control, i: Input) {
    Since(i.now, c.phaseStarted) >= BRAKE_MIN_MS && Abs(i.imu.gz) <= SETTLE_RATE_DPS
  }

  /** The pulse strength adapts to what the previous pulse achieved. */
  function NextFinePwm(c: Control, yaw: real): int {
    if c.fineAttempts > 0 then
      if Along(yaw - c.fineStartYaw, c.fineDirection) < FINE_PROGRESS_MIN_DEG
      then ClampFine(c.finePwm + FINE_PWM_STEP)
      else if Abs(c.target - yaw) >= c.fineErrorBefore then ClampFine(c.finePwm - FINE_PWM_STEP)
      else c.finePwm
    else c.finePwm
  }

  function Pulsed(c: Control, i: Input): Control {
    var error := c.target - i.imu.yaw;
    c.(finePwm := NextFinePwm(c, i.imu.yaw), fineDirection := if error >= 0.0 then 1 else -1,
       fineStartYaw := i.imu.yaw, fineErrorBefore := Abs(error),
       fineAttempts := c.fineAttempts + 1, phase := FinePulse, phaseStarted := i.now)
  }

  function BeginPulse(w: World, i: Input): World {
    var c := Pulsed(w.ctl, i);
    World(c, ApplyTurn(w.motors, c.fineDirection as real, c.finePwm, i.now))
  }

  function Settled(w: World, i: Input): World {
    if Abs(w.ctl.target - i.imu.yaw) <= PRECISION_DEG then
      var stopped := StopMotors(w.motors, i.now);
      if w.ctl.state == SequenceCw
      then World(w.ctl.(state := SequencePause, phaseStarted := i.now), stopped)
      else World(w.ctl.(state := Done), stopped)
    else if w.ctl.fineAttempts >= FINE_MAX_ATTEMPTS then w.(ctl := Failed(w.ctl, -6))
    else BeginPulse(w, i)
  }

  function BrakeStep(w: World, i: Input): World {
    var settle := if Quiet(w.ctl, i) then w.ctl.settle + 1 else 0;
    var braked := BrakePair(w.motors);
    if settle >= SETTLE_SAMPLES then Settled(World(w.ctl.(settle := 0), braked), i)
    else World(w.ctl.(settle := settle), braked)
  }

  function TurnStep(w: World, i: Input): World {
    var c := w.ctl;
    if Since(i.now, c.segmentStarted) > TIMEOUT_MS then w.(ctl := Failed(c, -2))
    else if c.phase == Coarse && Since(i.now, c.segmentStarted) >= DIRECTION_CHECK_MS &&
            Along(i.imu.yaw - c.origin, c.expected) < DIRECTION_PROGRESS_DEG then w.(ctl := Failed(c, -3))
    else
      match c.phase
      case Coarse => CoarseStep(w, i)
      case FinePulse => PulseStep(w, i)
      case Brake => BrakeStep(w, i)
  }

  function PauseStep(w: World, i: Input): World {
    World(if Since(i.now, w.ctl.phaseStarted) >= SEQUENCE_PAUSE_MS
          then StartLeg(w.ctl, SequenceCcw, i.imu.yaw, w.ctl.target + TURN_ANGLE_DEG, 1, i.now)
          else w.ctl,
          StopMotors(w.motors, i.now))
  }

  function Driven(w: World, i: Input): World {
    if Turning(w.ctl.state) then TurnStep(w, i)
    else if w.ctl.state == SequencePause then PauseStep(w, i)
    else w.(motors := StopMotors(w.motors, i.now))
  }

  function Finished(w: World, now: Tick): World {
    w.(motors := Safety(if w.ctl.state == Fault then StopMotors(w.motors, now) else w.motors, now))
  }

  /** One tick of the control task. */
  function Step(w: World, i: Input): World {
    Finished(Driven(World(Prepared(w.ctl, i), w.motors), i), i.now)
  }

  // ----- the task body -----

  class TurnTask {
    var candidate: Button
    var stable: Button
    var stableSamples: nat
    var state: State
    var phase: Phase
    var target: real
    var origin: real
    var expected: Direction
    var settle: nat
    var phaseStarted: Tick
    var segmentStarted: Tick
    var faultStatus: int
    var finePwm: int
    var fineAttempts: nat
    var fineDirection: Direction
    var fineStartYaw: real
    var fineErrorBefore: real
    const motors: MotorBank

    ghost function Ctl(): Control
      reads this
    {
      Control(candidate, stable, stableSamples, state, phase, target, origin, expected,
              settle, phaseStarted, segmentStarted, faultStatus, finePwm, fineAttempts,
              fineDirection, fineStartYaw, fineErrorBefore)
    }

    ghost function State(): World
      reads this, motors
    {
      World(Ctl(), motors.State())
    }

    constructor (bank: MotorBank)
      ensures motors == bank && Ctl() == InitialControl()
    {
      candidate, stable, stableSamples := NoButton, NoButton, DEBOUNCE_SAMPLES;
      state, phase := WaitImu, Coarse;
      target, origin, expected := 0.0, 0.0, 0;
      settle, phaseStarted, segmentStarted, faultStatus := 0, 0, 0, 0;
      finePwm, fineAttempts, fineDirection := FINE_PWM_INITIAL, 0, 0;
      fineStartYaw, fineErrorBefore := 0.0, 0.0;
      motors := bank;
    }

    method Stop(now: Tick)
      modifies motors
      ensures motors.State() == StopMotors(old(motors.State()), now)
    {
      motors.SetSignedDuty(0, 0, now);
      motors.SetSignedDuty(1, 0, now);
    }

    method BrakeMotors()
      modifies motors
      ensures motors.State() == BrakePair(old(motors.State()))
    {
      motors.Brake(0);
      motors.Brake(1);
    }

    method Apply(error: real, pwm: int, now: Tick)
      modifies motors
      ensures motors.State() == ApplyTurn(old(motors.State()), error, pwm, now)
    {
      if error > 0.0 {
        motors.SetSignedDuty(0, -pwm, now);
        motors.SetSignedDuty(1, pwm, now);
      } else {
        motors.SetSignedDuty(0, pwm, now);
        motors.SetSignedDuty(1, -pwm, now);
      }
    }

    method Debounce(i: Input) returns (pressed: Button)
      modifies this
      ensures Ctl() == Debounced(old(Ctl()), i) && pressed == Pressed(old(Ctl()), i)
    {
      pressed := NoButton;
      var sample := ReadButtons(i);
      if sample != candidate {
        candidate := sample;
        stableSamples := 1;
      } else if stableSamples < DEBOUNCE_SAMPLES {
        stableSamples := stableSamples + 1;
      }
      if stableSamples >= DEBOUNCE_SAMPLES && stable != candidate {
        stable := candidate;
        if stable != NoButton {
          pressed := stable;
        }
      }
    }

    method Gate(i: Input)
      modifies this
      ensures Ctl() == Gated(old(Ctl()), i)
    {
      if i.systemFault {
        state := Fault;
        if faultStatus == 0 { faultStatus := -5; }
      } else if i.imu.state == ImuFault || i.imu.status != 0 {
        state := Fault;
        faultStatus := if i.imu.status != 0 then i.imu.status else -1;
      } else if i.imu.state != Ready || !i.imu.ready {
        if Turning(state) {
          state := Fault;
          faultStatus := -4;
        } else if state != Fault {
          state := WaitImu;
        }
      } else if state == WaitImu {
        state := Idle;
      }
    }

    /** The timers and counters every new leg starts from. */
    method Rearm(now: Tick)
      modifies this
      ensures Ctl() == Rearmed(old(Ctl()), now)
    {
      settle := 0;
      phaseStarted := now;
      segmentStarted := now;
      phase := Coarse;
      finePwm := FINE_PWM_INITIAL;
      fineAttempts := 0;
    }

    method Launch(pressed: Button, i: Input)
      modifies this
      ensures Ctl() == Launched(old(Ctl()), pressed, i)
    {
      if (state == Idle || state == Done) && pressed != NoButton && i.imu.Usable() {
        Rearm(i.now);
        origin := i.imu.yaw;
        if pressed == CwButton {
          state := Cw;
          expected := -1;
          target := origin - TURN_ANGLE_DEG;
        } else if pressed == CcwButton {
          state := Ccw;
          expected := 1;
          target := origin + TURN_ANGLE_DEG;
        } else {
          state := SequenceCw;
          expected := -1;
          target := origin - TURN_ANGLE_DEG;
        }
      }
    }

    method EnterBrake(now: Tick)
      modifies this, motors
      ensures State() == BeginBrake(old(State()), now)
    {
      phase := Brake;
      phaseStarted := now;
      settle := 0;
      BrakeMotors();
    }

    /** The pulse strength is raised when the previous pulse hardly moved the car and
        lowered when it made the error no smaller. */
    method AdaptPulse(yaw: real)
      modifies this`finePwm
      ensures finePwm == NextFinePwm(old(Ctl()), yaw)
    {
      hide ClampFine, Along, Abs;
      if fineAttempts > 0 {
        var progress := Along(yaw - fineStartYaw, fineDirection);
        if progress < FINE_PROGRESS_MIN_DEG {
          finePwm := ClampFine(finePwm + FINE_PWM_STEP);
        } else if Abs(target - yaw) >= fineErrorBefore {
          finePwm := ClampFine(finePwm - FINE_PWM_STEP);
        }
      }
    }

    method RecordPulse(i: Input, error: real)
      requires error == target - i.imu.yaw
      modifies this
      ensures Ctl() == Pulsed(old(Ctl()), i)
    {
      hide NextFinePwm, Abs;
      AdaptPulse(i.imu.yaw);
      fineDirection := if error >= 0.0 then 1 else -1;
      fineStartYaw := i.imu.yaw;
      fineErrorBefore := Abs(error);
      fineAttempts := fineAttempts + 1;
      phase := FinePulse;
      phaseStarted := i.now;
    }

    method StartPulse(i: Input, error: real)
      requires error == target - i.imu.yaw
      modifies this, motors
      ensures State() == BeginPulse(old(State()), i)
    {
      RecordPulse(i, error);
      hide Pulsed, ApplyTurn;
      Apply(fineDirection as real, finePwm, i.now);
    }

    method BrakePhase(i: Input, error: real)
      requires error == target - i.imu.yaw
      modifies this, motors
      ensures State() == BrakeStep(old(State()), i)
    {
      BrakeMotors();
      if Since(i.now, phaseStarted) >= BRAKE_MIN_MS && Abs(i.imu.gz) <= SETTLE_RATE_DPS {
        settle := settle + 1;
      } else {
        settle := 0;
      }
      if settle >= SETTLE_SAMPLES {
        var magnitude := Abs(error);
        settle := 0;
        if magnitude <= PRECISION_DEG {
          Stop(i.now);
          if state == SequenceCw {
            state := SequencePause;
            phaseStarted := i.now;
          } else {
            state := Done;
          }
        } else if fineAttempts >= FINE_MAX_ATTEMPTS {
          state := Fault;
          faultStatus := -6;
        } else {
          StartPulse(i, error);
        }
      }
    }

    method Pause(i: Input)
      modifies this, motors
      ensures State() == PauseStep(old(State()), i)
    {
      hide StopMotors, Since;
      Stop(i.now);
      if Since(i.now, phaseStarted) >= SEQUENCE_PAUSE_MS {
        Rearm(i.now);
        state := SequenceCcw;
        origin := i.imu.yaw;
        expected := 1;
        target := target + TURN_ANGLE_DEG;
      }
    }

    method Drive(i: Input)
      modifies this, motors
      ensures State() == Driven(old(State()), i)
    {
      if Turning(state) {
        var progress := Along(i.imu.yaw - origin, expected);
        var error := target - i.imu.yaw;
        if Since(i.now, segmentStarted) > TIMEOUT_MS {
          state := Fault;
          faultStatus := -2;
        } else if phase == Coarse && Since(i.now, segmentStarted) >= DIRECTION_CHECK_MS &&
                  progress < DIRECTION_PROGRESS_DEG {
          state := Fault;
          faultStatus := -3;
        } else if phase == Coarse {
          if Abs(error) <= FINE_ENTRY_DEG || Along(error, expected) <= 0.0 {
            EnterBrake(i.now);
          } else {
            Apply(error, TurnPwm(error), i.now);
          }
        } else if phase == FinePulse {
          if Along(error, fineDirection) <= 0.0 || Since(i.now, phaseStarted) >= FINE_PULSE_MS {
            EnterBrake(i.now);
          } else {
            Apply(fineDirection as real, finePwm, i.now);
          }
        } else {
          BrakePhase(i, error);
        }
      } else if state == SequencePause {
        Pause(i);
      } else {
        Stop(i.now);
      }
    }

    /** The body of the control task's endless loop. */
    method RunTick(i: Input)
      modifies this, motors
      ensures State() == Step(old(State()), i)
    {
      var pressed := Debounce(i);
      Gate(i);
      Launch(pressed, i);
      Drive(i);
      if state == Fault {
        Stop(i.now);
      }
      motors.SafetyTick(i.now);
    }
  }
}
