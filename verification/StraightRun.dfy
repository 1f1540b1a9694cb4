/** The straight-run controller: one tick of the control task of the straight calibration
    firmware, as a step on its variables and the motor bank, and as the imperative task
    body proved equal to it. */
module StraightRun {
  import opened Ticks
  import opened Motors

  const BASE_PWM := 300
  const START_PWM := 300
  const LEFT_OFFSET := 0
  const RIGHT_OFFSET := 0
  const LEFT_TARGET := 7344
  const RIGHT_TARGET := 7314
  const DECEL_WINDOW := 900
  const MIN_PWM := 220
  const RAMP_MS := 500
  const SYNC_KP := 0.08
  const SYNC_DEADBAND := 3
  const SYNC_MAX := 15
  const RUN_TIMEOUT_MS := 15000
  const BRAKE_HOLD_MS := 300
  const FINISH_ARM_MS := 500
  const LINE_STABLE := 5
  const LINE_CENTER := 3
  const DEBOUNCE_SAMPLES := 3

  /** Encoder totals small enough for every integer cast of the controller to be exact. */
  const TOTAL_LIMIT := 390000

  type Total = t: int | -TOTAL_LIMIT <= t <= TOTAL_LIMIT

  /** The line channels, true where the reading is not zero. */
  type Row = r: seq<bool> | |r| > LINE_CENTER witness [false, false, false, false]

  datatype State = WaitImu | Ready | Running | Done | Fault

  datatype Input = Input(now: Tick, buttonDown: bool, systemFault: bool, line: Row, left: Total, right: Total)

  datatype Control = Control(
    candidate: bool, stable: bool, samples: nat,
    state: State, runStarted: Tick, brakeStarted: Tick, status: int,
    startBlack: bool, leftStart: bool, lineSamples: nat)

  datatype World = World(ctl: Control, motors: Bank)

  function InitialControl(): Control {
    Control(false, false, DEBOUNCE_SAMPLES, Ready, 0, 0, 0, false, false, 0)
  }

  function Initial(): World {
    World(InitialControl(), PowerOn())
  }

  // ----- the wheel laws -----

  function Magnitude(t: int): nat {
    if t < 0 then -t else t
  }

  /** The float-to-integer cast: towards zero. */
  function Truncated(x: real): int {
    if x >= 0.0 then x.Floor else -((-x).Floor)
  }

  function WheelPwm(count: nat, target: nat, elapsed: nat, offset: int): int {
    if count >= target then 0
    else
      var remaining := target - count;
      if remaining < DECEL_WINDOW then
        Truncated(MIN_PWM as real
                  + (BASE_PWM - MIN_PWM) as real * remaining as real / DECEL_WINDOW as real
                  + offset as real)
      else if elapsed < RAMP_MS then
        Truncated(START_PWM as real
                  + (BASE_PWM - START_PWM) as real * elapsed as real / RAMP_MS as real
                  + offset as real * (elapsed as real / RAMP_MS as real))
      else Truncated(BASE_PWM as real + offset as real)
  }

  /** The left count that matches a right count, rounded. */
  function DesiredLeft(right: nat): nat {
    (right * LEFT_TARGET + RIGHT_TARGET / 2) / RIGHT_TARGET
  }

  function RampScale(elapsed: nat): real {
    if elapsed < RAMP_MS then elapsed as real / RAMP_MS as real else 1.0
  }

  function Correction(error: int, elapsed: nat): int {
    if -SYNC_DEADBAND <= error <= SYNC_DEADBAND then 0
    else
      var adjust := Truncated(error as real * SYNC_KP * RampScale(elapsed));
      if adjust > SYNC_MAX then SYNC_MAX else if adjust < -SYNC_MAX then -SYNC_MAX else adjust
  }

  function SyncAdjust(left: nat, right: nat, elapsed: nat): int {
    Correction(DesiredLeft(right) - left, elapsed)
  }

  // ----- the status word -----

  /** `status & 2`, in two's complement. */
  predicate LineSeen(status: int) {
    (status / 2) % 2 == 1
  }

  /** `status | 2`. */
  function WithLine(status: int): int {
    if LineSeen(status) then status else status + 2
  }

  /** `status | 1`. */
  function WithDistance(status: int): int {
    if status % 2 == 1 then status else status + 1
  }

  // ----- the stages of one tick -----

  function Sampled(c: Control, down: bool): Control {
    if down != c.candidate then c.(candidate := down, samples := 1)
    else if c.samples < DEBOUNCE_SAMPLES then c.(samples := c.samples + 1)
    else c
  }

  predicate Changed(c: Control) {
    c.samples >= DEBOUNCE_SAMPLES && c.stable != c.candidate
  }

  predicate Pressed(c: Control, i: Input) {
    var s := Sampled(c, i.buttonDown);
    Changed(s) && s.candidate
  }

  function Debounced(c: Control, i: Input): Control {
    var s := Sampled(c, i.buttonDown);
    if Changed(s) then s.(stable := s.candidate) else s
  }

  function Gated(c: Control, i: Input): Control {
    if i.systemFault then c.(state := Fault, status := if c.status == 0 then -5 else c.status) else c
  }

  function Center(i: Input): bool {
    i.line[LINE_CENTER]
  }

  function Answered(c: Control, pressed: bool, i: Input): Control {
    if pressed && (c.state == Ready || c.state == Done) then
      c.(runStarted := i.now, status := 0, startBlack := Center(i), leftStart := false,
         lineSamples := 0, state := Running)
    else if pressed && c.state == Running then c.(brakeStarted := i.now, state := Done)
    else c
  }

  /** Some channel reads the given level. */
  predicate BackOnLine(level: bool, i: Input) {
    level in i.line
  }

  function Counted(c: Control, seen: bool, complete: Control): Control {
    if !seen then c.(lineSamples := 0)
    else if c.lineSamples + 1 >= LINE_STABLE then complete.(lineSamples := 0)
    else c.(lineSamples := c.lineSamples + 1)
  }

  /** Leaving the start line, then validating the finish line. */
  function Watched(c: Control, i: Input): Control {
    if !c.leftStart then Counted(c, Center(i) != c.startBlack, c.(leftStart := true))
    else if Since(i.now, c.runStarted) >= FINISH_ARM_MS && !LineSeen(c.status) then
      Counted(c, BackOnLine(c.startBlack, i), c.(status := WithLine(c.status)))
    else c
  }

  /** Everything before the motors are driven. */
  function Prepared(c: Control, i: Input): Control {
    var a := Answered(Gated(Debounced(c, i), i), Pressed(c, i), i);
    if a.state == Running then Watched(a, i) else a
  }

  predicate Arrived(i: Input) {
    Magnitude(i.left) >= LEFT_TARGET && Magnitude(i.right) >= RIGHT_TARGET
  }

  function WheelDuties(i: Input, elapsed: nat): (int, int) {
    var l := WheelPwm(Magnitude(i.left), LEFT_TARGET, elapsed, LEFT_OFFSET);
    var r := WheelPwm(Magnitude(i.right), RIGHT_TARGET, elapsed, RIGHT_OFFSET);
    var adjust := SyncAdjust(Magnitude(i.left), Magnitude(i.right), elapsed);
    if l != 0 && r != 0 then (l + adjust, r - adjust) else (l, r)
  }

  function WheelCommand(b: Bank, ch: nat, duty: int, now: Tick): Bank {
    if duty == 0 then BrakeChannel(b, ch) else SignedDuty(b, ch, duty, now)
  }

  function RunStep(w: World, i: Input): World {
    var elapsed := Since(i.now, w.ctl.runStarted);
    if elapsed > RUN_TIMEOUT_MS then w.(ctl := w.ctl.(state := Fault, status := -2))
    else if Arrived(i) then
      World(w.ctl.(brakeStarted := i.now, status := WithDistance(w.ctl.status), state := Done), BrakePair(w.motors))
    else
      var duties := WheelDuties(i, elapsed);
      w.(motors := WheelCommand(WheelCommand(w.motors, 0, duties.0, i.now), 1, duties.1, i.now))
  }

  function Driven(w: World, i: Input): World {
    if w.ctl.state == Running then RunStep(w, i)
    else if w.ctl.state == Done && Since(i.now, w.ctl.brakeStarted) < BRAKE_HOLD_MS then
      w.(motors := BrakePair(w.motors))
    else w.(motors := SignedPair(w.motors, 0, 0, i.now))
  }

  predicate Launches(c: Control, i: Input) {
    Pressed(c, i) && !i.systemFault && (c.state == Ready || c.state == Done)
  }

  /** The totals this tick reads: a launch has just reset both encoders. */
  function Read(c: Control, i: Input): Input {
    if Launches(c, i) then i.(left := 0, right := 0) else i
  }

  /** One tick of the control task. */
  function Step(w: World, i: Input): World {
    var d := Driven(World(Prepared(w.ctl, i), w.motors), Read(w.ctl, i));
    if d.ctl.state == Fault then d.(motors := SignedPair(d.motors, 0, 0, i.now)) else d
  }

  // ----- the task body -----

  class StraightTask {
    var candidate: bool
    var stable: bool
    var samples: nat
    var state: State
    var runStarted: Tick
    var brakeStarted: Tick
    var status: int
    var startBlack: bool
    var leftStart: bool
    var lineSamples: nat
    const motors: MotorBank

    ghost function Ctl(): Control
      reads this
    {
      Control(candidate, stable, samples, state, runStarted, brakeStarted, status, startBlack, leftStart, lineSamples)
    }

    ghost function State(): World
      reads this, motors
    {
      World(Ctl(), motors.State())
    }

    constructor (bank: MotorBank)
      ensures motors == bank && Ctl() == InitialControl()
    {
      candidate, stable, samples := false, false, DEBOUNCE_SAMPLES;
      state, runStarted, brakeStarted, status := Ready, 0, 0, 0;
      startBlack, leftStart, lineSamples := false, false, 0;
      motors := bank;
    }

    method Debounce(i: Input) returns (pressed: bool)
      modifies this
      ensures Ctl() == Debounced(old(Ctl()), i) && pressed == Pressed(old(Ctl()), i)
    {
      if i.buttonDown != candidate {
        candidate := i.buttonDown;
        samples := 1;
      } else if samples < DEBOUNCE_SAMPLES {
        samples := samples + 1;
      }
      pressed := false;
      if samples >= DEBOUNCE_SAMPLES && stable != candidate {
        stable := candidate;
        pressed := stable;
      }
    }

    /** The channel scan stops at the first one back on the starting level. */
    method LineDetected(i: Input) returns (detected: bool)
      ensures detected == BackOnLine(startBlack, i)
    {
      for n := 0 to |i.line|
        invariant startBlack !in i.line[..n]
      {
        if i.line[n] == startBlack {
          return true;
        }
      }
      return false;
    }

    method Watch(i: Input)
      modifies this
      ensures Ctl() == Watched(old(Ctl()), i)
    {
      if !leftStart {
        if Center(i) != startBlack {
          lineSamples := lineSamples + 1;
          if lineSamples >= LINE_STABLE {
            leftStart := true;
            lineSamples := 0;
          }
        } else {
          lineSamples := 0;
        }
      } else if Since(i.now, runStarted) >= FINISH_ARM_MS && !LineSeen(status) {
        var detected := LineDetected(i);
        if detected {
          lineSamples := lineSamples + 1;
          if lineSamples >= LINE_STABLE {
            status := WithLine(status);
            lineSamples := 0;
          }
        } else {
          lineSamples := 0;
        }
      }
    }

    method BrakeMotors()
      modifies motors
      ensures motors.State() == BrakePair(old(motors.State()))
    {
      motors.Brake(0);
      motors.Brake(1);
    }

    method Stop(now: Tick)
      modifies motors
      ensures motors.State() == SignedPair(old(motors.State()), 0, 0, now)
    {
      motors.SetSignedDuty(0, 0, now);
      motors.SetSignedDuty(1, 0, now);
    }

    method Command(ch: nat, duty: int, now: Tick)
      modifies motors
      ensures motors.State() == WheelCommand(old(motors.State()), ch, duty, now)
    {
      if duty == 0 {
        motors.Brake(ch);
      } else {
        motors.SetSignedDuty(ch, duty, now);
      }
    }

    method RunWheels(i: Input)
      requires state == Running
      modifies this, motors
      ensures State() == RunStep(old(State()), i)
    {
      var elapsed := Since(i.now, runStarted);
      var l, r := Magnitude(i.left), Magnitude(i.right);
      if elapsed > RUN_TIMEOUT_MS {
        state := Fault;
        status := -2;
      } else if l >= LEFT_TARGET && r >= RIGHT_TARGET {
        BrakeMotors();
        brakeStarted := i.now;
        status := WithDistance(status);
        state := Done;
      } else {
        var leftPwm := WheelPwm(l, LEFT_TARGET, elapsed, LEFT_OFFSET);
        var rightPwm := WheelPwm(r, RIGHT_TARGET, elapsed, RIGHT_OFFSET);
        var adjust := SyncAdjust(l, r, elapsed);
        hide WheelPwm, SyncAdjust;
        if leftPwm != 0 && rightPwm != 0 {
          leftPwm := leftPwm + adjust;
          rightPwm := rightPwm - adjust;
        }
        Command(0, leftPwm, i.now);
        Command(1, rightPwm, i.now);
      }
    }

    method Gate(i: Input)
      modifies this
      ensures Ctl() == Gated(old(Ctl()), i)
    {
      if i.systemFault {
        state := Fault;
        if status == 0 {
          status := -5;
        }
      }
    }

    /** Starts a run or stops the running one; the stop brakes at once. */
    method Answer(pressed: bool, i: Input) returns (launched: bool)
      modifies this, motors
      ensures launched == old(pressed && (state == Ready || state == Done))
      ensures Ctl() == Answered(old(Ctl()), pressed, i)
      ensures motors.State() == old(if pressed && state == Running then BrakePair(motors.State()) else motors.State())
    {
      launched := pressed && (state == Ready || state == Done);
      if launched {
        runStarted := i.now;
        status := 0;
        startBlack := Center(i);
        leftStart := false;
        lineSamples := 0;
        state := Running;
      } else if pressed && state == Running {
        BrakeMotors();
        brakeStarted := i.now;
        state := Done;
      }
    }

    method Drive(i: Input)
      modifies this, motors
      ensures State() == Driven(old(State()), i)
    {
      if state == Running {
        RunWheels(i);
      } else if state == Done && Since(i.now, brakeStarted) < BRAKE_HOLD_MS {
        BrakeMotors();
      } else {
        Stop(i.now);
      }
    }

    /** The body of the control task's endless loop. */
    method RunTick(i: Input)
      modifies this, motors
      ensures State() == Step(old(State()), i)
    {
      var pressed := Debounce(i);
      Gate(i);
      ghost var stopping := pressed && state == Running;
      var launched := Answer(pressed, i);
      var reading := if launched then i.(left := 0, right := 0) else i;
      if state == Running {
        Watch(i);
      }
      ghost var w := State();
      assert w.ctl == Prepared(old(Ctl()), i);
      assert stopping ==> w.ctl.state == Done && w.ctl.brakeStarted == i.now;
      assert reading == Read(old(Ctl()), i);
      hide Prepared, RunStep, Read;
      assert Driven(w, reading) == Driven(World(w.ctl, old(motors.State())), reading);
      Drive(reading);
      if state == Fault {
        Stop(i.now);
      }
    }
  }
}
