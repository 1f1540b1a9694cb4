/** What the turn controller guarantees over every input trace. */
module TurnHistory {
  import opened Ticks
  import opened Motors
  import opened TurnController

  /** `ws[k]` is the world before tick `k` of the trace `ins`, from power-on. */
  ghost predicate Run(ins: seq<Input>, ws: seq<World>) {
    && |ws| == |ins| + 1
    && ws[0] == Initial()
    && forall k | 0 <= k < |ins| :: Ticked(ins, ws, k)
  }

  ghost predicate Ticked(ins: seq<Input>, ws: seq<World>, k: nat)
    requires k < |ins| && |ws| == |ins| + 1
  {
    ws[k + 1] == Step(ws[k], ins[k])
  }

  // ----- what every tick keeps -----

  ghost predicate Sane(c: Control) {
    && c.stableSamples <= DEBOUNCE_SAMPLES
    && c.settle < SETTLE_SAMPLES
    && c.fineAttempts <= FINE_MAX_ATTEMPTS
    && FINE_PWM_MIN <= c.finePwm <= FINE_PWM_MAX
    && (c.state == Fault <==> c.faultStatus != 0)
    && SaneLeg(c)
  }

  ghost predicate SaneLeg(c: Control) {
    && (Turning(c.state) ==> c.expected == if c.state == Cw || c.state == SequenceCw then -1 else 1)
    && (c.state == Cw ==> c.target == c.origin - TURN_ANGLE_DEG)
    && (c.state == Ccw ==> c.target == c.origin + TURN_ANGLE_DEG)
    && (Turning(c.state) && c.phase != Brake ==> c.settle == 0)
    && (Turning(c.state) && c.phase == FinePulse ==> c.fineDirection != 0)
  }

  lemma GateIsSane(c: Control, i: Input)
    requires Sane(c)
    ensures Sane(Gated(c, i))
  {
  }

  lemma LaunchIsSane(c: Control, pressed: Button, i: Input)
    requires Sane(c)
    ensures Sane(Launched(c, pressed, i))
  {
  }

  lemma PreparedIsSane(c: Control, i: Input)
    requires Sane(c)
    ensures Sane(Prepared(c, i))
  {
    GateIsSane(Debounced(c, i), i);
    LaunchIsSane(Gated(Debounced(c, i), i), Pressed(c, i), i);
    hide Gated, Launched;
  }

  lemma TurnStepIsSane(w: World, i: Input)
    requires Sane(w.ctl) && Turning(w.ctl.state)
    ensures Sane(TurnStep(w, i).ctl)
  {
  }

  lemma StepIsSane(w: World, i: Input)
    requires Sane(w.ctl)
    ensures Sane(Step(w, i).ctl)
  {
    PreparedIsSane(w.ctl, i);
    var p := World(Prepared(w.ctl, i), w.motors);
    if Turning(p.ctl.state) {
      TurnStepIsSane(p, i);
    }
  }

  /** At most 20 fine pulses, of a strength between 140 and 260; a fault status is
      recorded exactly in the fault state. */
  lemma {:induction false} AlwaysSane(ins: seq<Input>, ws: seq<World>, k: nat)
    requires Run(ins, ws) && k <= |ins|
    ensures Sane(ws[k].ctl)
  {
    hide Step;
    if k > 0 {
      assert Ticked(ins, ws, k - 1);
      AlwaysSane(ins, ws, k - 1);
      StepIsSane(ws[k - 1], ins[k - 1]);
    }
  }

  // ----- the drive -----

  /** The coarse duty depends on the error's size only, never grows as the error
      shrinks, and is full exactly from 75 degrees on; over the middle range of 20 to
      55 degrees it rests at 220. */
  lemma TurnPwmSlowsDown(near: real, far: real)
    requires Abs(near) <= Abs(far)
    ensures TurnPwm(near) <= TurnPwm(far)
    ensures TurnPwm(-near) == TurnPwm(near)
    ensures TurnPwm(near) == TURN_PWM_MAX <==> Abs(near) >= 75.0
    ensures TurnPwm(near) == TURN_PWM_MIN <==> 20.0 <= Abs(near) < 55.25
    ensures TurnPwm(near) == PWM_APPROACH_MIN <==> 3.0 * Abs(near) < 1.0
  {
  }

  /** The duties a tick may leave behind, given the state it found and the yaw it
      read: opposite, at most 300, towards the target, and nonzero exactly in the
      driving phases of a turn. The tick that arms the second leg of a sequence
      still holds the motors. */
  ghost predicate SafeDrive(found: State, w: World, yaw: real) {
    var l, r := w.motors.left.duty, w.motors.right.duty;
    && l + r == 0
    && -TURN_PWM_MAX <= r <= TURN_PWM_MAX
    && (r != 0 <==> Turning(w.ctl.state) && w.ctl.phase != Brake && found != SequencePause)
    && (r > 0 ==> w.ctl.target - yaw > 0.0)
    && (r < 0 ==> w.ctl.target - yaw < 0.0)
  }

  ghost predicate Busy(s: State) {
    Turning(s) || s == SequencePause
  }

  ghost predicate InSequence(s: State) {
    s == SequenceCw || s == SequencePause || s == SequenceCcw
  }

  /** Preparing a tick only moves the state for faults, IMU gating and presses. */
  lemma PreparedState(c: Control, p: Control, i: Input)
    requires Sane(c) && p == Prepared(c, i)
    ensures Sane(p)
    ensures p.state == SequencePause ==> c.state == SequencePause && SameTurn(c, p)
    ensures Turning(p.state) && Turning(c.state) ==> SameTurn(c, p)
    ensures Turning(p.state) && !Turning(c.state) ==> LaunchedLeg(c, p, i)
    ensures Busy(p.state) ==> !i.systemFault && i.imu.Usable()
    ensures p.state == Done ==> c.state == Done
    ensures c.state == Fault ==> p.state == Fault
  {
    hide Sane;
    PreparedIsSane(c, i);
  }

  /** Only the debouncing variables differ. */
  ghost predicate SameTurn(c: Control, p: Control) {
    p == c.(candidate := p.candidate, stable := p.stable, stableSamples := p.stableSamples)
  }

  /** A leg launched by a press. */
  ghost predicate LaunchedLeg(c: Control, p: Control, i: Input) {
    && !Busy(c.state) && c.state != Fault && p.state != SequenceCcw
    && p.origin == i.imu.yaw
    && p.target == (if p.state == Ccw then i.imu.yaw + TURN_ANGLE_DEG else i.imu.yaw - TURN_ANGLE_DEG)
    && p.segmentStarted == i.now && p.phase == Coarse && p.settle == 0
    && Pressed(c, i) == (if p.state == Cw then CwButton else if p.state == Ccw then CcwButton else SequenceButton)
  }

  lemma TurnStepDrivesSafely(w: World, i: Input)
    requires Sane(w.ctl) && Turning(w.ctl.state)
    ensures TurnStep(w, i).ctl.state == Fault || SafeDrive(w.ctl.state, TurnStep(w, i), i.imu.yaw)
    ensures TurnStep(w, i).ctl.state == Fault || TurnStep(w, i).motors.Still() ||
            TurnStep(w, i).motors.lastCommand == i.now
  {
    hide TurnPwm;
    if w.ctl.phase == Coarse {
      CoarseDrivesSafely(w, i);
    }
  }

  lemma CoarseDrivesSafely(w: World, i: Input)
    requires Sane(w.ctl) && Turning(w.ctl.state) && w.ctl.phase == Coarse
    ensures SafeDrive(w.ctl.state, CoarseStep(w, i), i.imu.yaw)
    ensures CoarseStep(w, i).motors.Still() || CoarseStep(w, i).motors.lastCommand == i.now
  {
    hide TurnPwm;
  }

  lemma StepDrivesSafely(w: World, i: Input)
    requires Sane(w.ctl)
    ensures SafeDrive(w.ctl.state, Step(w, i), i.imu.yaw)
  {
    hide Prepared, TurnStep, Sane;
    var p := World(Prepared(w.ctl, i), w.motors);
    PreparedState(w.ctl, p.ctl, i);
    if Turning(p.ctl.state) {
      TurnStepDrivesSafely(p, i);
    }
  }

  lemma DriveIsSafe(ins: seq<Input>, ws: seq<World>, k: nat)
    requires Run(ins, ws) && k < |ins|
    ensures SafeDrive(ws[k].ctl.state, ws[k + 1], ins[k].imu.yaw)
  {
    hide Step, SafeDrive;
    AlwaysSane(ins, ws, k);
    assert Ticked(ins, ws, k);
    StepDrivesSafely(ws[k], ins[k]);
  }

  lemma FaultStays(w: World, i: Input)
    requires Sane(w.ctl) && w.ctl.state == Fault
    ensures Step(w, i).ctl.state == Fault && Step(w, i).motors.Still()
  {
    hide Prepared, TurnPwm, NextFinePwm, Sane;
    PreparedState(w.ctl, Prepared(w.ctl, i), i);
  }

  /** Once in the fault state, always in the fault state, with the motors still. */
  lemma {:induction false} FaultIsAbsorbing(ins: seq<Input>, ws: seq<World>, f: nat, k: nat)
    requires Run(ins, ws) && f < k <= |ins| && ws[f].ctl.state == Fault
    ensures ws[k].ctl.state == Fault && ws[k].motors.Still()
  {
    hide Step;
    if f < k - 1 {
      FaultIsAbsorbing(ins, ws, f, k - 1);
    }
    AlwaysSane(ins, ws, k - 1);
    assert Ticked(ins, ws, k - 1);
    FaultStays(ws[k - 1], ins[k - 1]);
  }

  /** An IMU that merely stops being ready faults a moving turn, but a pausing
      sequence is silently abandoned for the waiting state. */
  lemma DropoutFaultsExactlyWhenMoving(w: World, i: Input)
    requires Sane(w.ctl) && Busy(w.ctl.state)
    requires !i.systemFault && !i.imu.Usable() && i.imu.state != ImuFault && i.imu.status == 0
    ensures Step(w, i).ctl.state == Fault <==> Turning(w.ctl.state)
    ensures Step(w, i).ctl.state == WaitImu <==> w.ctl.state == SequencePause
    ensures Step(w, i).motors.Still()
  {
    hide TurnStep, PauseStep;
    var d := Debounced(w.ctl, i);
    assert d.state == w.ctl.state;
    assert Prepared(w.ctl, i) == Gated(d, i);
  }

  // ----- how a leg completes -----

  /** A tick of the settling window: braked, still and healthy, at least 120 ms
      after the brake phase began. */
  ghost predicate SettlingTick(c: Control, i: Input, after: World) {
    && Turning(c.state) && c.phase == Brake
    && !i.systemFault && i.imu.Usable()
    && Since(i.now, c.phaseStarted) >= BRAKE_MIN_MS
    && Abs(i.imu.gz) <= SETTLE_RATE_DPS
    && after.motors.Still()
  }

  /** The tick continues the brake phase the controller was already in. */
  ghost predicate KeepsBraking(c: Control, after: World) {
    && after.ctl.state == c.state && after.ctl.phase == Brake && after.motors.Braked()
    && after.ctl.phaseStarted == c.phaseStarted && after.ctl.target == c.target
  }

  lemma SettleGrowsOnlyWhenQuiet(w: World, i: Input, w': World)
    requires Sane(w.ctl) && w' == Step(w, i)
    requires Turning(w'.ctl.state) && w'.ctl.phase == Brake && w'.ctl.settle > 0
    ensures SettlingTick(w.ctl, i, w') && KeepsBraking(w.ctl, w')
    ensures w'.ctl.settle == w.ctl.settle + 1
  {
    hide Prepared, TurnPwm, NextFinePwm, Sane;
    PreparedState(w.ctl, Prepared(w.ctl, i), i);
  }

  lemma SettleIsZeroOnlyWhenUnquiet(w: World, i: Input, w': World)
    requires Sane(w.ctl) && w' == Step(w, i)
    requires Turning(w'.ctl.state) && w'.ctl.phase == Brake && w'.ctl.settle == 0
    ensures !SettlingTick(w.ctl, i, w')
  {
    PreparedState(w.ctl, Prepared(w.ctl, i), i);
    PreparedWhenUsable(w.ctl, i);
    hide Prepared, TurnPwm, NextFinePwm, Sane, Along;
  }

  ghost predicate Completes(w: World, w': World) {
    && w.ctl.state != w'.ctl.state
    && (w'.ctl.state == Done || w'.ctl.state == SequencePause)
  }

  /** What a tick needs to complete a leg. */
  ghost predicate CanComplete(c: Control, i: Input) {
    && Turning(c.state) && c.phase == Brake && !i.systemFault && i.imu.Usable()
    && Since(i.now, c.segmentStarted) <= TIMEOUT_MS
    && c.settle == SETTLE_SAMPLES - 1 && Quiet(c, i)
    && Abs(c.target - i.imu.yaw) <= PRECISION_DEG
  }

  /** A tick completes a leg exactly when it can; only the clockwise leg of a
      sequence leads on to the pause. */
  lemma CompletionTick(w: World, i: Input, w': World)
    requires Sane(w.ctl) && w' == Step(w, i)
    ensures Completes(w, w') <==> CanComplete(w.ctl, i)
    ensures Completes(w, w') ==>
              SettlingTick(w.ctl, i, w') && w'.ctl.target == w.ctl.target &&
              w'.ctl.state == (if w.ctl.state == SequenceCw then SequencePause else Done)
  {
    var p := World(Prepared(w.ctl, i), w.motors);
    assert w.ctl.settle < SETTLE_SAMPLES;
    PreparedState(w.ctl, p.ctl, i);
    PreparedWhenUsable(w.ctl, i);
    if Turning(p.ctl.state) {
      TurnStepCompletes(p, i);
    }
    hide Prepared, TurnStep, Sane;
  }

  lemma PreparedWhenUsable(c: Control, i: Input)
    ensures Turning(c.state) && !i.systemFault && i.imu.Usable() ==> Prepared(c, i).state == c.state
  {
  }

  lemma TurnStepCompletes(w: World, i: Input)
    requires Sane(w.ctl) && Turning(w.ctl.state) && !i.systemFault && i.imu.Usable()
    ensures Completes(w, TurnStep(w, i)) <==> CanComplete(w.ctl, i)
    ensures Completes(w, TurnStep(w, i)) ==>
              TurnStep(w, i).motors.Still() && TurnStep(w, i).ctl.target == w.ctl.target &&
              TurnStep(w, i).ctl.state == (if w.ctl.state == SequenceCw then SequencePause else Done)
  {
    hide TurnPwm, NextFinePwm, Along;
  }

  /** Tick `j` settled, in the brake phase that began at `start`. */
  ghost predicate SettledIn(ins: seq<Input>, ws: seq<World>, j: int, start: Tick)
    requires 0 <= j < |ins| < |ws|
  {
    SettlingTick(ws[j].ctl, ins[j], ws[j + 1]) && ws[j].ctl.phaseStarted == start
  }

  ghost predicate BrakedBy(ws: seq<World>, j: int)
    requires 0 <= j < |ws| - 1
  {
    ws[j + 1].motors.Braked()
  }

  /** The settle counter is the number of consecutive settling ticks of the current brake
      phase: that many just settled, and the tick before them did not. */
  lemma {:induction false} SettleCountsTicks(ins: seq<Input>, ws: seq<World>, k: nat)
    requires Run(ins, ws) && k <= |ins|
    requires Turning(ws[k].ctl.state) && ws[k].ctl.phase == Brake
    ensures ws[k].ctl.settle < k
    ensures forall j | k - ws[k].ctl.settle <= j < k ::
              SettledIn(ins, ws, j, ws[k].ctl.phaseStarted) && BrakedBy(ws, j)
    ensures !SettledIn(ins, ws, k - ws[k].ctl.settle - 1, ws[k].ctl.phaseStarted)
  {
    hide Step, Sane;
    assert ws[0].ctl.settle == 0 && k > 0;
    AlwaysSane(ins, ws, k - 1);
    assert Ticked(ins, ws, k - 1);
    if ws[k].ctl.settle > 0 {
      SettleGrowsOnlyWhenQuiet(ws[k - 1], ins[k - 1], ws[k]);
      SettleCountsTicks(ins, ws, k - 1);
    } else {
      SettleIsZeroOnlyWhenUnquiet(ws[k - 1], ins[k - 1], ws[k]);
    }
  }

  /** A leg completes only after fifteen consecutive settling ticks of one brake
      phase, and within 0.2 degrees of its target. */
  lemma CompletionIsSettled(ins: seq<Input>, ws: seq<World>, k: nat)
    requires Run(ins, ws) && k < |ins| && Completes(ws[k], ws[k + 1])
    ensures k + 1 >= SETTLE_SAMPLES
    ensures forall j | k + 1 - SETTLE_SAMPLES <= j <= k ::
              SettledIn(ins, ws, j, ws[k].ctl.phaseStarted) && (j < k ==> BrakedBy(ws, j))
    ensures Abs(ws[k + 1].ctl.target - ins[k].imu.yaw) <= PRECISION_DEG
  {
    hide Step, Sane;
    AlwaysSane(ins, ws, k);
    assert Ticked(ins, ws, k);
    CompletionTick(ws[k], ins[k], ws[k + 1]);
    SettleCountsTicks(ins, ws, k);
  }

  // ----- the two-leg sequence -----

  /** How one tick can lead into, or stay in, each state of the sequence. */
  lemma SequenceTick(w: World, i: Input, w': World)
    requires Sane(w.ctl) && w' == Step(w, i) && InSequence(w'.ctl.state)
    ensures w'.ctl.state == SequenceCw ==>
              (w.ctl.state == SequenceCw && w'.ctl.target == w.ctl.target) ||
              (!Busy(w.ctl.state) && w.ctl.state != Fault &&
               Pressed(w.ctl, i) == SequenceButton && w'.ctl.target == i.imu.yaw - TURN_ANGLE_DEG)
    ensures w'.ctl.state == SequencePause ==>
              w'.ctl.target == w.ctl.target && (w.ctl.state == SequencePause || w.ctl.state == SequenceCw)
    ensures w'.ctl.state == SequenceCcw ==>
              (w.ctl.state == SequenceCcw && w'.ctl.target == w.ctl.target) ||
              (w.ctl.state == SequencePause && w'.ctl.target == w.ctl.target + TURN_ANGLE_DEG)
  {
    hide Prepared, TurnPwm, NextFinePwm, Sane;
    PreparedState(w.ctl, Prepared(w.ctl, i), i);
  }

  /** Ticks `p .. k` belong to one sequence: pressed in tick `p`, in progress ever since. */
  ghost predicate SequenceSince(ins: seq<Input>, ws: seq<World>, p: nat, k: nat)
    requires |ws| == |ins| + 1 && p < k <= |ins|
  {
    && !Busy(ws[p].ctl.state) && Pressed(ws[p].ctl, ins[p]) == SequenceButton
    && forall j | p < j <= k :: InSequence(ws[j].ctl.state)
  }

  lemma {:induction false} SequenceTarget(ins: seq<Input>, ws: seq<World>, k: nat) returns (p: nat)
    requires Run(ins, ws) && k <= |ins| && InSequence(ws[k].ctl.state)
    ensures p < k && SequenceSince(ins, ws, p, k)
    ensures ws[k].ctl.target ==
              if ws[k].ctl.state == SequenceCcw then ins[p].imu.yaw else ins[p].imu.yaw - TURN_ANGLE_DEG
  {
    hide Step, Sane, Pressed;
    AlwaysSane(ins, ws, k - 1);
    assert Ticked(ins, ws, k - 1);
    SequenceTick(ws[k - 1], ins[k - 1], ws[k]);
    if InSequence(ws[k - 1].ctl.state) {
      p := SequenceTarget(ins, ws, k - 1);
    } else {
      p := k - 1;
    }
  }

  /** A completed clockwise-then-counterclockwise sequence ends within 0.2 degrees
      of the heading at the button press: the error of the first leg does not
      accumulate into the second. */
  lemma SequenceReturnsToItsHeading(ins: seq<Input>, ws: seq<World>, k: nat) returns (p: nat)
    requires Run(ins, ws) && k < |ins|
    requires ws[k].ctl.state == SequenceCcw && ws[k + 1].ctl.state == Done
    ensures p < k && SequenceSince(ins, ws, p, k)
    ensures Abs(ins[p].imu.yaw - ins[k].imu.yaw) <= PRECISION_DEG
  {
    hide Step, Sane, Pressed;
    p := SequenceTarget(ins, ws, k);
    AlwaysSane(ins, ws, k);
    assert Ticked(ins, ws, k);
    CompletionTick(ws[k], ins[k], ws[k + 1]);
  }

  /** The pause of a sequence begins within 0.2 degrees of a quarter turn clockwise. */
  lemma SequencePausesAtTheQuarterTurn(ins: seq<Input>, ws: seq<World>, k: nat) returns (p: nat)
    requires Run(ins, ws) && k < |ins|
    requires ws[k].ctl.state != SequencePause && ws[k + 1].ctl.state == SequencePause
    ensures p < k && SequenceSince(ins, ws, p, k)
    ensures Abs(ins[p].imu.yaw - TURN_ANGLE_DEG - ins[k].imu.yaw) <= PRECISION_DEG
  {
    hide Step, Sane, Pressed;
    AlwaysSane(ins, ws, k);
    assert Ticked(ins, ws, k);
    CompletionTick(ws[k], ins[k], ws[k + 1]);
    SequenceTick(ws[k], ins[k], ws[k + 1]);
    p := SequenceTarget(ins, ws, k);
  }

  // ----- bounded time -----

  /** Tick `k` runs at uptime `times[k]`, at most `period` after the tick before. */
  ghost predicate Timed(ins: seq<Input>, times: seq<nat>, period: nat) {
    && |times| == |ins|
    && (forall k | 0 <= k < |ins| :: ins[k].now == TickAt(times[k]))
    && forall k | 0 < k < |ins| :: InTime(times, period, k)
  }

  ghost predicate InTime(times: seq<nat>, period: nat, k: nat)
    requires 0 < k < |times|
  {
    times[k - 1] <= times[k] <= times[k - 1] + period
  }

  /** The timers a tick keeps or restarts while a turn is in progress. */
  lemma BusyTick(w: World, i: Input, w': World)
    requires Sane(w.ctl) && w' == Step(w, i) && Busy(w'.ctl.state)
    ensures Turning(w'.ctl.state) ==> Since(i.now, w'.ctl.segmentStarted) <= TIMEOUT_MS
    ensures Turning(w'.ctl.state) && w'.ctl.state != SequenceCcw ==>
              (w.ctl.state == w'.ctl.state && w'.ctl.segmentStarted == w.ctl.segmentStarted) ||
              (!Busy(w.ctl.state) && w'.ctl.segmentStarted == i.now)
    ensures w'.ctl.state == SequencePause ==>
              (w.ctl.state == SequencePause && w'.ctl.phaseStarted == w.ctl.phaseStarted &&
               Since(i.now, w.ctl.phaseStarted) < SEQUENCE_PAUSE_MS) ||
              (w.ctl.state == SequenceCw && w'.ctl.phaseStarted == i.now &&
               Since(i.now, w.ctl.segmentStarted) <= TIMEOUT_MS)
    ensures w'.ctl.state == SequenceCcw ==>
              (w.ctl.state == SequenceCcw && w'.ctl.segmentStarted == w.ctl.segmentStarted) ||
              (w.ctl.state == SequencePause && w'.ctl.segmentStarted == i.now)
  {
    hide Prepared, TurnPwm, NextFinePwm, Sane;
    PreparedState(w.ctl, Prepared(w.ctl, i), i);
  }

  /** Ticks `i .. j` all left a turn in progress, and tick `i` began it. */
  ghost predicate BusyFrom(ws: seq<World>, i: nat, j: nat)
    requires i <= j && j + 1 < |ws|
  {
    !Busy(ws[i].ctl.state) && forall k | i < k <= j + 1 :: Busy(ws[k].ctl.state)
  }

  const LEG_MS := TIMEOUT_MS
  const SEQUENCE_MS := TIMEOUT_MS + SEQUENCE_PAUSE_MS

  /** With ticks at most `period` apart, every leg is left within 12 s of its start
      and every sequence within 24.7 s and one tick, whatever the sensors report
      and wherever the tick counter wraps. `timer` is the uptime at which the
      running leg or pause began. */
  lemma {:induction false} BusyIsBounded(
      ins: seq<Input>, ws: seq<World>, times: seq<nat>, period: nat, i: nat, j: nat) returns (timer: nat)
    requires Run(ins, ws) && Timed(ins, times, period) && period + LEG_MS < WORD
    requires i <= j < |ins| && BusyFrom(ws, i, j)
    ensures times[i] <= timer <= times[j]
    ensures Turning(ws[j + 1].ctl.state) ==>
              ws[j + 1].ctl.segmentStarted == TickAt(timer) && times[j] - timer <= LEG_MS
    ensures Turning(ws[j + 1].ctl.state) && ws[j + 1].ctl.state != SequenceCcw ==> timer == times[i]
    ensures ws[j + 1].ctl.state == SequencePause ==>
              ws[j + 1].ctl.phaseStarted == TickAt(timer) && times[j] - timer < SEQUENCE_PAUSE_MS &&
              timer - times[i] <= LEG_MS
    ensures ws[j + 1].ctl.state == SequenceCcw ==> timer - times[i] < SEQUENCE_MS + period
    ensures times[j] - times[i] < LEG_MS + SEQUENCE_MS + period
  {
    hide Step, Sane;
    AlwaysSane(ins, ws, j);
    assert Ticked(ins, ws, j);
    assert Busy(ws[j + 1].ctl.state);
    BusyTick(ws[j], ins[j], ws[j + 1]);
    if i == j {
      timer := times[j];
    } else {
      timer := BusyIsBounded(ins, ws, times, period, i, j - 1);
      assert InTime(times, period, j);
      SinceIsElapsed(timer, times[j]);
      if ws[j + 1].ctl.state != ws[j].ctl.state {
        timer := times[j];
      }
    }
  }

  /** So no turn and no sequence is in progress for longer than that. */
  lemma EveryTurnEnds(ins: seq<Input>, ws: seq<World>, times: seq<nat>, period: nat, i: nat, j: nat)
    requires Run(ins, ws) && Timed(ins, times, period) && period + LEG_MS < WORD
    requires i <= j < |ins| && !Busy(ws[i].ctl.state)
    requires times[j] - times[i] >= LEG_MS + SEQUENCE_MS + period
    ensures exists k | i < k <= j + 1 :: !Busy(ws[k].ctl.state)
  {
    if BusyFrom(ws, i, j) {
      var _ := BusyIsBounded(ins, ws, times, period, i, j);
    }
  }

  // ----- debouncing -----

  /** Samples `k - 3 .. k` of the buttons agree. */
  ghost predicate Held(ins: seq<Input>, k: nat, b: Button)
    requires k <= |ins|
  {
    k >= DEBOUNCE_SAMPLES && forall j | k - DEBOUNCE_SAMPLES <= j < k :: ReadButtons(ins[j]) == b
  }

  /** The debounced button after `k` ticks: the last one read three times in a row. */
  ghost function LastHeld(ins: seq<Input>, k: nat): Button
    requires k <= |ins|
  {
    if k == 0 then NoButton
    else if Held(ins, k, ReadButtons(ins[k - 1])) then ReadButtons(ins[k - 1])
    else LastHeld(ins, k - 1)
  }

  ghost predicate SameDebounce(c: Control, d: Control) {
    c.candidate == d.candidate && c.stable == d.stable && c.stableSamples == d.stableSamples
  }

  lemma TurnStepKeepsDebounce(w: World, i: Input)
    ensures SameDebounce(TurnStep(w, i).ctl, w.ctl)
  {
    hide TurnPwm, NextFinePwm, Along;
  }

  lemma StepDebounces(w: World, i: Input, w': World)
    requires w' == Step(w, i)
    ensures SameDebounce(w'.ctl, Debounced(w.ctl, i))
  {
    hide Debounced, TurnStep;
    assert SameDebounce(Prepared(w.ctl, i), Debounced(w.ctl, i));
    TurnStepKeepsDebounce(World(Prepared(w.ctl, i), w.motors), i);
  }

  /** The debouncing variables are exactly the recent history of the samples. */
  lemma {:induction false} DebounceIsHistory(ins: seq<Input>, ws: seq<World>, k: nat)
    requires Run(ins, ws) && k <= |ins|
    ensures ws[k].ctl.stable == LastHeld(ins, k)
    ensures k > 0 ==> ws[k].ctl.candidate == ReadButtons(ins[k - 1])
    ensures 0 < ws[k].ctl.stableSamples <= DEBOUNCE_SAMPLES
    ensures forall j | 0 <= j < k && k - ws[k].ctl.stableSamples <= j :: ReadButtons(ins[j]) == ws[k].ctl.candidate
    ensures ws[k].ctl.stableSamples < DEBOUNCE_SAMPLES ==>
              ws[k].ctl.stableSamples <= k &&
              (ws[k].ctl.stableSamples < k ==>
                 ReadButtons(ins[k - 1 - ws[k].ctl.stableSamples]) != ws[k].ctl.candidate) &&
              (ws[k].ctl.stableSamples == k ==> ws[k].ctl.candidate != NoButton)
    ensures ws[k].ctl.stableSamples == DEBOUNCE_SAMPLES && k < DEBOUNCE_SAMPLES ==> ws[k].ctl.candidate == NoButton
  {
    hide Step, ReadButtons;
    if k > 0 {
      DebounceIsHistory(ins, ws, k - 1);
      assert Ticked(ins, ws, k - 1);
      StepDebounces(ws[k - 1], ins[k - 1], ws[k]);
    }
  }

  /** A tick reports a press exactly when one button alone has now been held for
      three ticks and the last button so held was another one (or none): one press
      per hold, none for bounces and chords. */
  lemma PressIsAFreshHold(ins: seq<Input>, ws: seq<World>, k: nat, b: Button)
    requires Run(ins, ws) && k < |ins| && b != NoButton
    ensures Pressed(ws[k].ctl, ins[k]) == b <==> Held(ins, k + 1, b) && LastHeld(ins, k) != b
  {
    hide Step, ReadButtons;
    DebounceIsHistory(ins, ws, k);
  }

  // ----- the endless loop -----

  /** The control task's loop, for as long as inputs arrive: the task object goes through
      exactly the states of a run, so everything above holds of it. */
  method ControlTask(task: TurnTask, ins: seq<Input>) returns (ghost ws: seq<World>)
    requires task.State() == Initial()
    modifies task, task.motors
    ensures Run(ins, ws) && task.State() == ws[|ins|]
  {
    hide Step, Initial;
    ws := [task.State()];
    for k := 0 to |ins|
      invariant |ws| == k + 1 && ws[0] == Initial() && ws[k] == task.State()
      invariant forall j | 0 <= j < k :: Follows(ins, ws, j)
    {
      task.RunTick(ins[k]);
      ws := ws + [task.State()];
      assert forall j | 0 <= j < k :: Follows(ins, ws[..k + 1], j) ==> Follows(ins, ws, j);
    }
    assert forall j | 0 <= j < |ins| :: Follows(ins, ws, j) ==> Ticked(ins, ws, j);
  }

  ghost predicate Follows(ins: seq<Input>, ws: seq<World>, j: nat)
    requires j < |ins| && j + 1 < |ws|
  {
    ws[j + 1] == Step(ws[j], ins[j])
  }
}
