/** What the straight-run controller guarantees: its wheel laws over all counts, and its
    duties, its end, its status word and its braking over every input trace. */
module StraightHistory {
  import opened Ticks
  import opened Motors
  import opened StraightRun

  // ----- the wheel laws -----

  /** A wheel is commanded to stop exactly when it has arrived, and otherwise never
      driven below the slowest or above the base duty. */
  lemma WheelStopsExactlyAtItsTarget(count: nat, target: nat, elapsed: nat)
    ensures WheelPwm(count, target, elapsed, 0) == 0 <==> count >= target
    ensures count < target ==> MIN_PWM <= WheelPwm(count, target, elapsed, 0) <= BASE_PWM
    ensures count < target && target - count >= DECEL_WINDOW ==> WheelPwm(count, target, elapsed, 0) == BASE_PWM
  {
    assert 0.0 * (elapsed as real / RAMP_MS as real) == 0.0;
  }

  lemma TruncationIsMonotone(x: real, y: real)
    requires x <= y
    ensures Truncated(x) <= Truncated(y)
  {
  }

  /** The unsynchronised duty never rises as the wheel advances. */
  lemma WheelNeverSpeedsUp(near: nat, far: nat, target: nat, elapsed: nat)
    requires near <= far
    ensures WheelPwm(near, target, elapsed, 0) >= WheelPwm(far, target, elapsed, 0)
  {
    WheelStopsExactlyAtItsTarget(near, target, elapsed);
    WheelStopsExactlyAtItsTarget(far, target, elapsed);
    if far < target && target - near < DECEL_WINDOW {
      var x := MIN_PWM as real + 80.0 * (target - far) as real / DECEL_WINDOW as real;
      var y := MIN_PWM as real + 80.0 * (target - near) as real / DECEL_WINDOW as real;
      assert 80.0 * (target - far) as real <= 80.0 * (target - near) as real;
      TruncationIsMonotone(x, y);
    }
  }

  /** The desired left count is the integer nearest to the right count scaled by the
      ratio of the two targets; no other integer is nearer. */
  lemma DesiredLeftIsNearest(right: nat, other: int)
    ensures var exact := right * LEFT_TARGET;
      var desired := DesiredLeft(right);
      && -RIGHT_TARGET <= 2 * (exact - desired * RIGHT_TARGET) <= RIGHT_TARGET
      && Magnitude(exact - desired * RIGHT_TARGET) <= Magnitude(exact - other * RIGHT_TARGET)
    ensures DesiredLeft(RIGHT_TARGET) == LEFT_TARGET
  {
    var exact, desired := right * LEFT_TARGET, DesiredLeft(right);
    assert exact + RIGHT_TARGET / 2 == desired * RIGHT_TARGET + (exact + RIGHT_TARGET / 2) % RIGHT_TARGET;
    if other > desired {
      assert other * RIGHT_TARGET >= (desired + 1) * RIGHT_TARGET;
    } else if other < desired {
      assert other * RIGHT_TARGET <= (desired - 1) * RIGHT_TARGET;
    }
  }

  lemma TruncationIsOdd(x: real)
    ensures Truncated(-x) == -Truncated(x)
    ensures Truncated(x) == 0 <==> -1.0 < x < 1.0
  {
  }

  /** The correction before it is truncated and limited. */
  function Pull(error: int, elapsed: nat): real {
    error as real * SYNC_KP * RampScale(elapsed)
  }

  lemma PullIsOdd(error: int, elapsed: nat)
    ensures Pull(-error, elapsed) == -Pull(error, elapsed)
    ensures error >= 0 ==> 0.0 <= Pull(error, elapsed) <= error as real * SYNC_KP
    ensures error <= 0 ==> error as real * SYNC_KP <= Pull(error, elapsed) <= 0.0
    ensures elapsed >= RAMP_MS ==> Pull(error, elapsed) == error as real * SYNC_KP
  {
    var s := RampScale(elapsed);
    assert 0.0 <= s <= 1.0;
    var a := error as real * SYNC_KP;
    assert (-error) as real * SYNC_KP == -a;
    Signed(a, s);
  }

  lemma CorrectionIsLimitedPull(error: int, elapsed: nat)
    ensures Correction(error, elapsed) ==
      var t := if -SYNC_DEADBAND <= error <= SYNC_DEADBAND then 0 else Truncated(Pull(error, elapsed));
      if t > SYNC_MAX then SYNC_MAX else if t < -SYNC_MAX then -SYNC_MAX else t
  {
  }

  /** The correction is odd in the error, never larger than 15, and never opposes it. */
  lemma CorrectionFollowsTheError(error: int, elapsed: nat)
    ensures -SYNC_MAX <= Correction(error, elapsed) <= SYNC_MAX
    ensures Correction(-error, elapsed) == -Correction(error, elapsed)
    ensures error >= 0 ==> Correction(error, elapsed) >= 0
    ensures error <= 0 ==> Correction(error, elapsed) <= 0
  {
    CorrectionIsLimitedPull(error, elapsed);
    CorrectionIsLimitedPull(-error, elapsed);
    PullIsOdd(error, elapsed);
    TruncationIsOdd(Pull(error, elapsed));
    hide Correction, Pull;
  }

  lemma Signed(a: real, s: real)
    requires 0.0 <= s <= 1.0
    ensures a >= 0.0 ==> 0.0 <= a * s <= a
    ensures a <= 0.0 ==> a <= a * s <= 0.0
    ensures (-a) * s == -(a * s)
  {
    var t := 1.0 - s;
    assert a * t == a - a * s;
    if a >= 0.0 {
      assert a * s >= 0.0 && a * t >= 0.0;
    } else {
      assert (-a) * s >= 0.0 && (-a) * t >= 0.0;
    }
  }

  /** The deadband never decides: an error inside it would be truncated to nothing
      anyway. After the ramp the correction vanishes exactly up to an error of 12
      pulses and is saturated exactly from 188 pulses on. */
  lemma DeadbandIsIdle(error: int, elapsed: nat)
    ensures -SYNC_DEADBAND <= error <= SYNC_DEADBAND ==>
              Truncated(Pull(error, elapsed)) == 0
    ensures elapsed >= RAMP_MS ==> (Correction(error, elapsed) == 0 <==> -12 <= error <= 12)
    ensures elapsed >= RAMP_MS ==> (Correction(error, elapsed) == SYNC_MAX <==> error >= 188)
    ensures elapsed >= RAMP_MS ==> (Correction(error, elapsed) == -SYNC_MAX <==> error <= -188)
  {
    CorrectionIsLimitedPull(error, elapsed);
    PullIsOdd(error, elapsed);
    TruncationIsOdd(Pull(error, elapsed));
    hide Correction, Pull;
  }

  /** While both wheels run, the difference of their duties is the difference of their
      own laws plus twice the correction: the lagging wheel is sped up by exactly
      what the leading one is slowed down. */
  lemma CorrectionIsShared(i: Input, elapsed: nat)
    requires Magnitude(i.left) < LEFT_TARGET && Magnitude(i.right) < RIGHT_TARGET
    ensures var d := WheelDuties(i, elapsed);
      var l := WheelPwm(Magnitude(i.left), LEFT_TARGET, elapsed, 0);
      var r := WheelPwm(Magnitude(i.right), RIGHT_TARGET, elapsed, 0);
      && d.0 + d.1 == l + r
      && d.0 - l == r - d.1 == SyncAdjust(Magnitude(i.left), Magnitude(i.right), elapsed)
  {
    WheelStopsExactlyAtItsTarget(Magnitude(i.left), LEFT_TARGET, elapsed);
    WheelStopsExactlyAtItsTarget(Magnitude(i.right), RIGHT_TARGET, elapsed);
    hide WheelPwm, SyncAdjust;
  }

  /** The duties of a running tick: none exactly for a wheel that has arrived, and
      between 205 and 315 for one that has not. */
  ghost predicate WheelLaw(duty: int, arrived: bool) {
    if arrived then duty == 0 else MIN_PWM - SYNC_MAX <= duty <= BASE_PWM + SYNC_MAX
  }

  lemma DutiesObeyTheLaw(i: Input, elapsed: nat)
    ensures WheelLaw(WheelDuties(i, elapsed).0, Magnitude(i.left) >= LEFT_TARGET)
    ensures WheelLaw(WheelDuties(i, elapsed).1, Magnitude(i.right) >= RIGHT_TARGET)
  {
    WheelStopsExactlyAtItsTarget(Magnitude(i.left), LEFT_TARGET, elapsed);
    WheelStopsExactlyAtItsTarget(Magnitude(i.right), RIGHT_TARGET, elapsed);
    CorrectionFollowsTheError(DesiredLeft(Magnitude(i.right)) - Magnitude(i.left), elapsed);
    hide WheelPwm, Correction, DesiredLeft;
  }

  // ----- runs -----

  ghost predicate Ticked(ins: seq<Input>, ws: seq<World>, k: nat)
    requires k < |ins| && |ws| == |ins| + 1
  {
    ws[k + 1] == Step(ws[k], ins[k])
  }

  /** `ws[k]` is the world before tick `k` of the trace `ins`, from power-on. */
  ghost predicate Run(ins: seq<Input>, ws: seq<World>) {
    && |ws| == |ins| + 1
    && ws[0] == Initial()
    && forall k | 0 <= k < |ins| :: Ticked(ins, ws, k)
  }

  /** Tick `k` runs at uptime `times[k]`, at most `period` after the tick before. */
  ghost predicate Timed(ins: seq<Input>, times: seq<nat>, period: nat) {
    && |times| == |ins|
    && (forall k | 0 <= k < |ins| :: ins[k].now == TickAt(times[k]))
    && forall k | 0 < k < |ins| :: InTime(times, period, k)
  }

  ghost predicate InTime(times: seq<nat>, period: nat, k: nat)
    requires 0 < k < |times|
  {
    times[k - 1] <= times[k] <= times[k - 1] + period
  }

  /** The bank after a tick, whatever it was before. */
  ghost predicate SafeDrive(c: Control, b: Bank, i: Input) {
    match c.state
    case Running =>
      && !Arrived(i)
      && WheelLaw(b.left.duty, Magnitude(i.left) >= LEFT_TARGET)
      && WheelLaw(b.right.duty, Magnitude(i.right) >= RIGHT_TARGET)
      && (b.left.bridge == if b.left.duty == 0 then Braking else Driving)
      && (b.right.bridge == if b.right.duty == 0 then Braking else Driving)
      && b.lastCommand == i.now
    case Done =>
      if Since(i.now, c.brakeStarted) < BRAKE_HOLD_MS then b.Braked()
      else b.left == Channel(0, Coasting) && b.right == Channel(0, Coasting)
    case _ => b.left == Channel(0, Coasting) && b.right == Channel(0, Coasting)
  }

  lemma RunStepDrivesSafely(w: World, i: Input)
    requires w.ctl.state == Running
    ensures RunStep(w, i).ctl.state == Fault || SafeDrive(RunStep(w, i).ctl, RunStep(w, i).motors, i)
  {
    var elapsed := Since(i.now, w.ctl.runStarted);
    DutiesObeyTheLaw(i, elapsed);
    hide WheelDuties, WithDistance;
    assert Since(i.now, i.now) == 0;
    if !Arrived(i) && elapsed <= RUN_TIMEOUT_MS {
      var d := WheelDuties(i, elapsed);
      CommandIsExact(w.motors, d.0, d.1, i.now);
    }
  }

  lemma CommandIsExact(b: Bank, l: int, r: int, now: Tick)
    requires 0 <= l <= PWM_MAX && 0 <= r <= PWM_MAX
    ensures var c := WheelCommand(WheelCommand(b, 0, l, now), 1, r, now);
      && c.left == Channel(l, if l == 0 then Braking else Driving)
      && c.right == Channel(r, if r == 0 then Braking else Driving)
      && (l != 0 || r != 0 ==> c.lastCommand == now)
  {
  }

  lemma StepDrivesSafely(w: World, i: Input)
    ensures SafeDrive(Step(w, i).ctl, Step(w, i).motors, Read(w.ctl, i))
  {
    var p, reading := World(Prepared(w.ctl, i), w.motors), Read(w.ctl, i);
    assert reading.now == i.now;
    if p.ctl.state == Running {
      RunStepDrivesSafely(p, reading);
    }
    hide Prepared, Read, RunStep;
  }

  lemma DriveIsSafe(ins: seq<Input>, ws: seq<World>, k: nat)
    requires Run(ins, ws) && k < |ins|
    ensures SafeDrive(ws[k + 1].ctl, ws[k + 1].motors, Read(ws[k].ctl, ins[k]))
  {
    hide Step, SafeDrive, Read;
    assert Ticked(ins, ws, k);
    StepDrivesSafely(ws[k], ins[k]);
  }

  // ----- the states -----

  lemma DebouncingKeepsTheRest(c: Control, i: Input)
    ensures var d := Debounced(c, i); d == c.(candidate := d.candidate, stable := d.stable, samples := d.samples)
  {
  }

  lemma WatchingKeepsTheRun(c: Control, i: Input)
    ensures var p := Watched(c, i);
      p.state == c.state && p.runStarted == c.runStarted && p.brakeStarted == c.brakeStarted
  {
  }

  /** Before the wheels are driven, only faults, presses and launches move the state. */
  lemma PreparedTick(c: Control, i: Input, p: Control)
    requires p == Prepared(c, i)
    ensures i.systemFault || c.state == Fault ==> p.state == Fault
    ensures p.state == Fault ==> i.systemFault || c.state == Fault
    ensures p.state == Running <==> Launches(c, i) || (c.state == Running && !i.systemFault && !Pressed(c, i))
    ensures p.state == Running ==> p.runStarted == if Launches(c, i) then i.now else c.runStarted
    ensures p.state == Done && c.state == Done ==> p.brakeStarted == c.brakeStarted
    ensures p.state == Done && c.state != Done ==> c.state == Running && Pressed(c, i) && p.brakeStarted == i.now
    ensures p.state in {WaitImu, Ready} ==> c.state == p.state
  {
    WatchingKeepsTheRun(Answered(Gated(Debounced(c, i), i), Pressed(c, i), i), i);
    DebouncingKeepsTheRest(c, i);
    hide Watched, Debounced, Pressed;
  }

  /** How a tick can lead into, or stay in, each state. */
  lemma StateTick(w: World, i: Input, w': World)
    requires w' == Step(w, i)
    ensures w.ctl.state == Fault ==> w'.ctl.state == Fault
    ensures i.systemFault ==> w'.ctl.state == Fault
    ensures w'.ctl.state == Running ==>
              Since(i.now, w'.ctl.runStarted) <= RUN_TIMEOUT_MS &&
              ((w.ctl.state == Running && w'.ctl.runStarted == w.ctl.runStarted) ||
               (Launches(w.ctl, i) && w'.ctl.runStarted == i.now))
    ensures w'.ctl.state == Done && w.ctl.state == Running ==>
              w'.ctl.brakeStarted == i.now && (Pressed(w.ctl, i) || Arrived(i))
    ensures w'.ctl.state == Done && w.ctl.state == Done ==> w'.ctl.brakeStarted == w.ctl.brakeStarted
    ensures w'.ctl.state == Done ==> w.ctl.state in {Running, Done}
    ensures w'.ctl.state in {WaitImu, Ready} ==> w.ctl.state == w'.ctl.state
  {
    PreparedTick(w.ctl, i, Prepared(w.ctl, i));
    assert Launches(w.ctl, i) ==> !Arrived(Read(w.ctl, i));
    hide Prepared, Pressed, WithDistance, WheelDuties, Arrived;
  }

  lemma {:induction false} FaultIsAbsorbing(ins: seq<Input>, ws: seq<World>, j: nat, k: nat)
    requires Run(ins, ws) && j <= k <= |ins| && ws[j].ctl.state == Fault
    ensures ws[k].ctl.state == Fault
  {
    hide Step;
    if j < k {
      FaultIsAbsorbing(ins, ws, j, k - 1);
      assert Ticked(ins, ws, k - 1);
      StateTick(ws[k - 1], ins[k - 1], ws[k]);
    }
  }

  /** Ticks `s .. k` all left a run in progress, and tick `s` began it. */
  ghost predicate RunningFrom(ws: seq<World>, s: nat, k: nat)
    requires s <= k && k + 1 < |ws|
  {
    ws[s].ctl.state != Running && forall j | s < j <= k + 1 :: ws[j].ctl.state == Running
  }

  /** The run's timer is the uptime of its first tick, wherever the counter wraps. */
  lemma {:induction false} RunIsBounded(ins: seq<Input>, ws: seq<World>, times: seq<nat>, period: nat, s: nat, k: nat)
    requires Run(ins, ws) && Timed(ins, times, period) && period + RUN_TIMEOUT_MS < WORD
    requires s <= k < |ins| && RunningFrom(ws, s, k)
    ensures ws[k + 1].ctl.runStarted == ins[s].now
    ensures times[s] <= times[k] <= times[s] + RUN_TIMEOUT_MS
    ensures Since(ins[k].now, ins[s].now) == times[k] - times[s]
  {
    hide Step, Pressed;
    assert Ticked(ins, ws, k);
    StateTick(ws[k], ins[k], ws[k + 1]);
    if s < k {
      RunIsBounded(ins, ws, times, period, s, k - 1);
      assert InTime(times, period, k);
    }
    SinceIsElapsed(times[s], times[k]);
  }

  /** Every run is over at the first tick more than 15 s after its start. */
  lemma EveryRunEnds(ins: seq<Input>, ws: seq<World>, times: seq<nat>, period: nat, s: nat, k: nat)
    requires Run(ins, ws) && Timed(ins, times, period) && period + RUN_TIMEOUT_MS < WORD
    requires s <= k < |ins| && ws[s].ctl.state != Running
    requires times[k] - times[s] > RUN_TIMEOUT_MS
    ensures exists j | s < j <= k + 1 :: ws[j].ctl.state != Running
  {
    if RunningFrom(ws, s, k) {
      RunIsBounded(ins, ws, times, period, s, k);
    }
  }

  // ----- the end of a run -----

  /** Ticks `d .. k` all left the controller done, and tick `d` ended the run. */
  ghost predicate DoneFrom(ws: seq<World>, d: nat, k: nat)
    requires d <= k && k + 1 < |ws|
  {
    ws[d].ctl.state == Running && forall j | d < j <= k + 1 :: ws[j].ctl.state == Done
  }

  lemma {:induction false} BrakeTimerIsTheEnd(ins: seq<Input>, ws: seq<World>, d: nat, k: nat)
    requires Run(ins, ws) && d <= k < |ins| && DoneFrom(ws, d, k)
    ensures ws[k + 1].ctl.brakeStarted == ins[d].now
  {
    hide Step, Launches, Pressed;
    if d < k {
      BrakeTimerIsTheEnd(ins, ws, d, k - 1);
    }
    assert Ticked(ins, ws, k);
    StateTick(ws[k], ins[k], ws[k + 1]);
  }

  /** A finished run brakes both wheels for 300 ms and then lets them coast; the hold
      comes round again only when the tick counter has wrapped. */
  lemma BrakeHoldsThenReleases(ins: seq<Input>, ws: seq<World>, times: seq<nat>, period: nat, d: nat, k: nat)
    requires Run(ins, ws) && Timed(ins, times, period)
    requires d <= k < |ins| && DoneFrom(ws, d, k) && times[d] <= times[k]
    ensures ws[k + 1].motors.Still()
    ensures ws[k + 1].motors.Braked() <==> (times[k] - times[d]) % WORD < BRAKE_HOLD_MS
  {
    hide Step, Launches, Pressed;
    BrakeTimerIsTheEnd(ins, ws, d, k);
    DriveIsSafe(ins, ws, k);
    SinceIsElapsed(times[d], times[k]);
  }

  // ----- the two lines -----

  /** Ticks `s .. k` found or put a run in progress before driving the wheels, and tick
      `s` began it. */
  ghost predicate Watching(ins: seq<Input>, ws: seq<World>, s: nat, k: nat)
    requires s <= k < |ins| && |ws| == |ins| + 1
  {
    && ws[s].ctl.state != Running
    && (forall j | s < j <= k :: ws[j].ctl.state == Running)
    && Prepared(ws[k].ctl, ins[k]).state == Running
  }

  /** The centre channel no longer reads what it read when the run began. */
  ghost predicate Away(ins: seq<Input>, s: nat, j: nat)
    requires s < |ins| && j < |ins|
  {
    Center(ins[j]) != Center(ins[s])
  }

  /** At least 500 ms into the run some channel reads the starting level again. */
  ghost predicate Back(ins: seq<Input>, times: seq<nat>, s: nat, j: nat)
    requires s < |ins| == |times| && j < |ins|
  {
    times[j] - times[s] >= FINISH_ARM_MS && Center(ins[s]) in ins[j].line
  }

  /** The five ticks up to `b` were all away from the start line. */
  ghost predicate LeavesBy(ins: seq<Input>, s: nat, b: nat)
    requires s < |ins| && b < |ins|
  {
    s + LINE_STABLE <= b + 1 && forall j | b < j + LINE_STABLE && j <= b :: Away(ins, s, j)
  }

  /** The five ticks up to `b`, all later than `a`, were back on a line. */
  ghost predicate ArrivesBy(ins: seq<Input>, times: seq<nat>, s: nat, a: nat, b: nat)
    requires s < |ins| == |times| && b < |ins|
  {
    a + LINE_STABLE <= b && forall j | b < j + LINE_STABLE && j <= b :: Back(ins, times, s, j)
  }

  ghost predicate HasLeft(ins: seq<Input>, s: nat, k: nat)
    requires s < |ins| && k < |ins|
  {
    exists b | s <= b <= k :: LeavesBy(ins, s, b)
  }

  /** The start line was left, and after that the finish line was seen. */
  ghost predicate HasSeenB(ins: seq<Input>, times: seq<nat>, s: nat, k: nat)
    requires s < |ins| == |times| && k < |ins|
  {
    exists a, b | s <= a <= b <= k :: LeavesBy(ins, s, a) && ArrivesBy(ins, times, s, a, b)
  }

  lemma WatchingTick(w: World, i: Input, w': World)
    requires w' == Step(w, i)
    ensures w'.ctl.state == Running ==> w'.ctl == Prepared(w.ctl, i)
    ensures Prepared(w.ctl, i).state == Running ==>
              w'.ctl.state == Fault || w'.ctl.state == Running ||
              (w'.ctl.state == Done && w'.ctl.status == WithDistance(Prepared(w.ctl, i).status))
  {
    hide Prepared, WheelDuties, Arrived, WithDistance;
  }

  ghost predicate SameWatch(p: Control, q: Control) {
    && p.startBlack == q.startBlack && p.runStarted == q.runStarted
    && p.status == q.status && p.leftStart == q.leftStart && p.lineSamples == q.lineSamples
  }

  /** The watch begins with the launch. */
  lemma WatchStarts(c: Control, i: Input)
    requires Launches(c, i)
    ensures var p := Prepared(c, i);
      && p.startBlack == Center(i) && p.runStarted == i.now
      && p.status == 0 && !p.leftStart && p.lineSamples == 0
  {
    DebouncingKeepsTheRest(c, i);
    hide Debounced, Pressed, BackOnLine;
  }

  lemma WatchIgnoresTheButton(c: Control, d: Control, i: Input)
    requires d == c.(candidate := d.candidate, stable := d.stable, samples := d.samples)
    ensures SameWatch(Watched(d, i), Watched(c, i))
  {
    hide LineSeen, WithLine, BackOnLine, Center, Since;
    if c.leftStart {
      assert SameWatch(Counted(d, BackOnLine(d.startBlack, i), d.(status := WithLine(d.status))),
                       Counted(c, BackOnLine(c.startBlack, i), c.(status := WithLine(c.status))));
    }
  }

  /** The watch goes on while the run does. */
  lemma WatchGoesOn(c: Control, i: Input)
    requires c.state == Running && Prepared(c, i).state == Running
    ensures SameWatch(Prepared(c, i), Watched(c, i))
  {
    var d := Debounced(c, i);
    DebouncingKeepsTheRest(c, i);
    WatchIgnoresTheButton(c, d, i);
    WatchingKeepsTheRun(d, i);
    WatchingKeepsTheRun(Answered(Gated(d, i), Pressed(c, i), i), i);
    hide Debounced, Pressed, Watched;
    assert Prepared(c, i) == Watched(d, i);
  }

  lemma {:induction false} WatchClock(ins: seq<Input>, ws: seq<World>, times: seq<nat>, period: nat, s: nat, k: nat)
    requires Run(ins, ws) && Timed(ins, times, period) && period + RUN_TIMEOUT_MS < WORD
    requires s <= k < |ins| && Watching(ins, ws, s, k)
    ensures times[s] <= times[k] && Since(ins[k].now, ins[s].now) == times[k] - times[s]
    ensures s < k ==> times[s] <= times[k - 1] <= times[k] && Watching(ins, ws, s, k - 1)
  {
    if s < k {
      assert Ticked(ins, ws, k - 1);
      StateTick(ws[k - 1], ins[k - 1], ws[k]);
      WatchingTick(ws[k - 1], ins[k - 1], ws[k]);
      hide Step, Prepared;
      RunIsBounded(ins, ws, times, period, s, k - 1);
      assert InTime(times, period, k);
    }
    hide Step, Prepared;
    SinceIsElapsed(times[s], times[k]);
  }

  // The watch's variables, as facts about the trace.

  /** The last `n` ticks up to `k` were away from the start line, and no more. */
  ghost predicate AwayStreak(ins: seq<Input>, s: nat, k: nat, n: nat)
    requires s <= k < |ins|
  {
    && s + n <= k && !Away(ins, s, k - n)
    && forall j | k - n < j <= k :: Away(ins, s, j)
  }

  /** The last `n` ticks up to `k` were back on a line, and no more since tick `f`. */
  ghost predicate BackStreak(ins: seq<Input>, times: seq<nat>, s: nat, f: nat, k: nat, n: nat)
    requires s <= f <= k < |ins| == |times|
  {
    && f + n <= k && (f + n == k || !Back(ins, times, s, k - n))
    && forall j | k - n < j <= k :: Back(ins, times, s, j)
  }

  /** Tick `f` is the first by which the start line was left. */
  ghost predicate FirstLeft(ins: seq<Input>, s: nat, f: nat)
    requires s < |ins| && f < |ins|
  {
    s <= f && LeavesBy(ins, s, f) && forall b | s <= b < f :: !LeavesBy(ins, s, b)
  }

  ghost predicate WatchState(ins: seq<Input>, times: seq<nat>, s: nat, k: nat, f: nat, p: Control)
    requires s <= f <= k < |ins| == |times|
  {
    && p.startBlack == Center(ins[s])
    && p.runStarted == ins[s].now
    && p.lineSamples < LINE_STABLE
    && p.status in {0, 2}
    && (p.leftStart <==> HasLeft(ins, s, k))
    && (p.status == 2 <==> HasSeenB(ins, times, s, k))
    && (!p.leftStart ==> AwayStreak(ins, s, k, p.lineSamples))
    && (p.leftStart ==> FirstLeft(ins, s, f))
    && (p.leftStart && p.status == 0 ==> BackStreak(ins, times, s, f, k, p.lineSamples))
  }

  lemma StreakBreaksWindows(ins: seq<Input>, s: nat, k: nat, n: nat)
    requires s <= k < |ins| && AwayStreak(ins, s, k, n)
    ensures LeavesBy(ins, s, k) <==> n >= LINE_STABLE
  {
    if n < LINE_STABLE {
      assert !Away(ins, s, k - n);
    }
  }

  lemma BackStreakBreaksWindows(ins: seq<Input>, times: seq<nat>, s: nat, f: nat, k: nat, n: nat)
    requires s <= f <= k < |ins| == |times| && BackStreak(ins, times, s, f, k, n)
    ensures ArrivesBy(ins, times, s, f, k) <==> n >= LINE_STABLE
  {
    if n < LINE_STABLE && f + n < k {
      assert !Back(ins, times, s, k - n);
    }
  }

  /** The start line is left for good. */
  lemma LeavingGrows(ins: seq<Input>, s: nat, k: nat)
    requires s < k < |ins|
    ensures HasLeft(ins, s, k) <==> HasLeft(ins, s, k - 1) || LeavesBy(ins, s, k)
  {
    if HasLeft(ins, s, k - 1) {
      var b :| s <= b <= k - 1 && LeavesBy(ins, s, b);
    }
  }

  /** Seeing the finish line may as well be counted from the first time the start line
      was left. */
  lemma SeeingGrows(ins: seq<Input>, times: seq<nat>, s: nat, k: nat, f: nat)
    requires s < k < |ins| == |times| && f <= k && FirstLeft(ins, s, f)
    ensures HasSeenB(ins, times, s, k) <==> HasSeenB(ins, times, s, k - 1) || ArrivesBy(ins, times, s, f, k)
  {
    if HasSeenB(ins, times, s, k) && !HasSeenB(ins, times, s, k - 1) {
      var a, b :| s <= a <= b <= k && LeavesBy(ins, s, a) && ArrivesBy(ins, times, s, a, b);
      assert f <= a;
      assert b == k;
    }
  }

  lemma SeeingNeedsLeaving(ins: seq<Input>, times: seq<nat>, s: nat, k: nat)
    requires s <= k < |ins| == |times|
    ensures HasSeenB(ins, times, s, k) ==> HasLeft(ins, s, k)
  {
  }

  /** One tick of the watch keeps its meaning. */
  lemma WatchStep(ins: seq<Input>, times: seq<nat>, s: nat, k: nat, f: nat, c: Control) returns (g: nat)
    requires s < k < |ins| == |times| && s <= f < k && WatchState(ins, times, s, k - 1, f, c)
    requires times[s] <= times[k - 1] <= times[k] && Since(ins[k].now, ins[s].now) == times[k] - times[s]
    ensures s <= g <= k && WatchState(ins, times, s, k, g, Watched(c, ins[k]))
  {
    assert !ArrivesBy(ins, times, s, k, k);
    hide LeavesBy, ArrivesBy;
    LeavingGrows(ins, s, k);
    if !c.leftStart {
      g := k;
      var n := if Away(ins, s, k) then c.lineSamples + 1 else 0;
      assert AwayStreak(ins, s, k, n);
      StreakBreaksWindows(ins, s, k, n);
      SeeingNeedsLeaving(ins, times, s, k - 1);
      if n >= LINE_STABLE {
        assert FirstLeft(ins, s, k);
        SeeingGrows(ins, times, s, k, k);
        assert BackStreak(ins, times, s, k, k, 0);
      } else {
        SeeingNeedsLeaving(ins, times, s, k);
      }
    } else {
      g := f;
      SeeingGrows(ins, times, s, k, f);
      if c.status == 0 {
        assert times[k] - times[s] < FINISH_ARM_MS ==> !Back(ins, times, s, k - 1);
        var n := if Back(ins, times, s, k) then c.lineSamples + 1 else 0;
        assert BackStreak(ins, times, s, f, k, n);
        BackStreakBreaksWindows(ins, times, s, f, k, n);
      }
    }
  }

  lemma {:induction false} WatchIsHistory(
      ins: seq<Input>, ws: seq<World>, times: seq<nat>, period: nat, s: nat, k: nat) returns (f: nat)
    requires Run(ins, ws) && Timed(ins, times, period) && period + RUN_TIMEOUT_MS < WORD
    requires s <= k < |ins| && Watching(ins, ws, s, k)
    ensures s <= f <= k && WatchState(ins, times, s, k, f, Prepared(ws[k].ctl, ins[k]))
  {
    hide Step, Watched;
    WatchClock(ins, ws, times, period, s, k);
    var c, p := ws[k].ctl, Prepared(ws[k].ctl, ins[k]);
    PreparedTick(c, ins[k], p);
    hide Prepared, Launches;
    if s == k {
      f := s;
      WatchStarts(c, ins[k]);
      assert !Away(ins, s, s);
      assert AwayStreak(ins, s, s, 0);
      StreakBreaksWindows(ins, s, s, 0);
      assert !HasLeft(ins, s, s);
      SeeingNeedsLeaving(ins, times, s, s);
    } else {
      f := WatchIsHistory(ins, ws, times, period, s, k - 1);
      assert Ticked(ins, ws, k - 1);
      WatchingTick(ws[k - 1], ins[k - 1], ws[k]);
      f := WatchStep(ins, times, s, k, f, c);
      WatchGoesOn(c, ins[k]);
      hide WatchState;
      WatchStateOf(ins, times, s, k, f, Watched(c, ins[k]), p);
    }
  }

  lemma WatchStateOf(ins: seq<Input>, times: seq<nat>, s: nat, k: nat, f: nat, q: Control, p: Control)
    requires s <= f <= k < |ins| == |times| && WatchState(ins, times, s, k, f, q)
    requires SameWatch(p, q)
    ensures WatchState(ins, times, s, k, f, p)
  {
  }

  /** The status of a finished run. Stopped by the button it is 2 if the finish line was
      seen before that tick and 0 if not; ended by distance it is 3 if the finish line
      was seen by then and 1 if not. */
  lemma StatusTellsTheRun(
      ins: seq<Input>, ws: seq<World>, times: seq<nat>, period: nat, s: nat, k: nat)
    requires Run(ins, ws) && Timed(ins, times, period) && period + RUN_TIMEOUT_MS < WORD
    requires s < k < |ins| && RunningFrom(ws, s, k - 1) && ws[k + 1].ctl.state == Done
    ensures Pressed(ws[k].ctl, ins[k]) ==>
              ws[k + 1].ctl.status == if HasSeenB(ins, times, s, k - 1) then 2 else 0
    ensures !Pressed(ws[k].ctl, ins[k]) ==>
              Arrived(ins[k]) && ws[k + 1].ctl.status == if HasSeenB(ins, times, s, k) then 3 else 1
  {
    hide HasSeenB, Watched, HasLeft;
    assert Ticked(ins, ws, k);
    StateTick(ws[k], ins[k], ws[k + 1]);
    PreparedTick(ws[k].ctl, ins[k], Prepared(ws[k].ctl, ins[k]));
    WatchingTick(ws[k], ins[k], ws[k + 1]);
    if Pressed(ws[k].ctl, ins[k]) {
      assert Ticked(ins, ws, k - 1);
      StateTick(ws[k - 1], ins[k - 1], ws[k]);
      WatchingTick(ws[k - 1], ins[k - 1], ws[k]);
      StopKeepsTheStatus(ws[k], ins[k]);
      hide Step, Prepared, Pressed;
      PreparedTick(ws[k - 1].ctl, ins[k - 1], ws[k].ctl);
      var _ := WatchIsHistory(ins, ws, times, period, s, k - 1);
    } else {
      hide Step, Prepared, Pressed;
      var _ := WatchIsHistory(ins, ws, times, period, s, k);
    }
  }

  lemma StopKeepsTheStatus(w: World, i: Input)
    requires w.ctl.state == Running && Pressed(w.ctl, i) && Step(w, i).ctl.state == Done
    ensures Step(w, i).ctl.status == w.ctl.status
  {
    DebouncingKeepsTheRest(w.ctl, i);
    hide Debounced, Pressed, Watched, WheelDuties;
  }

  // ----- the status of a fault -----

  /** A fault is reported by a negative status exactly when it was the 15 s timeout or
      the status was not already positive: a system fault during or after a run that
      has recorded something keeps that run's status. */
  lemma FaultStatus(w: World, i: Input, w': World)
    requires w' == Step(w, i) && w.ctl.state != Fault && w'.ctl.state == Fault
    ensures i.systemFault ==> w'.ctl.status == if w.ctl.status == 0 then -5 else w.ctl.status
    ensures !i.systemFault ==> w'.ctl.status == -2
    ensures w'.ctl.status < 0 <==> !i.systemFault || w.ctl.status <= 0
  {
    PreparedTick(w.ctl, i, Prepared(w.ctl, i));
    DebouncingKeepsTheRest(w.ctl, i);
    hide Debounced, Pressed, Watched, WheelDuties;
  }

  lemma DoneTick(w: World, i: Input)
    requires w.ctl.state == Done && Step(w, i).ctl.state == Done
    ensures Step(w, i).ctl.status == w.ctl.status
  {
    DebouncingKeepsTheRest(w.ctl, i);
    PreparedTick(w.ctl, i, Prepared(w.ctl, i));
    assert Launches(w.ctl, i) ==> !Arrived(Read(w.ctl, i));
    hide Debounced, Pressed, Watched, WheelDuties, Arrived, Read;
  }

  lemma {:induction false} DoneKeepsTheStatus(ins: seq<Input>, ws: seq<World>, d: nat, k: nat)
    requires Run(ins, ws) && d <= k < |ins| && DoneFrom(ws, d, k)
    ensures ws[k + 1].ctl.status == ws[d + 1].ctl.status
  {
    hide Step;
    if d < k {
      DoneKeepsTheStatus(ins, ws, d, k - 1);
      assert Ticked(ins, ws, k);
      DoneTick(ws[k], ins[k]);
    }
  }

  /** What a system fault after a run shows, however long after: a run that ended by
      distance keeps its 3 or 1, a run stopped by the button keeps its 2, and only a
      stopped run that never saw the finish line shows the fault. */
  lemma FaultAfterARun(
      ins: seq<Input>, ws: seq<World>, times: seq<nat>, period: nat, s: nat, d: nat, n: nat)
    requires Run(ins, ws) && Timed(ins, times, period) && period + RUN_TIMEOUT_MS < WORD
    requires s < d < n < |ins| && RunningFrom(ws, s, d - 1) && DoneFrom(ws, d, n - 1)
    requires ins[n].systemFault
    ensures ws[n + 1].ctl.state == Fault
    ensures ws[n + 1].ctl.status ==
              if Pressed(ws[d].ctl, ins[d]) then if HasSeenB(ins, times, s, d - 1) then 2 else -5
              else if HasSeenB(ins, times, s, d) then 3 else 1
  {
    hide Step, Pressed, HasSeenB;
    StatusTellsTheRun(ins, ws, times, period, s, d);
    DoneKeepsTheStatus(ins, ws, d, n - 1);
    assert Ticked(ins, ws, n);
    StateTick(ws[n], ins[n], ws[n + 1]);
    FaultStatus(ws[n], ins[n], ws[n + 1]);
  }

  /** A system fault during a run shows 2 if the finish line has been seen, and the fault
      if not. */
  lemma FaultDuringARun(
      ins: seq<Input>, ws: seq<World>, times: seq<nat>, period: nat, s: nat, n: nat)
    requires Run(ins, ws) && Timed(ins, times, period) && period + RUN_TIMEOUT_MS < WORD
    requires s < n < |ins| && RunningFrom(ws, s, n - 1) && ins[n].systemFault
    ensures ws[n + 1].ctl.state == Fault
    ensures ws[n + 1].ctl.status == if HasSeenB(ins, times, s, n - 1) then 2 else -5
  {
    assert Ticked(ins, ws, n - 1) && Ticked(ins, ws, n);
    WatchingTick(ws[n - 1], ins[n - 1], ws[n]);
    StateTick(ws[n], ins[n], ws[n + 1]);
    FaultStatus(ws[n], ins[n], ws[n + 1]);
    hide Step, Prepared, Pressed, HasSeenB, Watched, HasLeft;
    var _ := WatchIsHistory(ins, ws, times, period, s, n - 1);
  }

  // ----- the endless loop -----

  /** The control task's loop, for as long as inputs arrive: the task object goes through
      exactly the states of a run, so everything above holds of it. */
  method ControlTask(task: StraightTask, ins: seq<Input>) returns (ghost ws: seq<World>)
    requires task.State() == Initial()
    modifies task, task.motors
    ensures Run(ins, ws) && task.State() == ws[|ins|]
  {
    hide Step, Initial;
    ws := [task.State()];
    for k := 0 to |ins|
      invariant |ws| == k + 1 && ws[0] == Initial() && ws[k] == task.State()
      invariant forall j | 0 <= j < k :: Follows(ins, ws, j)
    {
      task.RunTick(ins[k]);
      ws := ws + [task.State()];
      assert forall j | 0 <= j < k :: Follows(ins, ws[..k + 1], j) ==> Follows(ins, ws, j);
    }
    assert forall j | 0 <= j < |ins| :: Follows(ins, ws, j) ==> Ticked(ins, ws, j);
  }

  ghost predicate Follows(ins: seq<Input>, ws: seq<World>, j: nat)
    requires j < |ins| && j + 1 < |ws|
  {
    ws[j + 1] == Step(ws[j], ins[j])
  }
}
