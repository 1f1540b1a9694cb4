/** The straight run in numbers, over every input trace: when it starts and ends, and the
    duty of each wheel at every count. */
module StraightLaws {
  import opened Ticks
  import opened Motors
  import opened StraightRun
  import opened StraightHistory

  // ----- the button -----

  /** The button has been sampled three times in a row as given. */
  ghost predicate Held(ins: seq<Input>, k: nat, down: bool)
    requires k <= |ins|
  {
    k >= 3 && ins[k - 3].buttonDown == ins[k - 2].buttonDown == ins[k - 1].buttonDown == down
  }

  /** The debounced button: the last level sampled three times in a row. */
  ghost function LastHeld(ins: seq<Input>, k: nat): bool
    requires k <= |ins|
  {
    if k == 0 then false
    else if Held(ins, k, ins[k - 1].buttonDown) then ins[k - 1].buttonDown
    else LastHeld(ins, k - 1)
  }

  ghost predicate SameDebounce(c: Control, d: Control) {
    c.candidate == d.candidate && c.stable == d.stable && c.samples == d.samples
  }

  lemma StepDebounces(w: World, i: Input, w': World)
    requires w' == Step(w, i)
    ensures SameDebounce(w'.ctl, Debounced(w.ctl, i))
  {
    PreparedDebounces(w.ctl, i);
    DrivingKeepsTheButton(World(Prepared(w.ctl, i), w.motors), Read(w.ctl, i));
    hide Debounced, Prepared, Driven, Read;
  }

  lemma PreparedDebounces(c: Control, i: Input)
    ensures SameDebounce(Prepared(c, i), Debounced(c, i))
  {
    WatchingKeepsTheButton(Answered(Gated(Debounced(c, i), i), Pressed(c, i), i), i);
    hide Debounced, Pressed, Watched;
  }

  lemma DrivingKeepsTheButton(w: World, i: Input)
    ensures SameDebounce(Driven(w, i).ctl, w.ctl)
  {
    hide WheelDuties, Arrived, WithDistance;
  }

  lemma WatchingKeepsTheButton(c: Control, i: Input)
    ensures SameDebounce(Watched(c, i), c)
  {
  }

  ghost predicate SampledSince(ins: seq<Input>, k: nat, level: bool, n: nat)
    requires k <= |ins|
  {
    forall j | 0 <= j < k && k - n <= j :: ins[j].buttonDown == level
  }

  /** The debouncing variables are the recent history of the button. */
  ghost predicate Remembers(ins: seq<Input>, k: nat, c: Control)
    requires k <= |ins|
  {
    && c.stable == LastHeld(ins, k)
    && (k > 0 ==> c.candidate == ins[k - 1].buttonDown)
    && 0 < c.samples <= 3
    && SampledSince(ins, k, c.candidate, c.samples)
    && (c.samples < 3 ==>
          c.samples <= k && (c.samples < k ==> ins[k - 1 - c.samples].buttonDown != c.candidate) &&
          (c.samples == k ==> c.candidate))
    && (c.samples == 3 && k < 3 ==> !c.candidate)
    && (k < 3 ==> !c.stable)
  }

  lemma {:induction false} DebounceIsHistory(ins: seq<Input>, ws: seq<World>, k: nat)
    requires Run(ins, ws) && k <= |ins|
    ensures Remembers(ins, k, ws[k].ctl)
  {
    hide Step, Remembers, Debounced;
    if k > 0 {
      DebounceIsHistory(ins, ws, k - 1);
      assert Ticked(ins, ws, k - 1);
      StepDebounces(ws[k - 1], ins[k - 1], ws[k]);
      RemembersOneMore(ins, k, ws[k - 1].ctl, ws[k].ctl);
    } else {
      StartIsRemembered(ins);
    }
  }

  lemma StartIsRemembered(ins: seq<Input>)
    ensures Remembers(ins, 0, InitialControl())
  {
  }

  lemma RemembersOneMore(ins: seq<Input>, k: nat, c: Control, d: Control)
    requires 0 < k <= |ins| && Remembers(ins, k - 1, c) && SameDebounce(d, Debounced(c, ins[k - 1]))
    ensures Remembers(ins, k, d)
  {
    var down := ins[k - 1].buttonDown;
    assert LastHeld(ins, k) == if Held(ins, k, down) then down else LastHeld(ins, k - 1);
  }

  /** A press is reported exactly when the button has now been down for three ticks and was
      not down when it last was steady. */
  lemma PressIsAFreshHold(ins: seq<Input>, ws: seq<World>, k: nat)
    requires Run(ins, ws) && k < |ins|
    ensures Pressed(ws[k].ctl, ins[k]) <==> Held(ins, k + 1, true) && !LastHeld(ins, k)
  {
    hide Step, LastHeld, Pressed, Remembers, Held;
    DebounceIsHistory(ins, ws, k);
    PressFromHistory(ins, k, ws[k].ctl);
  }

  lemma PressFromHistory(ins: seq<Input>, k: nat, c: Control)
    requires k < |ins| && Remembers(ins, k, c)
    ensures Pressed(c, ins[k]) <==> Held(ins, k + 1, true) && !LastHeld(ins, k)
  {
    PressedTick(c, ins[k]);
    hide LastHeld, Pressed;
  }

  lemma PressedTick(c: Control, i: Input)
    ensures Pressed(c, i) <==> i.buttonDown && c.candidate && !c.stable && c.samples >= 2
  {
  }

  // ----- every transition -----

  /** Both wheels have turned through the metre. */
  ghost predicate MetreIsFull(i: Input) {
    (i.left >= 7344 || i.left <= -7344) && (i.right >= 7314 || i.right <= -7314)
  }

  lemma NextState(w: World, i: Input, w': World)
    requires w' == Step(w, i)
    ensures w'.ctl.state ==
              if i.systemFault then Fault
              else if w.ctl.state == Running then
                if Pressed(w.ctl, i) then Done
                else if Since(i.now, w.ctl.runStarted) > 15000 then Fault
                else if MetreIsFull(i) then Done else Running
              else if (w.ctl.state == Ready || w.ctl.state == Done) && Pressed(w.ctl, i) then Running
              else w.ctl.state
  {
    PreparedTick(w.ctl, i, Prepared(w.ctl, i));
    assert Launches(w.ctl, i) ==> !Arrived(Read(w.ctl, i));
    assert Since(i.now, i.now) == 0;
    assert Arrived(i) <==> MetreIsFull(i);
    hide Prepared, Pressed, WithDistance, WheelDuties, Arrived, MetreIsFull;
  }

  /** The state of every tick follows from the button, the system fault, the time since the
      run began and the counts: a run ends by a fresh press, by 15 s or by the full metre, and
      in no other way; only a fresh press starts one. */
  lemma EveryTransition(ins: seq<Input>, ws: seq<World>, times: seq<nat>, period: nat, s: nat, k: nat)
    requires Run(ins, ws) && Timed(ins, times, period) && period + RUN_TIMEOUT_MS < WORD
    requires s < k < |ins| && (ws[k].ctl.state == Running ==> RunningFrom(ws, s, k - 1))
    ensures var press := Held(ins, k + 1, true) && !LastHeld(ins, k);
            ws[k + 1].ctl.state ==
              if ins[k].systemFault then Fault
              else if ws[k].ctl.state == Running then
                if press then Done
                else if times[k] > times[s] + 15000 then Fault
                else if MetreIsFull(ins[k]) then Done else Running
              else if (ws[k].ctl.state == Ready || ws[k].ctl.state == Done) && press then Running
              else ws[k].ctl.state
  {
    hide Step, Pressed, MetreIsFull, Held, LastHeld;
    assert Ticked(ins, ws, k);
    PressIsAFreshHold(ins, ws, k);
    NextState(ws[k], ins[k], ws[k + 1]);
    if ws[k].ctl.state == Running {
      RunIsBounded(ins, ws, times, period, s, k - 1);
      assert InTime(times, period, k);
      SinceIsElapsed(times[s], times[k]);
    }
  }

  // ----- the duties -----

  /** A wheel's own duty: 300 until 900 pulses are left, then falling evenly to 220, and none
      once it has arrived. */
  ghost function OwnDuty(count: nat, target: nat): int {
    if count >= target then 0
    else if target - count < 900 then 220 + 80 * (target - count) / 900
    else 300
  }

  /** What the wheels owe each other: an error of 6250 pulse-milliseconds, counting at most 500
      ms, is worth one step of duty, up to 15. */
  ghost function Owed(error: int, elapsed: int): int {
    var ramp := if elapsed < 500 then elapsed else 500;
    if error >= 0 then Limited(error * ramp / 6250) else -Limited(-error * ramp / 6250)
  }

  ghost function Limited(step: int): int {
    if step > 15 then 15 else step
  }

  lemma FloorOfQuotients(a: int)
    ensures (a as real / 900.0).Floor == a / 900
    ensures (a as real / 6250.0).Floor == a / 6250
  {
  }

  lemma OwnDutyIsTheLaw(count: nat, target: nat, elapsed: nat)
    ensures WheelPwm(count, target, elapsed, 0) == OwnDuty(count, target)
  {
    WheelStopsExactlyAtItsTarget(count, target, elapsed);
    if count < target && target - count < 900 {
      FloorOfQuotients(80 * (target - count));
      var q := (80 * (target - count)) as real / 900.0;
      assert WheelPwm(count, target, elapsed, 0) == Truncated(220.0 + q);
    }
  }

  lemma OwedIsTheLaw(error: int, elapsed: nat)
    ensures Correction(error, elapsed) == Owed(error, elapsed)
  {
    CorrectionFollowsTheError(error, elapsed);
    if error >= 0 {
      OwedWhenBehind(error, elapsed);
    } else {
      OwedWhenBehind(-error, elapsed);
      CorrectionFollowsTheError(-error, elapsed);
    }
    hide Correction;
  }

  lemma OwedWhenBehind(error: nat, elapsed: nat)
    ensures Correction(error, elapsed) == Owed(error, elapsed)
  {
    var ramp := if elapsed < 500 then elapsed else 500;
    FloorOfQuotients(error * ramp);
    CorrectionIsLimitedPull(error, elapsed);
    PullIsAQuotient(error, elapsed, ramp);
    PullIsOdd(error, elapsed);
    TruncationIsOdd(Pull(error, elapsed));
    hide Correction, Pull;
  }

  lemma PullIsAQuotient(error: nat, elapsed: nat, ramp: nat)
    requires ramp == if elapsed < 500 then elapsed else 500
    ensures Pull(error, elapsed) == (error * ramp) as real / 6250.0
  {
    assert RampScale(elapsed) == ramp as real / 500.0;
    var e, t := error as real, ramp as real;
    assert (error * ramp) as real == e * t;
    assert e * SYNC_KP * (t / 500.0) == e * t / 6250.0;
  }

  /** Every tick of a run drives each wheel with its own duty, and, while both are under way,
      with what the two owe each other: a left wheel that is behind is sped up by exactly what
      the right one is slowed down. */
  lemma DutiesAreExact(ins: seq<Input>, ws: seq<World>, times: seq<nat>, period: nat, s: nat, k: nat)
    requires Run(ins, ws) && Timed(ins, times, period) && period + RUN_TIMEOUT_MS < WORD
    requires s < k < |ins| && RunningFrom(ws, s, k)
    ensures var l, r := Magnitude(ins[k].left), Magnitude(ins[k].right);
            var age := times[k] as int - times[s] as int;
            var owed := if l < 7344 && r < 7314 then Owed(DesiredLeft(r) - l, age) else 0;
            && ws[k + 1].motors.left.duty == OwnDuty(l, 7344) + owed
            && ws[k + 1].motors.right.duty == OwnDuty(r, 7314) - owed
  {
    assert Ticked(ins, ws, k);
    RunIsBounded(ins, ws, times, period, s, k);
    StateTick(ws[k], ins[k], ws[k + 1]);
    RunningDuties(ws[k], ins[k], ws[k + 1]);
    var l, r := Magnitude(ins[k].left), Magnitude(ins[k].right);
    OwnDutyIsTheLaw(l, 7344, times[k] - times[s]);
    OwnDutyIsTheLaw(r, 7314, times[k] - times[s]);
    OwedIsTheLaw(DesiredLeft(r) - l, times[k] - times[s]);
    WheelStopsExactlyAtItsTarget(l, 7344, times[k] - times[s]);
    WheelStopsExactlyAtItsTarget(r, 7314, times[k] - times[s]);
    hide Step, WheelPwm, Correction, OwnDuty, Owed, DesiredLeft, Launches, Pressed;
  }

  lemma RunningDuties(w: World, i: Input, w': World)
    requires w' == Step(w, i) && w.ctl.state == Running && w'.ctl.state == Running
    ensures var d := WheelDuties(i, Since(i.now, w'.ctl.runStarted));
            w'.motors.left.duty == d.0 && w'.motors.right.duty == d.1
  {
    var p := Prepared(w.ctl, i);
    PreparedTick(w.ctl, i, p);
    assert Read(w.ctl, i) == i;
    DutiesObeyTheLaw(i, Since(i.now, p.runStarted));
    var d := WheelDuties(i, Since(i.now, p.runStarted));
    CommandIsExact(w.motors, d.0, d.1, i.now);
    hide Prepared, Pressed, WheelDuties, Arrived, WithDistance, Read;
  }
}
