/** A whole run of the turn controller with a car that sticks one degree short of its target:
    twenty ever stronger pulses, and the fault that follows. */
module StuckTraces {
  import opened Ticks
  import opened TurnController
  import opened TurnHistory
  import opened TurnLaws
  import opened TurnTraces
  import Traces

  const PRESS := 2
  const FIRST_PULSE := PRESS + SETTLES
  const CYCLE := 28
  const GIVES_UP := FIRST_PULSE + 20 * CYCLE

  /** The car turns by one degree per tick until it sticks after 89 degrees. */
  function InputOf(k: nat): Input
    requires k <= GIVES_UP
  {
    var j := if k <= PRESS then 0 else k - PRESS;
    Input(NowAt(k), k <= PRESS, false, false, false,
          Imu(Ready, 0, true, if j <= 89 then -(j as real) else -89.0, if 0 < j <= 89 then -100.0 else 0.0))
  }

  ghost function StuckInputs(): (ins: seq<Input>)
    ensures |ins| == GIVES_UP + 1 && forall k | 0 <= k < |ins| :: ins[k] == InputOf(k)
  {
    seq(GIVES_UP + 1, k requires 0 <= k < GIVES_UP + 1 => InputOf(k))
  }

  /** The clockwise leg from heading 0. */
  ghost predicate OnTheLeg(c: Control) {
    OnLeg(c, Cw, PRESS, 0.0)
  }

  lemma Presses(ws: seq<World>)
    requires Run(StuckInputs(), ws)
    ensures OnTheLeg(ws[PRESS + 1].ctl) && ws[PRESS + 1].ctl.phase == Coarse
    ensures ws[PRESS + 1].ctl.fineAttempts == 0 && ws[PRESS + 1].ctl.finePwm == 180 && !Turning(ws[PRESS].ctl.state)
  {
    hide Step, Sane;
    var ins := StuckInputs();
    assert Ticked(ins, ws, 0) && Ticked(ins, ws, 1) && Ticked(ins, ws, 2);
    var c := InitialControl().(candidate := CwButton, stableSamples := 1);
    IdleTick(ws[0], ins[0], c);
    IdleTick(ws[1], ins[1], c.(state := Idle, stableSamples := 2));
    assert LastHeld(ins, 0) == NoButton && LastHeld(ins, 1) == NoButton && LastHeld(ins, 2) == NoButton;
    LegsBeginOnFreshPresses(ins, ws, PRESS, CwButton);
    AlwaysSane(ins, ws, PRESS);
    AlwaysSane(ins, ws, PRESS + 1);
    LegBegins(ws[PRESS], ins[PRESS], ws[PRESS + 1]);
    SaneExpectation(ws[PRESS + 1].ctl);
  }

  lemma SaneExpectation(c: Control)
    requires Sane(c) && c.state == Cw
    ensures c.expected == -1
  {
  }

  // ----- the drive and the first brake -----

  lemma {:induction false} DrivesOff(ws: seq<World>, j: nat)
    requires Run(StuckInputs(), ws) && 0 < j <= BRAKES + 1
    ensures OnTheLeg(ws[PRESS + j].ctl)
    ensures ws[PRESS + j].ctl.fineAttempts == 0 && ws[PRESS + j].ctl.finePwm == 180
    ensures j <= BRAKES ==> ws[PRESS + j].ctl.phase == Coarse
    ensures j == BRAKES + 1 ==> BrakesSince(ws[PRESS + j].ctl, PRESS + BRAKES, 0)
  {
    hide Step, Sane;
    if j == 1 {
      Presses(ws);
    } else {
      DrivesOff(ws, j - 1);
      var ins, k := StuckInputs(), PRESS + j - 1;
      assert Ticked(ins, ws, k);
      assert ins[k].imu == ImuOnLeg(k, PRESS, 0.0, -1);
      CoarseTick(ws[k], ins[k], Cw, PRESS, j - 1, 0.0);
      AlwaysSane(ins, ws, k);
      LegTick(ws[k], ins[k], ws[k + 1]);
    }
  }

  /** Braking since tick `b`, with so many ticks settled. */
  ghost predicate BrakesSince(c: Control, b: nat, settle: nat) {
    c.phase == Brake && c.phaseStarted == NowAt(b) && c.settle == settle
  }

  lemma BrakingTick(w: World, i: Input, k: nat, b: nat, settle: nat)
    requires OnTheLeg(w.ctl) && BrakesSince(w.ctl, b, settle) && settle < 14
    requires b < k <= GIVES_UP && i == InputOf(k) && k > PRESS
    ensures OnTheLeg(Step(w, i).ctl) && SamePulse(w.ctl, Step(w, i).ctl)
    ensures BrakesSince(Step(w, i).ctl, b, if k >= b + 12 && k > PRESS + 89 then settle + 1 else 0)
  {
    PreparedWhenBusy(w.ctl, i);
    assert Since(i.now, w.ctl.phaseStarted) == PERIOD_MS * (k - b);
    assert Since(i.now, w.ctl.segmentStarted) == PERIOD_MS * (k - PRESS);
    hide Prepared;
  }

  /** How many ticks have settled before tick `k`, of a brake phase that began in tick `b`. */
  function Settling(b: nat, k: nat): nat {
    if k <= b + 12 then 0 else k - b - 12
  }

  lemma {:induction false} Settles(ws: seq<World>, b: nat, from: nat, k: nat)
    requires Run(StuckInputs(), ws) && PRESS + BRAKES <= b < from <= k <= b + 26 && k <= GIVES_UP
    requires OnTheLeg(ws[from].ctl) && BrakesSince(ws[from].ctl, b, Settling(b, from))
    ensures OnTheLeg(ws[k].ctl) && BrakesSince(ws[k].ctl, b, Settling(b, k)) && SamePulse(ws[from].ctl, ws[k].ctl)
  {
    hide Step, OnTheLeg;
    if from < k {
      Settles(ws, b, from, k - 1);
      assert Ticked(StuckInputs(), ws, k - 1);
      BrakingTick(ws[k - 1], StuckInputs()[k - 1], k - 1, b, Settling(b, k - 1));
    }
  }

  // ----- the pulses -----

  /** The strength of pulse `r`, counting from 0. */
  function Strength(r: nat): int {
    if r < 4 then 180 + 20 * r else 260
  }

  /** Before tick `k` the car has settled, for the pulse `r` that starts in it. */
  ghost predicate ReadyForPulse(c: Control, k: nat, r: nat) {
    && k >= 26 && OnTheLeg(c) && BrakesSince(c, k - 26, 14) && c.fineAttempts == r
    && c.finePwm == (if r == 0 then 180 else Strength(r - 1))
    && (r > 0 ==> c.fineDirection == -1 && c.fineStartYaw == -89.0 && c.fineErrorBefore == 1.0)
  }

  /** The pulse `r` started in tick `p`. */
  ghost predicate InPulse(c: Control, p: nat, r: nat) {
    && OnTheLeg(c) && c.phase == FinePulse && c.phaseStarted == NowAt(p) && c.fineAttempts == r + 1
    && Pulsing(c, r)
  }

  ghost predicate Pulsing(c: Control, r: nat) {
    c.finePwm == Strength(r) && c.fineDirection == -1 && c.fineStartYaw == -89.0 && c.fineErrorBefore == 1.0
  }

  lemma PulseStarts(w: World, i: Input, k: nat, r: nat)
    requires ReadyForPulse(w.ctl, k, r) && r < 20 && FIRST_PULSE <= k <= GIVES_UP && i == InputOf(k)
    ensures InPulse(Step(w, i).ctl, k, r)
  {
    PreparedWhenBusy(w.ctl, i);
    assert Since(i.now, w.ctl.phaseStarted) == 260;
    assert Since(i.now, w.ctl.segmentStarted) == PERIOD_MS * (k - PRESS);
    SameAdaptation(w.ctl, Prepared(w.ctl, i), -89.0);
    StrongerPulse(w.ctl, k, r);
    hide Prepared, NextFinePwm;
  }

  lemma StrongerPulse(c: Control, k: nat, r: nat)
    requires ReadyForPulse(c, k, r)
    ensures NextFinePwm(c, -89.0) == Strength(r)
  {
  }

  lemma PulseGoesOn(w: World, i: Input, p: nat, k: nat, r: nat)
    requires InPulse(w.ctl, p, r) && FIRST_PULSE <= p < k <= p + 2 && k <= GIVES_UP && i == InputOf(k)
    ensures k == p + 1 ==> InPulse(Step(w, i).ctl, p, r)
    ensures k == p + 2 ==>
              OnTheLeg(Step(w, i).ctl) && BrakesSince(Step(w, i).ctl, k, 0) && Pulsing(Step(w, i).ctl, r) &&
              Step(w, i).ctl.fineAttempts == r + 1
  {
    PreparedWhenBusy(w.ctl, i);
    assert Since(i.now, w.ctl.phaseStarted) == PERIOD_MS * (k - p);
    assert Since(i.now, w.ctl.segmentStarted) == PERIOD_MS * (k - PRESS);
    hide Prepared;
  }

  /** Tick `p` starts a pulse of the given strength. */
  ghost predicate PulsesAt(ws: seq<World>, p: nat, strength: int) {
    p + 1 < |ws| && StartsPulse(ws[p], ws[p + 1]) && Force(ws[p + 1]) == strength
  }

  lemma OnePulse(ws: seq<World>, p: nat, r: nat)
    requires Run(StuckInputs(), ws) && r < 20 && p == FIRST_PULSE + CYCLE * r && ReadyForPulse(ws[p].ctl, p, r)
    ensures PulsesAt(ws, p, Strength(r))
    ensures ReadyForPulse(ws[p + CYCLE].ctl, p + CYCLE, r + 1)
  {
    hide Step, OnTheLeg, Sane;
    var ins := StuckInputs();
    assert Ticked(ins, ws, p) && Ticked(ins, ws, p + 1) && Ticked(ins, ws, p + 2);
    PulseStarts(ws[p], ins[p], p, r);
    PulseGoesOn(ws[p + 1], ins[p + 1], p, p + 1, r);
    PulseGoesOn(ws[p + 2], ins[p + 2], p, p + 2, r);
    Settles(ws, p + 2, p + 3, p + CYCLE);
    OnALeg(ws[p].ctl);
    OnALeg(ws[p + 1].ctl);
    hide Force;
    ForceIsLawful(ins, ws, p);
  }

  lemma OnALeg(c: Control)
    requires OnTheLeg(c)
    ensures c.state == Cw && Turning(c.state)
  {
  }

  lemma {:induction false} PulsesGrow(ws: seq<World>, r: nat)
    requires Run(StuckInputs(), ws) && r <= 20
    ensures ReadyForPulse(ws[FIRST_PULSE + CYCLE * r].ctl, FIRST_PULSE + CYCLE * r, r)
  {
    hide Step, OnTheLeg, ReadyForPulse, Force;
    if r == 0 {
      DrivesOff(ws, BRAKES + 1);
      Settles(ws, PRESS + BRAKES, PRESS + BRAKES + 1, FIRST_PULSE);
      FirstIsReady(ws[FIRST_PULSE].ctl);
    } else {
      PulsesGrow(ws, r - 1);
      OnePulse(ws, FIRST_PULSE + CYCLE * (r - 1), r - 1);
    }
  }

  lemma FirstIsReady(c: Control)
    requires OnTheLeg(c) && BrakesSince(c, PRESS + BRAKES, 14) && c.fineAttempts == 0 && c.finePwm == 180
    ensures ReadyForPulse(c, FIRST_PULSE, 0)
  {
  }

  /** The car sticks one degree short: pulse after pulse, 280 ms apart, drives harder, from 180
      to 260, and after the twentieth the turn faults with status -6. */
  lemma StuckCarGivesUp() returns (ins: seq<Input>, ws: seq<World>)
    ensures Run(ins, ws) && |ins| == GIVES_UP + 1
    ensures forall r: nat | r < 20 :: PulsesAt(ws, FIRST_PULSE + CYCLE * r, Strength(r))
    ensures ws[GIVES_UP].ctl.state == Cw && ws[GIVES_UP].ctl.fineAttempts == 20
    ensures ws[GIVES_UP + 1].ctl.state == Fault && ws[GIVES_UP + 1].ctl.faultStatus == -6
  {
    hide Step, Strength, Sane, PulsesAt;
    ins := StuckInputs();
    ws := Traces.StatesFrom(Step, Initial(), ins);
    forall k | 0 <= k < |ins|
      ensures Ticked(ins, ws, k)
    {
    }
    forall r: nat | r < 20
      ensures PulsesAt(ws, FIRST_PULSE + CYCLE * r, Strength(r))
    {
      PulsesGrow(ws, r);
      OnePulse(ws, FIRST_PULSE + CYCLE * r, r);
    }
    PulsesGrow(ws, 20);
    AlwaysSane(ins, ws, GIVES_UP);
    assert Ticked(ins, ws, GIVES_UP);
    WhyATickFaults(ws[GIVES_UP], ins[GIVES_UP], ws[GIVES_UP + 1]);
    LastPulseIsSpent(ws[GIVES_UP].ctl, ins[GIVES_UP]);
  }

  lemma LastPulseIsSpent(c: Control, i: Input)
    requires ReadyForPulse(c, GIVES_UP, 20) && i == InputOf(GIVES_UP)
    ensures var gained := Gained(c.state, c.origin, i.imu.yaw);
            FaultOf(c, i, LegFault(c, i, Since(i.now, c.segmentStarted), gained, 20)) == -6
  {
  }
}
