/** A whole run of the turn controller, from power-on: a sequence that turns a quarter
    clockwise, pauses, and turns back. */
module TurnTraces {
  import opened Ticks
  import opened TurnController
  import opened TurnHistory
  import Traces

  const PERIOD_MS := 10
  const READY := 400
  const LAUNCH := READY + 2

  /** Ticks from the start of a leg to its braking, to its quiet brake, and to its end. */
  const BRAKES := 87
  const IS_QUIET := BRAKES + 12
  const SETTLES := IS_QUIET + 14

  const PAUSES := LAUNCH + SETTLES
  const RETURNS := PAUSES + 70
  const FINISHES := RETURNS + SETTLES

  function NowAt(k: nat): nat {
    PERIOD_MS * (k + 1)
  }

  /** The angle a leg has turned through after `j` ticks of one degree each: the car
      coasts for three of its ninety degrees. */
  function Turned(j: int): real {
    if j <= 0 then 0.0 else if j <= 90 then j as real else TURN_ANGLE_DEG
  }

  /** The IMU during and after the leg that starts at tick `n` with heading `origin`. */
  function ImuOnLeg(k: nat, n: nat, origin: real, d: Direction): Imu {
    Imu(Ready, 0, true, origin + Along(Turned(k - n), d), if n < k <= n + 90 then Along(100.0, d) else 0.0)
  }

  function ImuAt(k: nat): Imu {
    if k < READY then Imu(Calibrating, 0, false, 0.0, 0.0)
    else if k <= RETURNS then ImuOnLeg(k, LAUNCH, 0.0, -1)
    else ImuOnLeg(k, RETURNS, -TURN_ANGLE_DEG, 1)
  }

  /** The sequence button is held for three ticks once the IMU is calibrated. */
  function InputAt(k: nat): Input
    requires k <= FINISHES
  {
    Input(NowAt(k), false, false, READY <= k <= LAUNCH, false, ImuAt(k))
  }

  ghost function Inputs(): (ins: seq<Input>)
    ensures |ins| == FINISHES + 1 && forall k | 0 <= k < |ins| :: ins[k] == InputAt(k)
  {
    seq(FINISHES + 1, k requires 0 <= k < FINISHES + 1 => InputAt(k))
  }

  ghost function Times(): (times: seq<nat>)
    ensures |times| == FINISHES + 1 && forall k | 0 <= k < |times| :: times[k] == NowAt(k)
  {
    seq(FINISHES + 1, k requires 0 <= k < FINISHES + 1 => NowAt(k))
  }

  lemma TraceIsTimed()
    ensures Timed(Inputs(), Times(), PERIOD_MS)
  {
    forall k | 0 < k < |Times()|
      ensures InTime(Times(), PERIOD_MS, k)
    {
    }
  }

  // ----- single ticks -----

  /** The controller is on the leg that started at tick `n` with heading `origin`. */
  ghost predicate OnLeg(c: Control, s: State, n: nat, origin: real) {
    && Turning(s) && c.state == s
    && c.expected == (if s == Cw || s == SequenceCw then -1 else 1)
    && c.origin == origin && c.target == origin + Along(TURN_ANGLE_DEG, c.expected)
    && c.segmentStarted == NowAt(n)
  }

  ghost predicate Healthy(i: Input) {
    !i.systemFault && i.imu.Usable()
  }

  lemma PreparedWhenBusy(c: Control, i: Input)
    requires Busy(c.state) && Healthy(i)
    ensures SameTurn(c, Prepared(c, i))
  {
  }

  lemma WaitingTick(w: World, i: Input)
    requires w.ctl == InitialControl() && ReadButtons(i) == NoButton
    requires !i.systemFault && i.imu.state == Calibrating && i.imu.status == 0
    ensures Step(w, i).ctl == w.ctl
  {
  }

  /** A tick that only samples the button. */
  lemma IdleTick(w: World, i: Input, c: Control)
    requires c == Sampled(w.ctl, ReadButtons(i)) && !Changed(c) && Healthy(i)
    requires w.ctl.state == WaitImu || w.ctl.state == Idle
    ensures Step(w, i).ctl == c.(state := Idle)
  {
  }

  lemma PressedTick(w: World, i: Input)
    requires w.ctl.candidate == SequenceButton == ReadButtons(i) && Healthy(i)
    requires w.ctl.stable == NoButton && w.ctl.stableSamples == 2 && w.ctl.state == Idle
    requires i.imu.yaw == 0.0 && i.now == NowAt(LAUNCH)
    ensures OnLeg(Step(w, i).ctl, SequenceCw, LAUNCH, 0.0) && Step(w, i).ctl.phase == Coarse
  {
    var p := Prepared(w.ctl, i);
    assert p.state == SequenceCw && p.target == -90.0 && p.phase == Coarse && p.segmentStarted == i.now;
    hide Prepared, TurnPwm;
  }

  lemma CoarseTick(w: World, i: Input, s: State, n: nat, j: nat, origin: real)
    requires OnLeg(w.ctl, s, n, origin) && w.ctl.phase == Coarse
    requires 0 < j <= BRAKES && n + j <= FINISHES && i.now == NowAt(n + j)
    requires !i.systemFault && i.imu == ImuOnLeg(n + j, n, origin, w.ctl.expected)
    ensures OnLeg(Step(w, i).ctl, s, n, origin)
    ensures j < BRAKES ==> Step(w, i).ctl.phase == Coarse
    ensures j == BRAKES ==>
              Step(w, i).ctl.phase == Brake && Step(w, i).ctl.phaseStarted == i.now && Step(w, i).ctl.settle == 0
  {
    PreparedWhenBusy(w.ctl, i);
    hide Prepared, TurnPwm;
  }

  /** The settle counter before tick `j` of a leg. */
  function SettledBy(j: int): int {
    if j <= IS_QUIET then 0 else j - IS_QUIET
  }

  lemma BrakeTick(w: World, i: Input, s: State, n: nat, j: nat, origin: real)
    requires OnLeg(w.ctl, s, n, origin) && w.ctl.phase == Brake
    requires BRAKES < j <= SETTLES && n + j <= FINISHES && i.now == NowAt(n + j)
    requires w.ctl.phaseStarted == NowAt(n + BRAKES) && w.ctl.settle == SettledBy(j)
    requires !i.systemFault && i.imu == ImuOnLeg(n + j, n, origin, w.ctl.expected)
    ensures j < SETTLES ==>
              OnLeg(Step(w, i).ctl, s, n, origin) && Step(w, i).ctl.phase == Brake &&
              Step(w, i).ctl.phaseStarted == w.ctl.phaseStarted && Step(w, i).ctl.settle == SettledBy(j + 1)
    ensures j == SETTLES ==>
              Step(w, i).ctl.target == w.ctl.target &&
              Step(w, i).ctl.state == (if s == SequenceCw then SequencePause else Done) &&
              (s == SequenceCw ==> Step(w, i).ctl.phaseStarted == i.now)
  {
    PreparedWhenBusy(w.ctl, i);
    hide Prepared;
  }

  lemma PauseTick(w: World, i: Input, k: nat)
    requires w.ctl.state == SequencePause && w.ctl.phaseStarted == NowAt(PAUSES) && w.ctl.target == -TURN_ANGLE_DEG
    requires PAUSES < k <= RETURNS && i.now == NowAt(k) && Healthy(i) && i.imu.yaw == -TURN_ANGLE_DEG
    ensures k < RETURNS ==> Step(w, i).ctl.state == SequencePause &&
                            Step(w, i).ctl.phaseStarted == NowAt(PAUSES) && Step(w, i).ctl.target == w.ctl.target
    ensures k == RETURNS ==>
              OnLeg(Step(w, i).ctl, SequenceCcw, RETURNS, -TURN_ANGLE_DEG) && Step(w, i).ctl.phase == Coarse
  {
    PreparedWhenBusy(w.ctl, i);
    hide Prepared;
  }

  // ----- the phases of the run -----

  lemma {:induction false} WaitsForTheImu(ws: seq<World>, k: nat)
    requires Run(Inputs(), ws) && k <= READY
    ensures ws[k].ctl == InitialControl()
  {
    hide Step;
    if k > 0 {
      WaitsForTheImu(ws, k - 1);
      assert Ticked(Inputs(), ws, k - 1);
      WaitingTick(ws[k - 1], Inputs()[k - 1]);
    }
  }

  /** Tick `n` starts a leg, and the IMU then sweeps all of it. */
  ghost predicate Begins(ws: seq<World>, s: State, n: nat, origin: real) {
    && n + SETTLES <= FINISHES < |ws|
    && OnLeg(ws[n + 1].ctl, s, n, origin) && ws[n + 1].ctl.phase == Coarse
    && forall k | n < k <= n + SETTLES :: ImuAt(k) == ImuOnLeg(k, n, origin, ws[n + 1].ctl.expected)
  }

  lemma Launches(ws: seq<World>)
    requires Run(Inputs(), ws)
    ensures ws[LAUNCH].ctl.state == Idle
    ensures Begins(ws, SequenceCw, LAUNCH, 0.0)
  {
    hide Step;
    var ins := Inputs();
    WaitsForTheImu(ws, READY);
    assert Ticked(ins, ws, READY) && Ticked(ins, ws, READY + 1) && Ticked(ins, ws, READY + 2);
    var c := InitialControl().(candidate := SequenceButton, stableSamples := 1);
    IdleTick(ws[READY], ins[READY], c);
    IdleTick(ws[READY + 1], ins[READY + 1], c.(state := Idle, stableSamples := 2));
    PressedTick(ws[READY + 2], ins[READY + 2]);
  }

  /** A leg that the trace sweeps: coarse until three degrees are left, then braking. */
  lemma {:induction false} LegRuns(ws: seq<World>, s: State, n: nat, origin: real, j: nat)
    requires Run(Inputs(), ws) && Begins(ws, s, n, origin) && 0 < j <= SETTLES
    ensures OnLeg(ws[n + j].ctl, s, n, origin)
    ensures j <= BRAKES ==> ws[n + j].ctl.phase == Coarse
    ensures j > BRAKES ==> ws[n + j].ctl.phase == Brake && ws[n + j].ctl.phaseStarted == NowAt(n + BRAKES) &&
                           ws[n + j].ctl.settle == SettledBy(j)
  {
    hide Step, ImuAt, ImuOnLeg;
    if j > 1 {
      LegRuns(ws, s, n, origin, j - 1);
      assert Ticked(Inputs(), ws, n + j - 1);
      var w, i := ws[n + j - 1], Inputs()[n + j - 1];
      if j - 1 <= BRAKES {
        CoarseTick(w, i, s, n, j - 1, origin);
      } else {
        BrakeTick(w, i, s, n, j - 1, origin);
      }
    }
  }

  lemma LegEnds(ws: seq<World>, s: State, n: nat, origin: real)
    requires Run(Inputs(), ws) && Begins(ws, s, n, origin)
    ensures ws[n + SETTLES].ctl.state == s
    ensures ws[n + SETTLES + 1].ctl.state == (if s == SequenceCw then SequencePause else Done)
    ensures ws[n + SETTLES + 1].ctl.target == ws[n + 1].ctl.target
    ensures s == SequenceCw ==> ws[n + SETTLES + 1].ctl.phaseStarted == NowAt(n + SETTLES)
  {
    hide Step, ImuAt, ImuOnLeg;
    LegRuns(ws, s, n, origin, SETTLES);
    assert Ticked(Inputs(), ws, n + SETTLES);
    BrakeTick(ws[n + SETTLES], Inputs()[n + SETTLES], s, n, SETTLES, origin);
  }

  lemma {:induction false} PauseHolds(ws: seq<World>, k: nat)
    requires Run(Inputs(), ws) && PAUSES < k <= RETURNS
    requires ws[PAUSES + 1].ctl.state == SequencePause && ws[PAUSES + 1].ctl.phaseStarted == NowAt(PAUSES)
    requires ws[PAUSES + 1].ctl.target == -TURN_ANGLE_DEG
    ensures ws[k].ctl.state == SequencePause && ws[k].ctl.phaseStarted == NowAt(PAUSES)
    ensures ws[k].ctl.target == -TURN_ANGLE_DEG
  {
    hide Step;
    if k > PAUSES + 1 {
      PauseHolds(ws, k - 1);
      assert Ticked(Inputs(), ws, k - 1);
      PauseTick(ws[k - 1], Inputs()[k - 1], k - 1);
    }
  }

  lemma SecondLegBegins(ws: seq<World>)
    requires Run(Inputs(), ws)
    requires ws[PAUSES + 1].ctl.state == SequencePause && ws[PAUSES + 1].ctl.phaseStarted == NowAt(PAUSES)
    requires ws[PAUSES + 1].ctl.target == -TURN_ANGLE_DEG
    ensures Begins(ws, SequenceCcw, RETURNS, -TURN_ANGLE_DEG)
  {
    hide Step;
    PauseHolds(ws, RETURNS);
    assert Ticked(Inputs(), ws, RETURNS);
    PauseTick(ws[RETURNS], Inputs()[RETURNS], RETURNS);
  }

  /** A run in which a sequence starts, pauses after its first leg and completes. */
  lemma SequenceCompletes() returns (ins: seq<Input>, ws: seq<World>, times: seq<nat>)
    ensures Run(ins, ws) && Timed(ins, times, PERIOD_MS) && |ins| == FINISHES + 1
    ensures !Busy(ws[LAUNCH].ctl.state) && ws[LAUNCH + 1].ctl.state == SequenceCw
    ensures ws[PAUSES].ctl.state == SequenceCw
    ensures forall k | PAUSES < k <= RETURNS :: ws[k].ctl.state == SequencePause
    ensures ws[FINISHES].ctl.state == SequenceCcw && ws[FINISHES + 1].ctl.state == Done
  {
    hide Step, ImuOnLeg;
    ins, times := Inputs(), Times();
    ws := Traces.StatesFrom(Step, Initial(), ins);
    forall k | 0 <= k < |ins|
      ensures Ticked(ins, ws, k)
    {
    }
    TraceIsTimed();
    Launches(ws);
    LegEnds(ws, SequenceCw, LAUNCH, 0.0);
    forall k | PAUSES < k <= RETURNS
      ensures ws[k].ctl.state == SequencePause
    {
      PauseHolds(ws, k);
    }
    SecondLegBegins(ws);
    LegEnds(ws, SequenceCcw, RETURNS, -TURN_ANGLE_DEG);
  }
}
