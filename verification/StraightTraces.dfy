/** A whole run of the straight-run controller, from power-on, that ends in a fault with
    the status of a success. */
module StraightTraces {
  import opened Ticks
  import opened StraightRun
  import opened StraightHistory
  import Traces

  const PERIOD_MS := 10
  const LAUNCH := 2
  const LEAVES_A := 9
  const REACHES_B := 290
  const ARRIVES := 296

  const BLACK: Row := [true, true, true, true, true, true, true, true]
  const WHITE: Row := [false, false, false, false, false, false, false, false]

  /** A car at 25 pulses per tick, 34 cm/s: it stands on line A while the button is held
      for three ticks, drives off, crosses line B shortly before the metre is full, and a
      system fault is raised in the tick after its arrival. */
  function InputAt(k: nat): Input
    requires k <= ARRIVES + 1
  {
    var total := if k <= LAUNCH then 0 else 25 * (k - LAUNCH);
    Input(PERIOD_MS * (k + 1), k <= LAUNCH, k > ARRIVES,
          if k < LEAVES_A || k >= REACHES_B then BLACK else WHITE, total, total)
  }

  ghost function Inputs(): (ins: seq<Input>)
    ensures |ins| == ARRIVES + 2 && forall k | 0 <= k < |ins| :: ins[k] == InputAt(k)
  {
    seq(ARRIVES + 2, k requires 0 <= k < ARRIVES + 2 => InputAt(k))
  }

  ghost function Times(): (times: seq<nat>)
    ensures |times| == ARRIVES + 2 && forall k | 0 <= k < |times| :: times[k] == PERIOD_MS * (k + 1)
  {
    seq(ARRIVES + 2, k requires 0 <= k < ARRIVES + 2 => PERIOD_MS * (k + 1))
  }

  lemma TraceIsTimed()
    ensures Timed(Inputs(), Times(), PERIOD_MS)
  {
    var ins, times := Inputs(), Times();
    forall k | 0 <= k < |ins|
      ensures ins[k].now == TickAt(times[k])
    {
      assert ins[k] == InputAt(k);
    }
    forall k | 0 < k < |times|
      ensures InTime(times, PERIOD_MS, k)
    {
    }
    hide Inputs, Times;
  }

  /** A tick that only samples the button. */
  lemma IdleTick(w: World, i: Input, c: Control)
    requires c == Sampled(w.ctl, i.buttonDown) && !Changed(c) && !i.systemFault && w.ctl.state == Ready
    ensures Step(w, i).ctl == c
  {
    hide Watched, WheelDuties;
  }

  /** The tick that turns a settled press into a run. */
  lemma PressedTick(w: World, i: Input)
    requires w.ctl.candidate && i.buttonDown && !w.ctl.stable && w.ctl.samples == 2 && !i.systemFault
    requires w.ctl.state == Ready
    ensures Step(w, i).ctl.state == Running && Step(w, i).ctl.runStarted == i.now
  {
    assert Launches(w.ctl, i) && !Arrived(Read(w.ctl, i));
    assert Since(i.now, i.now) == 0;
    PreparedTick(w.ctl, i, Prepared(w.ctl, i));
    hide Prepared, WheelDuties, Arrived, WithDistance, Pressed, Launches;
  }

  /** A tick of a run whose button is up. */
  lemma RunningTick(w: World, i: Input)
    requires w.ctl.state == Running && !i.systemFault && !i.buttonDown
    requires Since(i.now, w.ctl.runStarted) <= RUN_TIMEOUT_MS
    ensures !Pressed(w.ctl, i)
    ensures Step(w, i).ctl.state == if Arrived(i) then Done else Running
    ensures Step(w, i).ctl.runStarted == w.ctl.runStarted
  {
    assert !Pressed(w.ctl, i) && Read(w.ctl, i) == i;
    PreparedTick(w.ctl, i, Prepared(w.ctl, i));
    hide Prepared, WheelDuties, Arrived, WithDistance, Pressed, Read, Since;
  }

  lemma LaunchesInTime(ws: seq<World>)
    requires Run(Inputs(), ws)
    ensures ws[LAUNCH].ctl.state == Ready
    ensures ws[LAUNCH + 1].ctl.state == Running && ws[LAUNCH + 1].ctl.runStarted == PERIOD_MS * (LAUNCH + 1)
  {
    hide Step;
    var ins := Inputs();
    assert Ticked(ins, ws, 0) && Ticked(ins, ws, 1) && Ticked(ins, ws, 2);
    IdleTick(ws[0], ins[0], ws[0].ctl.(candidate := true, samples := 1));
    IdleTick(ws[1], ins[1], ws[1].ctl.(samples := 2));
    PressedTick(ws[2], ins[2]);
  }

  lemma {:induction false} DrivesOn(ws: seq<World>, k: nat)
    requires Run(Inputs(), ws) && LAUNCH < k <= ARRIVES
    ensures ws[k].ctl.state == Running && ws[k].ctl.runStarted == PERIOD_MS * (LAUNCH + 1)
  {
    hide Step;
    if k == LAUNCH + 1 {
      LaunchesInTime(ws);
    } else {
      DrivesOn(ws, k - 1);
      assert Ticked(Inputs(), ws, k - 1);
      RunningTick(ws[k - 1], Inputs()[k - 1]);
    }
  }

  /** Line A was left for five ticks, and line B was there for five ticks. */
  lemma BothLinesAreSeen()
    ensures HasSeenB(Inputs(), Times(), LAUNCH, ARRIVES)
  {
    var ins, times := Inputs(), Times();
    assert LeavesBy(ins, LAUNCH, 20);
    assert ArrivesBy(ins, times, LAUNCH, 20, ARRIVES - 1) by {
      forall j | ARRIVES - 1 < j + LINE_STABLE && j <= ARRIVES - 1
        ensures Back(ins, times, LAUNCH, j)
      {
        assert ins[j].line == BLACK && BLACK[0];
      }
    }
  }

  /** The car drives its metre, sees both lines and stops with status 3; the system fault
      that follows leaves the controller in its fault state, still showing status 3. */
  lemma FaultCanLookLikeSuccess() returns (ins: seq<Input>, ws: seq<World>, times: seq<nat>)
    ensures Run(ins, ws) && Timed(ins, times, PERIOD_MS) && |ins| == ARRIVES + 2
    ensures RunningFrom(ws, LAUNCH, ARRIVES - 1) && Arrived(ins[ARRIVES])
    ensures ws[ARRIVES + 1].ctl.state == Done && ws[ARRIVES + 1].ctl.status == 3
    ensures ins[ARRIVES + 1].systemFault
    ensures ws[ARRIVES + 2].ctl.state == Fault && ws[ARRIVES + 2].ctl.status == 3
  {
    hide Step, HasSeenB;
    ins, times := Inputs(), Times();
    ws := Traces.StatesFrom(Step, Initial(), ins);
    forall k | 0 <= k < |ins|
      ensures Ticked(ins, ws, k)
    {
    }
    TraceIsTimed();
    LaunchesInTime(ws);
    forall k | LAUNCH < k <= ARRIVES
      ensures ws[k].ctl.state == Running
    {
      DrivesOn(ws, k);
    }
    DrivesOn(ws, ARRIVES);
    assert Ticked(ins, ws, ARRIVES);
    RunningTick(ws[ARRIVES], ins[ARRIVES]);
    BothLinesAreSeen();
    hide Inputs, Times, Timed, Pressed, Arrived;
    StatusTellsTheRun(ins, ws, times, PERIOD_MS, LAUNCH, ARRIVES);
    FaultAfterARun(ins, ws, times, PERIOD_MS, LAUNCH, ARRIVES, ARRIVES + 1);
  }
}
