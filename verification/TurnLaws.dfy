/** The laws a turn obeys over every input trace: when a leg begins, how hard it is driven,
    how its fine pulses adapt, when its phases end, and why it faults. */
module TurnLaws {
  import opened Ticks
  import opened Motors
  import opened TurnController
  import opened TurnHistory

  // ----- legs -----

  /** Tick `s` began the leg that is still in progress before tick `k`. */
  ghost predicate LegSince(ws: seq<World>, s: nat, k: nat) {
    && s < k < |ws|
    && Turning(ws[k].ctl.state) && ws[s].ctl.state != ws[k].ctl.state
    && forall j | s < j <= k :: ws[j].ctl.state == ws[k].ctl.state
  }

  /** Both worlds belong to one leg. */
  ghost predicate SameLeg(w: World, w': World) {
    Turning(w.ctl.state) && w'.ctl.state == w.ctl.state
  }

  /** How far the car still has to turn, in the direction of its leg. */
  ghost function ToGo(c: Control, yaw: real): real {
    if c.state == Cw || c.state == SequenceCw then yaw - c.target else c.target - yaw
  }

  /** The yaw gained since a heading, in the direction of the leg. */
  ghost function Gained(s: State, from: real, yaw: real): real {
    if s == Cw || s == SequenceCw then from - yaw else yaw - from
  }

  /** How hard the motors drive. */
  ghost function Force(w: World): int {
    if w.motors.right.duty < 0 then -w.motors.right.duty else w.motors.right.duty
  }

  ghost predicate StartsPulse(w: World, w': World) {
    w'.ctl.phase == FinePulse && w.ctl.phase != FinePulse
  }

  /** The tick leaves everything alone that the fine pulses remember. */
  ghost predicate SamePulse(c: Control, d: Control) {
    && d.finePwm == c.finePwm && d.fineAttempts == c.fineAttempts && d.fineDirection == c.fineDirection
    && d.fineStartYaw == c.fineStartYaw && d.fineErrorBefore == c.fineErrorBefore
  }

  lemma PreparedOnLeg(c: Control, i: Input)
    requires Turning(c.state) && Turning(Prepared(c, i).state)
    ensures SameTurn(c, Prepared(c, i)) && Prepared(c, i).state == c.state && !i.systemFault && i.imu.Usable()
  {
  }

  /** A tick of a leg is one step of its phases. */
  lemma StepOnLeg(w: World, i: Input, p: World)
    requires Sane(w.ctl) && Turning(w.ctl.state) && Turning(Step(w, i).ctl.state)
    requires p == World(Prepared(w.ctl, i), w.motors)
    ensures SameTurn(w.ctl, p.ctl) && !i.systemFault && i.imu.Usable()
    ensures Step(w, i).ctl == TurnStep(p, i).ctl
    ensures Step(w, i).motors == Safety(TurnStep(p, i).motors, i.now)
  {
    PreparedState(w.ctl, p.ctl, i);
    PreparedOnLeg(w.ctl, i);
    hide Prepared, TurnStep, Sane;
  }

  lemma TurnStepOnLeg(p: World, i: Input, d: Control)
    requires Turning(p.ctl.state) && d == TurnStep(p, i).ctl && d.state == p.ctl.state
    ensures d.target == p.ctl.target && d.origin == p.ctl.origin
    ensures d.segmentStarted == p.ctl.segmentStarted && d.expected == p.ctl.expected
    ensures d.phase != FinePulse || p.ctl.phase == FinePulse ==> SamePulse(p.ctl, d)
  {
    hide TurnPwm, NextFinePwm, Along, Abs;
  }

  lemma LegTick(w: World, i: Input, w': World)
    requires Sane(w.ctl) && w' == Step(w, i) && SameLeg(w, w')
    ensures w'.ctl.target == w.ctl.target && w'.ctl.origin == w.ctl.origin
    ensures w'.ctl.segmentStarted == w.ctl.segmentStarted && w'.ctl.expected == w.ctl.expected
    ensures !StartsPulse(w, w') ==> SamePulse(w.ctl, w'.ctl)
  {
    hide Step, Prepared, TurnStep, Sane;
    var p := World(Prepared(w.ctl, i), w.motors);
    StepOnLeg(w, i, p);
    TurnStepOnLeg(p, i, w'.ctl);
  }

  /** A tick that starts a leg, by a press or at the end of the pause. */
  lemma LegBegins(w: World, i: Input, w': World)
    requires Sane(w.ctl) && w' == Step(w, i) && Turning(w'.ctl.state) && w'.ctl.state != w.ctl.state
    ensures w'.ctl.segmentStarted == i.now && w'.ctl.origin == i.imu.yaw
    ensures w'.ctl.phase == Coarse && w'.ctl.fineAttempts == 0 && w'.ctl.finePwm == 180
  {
    var p := Prepared(w.ctl, i);
    PreparedState(w.ctl, p, i);
    if Turning(p.state) && !Turning(w.ctl.state) {
      FreshLeg(w.ctl, i);
      FreshStep(World(p, w.motors), i);
    }
    hide Prepared, TurnPwm, NextFinePwm, Sane, Along, Abs, CoarseStep, BrakeStep, PulseStep;
  }

  lemma FreshStep(p: World, i: Input)
    requires p.ctl.phase == Coarse && p.ctl.segmentStarted == i.now
    requires Abs(p.ctl.target - i.imu.yaw) == 90.0 && Along(p.ctl.target - i.imu.yaw, p.ctl.expected) == 90.0
    ensures TurnStep(p, i).ctl == p.ctl
  {
    hide TurnPwm, Along, Abs;
  }

  lemma FreshLeg(c: Control, i: Input)
    requires !Turning(c.state) && Turning(Prepared(c, i).state)
    ensures Prepared(c, i).fineAttempts == 0 && Prepared(c, i).finePwm == 180 && Prepared(c, i).phase == Coarse
    ensures Prepared(c, i).segmentStarted == i.now && Prepared(c, i).origin == i.imu.yaw
    ensures Abs(Prepared(c, i).target - i.imu.yaw) == 90.0
    ensures Along(Prepared(c, i).target - i.imu.yaw, Prepared(c, i).expected) == 90.0
  {
  }

  // ----- fine pulses -----

  /** How many pulses ticks `s .. k - 1` started. */
  ghost function PulsesIn(ws: seq<World>, s: nat, k: nat): nat
    requires k < |ws|
    decreases k
  {
    if k <= s + 1 then 0 else PulsesIn(ws, s, k - 1) + if StartsPulse(ws[k - 1], ws[k]) then 1 else 0
  }

  /** A leg's timer, origin and pulse count are its history. */
  lemma {:induction false} LegIsHistory(ins: seq<Input>, ws: seq<World>, s: nat, k: nat)
    requires Run(ins, ws) && LegSince(ws, s, k)
    ensures ws[k].ctl.segmentStarted == ins[s].now && ws[k].ctl.origin == ins[s].imu.yaw
    ensures ws[k].ctl.fineAttempts == PulsesIn(ws, s, k)
    ensures PulsesIn(ws, s, k) == 0 ==> ws[k].ctl.finePwm == 180
  {
    hide Step, Sane, Turning;
    AlwaysSane(ins, ws, k - 1);
    assert Ticked(ins, ws, k - 1);
    if k == s + 1 {
      LegBegins(ws[s], ins[s], ws[k]);
    } else {
      LegIsHistory(ins, ws, s, k - 1);
      LegTick(ws[k - 1], ins[k - 1], ws[k]);
      if StartsPulse(ws[k - 1], ws[k]) {
        PulseTick(ws[k - 1], ins[k - 1], ws[k]);
      }
    }
  }

  /** What a tick that starts a pulse remembers of it, and how hard it drives. */
  ghost predicate Remembered(c: Control, target: real, yaw: real, force: int) {
    && c.target == target && c.fineAttempts > 0 && c.finePwm == force
    && c.fineDirection == (if target - yaw >= 0.0 then 1 else -1)
    && c.fineStartYaw == yaw && c.fineErrorBefore == Abs(target - yaw)
  }

  lemma PulseTick(w: World, i: Input, w': World)
    requires Sane(w.ctl) && w' == Step(w, i) && SameLeg(w, w') && StartsPulse(w, w')
    ensures w'.ctl.fineAttempts == w.ctl.fineAttempts + 1
    ensures w'.ctl.finePwm == NextFinePwm(w.ctl, i.imu.yaw)
    ensures Remembered(w'.ctl, w.ctl.target, i.imu.yaw, Force(w'))
  {
    AdaptedIsSane(w.ctl, i.imu.yaw);
    PreparedOnLeg(w.ctl, i);
    SameAdaptation(w.ctl, Prepared(w.ctl, i), i.imu.yaw);
    hide Prepared, TurnPwm, NextFinePwm, Along, Abs;
  }

  lemma AdaptedIsSane(c: Control, yaw: real)
    requires Sane(c)
    ensures FINE_PWM_MIN <= NextFinePwm(c, yaw) <= FINE_PWM_MAX
  {
  }

  lemma SameAdaptation(c: Control, p: Control, yaw: real)
    requires SameTurn(c, p)
    ensures NextFinePwm(p, yaw) == NextFinePwm(c, yaw)
  {
  }

  /** Until the next pulse starts, the leg remembers its last one. */
  lemma {:induction false} PulseIsRemembered(ins: seq<Input>, ws: seq<World>, s: nat, p: nat, k: nat)
    requires Run(ins, ws) && LegSince(ws, s, k) && s < p < k && StartsPulse(ws[p], ws[p + 1])
    requires forall j | p < j < k :: !StartsPulse(ws[j], ws[j + 1])
    ensures Remembered(ws[k].ctl, ws[k].ctl.target, ins[p].imu.yaw, Force(ws[p + 1]))
  {
    hide Step, Sane, Turning, StartsPulse, Remembered;
    AlwaysSane(ins, ws, k - 1);
    assert Ticked(ins, ws, k - 1);
    LegTick(ws[k - 1], ins[k - 1], ws[k]);
    if k == p + 1 {
      PulseTick(ws[p], ins[p], ws[k]);
    } else {
      PulseIsRemembered(ins, ws, s, p, k - 1);
      SameMemory(ws[k - 1].ctl, ws[k].ctl, ws[k].ctl.target, ins[p].imu.yaw, Force(ws[p + 1]));
    }
  }

  lemma SameMemory(c: Control, d: Control, target: real, yaw: real, force: int)
    requires SamePulse(c, d) && d.target == c.target == target && Remembered(c, target, yaw, force)
    ensures Remembered(d, target, yaw, force)
  {
  }

  /** How the next pulse follows from the last: it is stronger by 20, up to 260, if the car
      gained less than 0.05 degrees towards the target; otherwise weaker by 20, down to 140,
      if the error is no smaller than before; and otherwise the same. */
  ghost predicate Adapts(target: real, yawBefore: real, yawNow: real, before: int, now: int) {
    var error, errorNow := target - yawBefore, target - yawNow;
    var gained := if error >= 0.0 then yawNow - yawBefore else yawBefore - yawNow;
    if gained < 0.05 then now == if before + 20 <= 260 then before + 20 else 260
    else if Abs(errorNow) >= Abs(error) then now == if before - 20 >= 140 then before - 20 else 140
    else now == before
  }

  lemma AdaptationLaw(c: Control, target: real, yawBefore: real, yaw: real, before: int)
    requires Sane(c) && Remembered(c, target, yawBefore, before)
    ensures Adapts(target, yawBefore, yaw, before, NextFinePwm(c, yaw))
  {
  }

  /** Consecutive fine pulses of one leg, started in ticks `p` and `q`: the second one's duty
      follows from the first one's and from the two yaws read. */
  lemma PulsesAdapt(ins: seq<Input>, ws: seq<World>, s: nat, p: nat, q: nat)
    requires Run(ins, ws) && LegSince(ws, s, q + 1) && s < p < q
    requires StartsPulse(ws[p], ws[p + 1]) && StartsPulse(ws[q], ws[q + 1])
    requires forall j | p < j < q :: !StartsPulse(ws[j], ws[j + 1])
    ensures Adapts(ws[q + 1].ctl.target, ins[p].imu.yaw, ins[q].imu.yaw, Force(ws[p + 1]), Force(ws[q + 1]))
  {
    hide Step, Sane, Turning, StartsPulse, Force, Adapts;
    AlwaysSane(ins, ws, q);
    assert Ticked(ins, ws, q);
    PulseIsRemembered(ins, ws, s, p, q);
    LegTick(ws[q], ins[q], ws[q + 1]);
    PulseTick(ws[q], ins[q], ws[q + 1]);
    AdaptationLaw(ws[q].ctl, ws[q].ctl.target, ins[p].imu.yaw, ins[q].imu.yaw, Force(ws[p + 1]));
  }

  /** The first fine pulse of a leg drives with 180. */
  lemma FirstPulse(ins: seq<Input>, ws: seq<World>, s: nat, q: nat)
    requires Run(ins, ws) && LegSince(ws, s, q + 1) && s < q
    requires StartsPulse(ws[q], ws[q + 1]) && PulsesIn(ws, s, q) == 0
    ensures Force(ws[q + 1]) == 180
  {
    hide Step, Sane, Turning, StartsPulse, Force;
    AlwaysSane(ins, ws, q);
    assert Ticked(ins, ws, q);
    LegIsHistory(ins, ws, s, q);
    PulseTick(ws[q], ins[q], ws[q + 1]);
    Unadapted(ws[q].ctl, ins[q].imu.yaw);
  }

  lemma Unadapted(c: Control, yaw: real)
    requires c.fineAttempts == 0
    ensures NextFinePwm(c, yaw) == c.finePwm
  {
  }

  // ----- the phases of a leg -----

  /** The tick that would be the fifteenth in a row to settle. */
  ghost predicate LastToSettle(c: Control, i: Input) {
    c.settle == 14 && Since(i.now, c.phaseStarted) >= 120 && -1.0 <= i.imu.gz <= 1.0
  }

  /** The fine pulse has not yet reached the target. */
  ghost predicate ShortOfTarget(c: Control, yaw: real) {
    if c.fineDirection == 1 then c.target > yaw else c.fineDirection == -1 && c.target < yaw
  }

  /** How the phases of a leg in progress follow each other: coarse driving until at most three
      degrees are left, a pulse until 20 ms are over or the target is reached, and a new pulse
      from the brake exactly when the car has settled off the target. */
  lemma PhasesFollow(w: World, i: Input, w': World)
    requires Sane(w.ctl) && w' == Step(w, i) && SameLeg(w, w')
    ensures w'.ctl.phase ==
              match w.ctl.phase
              case Coarse => if ToGo(w.ctl, i.imu.yaw) <= 3.0 then Brake else Coarse
              case FinePulse =>
                if Since(i.now, w.ctl.phaseStarted) < 20 && ShortOfTarget(w.ctl, i.imu.yaw) then FinePulse else Brake
              case Brake =>
                if LastToSettle(w.ctl, i) && Abs(w.ctl.target - i.imu.yaw) > 0.2 then FinePulse else Brake
    ensures w'.ctl.phaseStarted == if w'.ctl.phase == w.ctl.phase then w.ctl.phaseStarted else i.now
  {
    var p := World(Prepared(w.ctl, i), w.motors);
    StepOnLeg(w, i, p);
    hide Step, Prepared;
    assert Sane(p.ctl);
    PhaseOfStep(p, i, w'.ctl);
  }

  lemma PhaseOfStep(p: World, i: Input, d: Control)
    requires Sane(p.ctl) && Turning(p.ctl.state) && d == TurnStep(p, i).ctl && d.state == p.ctl.state
    ensures d.phase ==
              match p.ctl.phase
              case Coarse => if ToGo(p.ctl, i.imu.yaw) <= 3.0 then Brake else Coarse
              case FinePulse =>
                if Since(i.now, p.ctl.phaseStarted) < 20 && ShortOfTarget(p.ctl, i.imu.yaw) then FinePulse else Brake
              case Brake =>
                if LastToSettle(p.ctl, i) && Abs(p.ctl.target - i.imu.yaw) > 0.2 then FinePulse else Brake
    ensures d.phaseStarted == if d.phase == p.ctl.phase then p.ctl.phaseStarted else i.now
  {
    hide TurnPwm, NextFinePwm;
  }

  /** The coarse duty for an error of so many degrees: 160 and 3 per degree below 20 degrees,
      220 up to 55, 4 per degree up to 75, and 300 beyond. */
  ghost predicate CoarseDuty(degrees: real, duty: int) {
    if degrees < 20.0 then duty as real <= 160.0 + 3.0 * degrees < (duty + 1) as real
    else if degrees < 55.0 then duty == 220
    else if degrees < 75.0 then duty as real <= 4.0 * degrees < (duty + 1) as real
    else duty == 300
  }

  lemma TurnPwmIsTheLaw(error: real)
    ensures CoarseDuty(Abs(error), TurnPwm(error)) && 0 < TurnPwm(error) <= 300
  {
  }

  /** The force of a driving pair of opposite duties, after the safety tick. */
  lemma ForceOfTurn(b: Bank, error: real, pwm: int, c: Control, now: Tick)
    requires 0 < pwm <= 300
    ensures Force(World(c, Safety(ApplyTurn(b, error, pwm, now), now))) == pwm
  {
  }

  ghost predicate LawfulForce(c: Control, w: World, i: Input) {
    && (w.ctl.phase == Coarse ==>
          CoarseDuty(Abs(c.target - i.imu.yaw), Force(World(c, Safety(w.motors, i.now)))))
    && (w.ctl.phase == FinePulse ==> Force(World(c, Safety(w.motors, i.now))) == w.ctl.finePwm)
    && w.ctl.target == c.target
  }

  lemma ForceOfStep(p: World, i: Input)
    requires Sane(p.ctl) && Turning(p.ctl.state) && Turning(TurnStep(p, i).ctl.state)
    ensures LawfulForce(p.ctl, TurnStep(p, i), i)
  {
    match p.ctl.phase {
      case Coarse => CoarseForce(p, i);
      case FinePulse => PulseForce(p, i);
      case Brake => BrakeForce(p, i);
    }
    hide CoarseStep, PulseStep, BrakeStep, LawfulForce, Sane, Along;
  }

  lemma CoarseForce(p: World, i: Input)
    requires p.ctl.phase == Coarse
    ensures LawfulForce(p.ctl, CoarseStep(p, i), i)
  {
    var error := p.ctl.target - i.imu.yaw;
    TurnPwmIsTheLaw(error);
    ForceOfTurn(p.motors, error, TurnPwm(error), p.ctl, i.now);
    hide TurnPwm, Abs, Along, CoarseDuty, Force, ApplyTurn;
  }

  lemma PulseForce(p: World, i: Input)
    requires Sane(p.ctl) && p.ctl.phase == FinePulse
    ensures LawfulForce(p.ctl, PulseStep(p, i), i)
  {
    ForceOfTurn(p.motors, p.ctl.fineDirection as real, p.ctl.finePwm, p.ctl, i.now);
    hide Abs, Along, CoarseDuty, Force, ApplyTurn;
  }

  lemma BrakeForce(p: World, i: Input)
    requires Sane(p.ctl) && p.ctl.phase == Brake && Turning(BrakeStep(p, i).ctl.state)
    ensures LawfulForce(p.ctl, BrakeStep(p, i), i)
  {
    AdaptedIsSane(p.ctl, i.imu.yaw);
    var q := World(p.ctl.(settle := 0), BrakePair(p.motors));
    var c := Pulsed(q.ctl, i);
    ForceOfTurn(q.motors, c.fineDirection as real, NextFinePwm(p.ctl, i.imu.yaw), p.ctl, i.now);
    SameAdaptationWhenSettled(p.ctl, i.imu.yaw);
    hide Abs, Along, CoarseDuty, Force, ApplyTurn, NextFinePwm;
  }

  lemma SameForce(c: Control, w: World)
    ensures Force(World(c, w.motors)) == Force(w)
  {
  }

  lemma SameAdaptationWhenSettled(c: Control, yaw: real)
    ensures NextFinePwm(c.(settle := 0), yaw) == NextFinePwm(c, yaw)
  {
  }

  /** How hard every tick of a leg drives: by the coarse law while coarse, and with the pulse's
      own strength during a pulse. */
  lemma ForceIsLawful(ins: seq<Input>, ws: seq<World>, k: nat)
    requires Run(ins, ws) && k < |ins| && Turning(ws[k + 1].ctl.state) && ws[k].ctl.state != SequencePause
    ensures ws[k + 1].ctl.phase == Coarse ==>
              CoarseDuty(Abs(ws[k + 1].ctl.target - ins[k].imu.yaw), Force(ws[k + 1]))
    ensures ws[k + 1].ctl.phase == FinePulse ==> Force(ws[k + 1]) == ws[k + 1].ctl.finePwm
  {
    AlwaysSane(ins, ws, k);
    assert Ticked(ins, ws, k);
    var p := World(Prepared(ws[k].ctl, ins[k]), ws[k].motors);
    PreparedState(ws[k].ctl, p.ctl, ins[k]);
    hide Prepared, TurnStep, Sane, CoarseDuty, Force;
    assert Turning(p.ctl.state);
    ForceOfStep(p, ins[k]);
    SameForce(p.ctl, ws[k + 1]);
  }

  // ----- why a turn faults -----

  /** The status of a fault in a healthy tick of a leg, 0 if there is none: the leg has taken
      more than 12 s, or has gained less than 2 degrees when it is 600 ms or more into its
      coarse drive, or has settled off the target with all its 20 pulses spent. */
  ghost function LegFault(c: Control, i: Input, age: nat, gained: real, pulses: nat): int {
    if age > 12000 then -2
    else if c.phase == Coarse && age >= 600 && gained < 2.0 then -3
    else if c.phase == Brake && LastToSettle(c, i) && Abs(c.target - i.imu.yaw) > 0.2 && pulses >= 20 then -6
    else 0
  }

  /** The status a tick gives to a fault, 0 if it finds none: the system's, the IMU's, a lost
      IMU while turning, or the leg's own. */
  ghost function FaultOf(c: Control, i: Input, leg: int): int {
    if i.systemFault then -5
    else if i.imu.status != 0 then i.imu.status
    else if i.imu.state == ImuFault then -1
    else if !Turning(c.state) then 0
    else if i.imu.state != Ready || !i.imu.ready then -4
    else leg
  }

  lemma TurnFault(p: World, i: Input)
    requires Sane(p.ctl) && Turning(p.ctl.state)
    ensures TurnStep(p, i).ctl.faultStatus ==
            LegFault(p.ctl, i, Since(i.now, p.ctl.segmentStarted), Gained(p.ctl.state, p.ctl.origin, i.imu.yaw),
                     p.ctl.fineAttempts)
  {
    hide TurnPwm, NextFinePwm;
  }

  lemma PreparedFault(c: Control, i: Input)
    requires Sane(c) && c.state != Fault
    ensures var p := Prepared(c, i);
            p.faultStatus == FaultOf(c, i, 0)
    ensures Prepared(c, i).faultStatus == 0 && Turning(c.state) ==>
              SameTurn(c, Prepared(c, i)) && i.imu.Usable() && !i.systemFault
  {
  }

  /** Every fault has its cause, and every cause its fault. */
  lemma WhyATickFaults(w: World, i: Input, w': World)
    requires Sane(w.ctl) && w.ctl.state != Fault && w' == Step(w, i)
    ensures w'.ctl.faultStatus ==
            FaultOf(w.ctl, i, LegFault(w.ctl, i, Since(i.now, w.ctl.segmentStarted),
                                       Gained(w.ctl.state, w.ctl.origin, i.imu.yaw), w.ctl.fineAttempts))
    ensures w'.ctl.state == Fault <==> w'.ctl.faultStatus != 0
  {
    var p := World(Prepared(w.ctl, i), w.motors);
    StepIsSane(w, i);
    PreparedFault(w.ctl, i);
    PreparedState(w.ctl, p.ctl, i);
    if Turning(p.ctl.state) {
      if Turning(w.ctl.state) {
        TurnFault(p, i);
        assert LegFault(w.ctl, i, 0, 0.0, 0) == LegFault(p.ctl, i, 0, 0.0, 0);
      } else {
        FreshLeg(w.ctl, i);
        FreshStep(p, i);
      }
    }
    hide Prepared, TurnStep, Abs;
  }

  /** In any run, a leg that began in tick `s` faults in tick `k` exactly for one of those
      causes, judged by the ticks and yaws of the trace and by the pulses the leg started. */
  lemma WhyALegFaults(ins: seq<Input>, ws: seq<World>, s: nat, k: nat)
    requires Run(ins, ws) && LegSince(ws, s, k) && k < |ins|
    ensures var gained := Gained(ws[k].ctl.state, ins[s].imu.yaw, ins[k].imu.yaw);
            var leg := LegFault(ws[k].ctl, ins[k], Since(ins[k].now, ins[s].now), gained, PulsesIn(ws, s, k));
            && ws[k + 1].ctl.faultStatus == FaultOf(ws[k].ctl, ins[k], leg)
            && (ws[k + 1].ctl.state == Fault <==> ws[k + 1].ctl.faultStatus != 0)
  {
    AlwaysSane(ins, ws, k);
    assert Ticked(ins, ws, k);
    LegIsHistory(ins, ws, s, k);
    hide Step, Sane, LegFault, FaultOf, Gained;
    WhyATickFaults(ws[k], ins[k], ws[k + 1]);
  }

  // ----- when a leg begins -----

  /** Exactly one button is down, this one; `NoButton` if none or several are. */
  ghost predicate Alone(i: Input, b: Button) {
    match b
    case CwButton => i.cwDown && !i.ccwDown && !i.sequenceDown
    case CcwButton => !i.cwDown && i.ccwDown && !i.sequenceDown
    case SequenceButton => !i.cwDown && !i.ccwDown && i.sequenceDown
    case NoButton => if i.cwDown then i.ccwDown || i.sequenceDown else i.ccwDown == i.sequenceDown
  }

  lemma ReadsTheLoneButton(i: Input, b: Button)
    ensures ReadButtons(i) == b <==> Alone(i, b)
  {
  }

  /** The state, target and direction that a button asks for. */
  ghost function LegOf(b: Button): State
    requires b != NoButton
  {
    match b
    case CwButton => Cw
    case CcwButton => Ccw
    case SequenceButton => SequenceCw
  }

  lemma LaunchTick(w: World, i: Input, w': World)
    requires Sane(w.ctl) && !Busy(w.ctl.state) && w' == Step(w, i)
    ensures Turning(w'.ctl.state) <==>
              w.ctl.state != Fault && !i.systemFault && i.imu.Usable() && Pressed(w.ctl, i) != NoButton
    ensures Turning(w'.ctl.state) ==>
              Pressed(w.ctl, i) != NoButton && w'.ctl.state == LegOf(Pressed(w.ctl, i)) &&
              w'.ctl.target == if w'.ctl.state == Ccw then i.imu.yaw + 90.0 else i.imu.yaw - 90.0
  {
    var p := World(Prepared(w.ctl, i), w.motors);
    PreparedState(w.ctl, p.ctl, i);
    PreparedLaunch(w.ctl, i);
    if Turning(p.ctl.state) && !Turning(w.ctl.state) {
      FreshLeg(w.ctl, i);
      FreshStep(p, i);
    }
    hide Prepared, TurnStep, Pressed, Sane, Abs, Along;
  }

  lemma PreparedLaunch(c: Control, i: Input)
    requires Sane(c) && !Busy(c.state)
    ensures Turning(Prepared(c, i).state) <==>
              c.state != Fault && !i.systemFault && i.imu.Usable() && Pressed(c, i) != NoButton
  {
  }

  /** While no turn is in progress a tick begins one exactly when the controller has not
      faulted, the system and the IMU are well, and the turn's button alone has now been down
      for three ticks and was not the last one so held. */
  lemma LegsBeginOnFreshPresses(ins: seq<Input>, ws: seq<World>, k: nat, b: Button)
    requires Run(ins, ws) && k < |ins| && b != NoButton && !Busy(ws[k].ctl.state)
    ensures ws[k + 1].ctl.state == LegOf(b) <==>
              ws[k].ctl.state != Fault && !ins[k].systemFault && ins[k].imu.Usable() &&
              k >= 2 && Alone(ins[k - 2], b) && Alone(ins[k - 1], b) && Alone(ins[k], b) && LastHeld(ins, k) != b
    ensures ws[k + 1].ctl.state == LegOf(b) ==>
              ws[k + 1].ctl.target == if b == CcwButton then ins[k].imu.yaw + 90.0 else ins[k].imu.yaw - 90.0
  {
    AlwaysSane(ins, ws, k);
    assert Ticked(ins, ws, k);
    LaunchTick(ws[k], ins[k], ws[k + 1]);
    PressIsAFreshHold(ins, ws, k, b);
    HeldAlone(ins, k, b);
    hide Step, Sane, Pressed, Alone, ReadButtons;
  }

  lemma HeldAlone(ins: seq<Input>, k: nat, b: Button)
    requires k < |ins|
    ensures Held(ins, k + 1, b) <==> k >= 2 && Alone(ins[k - 2], b) && Alone(ins[k - 1], b) && Alone(ins[k], b)
  {
    forall j | 0 <= j <= k
      ensures ReadButtons(ins[j]) == b <==> Alone(ins[j], b)
    {
      ReadsTheLoneButton(ins[j], b);
    }
    hide ReadButtons, Alone;
  }
}
