/** What the yaw calibration guarantees: the algebra of a completed calibration, and
    its scale and phases over every sequence of updates, starts and cancels. */
module YawCalibrationHistory {
  import opened AttitudeFilter
  import opened YawCalibration

  // ----- the algebra -----

  /** Two lap measurements, one in each direction. */
  ghost predicate Measured(p: real, n: real) {
    p >= CAPTURE_MIN_DEG && n <= -CAPTURE_MIN_DEG
  }

  function DirectionScale(span: real): real
    requires span > 0.0
  {
    FOUR_LAP_DEG / span
  }

  ghost predicate Between(v: real, a: real, b: real) {
    a <= v <= b || b <= v <= a
  }

  lemma DirectionScaleIsPositive(span: real)
    requires span > 0.0
    ensures DirectionScale(span) > 0.0 && 1.0 / DirectionScale(span) == span / FOUR_LAP_DEG
  {
    var d := DirectionScale(span);
    assert d * span == FOUR_LAP_DEG;
    assert d * (span / FOUR_LAP_DEG) == 1.0;
  }

  lemma MeanSpanScale(p: real, q: real)
    requires 0.0 < p <= q
    ensures DirectionScale(q) <= (2.0 * FOUR_LAP_DEG) / (p + q) <= DirectionScale(p)
  {
  }

  /** The result is the harmonic mean of the two direction scales: it lies between
      them, and makes the mean of the measured laps read exactly four turns. */
  lemma ResultIsTheHarmonicMean(p: real, n: real)
    requires Measured(p, n)
    ensures DirectionScale(p) > 0.0 && DirectionScale(-n) > 0.0
    ensures (2.0 * FOUR_LAP_DEG) / (p - n) == 2.0 / (1.0 / DirectionScale(p) + 1.0 / DirectionScale(-n))
    ensures Between((2.0 * FOUR_LAP_DEG) / (p - n), DirectionScale(p), DirectionScale(-n))
    ensures (2.0 * FOUR_LAP_DEG) / (p - n) * ((p - n) / 2.0) == FOUR_LAP_DEG
  {
    DirectionScaleIsPositive(p);
    DirectionScaleIsPositive(-n);
    var r, span := (2.0 * FOUR_LAP_DEG) / (p - n), p - n;
    assert r * span == 2.0 * FOUR_LAP_DEG;
    assert r * (span / FOUR_LAP_DEG) == 2.0;
    if p <= -n {
      MeanSpanScale(p, -n);
    } else {
      MeanSpanScale(-n, p);
    }
  }

  /** Capturing the second lap completes the calibration exactly when both laps were
      measured at most 1440/0.85 degrees long and their scales agree within 2 %. The
      other checks never fail: the lower bound on the laps already keeps the scales
      below 1.15, and the last check on the result is implied by the first two. */
  lemma CompletionCondition(c: Calibration, s: Seen)
    requires Consistent(c) && c.state == NegativeActive && s.yaw - c.origin <= -CAPTURE_MIN_DEG
    ensures var d := CapturedNegative(c, s);
            && (d.state == Complete || d.state == Failed)
            && (d.state == Complete <==> LapsAgree(c.positiveMeasured, s.yaw - c.origin))
            && (d.state == Complete ==>
                d.scale == d.result == (2.0 * FOUR_LAP_DEG) / (c.positiveMeasured - (s.yaw - c.origin)))
            && (d.state == Failed ==> d.scale == d.result == c.previous)
  {
    var p, n := c.positiveMeasured, s.yaw - c.origin;
    ResultIsTheHarmonicMean(p, n);
    ScaleRange(p);
    ScaleRange(-n);
    assert DirectionScale(-n) == -FOUR_LAP_DEG / n;
    hide DirectionScale, Between;
  }

  /** The caller's view of the condition: neither lap was over-counted by more than
      the scale limit, and the direction scales differ by at most 2 % of their mean. */
  ghost predicate LapsAgree(p: real, n: real)
    requires Measured(p, n)
  {
    && p <= FOUR_LAP_DEG / SCALE_MIN && -n <= FOUR_LAP_DEG / SCALE_MIN
    && DirectionScale(p) + DirectionScale(-n) > 0.0
    && 2.0 * Abs(DirectionScale(p) - DirectionScale(-n)) / (DirectionScale(p) + DirectionScale(-n))
       <= DIRECTION_MISMATCH_MAX
  }

  lemma ScaleRange(span: real)
    requires span >= CAPTURE_MIN_DEG
    ensures ScaleIsValid(DirectionScale(span)) <==> span <= FOUR_LAP_DEG / SCALE_MIN
    ensures 0.0 < DirectionScale(span) < SCALE_MAX
  {
  }

  // ----- runs -----

  datatype Event = Update(seen: Seen) | StartServed | CancelServed

  function Next(c: Calibration, e: Event): Calibration {
    match e
    case Update(s) => Updated(c, s)
    case StartServed => Started(c)
    case CancelServed => Cancelled(c)
  }

  /** `cs[k]` is the calibration before event `k`; it starts idle with some scale. */
  ghost predicate Run(es: seq<Event>, cs: seq<Calibration>) {
    && |cs| == |es| + 1
    && cs[0] == Cleared(cs[0].scale) && cs[0].scale > 0.0
    && forall k | 0 <= k < |es| :: Happens(es, cs, k)
  }

  ghost predicate Happens(es: seq<Event>, cs: seq<Calibration>, k: nat)
    requires k < |es| && |cs| == |es| + 1
  {
    cs[k + 1] == Next(cs[k], es[k])
  }

  lemma CompletedIsConsistent(c: Calibration, s: Seen)
    requires Consistent(c) && c.state == NegativeActive && s.yaw - c.origin <= -CAPTURE_MIN_DEG
    ensures Consistent(CapturedNegative(Counted(c, true), s))
  {
    hide DirectionScale;
    ResultIsTheHarmonicMean(c.positiveMeasured, s.yaw - c.origin);
  }

  lemma CapturedPositiveIsConsistent(c: Calibration, s: Seen)
    requires Consistent(c) && c.state == PositiveActive && s.yaw - c.origin >= CAPTURE_MIN_DEG
    ensures Consistent(CapturedPositive(Counted(c, true), s))
  {
  }

  lemma NextIsConsistent(c: Calibration, e: Event)
    requires Consistent(c)
    ensures Consistent(Next(c, e))
  {
    hide CapturedPositive, CapturedNegative;
    if e.Update? && Settles(c, e.seen) {
      if c.state == NegativeActive {
        CompletedIsConsistent(c, e.seen);
      } else if c.state == PositiveActive {
        CapturedPositiveIsConsistent(c, e.seen);
      }
    }
  }

  /** Over every sequence of events: the gyro runs unscaled while a calibration is
      active, on the result once it is complete, and on the recorded previous scale
      after a failure. */
  lemma {:induction false} AlwaysConsistent(es: seq<Event>, cs: seq<Calibration>, k: nat)
    requires Run(es, cs) && k <= |es|
    ensures Consistent(cs[k])
  {
    hide Next, Consistent;
    if k == 0 {
      IdleIsConsistent(cs[0]);
    } else {
      AlwaysConsistent(es, cs, k - 1);
      assert Happens(es, cs, k - 1);
      NextIsConsistent(cs[k - 1], es[k - 1]);
    }
  }

  lemma IdleIsConsistent(c: Calibration)
    requires c == Cleared(c.scale) && c.scale > 0.0
    ensures Consistent(c)
  {
  }

  // ----- the scale that is restored -----

  /** The scale in force just before the latest start, if there was one. */
  ghost function BeforeLatestStart(es: seq<Event>, cs: seq<Calibration>, k: nat): real
    requires |cs| == |es| + 1 && k <= |es|
  {
    if k == 0 then cs[0].scale
    else if es[k - 1].StartServed? then cs[k - 1].scale
    else BeforeLatestStart(es, cs, k - 1)
  }

  /** The scale the user last ran with, outside any calibration. */
  ghost function LastUserScale(es: seq<Event>, cs: seq<Calibration>, k: nat): real
    requires |cs| == |es| + 1 && k <= |es|
  {
    if k == 0 || !Active(cs[k].state) then cs[k].scale else LastUserScale(es, cs, k - 1)
  }

  /** The latest start came while a calibration was already active. */
  ghost predicate Restarted(es: seq<Event>, cs: seq<Calibration>, k: nat)
    requires |cs| == |es| + 1 && k <= |es|
  {
    k > 0 && if es[k - 1].StartServed? then Active(cs[k - 1].state) else Restarted(es, cs, k - 1)
  }

  lemma NextPrevious(c: Calibration, e: Event)
    requires Consistent(c)
    ensures e.StartServed? ==> Next(c, e).previous == c.scale && Next(c, e).state == WaitStill
    ensures e.Update? ==> Next(c, e).previous == c.previous && (Active(Next(c, e).state) ==> Active(c.state))
    ensures e.Update? ==> (Next(c, e).state == Idle <==> c.state == Idle)
    ensures e.Update? && !Active(c.state) ==> Next(c, e) == c
    ensures e.CancelServed? ==>
              Next(c, e) == Cleared(if Active(c.state) || c.state == Failed then c.previous else c.scale)
  {
    hide DirectionsAgree;
  }

  /** A calibration that is active or over remembers the scale from just before the
      latest start, and returns to exactly that scale when it fails or is cancelled. */
  lemma {:induction false} PreviousIsBeforeLatestStart(es: seq<Event>, cs: seq<Calibration>, k: nat)
    requires Run(es, cs) && k <= |es|
    ensures cs[k].state != Idle ==> cs[k].previous == BeforeLatestStart(es, cs, k)
    ensures cs[k].state == Failed ==> cs[k].scale == BeforeLatestStart(es, cs, k)
    ensures k < |es| && es[k].CancelServed? && (Active(cs[k].state) || cs[k].state == Failed) ==>
              cs[k + 1].scale == BeforeLatestStart(es, cs, k)
  {
    hide Next;
    AlwaysConsistent(es, cs, k);
    if k > 0 {
      PreviousIsBeforeLatestStart(es, cs, k - 1);
      AlwaysConsistent(es, cs, k - 1);
      assert Happens(es, cs, k - 1);
      NextPrevious(cs[k - 1], es[k - 1]);
    }
    if k < |es| {
      assert Happens(es, cs, k);
      NextPrevious(cs[k], es[k]);
    }
  }

  /** During a calibration the remembered scale is the user's own exactly when the
      calibration was not restarted midway, or that scale was 1.0 anyway: a start
      during an active calibration records the unscaled 1.0 instead. */
  lemma {:induction false} RestartForgetsTheUserScale(es: seq<Event>, cs: seq<Calibration>, k: nat)
    requires Run(es, cs) && k <= |es| && Active(cs[k].state)
    ensures cs[k].previous == if Restarted(es, cs, k) then 1.0 else LastUserScale(es, cs, k)
    ensures cs[k].previous == LastUserScale(es, cs, k) <==>
              !Restarted(es, cs, k) || LastUserScale(es, cs, k) == 1.0
  {
    hide Next;
    assert k > 0;
    AlwaysConsistent(es, cs, k - 1);
    assert Happens(es, cs, k - 1);
    NextPrevious(cs[k - 1], es[k - 1]);
    if Active(cs[k - 1].state) {
      RestartForgetsTheUserScale(es, cs, k - 1);
    }
  }

  /** A run in which two starts and a cancel replace the user's scale by 1.0. */
  lemma RestartedCalibrationLosesTheScale() returns (es: seq<Event>, cs: seq<Calibration>)
    ensures Run(es, cs) && |es| == 3 && cs[0].scale == 0.994821
    ensures es[2].CancelServed? && cs[3].state == Idle && cs[3].scale == 1.0
  {
    es := [StartServed, StartServed, CancelServed];
    var c0 := Cleared(0.994821);
    var c1 := Next(c0, es[0]);
    var c2 := Next(c1, es[1]);
    cs := [c0, c1, c2, Next(c2, es[2])];
    assert Happens(es, cs, 0) && Happens(es, cs, 1) && Happens(es, cs, 2);
  }

  // ----- the five phases, in order -----

  ghost function Before(s: CalState): CalState
    requires Active(s)
  {
    match s
    case WaitPositive => WaitStill
    case PositiveActive => WaitPositive
    case WaitNegative => PositiveActive
    case NegativeActive => WaitNegative
    case _ => WaitStill
  }

  lemma NextPhase(c: Calibration, e: Event)
    requires Active(Next(c, e).state)
    ensures e.StartServed? || e.Update?
    ensures Next(c, e).state == WaitStill ==> e.StartServed? || c.state == WaitStill
    ensures Next(c, e).state != WaitStill ==>
              e.Update? && (c.state == Next(c, e).state || c.state == Before(Next(c, e).state))
  {
    hide DirectionsAgree;
  }

  /** Event `e` brought the calibration into its phase, where updates have kept it
      until before event `k`. */
  ghost predicate PhaseSince(es: seq<Event>, cs: seq<Calibration>, e: nat, k: nat)
    requires |cs| == |es| + 1 && e < k <= |es| && Active(cs[k].state)
  {
    && (forall j | e < j <= k :: cs[j].state == cs[k].state)
    && (forall j | e < j < k :: es[j].Update?)
    && (if cs[k].state == WaitStill then es[e].StartServed?
        else es[e].Update? && cs[e].state == Before(cs[k].state))
  }

  lemma {:induction false} PhaseStart(es: seq<Event>, cs: seq<Calibration>, k: nat) returns (e: nat)
    requires Run(es, cs) && k <= |es| && Active(cs[k].state)
    ensures e < k && PhaseSince(es, cs, e, k)
  {
    hide Next;
    assert k > 0;
    assert Happens(es, cs, k - 1);
    NextPhase(cs[k - 1], es[k - 1]);
    if es[k - 1].StartServed? || cs[k - 1].state != cs[k].state {
      e := k - 1;
    } else {
      e := PhaseStart(es, cs, k - 1);
    }
  }

  /** Event `j` is an update that settled the phase: the car rests, and in the two laps the yaw
      has gone at least 1296 degrees the right way since the lap's origin. */
  ghost predicate SettledAt(es: seq<Event>, cs: seq<Calibration>, j: nat, phase: CalState)
    requires |cs| == |es| + 1 && j < |es|
  {
    && es[j].Update? && cs[j].state == phase && es[j].seen.stationary
    && match phase
       case WaitStill => true
       case PositiveActive => es[j].seen.yaw - cs[j].origin >= 1296.0
       case NegativeActive => cs[j].origin - es[j].seen.yaw >= 1296.0
       case _ => false
  }

  lemma SettledMeansSettles(es: seq<Event>, cs: seq<Calibration>, j: nat, phase: CalState)
    requires |cs| == |es| + 1 && j < |es|
    ensures SettledAt(es, cs, j, phase) <==>
              es[j].Update? && cs[j].state == phase && Settles(cs[j], es[j].seen)
  {
  }

  lemma NextSettle(c: Calibration, e: Event)
    requires Consistent(c) && Active(Next(c, e).state) && Next(c, e).settle > 0
    ensures e.Update? && Next(c, e).state == c.state && Settles(c, e.seen) && Next(c, e).settle == c.settle + 1
  {
    hide DirectionsAgree;
  }

  lemma NextSettleIsZero(c: Calibration, e: Event)
    requires Consistent(c) && Active(Next(c, e).state) && Next(c, e).settle == 0
    ensures !(e.Update? && Next(c, e).state == c.state && Settles(c, e.seen))
  {
    hide DirectionsAgree;
  }

  /** The settle counter is the number of consecutive settling updates of the phase: that
      many in a row settled, and the event before them did not. */
  lemma {:induction false} SettleIsHistory(es: seq<Event>, cs: seq<Calibration>, k: nat)
    requires Run(es, cs) && k <= |es| && Active(cs[k].state)
    ensures cs[k].settle < k
    ensures forall j | k - cs[k].settle <= j < k :: SettledAt(es, cs, j, cs[k].state)
    ensures !SettledAt(es, cs, k - cs[k].settle - 1, cs[k].state)
  {
    hide Next, Settles;
    assert k > 0;
    AlwaysConsistent(es, cs, k - 1);
    assert Happens(es, cs, k - 1);
    SettledMeansSettles(es, cs, k - 1, cs[k].state);
    hide SettledAt;
    if cs[k].settle > 0 {
      NextSettle(cs[k - 1], es[k - 1]);
      SettleIsHistory(es, cs, k - 1);
    } else {
      NextSettleIsZero(cs[k - 1], es[k - 1]);
    }
  }

  /** The phases that end in a capture. */
  ghost predicate Capturing(s: CalState) {
    s == WaitStill || s == PositiveActive || s == NegativeActive
  }

  lemma NextMilestone(c: Calibration, e: Event)
    requires Consistent(c) && e.Update? && Capturing(c.state)
    ensures Next(c, e).state != c.state <==> Settles(c, e.seen) && c.settle == SETTLE_UPDATES - 1
  {
    hide DirectionsAgree, ScaleIsValid;
  }

  /** The forty events up to `k` all settled the phase. */
  ghost predicate FortySettled(es: seq<Event>, cs: seq<Calibration>, k: nat)
    requires |cs| == |es| + 1 && k < |es|
  {
    k + 1 >= SETTLE_UPDATES && forall j | k + 1 - SETTLE_UPDATES <= j <= k :: SettledAt(es, cs, j, cs[k].state)
  }

  /** The phases that end in a capture end exactly with the fortieth settling update in a
      row. */
  lemma MilestoneIsSettled(es: seq<Event>, cs: seq<Calibration>, k: nat)
    requires Run(es, cs) && k < |es| && es[k].Update? && Capturing(cs[k].state)
    ensures cs[k + 1].state != cs[k].state <==> FortySettled(es, cs, k)
  {
    hide Next, Settles, SettledAt;
    AlwaysConsistent(es, cs, k);
    assert Happens(es, cs, k);
    SettledMeansSettles(es, cs, k, cs[k].state);
    NextMilestone(cs[k], es[k]);
    SettleIsHistory(es, cs, k);
  }

  /** The two waits for motion end exactly when the gyro shows 5 degrees per second in the
      lap's direction. */
  lemma MotionIsSeen(es: seq<Event>, cs: seq<Calibration>, k: nat)
    requires Run(es, cs) && k < |es| && es[k].Update?
    ensures cs[k].state == WaitPositive ==>
              cs[k + 1].state == if es[k].seen.gz >= 5.0 then PositiveActive else WaitPositive
    ensures cs[k].state == WaitNegative ==>
              cs[k + 1].state == if es[k].seen.gz <= -5.0 then NegativeActive else WaitNegative
  {
    assert Happens(es, cs, k);
  }

  /** The attitude is levelled exactly when the car has stood still before the first lap, when
      the second lap is captured, and when the first lap turns out too long. */
  lemma LevellingIsAtMilestones(es: seq<Event>, cs: seq<Calibration>, k: nat)
    requires Run(es, cs) && k < |es| && es[k].Update?
    ensures Levels(cs[k], es[k].seen) <==>
              Capturing(cs[k].state) && FortySettled(es, cs, k) &&
              (cs[k].state == PositiveActive ==> es[k].seen.yaw - cs[k].origin > FOUR_LAP_DEG / SCALE_MIN)
  {
    assert Happens(es, cs, k);
    AlwaysConsistent(es, cs, k);
    if Capturing(cs[k].state) {
      MilestoneIsSettled(es, cs, k);
      SettledMeansSettles(es, cs, k, cs[k].state);
      if Settles(cs[k], es[k].seen) && cs[k].state == PositiveActive {
        ScaleRange(es[k].seen.yaw - cs[k].origin);
      }
    }
    WhereUpdatesLead(cs[k], es[k].seen);
    hide Next, FortySettled, SettledAt, Consistent, DirectionScale, ScaleIsValid;
  }

  lemma WhereUpdatesLead(c: Calibration, s: Seen)
    requires Consistent(c)
    ensures var d := Updated(c, s);
            && (d.state == c.state || c.state != WaitStill || d.state == WaitPositive)
            && (d.state == c.state || c.state != NegativeActive || d.state == Complete || d.state == Failed)
            && (d.state == c.state || c.state != PositiveActive ||
                (s.yaw - c.origin >= CAPTURE_MIN_DEG &&
                 d.state == if ScaleIsValid(DirectionScale(s.yaw - c.origin)) then WaitNegative else Failed))
            && (d.state != c.state && !Capturing(c.state) ==> d.state == PositiveActive || d.state == NegativeActive)
  {
    hide DirectionsAgree, ScaleIsValid;
  }

  /** A calibration is complete only if, after its start and with nothing but updates
      since, it went through all five phases in order; the indices name the events
      that ended each phase. */
  lemma CompletionWentThroughAllPhases(es: seq<Event>, cs: seq<Calibration>, k: nat)
    returns (start: nat, still: nat, moving: nat, lap: nat, turning: nat)
    requires Run(es, cs) && k < |es| && cs[k].state != Complete && cs[k + 1].state == Complete
    ensures start < still < moving < lap < turning < k
    ensures es[start].StartServed? && forall j | start < j <= k :: es[j].Update?
    ensures cs[still].state == WaitStill && PhaseSince(es, cs, start, still)
    ensures cs[moving].state == WaitPositive && PhaseSince(es, cs, still, moving)
    ensures cs[lap].state == PositiveActive && PhaseSince(es, cs, moving, lap)
    ensures cs[turning].state == WaitNegative && PhaseSince(es, cs, lap, turning)
    ensures cs[k].state == NegativeActive && PhaseSince(es, cs, turning, k)
    ensures es[still].Update? && es[lap].Update? && es[k].Update?
    ensures var there, back := es[lap].seen.yaw, es[lap].seen.yaw - es[k].seen.yaw;
            && FortySettled(es, cs, lap) && FortySettled(es, cs, k)
            && there >= 1296.0 && back >= 1296.0
            && cs[k + 1].scale == cs[k + 1].result == 2880.0 / (there + back)
  {
    assert Happens(es, cs, k);
    OnlyTheLastPhaseCompletes(cs[k], es[k]);
    hide Next;
    turning := PhaseStart(es, cs, k);
    lap := PhaseStart(es, cs, turning);
    moving := PhaseStart(es, cs, lap);
    still := PhaseStart(es, cs, moving);
    start := PhaseStart(es, cs, still);
    MeasuresAreYaws(es, cs, still, moving, lap, turning, k);
  }

  lemma PhaseKeepsMeasures(c: Calibration, e: Event)
    requires e.Update? && Active(c.state)
    ensures Next(c, e).state == c.state ==>
              Next(c, e).origin == c.origin && Next(c, e).positiveMeasured == c.positiveMeasured
    ensures c.state == WaitStill && Next(c, e).state == WaitPositive ==> Next(c, e).origin == 0.0
    ensures c.state == WaitPositive || c.state == WaitNegative ==>
              Next(c, e).origin == c.origin && Next(c, e).positiveMeasured == c.positiveMeasured
    ensures c.state == PositiveActive && Next(c, e).state == WaitNegative ==>
              Next(c, e).origin == e.seen.yaw && Next(c, e).positiveMeasured == e.seen.yaw - c.origin
  {
    hide DirectionsAgree, ScaleIsValid;
  }

  lemma {:induction false} MeasuresKept(es: seq<Event>, cs: seq<Calibration>, e: nat, k: nat)
    requires Run(es, cs) && e < k <= |es| && Active(cs[k].state) && PhaseSince(es, cs, e, k)
    ensures cs[k].origin == cs[e + 1].origin && cs[k].positiveMeasured == cs[e + 1].positiveMeasured
  {
    hide Next;
    if e + 1 < k {
      MeasuresKept(es, cs, e, k - 1);
      assert Happens(es, cs, k - 1);
      PhaseKeepsMeasures(cs[k - 1], es[k - 1]);
    }
  }

  /** The lap measurements are differences of the yaws seen at the captures. */
  lemma MeasuresAreYaws(
      es: seq<Event>, cs: seq<Calibration>, still: nat, moving: nat, lap: nat, turning: nat, k: nat)
    requires Run(es, cs) && still < moving < lap < turning < k < |es|
    requires cs[still].state == WaitStill && cs[moving].state == WaitPositive && PhaseSince(es, cs, still, moving)
    requires cs[lap].state == PositiveActive && PhaseSince(es, cs, moving, lap)
    requires cs[turning].state == WaitNegative && PhaseSince(es, cs, lap, turning)
    requires cs[k].state == NegativeActive && PhaseSince(es, cs, turning, k)
    requires es[k].Update? && cs[k + 1].state == Complete
    ensures FortySettled(es, cs, lap) && FortySettled(es, cs, k)
    ensures es[lap].seen.yaw >= 1296.0 && es[lap].seen.yaw - es[k].seen.yaw >= 1296.0
    ensures cs[k + 1].scale == cs[k + 1].result == 2880.0 / (es[lap].seen.yaw + (es[lap].seen.yaw - es[k].seen.yaw))
  {
    assert Happens(es, cs, still) && Happens(es, cs, moving) && Happens(es, cs, lap) && Happens(es, cs, turning);
    assert Happens(es, cs, k);
    MeasuresKept(es, cs, still, moving);
    MeasuresKept(es, cs, moving, lap);
    MeasuresKept(es, cs, lap, turning);
    MeasuresKept(es, cs, turning, k);
    PhaseKeepsMeasures(cs[still], es[still]);
    PhaseKeepsMeasures(cs[moving], es[moving]);
    PhaseKeepsMeasures(cs[lap], es[lap]);
    PhaseKeepsMeasures(cs[turning], es[turning]);
    MilestoneIsSettled(es, cs, lap);
    MilestoneIsSettled(es, cs, k);
    AlwaysConsistent(es, cs, k);
    CompletedResult(cs[k], es[k].seen);
    assert SettledAt(es, cs, lap, PositiveActive) && SettledAt(es, cs, k, NegativeActive);
    hide Next, Consistent, PhaseSince, FortySettled, DirectionScale;
  }

  lemma CompletedResult(c: Calibration, s: Seen)
    requires Consistent(c) && c.state == NegativeActive && Updated(c, s).state == Complete
    ensures Updated(c, s).scale == Updated(c, s).result == 2880.0 / (c.positiveMeasured - (s.yaw - c.origin))
  {
    hide DirectionsAgree;
  }

  lemma OnlyTheLastPhaseCompletes(c: Calibration, e: Event)
    requires c.state != Complete && Next(c, e).state == Complete
    ensures e.Update? && c.state == NegativeActive
  {
    hide DirectionsAgree;
  }
}
