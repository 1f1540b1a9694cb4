/** A whole yaw-scale calibration, from its start to its completion. */
module CalibrationTraces {
  import opened YawCalibration
  import opened YawCalibrationHistory

  const STILL := 41
  const FIRST_LAP := 82
  const SECOND_LAP := 123

  const USER_SCALE := 0.98

  /** The user starts; the car stands still, turns four laps that the gyro measures as 1450
      degrees, rests, turns back by 1444 degrees, and rests again. */
  function EventAt(k: nat): Event {
    if k == 0 then StartServed
    else if k < STILL then Update(Seen(0.0, 0.0, true))
    else if k == STILL then Update(Seen(3.0, 60.0, false))
    else if k < FIRST_LAP then Update(Seen(1450.0, 0.0, true))
    else if k == FIRST_LAP then Update(Seen(1445.0, -60.0, false))
    else Update(Seen(6.0, 0.0, true))
  }

  /** The record before event `k`. */
  function Expected(k: nat): Calibration {
    var started := Cleared(1.0).(result := 1.0, previous := USER_SCALE);
    var lapped := started.(positiveMeasured := 1450.0, positiveScale := FOUR_LAP_DEG / 1450.0, origin := 1450.0);
    if k == 0 then Cleared(USER_SCALE)
    else if k < STILL then started.(state := WaitStill, settle := k - 1)
    else if k == STILL then started.(state := WaitPositive)
    else if k < FIRST_LAP then started.(state := PositiveActive, settle := k - STILL - 1)
    else if k == FIRST_LAP then lapped.(state := WaitNegative)
    else if k < SECOND_LAP then lapped.(state := NegativeActive, settle := k - FIRST_LAP - 1)
    else lapped.(state := Complete, settle := SETTLE_UPDATES, origin := 0.0, negativeMeasured := -1444.0,
                 negativeScale := -FOUR_LAP_DEG / -1444.0, result := 2880.0 / 2894.0, scale := 2880.0 / 2894.0)
  }

  lemma StepIsExpected(k: nat)
    requires k < SECOND_LAP
    ensures Next(Expected(k), EventAt(k)) == Expected(k + 1)
  {
    if k == FIRST_LAP - 1 {
      LapIsValid();
    } else if k == SECOND_LAP - 1 {
      LapsAreValid();
    }
    hide CapturedPositive, CapturedNegative;
  }

  lemma LapIsValid()
    ensures CapturedPositive(Expected(FIRST_LAP - 1).(settle := SETTLE_UPDATES), Seen(1450.0, 0.0, true))
         == Expected(FIRST_LAP)
  {
  }

  lemma LapsAreValid()
    ensures CapturedNegative(Expected(SECOND_LAP - 1).(settle := SETTLE_UPDATES), Seen(6.0, 0.0, true))
         == Expected(SECOND_LAP)
  {
  }

  /** A run that completes: four laps each way measured as 1450 and 1444 degrees make the
      scale 2880/2894. */
  lemma CalibrationCompletes() returns (es: seq<Event>, cs: seq<Calibration>)
    ensures Run(es, cs) && |es| == SECOND_LAP && cs[0].scale == USER_SCALE
    ensures cs[FIRST_LAP].state == WaitNegative && cs[FIRST_LAP].positiveMeasured == 1450.0
    ensures cs[SECOND_LAP].state == Complete && cs[SECOND_LAP].scale == 2880.0 / 2894.0
  {
    hide Next, Expected;
    es := seq(SECOND_LAP, k requires 0 <= k < SECOND_LAP => EventAt(k));
    cs := seq(SECOND_LAP + 1, k requires 0 <= k <= SECOND_LAP => Expected(k));
    forall k | 0 <= k < |es|
      ensures Happens(es, cs, k)
    {
      StepIsExpected(k);
    }
    EndsAreExpected();
  }

  lemma EndsAreExpected()
    ensures Expected(0) == Cleared(USER_SCALE)
    ensures Expected(FIRST_LAP).state == WaitNegative && Expected(FIRST_LAP).positiveMeasured == 1450.0
    ensures Expected(SECOND_LAP).state == Complete && Expected(SECOND_LAP).scale == 2880.0 / 2894.0
  {
  }
}
