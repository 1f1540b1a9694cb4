/** The yaw-scale calibration of the IMU service: four laps each way, and a scale that
    makes the measured laps read four turns. */
module YawCalibration {
  import opened Quaternions
  import opened AttitudeFilter
  import opened ImuDevice

  const FOUR_LAP_DEG := 1440.0
  const MOTION_START_DPS := 5.0
  const CAPTURE_MIN_DEG := 1440.0 * 0.90
  const SETTLE_UPDATES := 40
  const SCALE_MIN := 0.85
  const SCALE_MAX := 1.15
  const DIRECTION_MISMATCH_MAX := 0.02

  datatype CalState =
    | Idle | WaitStill | WaitPositive | PositiveActive | WaitNegative | NegativeActive | Complete | Failed

  /** The calibration record, with the z scale the gyro is using. */
  datatype Calibration = Calibration(
    state: CalState, settle: nat, origin: real,
    positiveMeasured: real, negativeMeasured: real,
    positiveScale: real, negativeScale: real,
    result: real, previous: real, scale: real)

  /** What an update reads from the device. */
  datatype Seen = Seen(yaw: real, gz: real, stationary: bool)

  predicate Active(s: CalState) {
    s != Idle && s != Complete && s != Failed
  }

  predicate ScaleIsValid(s: real) {
    SCALE_MIN <= s <= SCALE_MAX
  }

  /** What holds between any two operations. */
  ghost predicate Consistent(c: Calibration) {
    && c.scale > 0.0 && c.settle <= SETTLE_UPDATES
    && (c.state != Idle ==> c.previous > 0.0)
    && (Active(c.state) ==> c.scale == 1.0 && c.settle < SETTLE_UPDATES)
    && (c.state == WaitPositive || c.state == WaitNegative ==> c.settle == 0)
    && (c.state == WaitNegative || c.state == NegativeActive ==>
        c.positiveMeasured >= CAPTURE_MIN_DEG && c.positiveScale == FOUR_LAP_DEG / c.positiveMeasured &&
        ScaleIsValid(c.positiveScale))
    && (c.state == Complete ==> c.scale == c.result && ScaleIsValid(c.result))
    && (c.state == Failed ==> c.scale == c.previous && c.result == c.previous)
  }

  /** `memset(&s_yaw_cal, 0, ...)`. */
  function Cleared(scale: real): Calibration {
    Calibration(Idle, 0, 0.0, 0.0, 0.0, 0.0, 0.0, 0.0, 0.0, scale)
  }

  /** Scales that are not positive are refused by the device. */
  function WithScale(c: Calibration, s: real): Calibration {
    if s > 0.0 then c.(scale := s) else c
  }

  function FailedFrom(c: Calibration): Calibration {
    WithScale(c.(state := Failed, result := c.previous), c.previous)
  }

  function Started(c: Calibration): Calibration {
    Cleared(1.0).(state := WaitStill, result := 1.0, previous := c.scale)
  }

  function Cancelled(c: Calibration): Calibration {
    var cleared := Cleared(c.scale);
    if c.state != Idle && c.state != Complete && c.previous > 0.0 then WithScale(cleared, c.previous) else cleared
  }

  /** The two direction scales are each plausible and agree within 2 %. */
  predicate DirectionsAgree(c: Calibration) {
    var sum := c.positiveScale + c.negativeScale;
    && ScaleIsValid(c.positiveScale) && ScaleIsValid(c.negativeScale)
    && sum > 0.0
    && 2.0 * Abs(c.positiveScale - c.negativeScale) / sum <= DIRECTION_MISMATCH_MAX
  }

  function Completed(c: Calibration): Calibration {
    if !DirectionsAgree(c) then FailedFrom(c)
    else if c.positiveMeasured == c.negativeMeasured then FailedFrom(c)
    else
      var d := c.(result := (2.0 * FOUR_LAP_DEG) / (c.positiveMeasured - c.negativeMeasured));
      if !ScaleIsValid(d.result) then FailedFrom(d)
      else WithScale(d, d.result).(origin := 0.0, state := Complete)
  }

  function Counted(c: Calibration, settling: bool): Calibration {
    c.(settle := if settling then c.settle + 1 else 0)
  }

  /** The condition under which an update counts towards the settling of its phase. */
  predicate Settles(c: Calibration, s: Seen) {
    match c.state
    case WaitStill => s.stationary
    case PositiveActive => s.stationary && s.yaw - c.origin >= CAPTURE_MIN_DEG
    case NegativeActive => s.stationary && s.yaw - c.origin <= -CAPTURE_MIN_DEG
    case _ => false
  }

  function CapturedPositive(c: Calibration, s: Seen): Calibration
    requires s.yaw - c.origin >= CAPTURE_MIN_DEG
  {
    var phase := s.yaw - c.origin;
    var d := c.(positiveMeasured := phase, positiveScale := FOUR_LAP_DEG / phase);
    if !ScaleIsValid(d.positiveScale) then FailedFrom(d)
    else d.(origin := s.yaw, settle := 0, state := WaitNegative)
  }

  function CapturedNegative(c: Calibration, s: Seen): Calibration
    requires s.yaw - c.origin <= -CAPTURE_MIN_DEG
  {
    var phase := s.yaw - c.origin;
    Completed(c.(negativeMeasured := phase, negativeScale := -FOUR_LAP_DEG / phase))
  }

  function Updated(c: Calibration, s: Seen): Calibration {
    match c.state
    case WaitStill =>
      var d := Counted(c, Settles(c, s));
      if d.settle >= SETTLE_UPDATES then d.(origin := 0.0, settle := 0, state := WaitPositive) else d
    case WaitPositive => if s.gz >= MOTION_START_DPS then c.(state := PositiveActive) else c
    case PositiveActive =>
      var d := Counted(c, Settles(c, s));
      if d.settle >= SETTLE_UPDATES && Settles(c, s) then CapturedPositive(d, s) else d
    case WaitNegative => if s.gz <= -MOTION_START_DPS then c.(state := NegativeActive) else c
    case NegativeActive =>
      var d := Counted(c, Settles(c, s));
      if d.settle >= SETTLE_UPDATES && Settles(c, s) then CapturedNegative(d, s) else d
    case _ => c
  }

  /** Whether an update also levels the attitude (and with it the yaw). */
  predicate Levels(c: Calibration, s: Seen) {
    var d := Updated(c, s);
    d.state != c.state && (d.state == WaitPositive || d.state == Complete || d.state == Failed)
  }

  class ImuService {
    const imu: Imu
    var state: CalState
    var settle: nat
    var origin: real
    var positiveMeasured: real
    var negativeMeasured: real
    var positiveScale: real
    var negativeScale: real
    var result: real
    var previous: real
    var startRequested: bool
    var cancelRequested: bool

    ghost function State(): Calibration
      reads this, imu
    {
      Calibration(state, settle, origin, positiveMeasured, negativeMeasured,
                  positiveScale, negativeScale, result, previous, imu.settings.scale.z)
    }

    ghost function Sees(): Seen
      reads imu
    {
      Seen(imu.yaw, imu.gyro.z, imu.stationary)
    }

    ghost predicate Valid()
      reads this, imu
    {
      imu.Valid() && imu.settings.scale.x > 0.0 && imu.settings.scale.y > 0.0
    }

    constructor (device: Imu)
      requires device.Valid() && device.settings.scale.x > 0.0 && device.settings.scale.y > 0.0
      ensures imu == device && Valid() && !startRequested && !cancelRequested
      ensures State() == Cleared(device.settings.scale.z)
    {
      imu := device;
      state, settle, origin := Idle, 0, 0.0;
      positiveMeasured, negativeMeasured, positiveScale, negativeScale := 0.0, 0.0, 0.0, 0.0;
      result, previous := 0.0, 0.0;
      startRequested, cancelRequested := false, false;
    }

    method Request()
      modifies this`startRequested
      ensures startRequested
    {
      startRequested := true;
    }

    method RequestCancel()
      modifies this`cancelRequested
      ensures cancelRequested
    {
      cancelRequested := true;
    }

    method SetScale(z: real)
      requires Valid()
      modifies imu`settings
      ensures Valid() && State() == WithScale(old(State()), z) && Sees() == old(Sees())
      ensures imu.Att() == old(imu.Att())
    {
      imu.SetGyroScale(Vec3(imu.settings.scale.x, imu.settings.scale.y, z));
    }

    method LevelAttitude()
      requires Valid()
      modifies imu`quat, imu`integral, imu`pitch, imu`roll, imu`yaw
      ensures Valid() && State() == old(State()) && imu.Att() == Level()
    {
      imu.ResetAttitude();
    }

    method Fail()
      requires Valid()
      modifies this`state, this`result, imu
      ensures Valid() && State() == FailedFrom(old(State())) && imu.Att() == Level()
    {
      state := Failed;
      result := previous;
      SetScale(previous);
      LevelAttitude();
    }

    method Clear()
      modifies this`state, this`settle, this`origin, this`positiveMeasured, this`negativeMeasured,
               this`positiveScale, this`negativeScale, this`result, this`previous
      ensures State() == Cleared(old(imu.settings.scale.z))
    {
      state, settle, origin := Idle, 0, 0.0;
      positiveMeasured, negativeMeasured, positiveScale, negativeScale := 0.0, 0.0, 0.0, 0.0;
      result, previous := 0.0, 0.0;
    }

    method Start()
      requires Valid()
      modifies this, imu
      ensures Valid() && State() == Started(old(State())) && imu.Att() == Level()
      ensures startRequested == old(startRequested) && cancelRequested == old(cancelRequested)
    {
      var before := imu.settings.scale.z;
      Clear();
      state := WaitStill;
      result := 1.0;
      previous := before;
      SetScale(1.0);
      imu.ResetSampleLowPass();
      LevelAttitude();
    }

    method CompleteCalibration()
      requires Valid()
      modifies this, imu
      ensures Valid() && State() == Completed(old(State())) && imu.Att() == Level()
      ensures State().state == Complete || State().state == Failed
      ensures startRequested == old(startRequested) && cancelRequested == old(cancelRequested)
    {
      var sum := positiveScale + negativeScale;
      var difference := Abs(positiveScale - negativeScale);
      if !ScaleIsValid(positiveScale) || !ScaleIsValid(negativeScale) || sum <= 0.0 ||
         2.0 * difference / sum > DIRECTION_MISMATCH_MAX {
        Fail();
        return;
      }
      // A zero span makes the quotient infinite, which is no valid scale either.
      if positiveMeasured == negativeMeasured {
        Fail();
        return;
      }
      result := (2.0 * FOUR_LAP_DEG) / (positiveMeasured - negativeMeasured);
      if !ScaleIsValid(result) {
        Fail();
        return;
      }
      SetScale(result);
      LevelAttitude();
      origin := 0.0;
      state := Complete;
    }

    method CapturePositive(phase: real)
      requires Valid() && phase == imu.yaw - origin && phase >= CAPTURE_MIN_DEG
      modifies this, imu
      ensures Valid() && State() == CapturedPositive(old(State()), old(Sees()))
      ensures State().state == WaitNegative || State().state == Failed
      ensures imu.Att() == if State().state == Failed then Level() else old(imu.Att())
      ensures startRequested == old(startRequested) && cancelRequested == old(cancelRequested)
    {
      positiveMeasured := phase;
      positiveScale := FOUR_LAP_DEG / phase;
      if !ScaleIsValid(positiveScale) {
        Fail();
      } else {
        origin := imu.yaw;
        settle := 0;
        state := WaitNegative;
      }
    }

    method CaptureNegative(phase: real)
      requires Valid() && phase == imu.yaw - origin && phase <= -CAPTURE_MIN_DEG
      modifies this, imu
      ensures Valid() && State() == CapturedNegative(old(State()), old(Sees())) && imu.Att() == Level()
      ensures State().state == Complete || State().state == Failed
      ensures startRequested == old(startRequested) && cancelRequested == old(cancelRequested)
    {
      negativeMeasured := phase;
      negativeScale := -FOUR_LAP_DEG / phase;
      CompleteCalibration();
    }

    method UpdatePositiveActive()
      requires Valid() && Consistent(State()) && state == PositiveActive
      modifies this, imu
      ensures Valid() && State() == Updated(old(State()), old(Sees()))
      ensures imu.Att() == if Levels(old(State()), old(Sees())) then Level() else old(imu.Att())
      ensures startRequested == old(startRequested) && cancelRequested == old(cancelRequested)
    {
      hide CapturedPositive, CapturedNegative, NormSq, ScaleIsValid;
      var phase := imu.yaw - origin;
      if imu.stationary && phase >= CAPTURE_MIN_DEG {
        settle := settle + 1;
        if settle >= SETTLE_UPDATES {
          CapturePositive(phase);
        }
      } else {
        settle := 0;
      }
    }

    method UpdateNegativeActive()
      requires Valid() && Consistent(State()) && state == NegativeActive
      modifies this, imu
      ensures Valid() && State() == Updated(old(State()), old(Sees()))
      ensures imu.Att() == if Levels(old(State()), old(Sees())) then Level() else old(imu.Att())
      ensures startRequested == old(startRequested) && cancelRequested == old(cancelRequested)
    {
      hide CapturedPositive, CapturedNegative, NormSq, ScaleIsValid;
      var phase := imu.yaw - origin;
      if imu.stationary && phase <= -CAPTURE_MIN_DEG {
        settle := settle + 1;
        if settle >= SETTLE_UPDATES {
          CaptureNegative(phase);
        }
      } else {
        settle := 0;
      }
    }

    method UpdateYawCalibration()
      requires Valid() && Consistent(State())
      modifies this, imu
      ensures Valid() && State() == Updated(old(State()), old(Sees()))
      ensures imu.Att() == if Levels(old(State()), old(Sees())) then Level() else old(imu.Att())
      ensures startRequested == old(startRequested) && cancelRequested == old(cancelRequested)
    {
      hide CapturedPositive, CapturedNegative, NormSq, ScaleIsValid;
      if state == WaitStill {
        if imu.stationary {
          settle := settle + 1;
          if settle >= SETTLE_UPDATES {
            LevelAttitude();
            origin := 0.0;
            settle := 0;
            state := WaitPositive;
          }
        } else {
          settle := 0;
        }
      } else if state == WaitPositive {
        if imu.gyro.z >= MOTION_START_DPS { state := PositiveActive; }
      } else if state == PositiveActive {
        UpdatePositiveActive();
      } else if state == WaitNegative {
        if imu.gyro.z <= -MOTION_START_DPS { state := NegativeActive; }
      } else if state == NegativeActive {
        UpdateNegativeActive();
      }
    }

    /** A pending cancel is served before a pending start. */
    method ServiceRequests()
      requires Valid()
      modifies this, imu
      ensures Valid() && !startRequested && !cancelRequested
      ensures State() ==
                var afterCancel := if old(cancelRequested) then Cancelled(old(State())) else old(State());
                if old(startRequested) then Started(afterCancel) else afterCancel
      ensures imu.Att() == if old(cancelRequested) || old(startRequested) then Level() else old(imu.Att())
    {
      if cancelRequested {
        var wasState, wasPrevious := state, previous;
        cancelRequested := false;
        Clear();
        if wasState != Idle && wasState != Complete && wasPrevious > 0.0 {
          SetScale(wasPrevious);
        }
        LevelAttitude();
      }
      if startRequested {
        startRequested := false;
        Start();
      }
    }
  }
}
