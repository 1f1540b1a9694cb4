/** The ICM45688 device handle: low-pass conditioning, stationarity, automatic gyro
    bias and the attitude update of one sample, and the calls that configure it. */
module ImuDevice {
  import opened Quaternions
  import opened AttitudeFilter

  const TWO_PI := 6.283185307
  const BIAS_LEARN_SAMPLES := 600
  const BIAS_LEARN_GYRO_DPS := 0.35

  datatype Mode = Complementary | Mahony6Axis

  datatype Settings = Settings(
    gains: Gains, alpha: real, mode: Mode,
    stillGyro: real, stillAccel: real, holdSamples: nat,
    autoBias: bool, learningRate: real, scale: Vec3,
    accelCutoff: real, gyroCutoff: real)

  /** What the device remembers between samples. */
  datatype Device = Device(
    accel: Vec3, gyro: Vec3, conditioned: bool,
    stationary: bool, stillCount: nat,
    bias: Vec3, calmCount: nat, attitude: Attitude)

  /** A raw sample in g and degrees per second. */
  datatype Raw = Raw(accel: Vec3, gyro: Vec3)

  // ----- conditioning -----

  function LpfAlpha(cutoff: real, dt: real): real {
    if cutoff <= 0.0 || dt <= 0.0 then 1.0
    else
      var x := TWO_PI * cutoff * dt;
      if 1.0 + x == 0.0 then 1.0 else Clamp(x / (1.0 + x), 0.0, 1.0)
  }

  function LpfStep(prev: real, input: real, cutoff: real, dt: real): real {
    prev + LpfAlpha(cutoff, dt) * (input - prev)
  }

  function LpfVec(prev: Vec3, input: Vec3, cutoff: real, dt: real): Vec3 {
    Vec3(LpfStep(prev.x, input.x, cutoff, dt), LpfStep(prev.y, input.y, cutoff, dt),
         LpfStep(prev.z, input.z, cutoff, dt))
  }

  function Minus(a: Vec3, b: Vec3): Vec3 {
    Vec3(a.x - b.x, a.y - b.y, a.z - b.z)
  }

  function Each(a: Vec3, b: Vec3): Vec3 {
    Vec3(a.x * b.x, a.y * b.y, a.z * b.z)
  }

  /** The gyro reading without bias, in calibrated units. */
  function Unbiased(c: Settings, gyro: Vec3, bias: Vec3): Vec3 {
    Each(Minus(gyro, bias), c.scale)
  }

  function Conditioned(c: Settings, d: Device, raw: Raw): Device {
    var input := Unbiased(c, raw.gyro, d.bias);
    if !d.conditioned then d.(accel := raw.accel, gyro := input, conditioned := true)
    else d.(accel := LpfVec(d.accel, raw.accel, c.accelCutoff, c.gains.dt),
            gyro := LpfVec(d.gyro, input, c.gyroCutoff, c.gains.dt))
  }

  // ----- stationarity -----

  predicate QuietSample(m: Libm, c: Settings, d: Device) {
    && Dot(d.accel, d.accel) > MIN_NORM_SQ
    && c.stillGyro > 0.0 && c.stillAccel >= 0.0
    && m.sqrt(Dot(d.gyro, d.gyro)) <= c.stillGyro
    && Abs(m.sqrt(Dot(d.accel, d.accel)) - 1.0) <= c.stillAccel
  }

  function Hold(c: Settings): nat {
    if c.holdSamples == 0 then 1 else c.holdSamples
  }

  function StillUpdated(m: Libm, c: Settings, d: Device): Device {
    var count :=
      if !QuietSample(m, c, d) then 0
      else if d.stillCount < Hold(c) then d.stillCount + 1 else d.stillCount;
    d.(stillCount := count, stationary := count >= Hold(c))
  }

  // ----- automatic bias -----

  predicate Calm(d: Device) {
    && d.stationary
    && Abs(d.gyro.x) <= BIAS_LEARN_GYRO_DPS
    && Abs(d.gyro.y) <= BIAS_LEARN_GYRO_DPS
    && Abs(d.gyro.z) <= BIAS_LEARN_GYRO_DPS
  }

  function Learn(c: Settings): real {
    Clamp(c.learningRate, 0.0, 1.0)
  }

  function Towards(bias: Vec3, raw: Vec3, learn: real): Vec3 {
    Vec3(bias.x + (raw.x - bias.x) * learn, bias.y + (raw.y - bias.y) * learn, bias.z + (raw.z - bias.z) * learn)
  }

  function BiasUpdated(c: Settings, d: Device, gyro: Vec3): Device {
    if !c.autoBias then d
    else if !Calm(d) then d.(calmCount := 0)
    else if d.calmCount < BIAS_LEARN_SAMPLES then d.(calmCount := d.calmCount + 1)
    else if Learn(c) <= 0.0 then d
    else d.(bias := Towards(d.bias, gyro, Learn(c)))
  }

  /** A bias moved in this sample also moves the published rate of this sample. */
  function Shifted(c: Settings, d: Device, oldBias: Vec3): Device {
    d.(gyro := Minus(d.gyro, Each(Minus(d.bias, oldBias), c.scale)))
  }

  // ----- attitude -----

  function Integrated(angle: real, rate: real, dt: real): real {
    angle + rate * dt
  }

  function Blend(alpha: real, a: real, b: real): real {
    alpha * a + (1.0 - alpha) * b
  }

  function AccelPitch(m: Libm, a: Vec3): real {
    m.atan2(a.y, a.z) * RAD_TO_DEG
  }

  function SideSq(a: Vec3): real {
    a.y * a.y + a.z * a.z
  }

  function AccelRoll(m: Libm, a: Vec3): real {
    m.atan2(-a.x, m.sqrt(SideSq(a))) * RAD_TO_DEG
  }

  function ComplementaryStep(m: Libm, g: Gains, alpha: real, a: Attitude, s: Sample): Attitude {
    var pitch, roll := Integrated(a.pitch, s.gyro.x, g.dt), Integrated(a.roll, s.gyro.y, g.dt);
    var trusted := AccelTrusted(m, g, s.accel);
    a.(pitch := if trusted then Blend(alpha, pitch, AccelPitch(m, s.accel)) else pitch,
       roll := if trusted then Blend(alpha, roll, AccelRoll(m, s.accel)) else roll,
       yaw := if YawLocked(s) then a.yaw else Integrated(a.yaw, s.gyro.z, g.dt))
  }

  function AttitudeUpdated(m: Libm, c: Settings, d: Device): Device {
    var s := Sample(d.accel, d.gyro, d.stationary);
    d.(attitude := if c.mode == Mahony6Axis then MahonyStep(m, c.gains, d.attitude, s)
                   else ComplementaryStep(m, c.gains, c.alpha, d.attitude, s))
  }

  /** What a sample does before the attitude is updated. */
  function Learned(m: Libm, c: Settings, d: Device, raw: Raw): Device {
    var still := StillUpdated(m, c, Conditioned(c, d, raw));
    Shifted(c, BiasUpdated(c, still, raw.gyro), d.bias)
  }

  /** One successful sample. */
  function Sampled(m: Libm, c: Settings, d: Device, raw: Raw): Device {
    AttitudeUpdated(m, c, Learned(m, c, d, raw))
  }

  // ----- the handle and the calls on it -----

  datatype Handle = Handle(settings: Settings, device: Device)

  const DEFAULT_SETTINGS := Settings(
    Gains(1.0 / 200.0, 2.0, 0.0, 0.0, 0.0), 0.98, Complementary,
    1.5, 0.08, 5, false, 0.0010, Vec3(1.0, 1.0, 1.0), 0.0, 0.0)

  function PoweredUp(): Handle {
    Handle(DEFAULT_SETTINGS, Device(ZERO, ZERO, false, false, 0, ZERO, 0, Level()))
  }

  /** Everything that is ever done to the handle: a successful sample, or one of the
      calls that configure or reset it. */
  datatype Event =
    | Initialised
    | Begun
    | NewSample(raw: Raw)
    | FilterSet(dt: real, alpha: real)
    | LowPassSet(accelCutoff: real, gyroCutoff: real)
    | LowPassReset
    | ModeSet(mode: Mode)
    | TrustWindowSet(window: real)
    | RejectionSet(angle: real)
    | MahonyGainsSet(kp: real, ki: real)
    | AttitudeReset
    | BiasSet(bias: Vec3)
    | ScaleSet(scale: Vec3)
    | DetectionSet(stillGyro: real, stillAccel: real, hold: nat)
    | AutoBiasSet(enable: bool, rate: real)

  /** `clear_measurements`; the bias is kept. */
  function WithoutMeasurements(d: Device): Device {
    Device(ZERO, ZERO, false, false, 0, d.bias, 0, Level())
  }

  /** Scales that are not positive are ignored. */
  function PositiveOr(wanted: Vec3, current: Vec3): Vec3 {
    Vec3(if wanted.x > 0.0 then wanted.x else current.x, if wanted.y > 0.0 then wanted.y else current.y,
         if wanted.z > 0.0 then wanted.z else current.z)
  }

  function NonNegative(x: real): real {
    if x > 0.0 then x else 0.0
  }

  function RejectionSq(m: Libm, angle: real): real {
    if angle <= 0.0 then 0.0
    else
      var half := 0.5 * m.sin(Clamp(angle, 0.0, 90.0) * DEG_TO_RAD);
      half * half
  }

  function Configured(m: Libm, c: Settings, e: Event): Settings {
    match e
    case FilterSet(dt, alpha) =>
      c.(gains := c.gains.(dt := if dt > 0.0 then dt else c.gains.dt),
         alpha := if 0.0 <= alpha <= 1.0 then alpha else c.alpha)
    case LowPassSet(a, g) => c.(accelCutoff := NonNegative(a), gyroCutoff := NonNegative(g))
    case ModeSet(mode) => c.(mode := mode)
    case TrustWindowSet(window) => c.(gains := c.gains.(trustWindow := NonNegative(window)))
    case RejectionSet(angle) => c.(gains := c.gains.(rejectionSq := RejectionSq(m, angle)))
    case MahonyGainsSet(kp, ki) =>
      c.(gains := c.gains.(kp := if kp >= 0.0 then kp else c.gains.kp, ki := if ki >= 0.0 then ki else c.gains.ki))
    case ScaleSet(scale) => c.(scale := PositiveOr(scale, c.scale))
    case DetectionSet(g, a, hold) =>
      c.(stillGyro := if g > 0.0 then g else c.stillGyro, stillAccel := if a >= 0.0 then a else c.stillAccel,
         holdSamples := if hold == 0 then 1 else hold)
    case AutoBiasSet(enable, rate) =>
      c.(autoBias := enable, learningRate := if 0.0 <= rate <= 1.0 then rate else c.learningRate)
    case _ => c
  }

  function Affected(m: Libm, c: Settings, d: Device, e: Event): Device {
    match e
    case Begun => WithoutMeasurements(d)
    case NewSample(raw) => Sampled(m, c, d, raw)
    case LowPassReset => d.(conditioned := false)
    case ModeSet(mode) =>
      var a := d.attitude;
      if c.mode != mode && mode == Mahony6Axis
      then d.(attitude := a.(quat := FromEuler(m, a.pitch, a.roll, a.yaw))) else d
    case AttitudeReset => d.(attitude := Level())
    case BiasSet(bias) => d.(bias := bias, calmCount := 0)
    case DetectionSet(_, _, _) => d.(stationary := false, stillCount := 0, calmCount := 0)
    case AutoBiasSet(_, _) => d.(calmCount := 0)
    case _ => d
  }

  function Applied(m: Libm, h: Handle, e: Event): Handle {
    if e.Initialised? then PoweredUp()
    else Handle(Configured(m, h.settings, e), Affected(m, h.settings, h.device, e))
  }

  // ----- the device object -----

  class Imu {
    const libm: Libm
    var settings: Settings
    var ready: bool
    var accel: Vec3
    var gyro: Vec3
    var conditioned: bool
    var stationary: bool
    var stillCount: nat
    var bias: Vec3
    var calmCount: nat
    var quat: Quat
    var integral: Vec3
    var pitch: real
    var roll: real
    var yaw: real

    ghost function Att(): Attitude
      reads this
    {
      Attitude(quat, integral, pitch, roll, yaw)
    }

    ghost function State(): Device
      reads this
    {
      Device(accel, gyro, conditioned, stationary, stillCount, bias, calmCount, Att())
    }

    ghost function Whole(): Handle
      reads this
    {
      Handle(settings, State())
    }

    /** The attitude quaternion always has unit norm. */
    ghost predicate Valid()
      reads this
    {
      libm.Sound() && Unit(quat)
    }

    constructor (m: Libm)
      requires m.Sound()
      ensures Valid() && Whole() == PoweredUp() && libm == m && !ready
    {
      libm, settings, ready := m, DEFAULT_SETTINGS, false;
      accel, gyro, conditioned := ZERO, ZERO, false;
      stationary, stillCount, bias, calmCount := false, 0, ZERO, 0;
      quat, integral, pitch, roll, yaw := IDENTITY, ZERO, 0.0, 0.0, 0.0;
    }

    method ResetAngles()
      modifies this`quat, this`integral, this`pitch, this`roll, this`yaw
      ensures Att() == Level()
    {
      pitch, roll, yaw := 0.0, 0.0, 0.0;
      integral := ZERO;
      quat := IDENTITY;
    }

    method ResetAttitude()
      requires Valid()
      modifies this`quat, this`integral, this`pitch, this`roll, this`yaw
      ensures Valid() && Whole() == Applied(libm, old(Whole()), AttitudeReset)
    {
      ResetAngles();
    }

    method ClearMeasurements()
      modifies this`accel, this`gyro, this`conditioned, this`stationary, this`stillCount, this`calmCount,
               this`quat, this`integral, this`pitch, this`roll, this`yaw
      ensures State() == WithoutMeasurements(old(State()))
    {
      accel, gyro, conditioned := ZERO, ZERO, false;
      stationary, stillCount, calmCount := false, 0, 0;
      ResetAngles();
    }

    /** Brings the sensor up: `up` is whether the registers could be programmed. */
    method Begin(up: bool)
      requires Valid()
      modifies this
      ensures Valid() && Whole() == Applied(libm, old(Whole()), Begun)
      ensures ready == up
    {
      ready := false;
      ClearMeasurements();
      ready := up;
    }

    method SetFilter(dt: real, alpha: real)
      requires Valid()
      modifies this`settings
      ensures Valid() && Whole() == Applied(libm, old(Whole()), FilterSet(dt, alpha))
    {
      if dt > 0.0 {
        settings := settings.(gains := settings.gains.(dt := dt));
      }
      if 0.0 <= alpha <= 1.0 {
        settings := settings.(alpha := alpha);
      }
    }

    method SetSampleLowPass(accelCutoff: real, gyroCutoff: real)
      requires Valid()
      modifies this`settings
      ensures Valid() && Whole() == Applied(libm, old(Whole()), LowPassSet(accelCutoff, gyroCutoff))
    {
      settings := settings.(accelCutoff := NonNegative(accelCutoff), gyroCutoff := NonNegative(gyroCutoff));
    }

    method ResetSampleLowPass()
      requires Valid()
      modifies this`conditioned
      ensures Valid() && Whole() == Applied(libm, old(Whole()), LowPassReset)
    {
      conditioned := false;
    }

    /** Switching to the quaternion filter rebuilds its quaternion from the angles. */
    method SetAttitudeMode(mode: Mode)
      requires Valid()
      modifies this`quat, this`settings
      ensures Valid() && Whole() == Applied(libm, old(Whole()), ModeSet(mode))
    {
      FromEulerIsUnit(libm, pitch, roll, yaw);
      hide FromEuler, NormSq;
      if settings.mode != mode && mode == Mahony6Axis {
        quat := FromEuler(libm, pitch, roll, yaw);
      }
      settings := settings.(mode := mode);
    }

    method SetAccelTrustWindow(window: real)
      requires Valid()
      modifies this`settings
      ensures Valid() && Whole() == Applied(libm, old(Whole()), TrustWindowSet(window))
    {
      settings := settings.(gains := settings.gains.(trustWindow := NonNegative(window)));
    }

    method SetAccelRejection(angle: real)
      requires Valid()
      modifies this`settings
      ensures Valid() && Whole() == Applied(libm, old(Whole()), RejectionSet(angle))
    {
      settings := settings.(gains := settings.gains.(rejectionSq := RejectionSq(libm, angle)));
    }

    method SetMahonyGains(kp: real, ki: real)
      requires Valid()
      modifies this`settings
      ensures Valid() && Whole() == Applied(libm, old(Whole()), MahonyGainsSet(kp, ki))
    {
      if kp >= 0.0 {
        settings := settings.(gains := settings.gains.(kp := kp));
      }
      if ki >= 0.0 {
        settings := settings.(gains := settings.gains.(ki := ki));
      }
    }

    method SetGyroBias(b: Vec3)
      requires Valid()
      modifies this`bias, this`calmCount
      ensures Valid() && Whole() == Applied(libm, old(Whole()), BiasSet(b))
    {
      bias := b;
      calmCount := 0;
    }

    /** Scales that are not positive are ignored. */
    method SetGyroScale(scale: Vec3)
      requires Valid()
      modifies this`settings
      ensures Valid() && Whole() == Applied(libm, old(Whole()), ScaleSet(scale))
    {
      var s := settings.scale;
      if scale.x > 0.0 { s := s.(x := scale.x); }
      if scale.y > 0.0 { s := s.(y := scale.y); }
      if scale.z > 0.0 { s := s.(z := scale.z); }
      settings := settings.(scale := s);
    }

    /** New thresholds restart the stationarity and calm counters. */
    method SetStationaryDetection(gyroDps: real, accelG: real, hold: nat)
      requires Valid()
      modifies this`settings, this`stationary, this`stillCount, this`calmCount
      ensures Valid() && Whole() == Applied(libm, old(Whole()), DetectionSet(gyroDps, accelG, hold))
    {
      if gyroDps > 0.0 {
        settings := settings.(stillGyro := gyroDps);
      }
      if accelG >= 0.0 {
        settings := settings.(stillAccel := accelG);
      }
      settings := settings.(holdSamples := if hold == 0 then 1 else hold);
      stationary, stillCount, calmCount := false, 0, 0;
    }

    method SetGyroBiasAutoUpdate(enable: bool, rate: real)
      requires Valid()
      modifies this`settings, this`calmCount
      ensures Valid() && Whole() == Applied(libm, old(Whole()), AutoBiasSet(enable, rate))
    {
      settings := settings.(autoBias := enable);
      calmCount := 0;
      if 0.0 <= rate <= 1.0 {
        settings := settings.(learningRate := rate);
      }
    }

    method ApplyLowPass(raw: Raw)
      modifies this`accel, this`gyro, this`conditioned
      ensures State() == Conditioned(settings, old(State()), raw)
    {
      var input := Unbiased(settings, raw.gyro, bias);
      if !conditioned {
        accel, gyro := raw.accel, input;
        conditioned := true;
        return;
      }
      accel := LpfVec(accel, raw.accel, settings.accelCutoff, settings.gains.dt);
      gyro := LpfVec(gyro, input, settings.gyroCutoff, settings.gains.dt);
    }

    method UpdateStationary()
      modifies this`stillCount, this`stationary
      ensures State() == StillUpdated(libm, settings, old(State()))
    {
      var quiet := false;
      var accelSq := Dot(accel, accel);
      if accelSq > MIN_NORM_SQ && settings.stillGyro > 0.0 && settings.stillAccel >= 0.0 {
        var rate := libm.sqrt(Dot(gyro, gyro));
        var error := Abs(libm.sqrt(accelSq) - 1.0);
        if rate <= settings.stillGyro && error <= settings.stillAccel {
          quiet := true;
        }
      }
      var hold := if settings.holdSamples == 0 then 1 else settings.holdSamples;
      if quiet {
        if stillCount < hold {
          stillCount := stillCount + 1;
        }
      } else {
        stillCount := 0;
      }
      stationary := stillCount >= hold;
    }

    method UpdateAutoBias(rawGyro: Vec3)
      modifies this`bias, this`calmCount
      ensures State() == BiasUpdated(settings, old(State()), rawGyro)
    {
      if !settings.autoBias {
        return;
      }
      if !stationary || Abs(gyro.x) > BIAS_LEARN_GYRO_DPS ||
         Abs(gyro.y) > BIAS_LEARN_GYRO_DPS || Abs(gyro.z) > BIAS_LEARN_GYRO_DPS {
        calmCount := 0;
        return;
      }
      if calmCount < BIAS_LEARN_SAMPLES {
        calmCount := calmCount + 1;
        return;
      }
      var learn := Clamp(settings.learningRate, 0.0, 1.0);
      if learn <= 0.0 {
        return;
      }
      bias := Towards(bias, rawGyro, learn);
    }

    method UpdateComplementary()
      requires settings.mode == Complementary
      modifies this`pitch, this`roll, this`yaw
      ensures State() == AttitudeUpdated(libm, settings, old(State()))
    {
      hide Integrated, Blend, AccelPitch, AccelRoll, AccelTrusted;
      var dt, alpha := settings.gains.dt, settings.alpha;
      var s := Sample(accel, gyro, stationary);
      var gyroPitch, gyroRoll := Integrated(pitch, gyro.x, dt), Integrated(roll, gyro.y, dt);
      if AccelTrusted(libm, settings.gains, accel) {
        pitch := Blend(alpha, gyroPitch, AccelPitch(libm, accel));
        roll := Blend(alpha, gyroRoll, AccelRoll(libm, accel));
      } else {
        pitch, roll := gyroPitch, gyroRoll;
      }
      if !YawLocked(s) {
        yaw := Integrated(yaw, gyro.z, dt);
      }
    }

    method EulerFromQuat()
      modifies this`pitch, this`roll, this`yaw
      ensures Att() == WithEuler(libm, old(Att()))
    {
      hide PitchOf, RollOf, Reading;
      var previous := yaw;
      pitch := PitchOf(libm, quat);
      roll := RollOf(libm, quat);
      var wrapped := WrapDegrees180(previous);
      var delta := WrapDegrees180(Reading(libm, quat) - wrapped);
      yaw := previous + delta;
    }

    /** A vanishing quaternion resets the attitude. */
    method Normalise(q: Quat)
      modifies this`quat, this`integral, this`pitch, this`roll, this`yaw
      ensures Att() == Normalised(libm, old(Att()), q)
    {
      var norm := NormSq(q);
      if norm > MIN_NORM_SQ && libm.sqrt(norm) != 0.0 {
        quat := Scaled(q, 1.0 / libm.sqrt(norm));
      } else {
        ResetAngles();
      }
    }

    method StepMahony(s: Sample)
      modifies this`quat, this`integral, this`pitch, this`roll, this`yaw
      ensures Att() == MahonyStep(libm, settings.gains, old(Att()), s)
    {
      hide Product, Increment, Normalised, WithEuler, FromEuler, Feedback, Held, YawLocked;
      var held := yaw;
      var locked := YawLocked(s);
      var c := Feedback(libm, settings.gains, Attitude(quat, integral, pitch, roll, yaw), s);
      if locked {
        c := Held(c);
      }
      integral := c.integral;
      Normalise(Product(quat, Increment(c.rate, 0.5 * settings.gains.dt)));
      EulerFromQuat();
      if locked {
        yaw := held;
        quat := FromEuler(libm, pitch, roll, yaw);
      }
    }

    method UpdateMahony()
      requires Valid() && settings.mode == Mahony6Axis
      modifies this`quat, this`integral, this`pitch, this`roll, this`yaw
      ensures Valid() && State() == AttitudeUpdated(libm, settings, old(State()))
    {
      var s := Sample(accel, gyro, stationary);
      MahonyKeepsUnit(libm, settings.gains, Att(), s);
      hide MahonyStep, NormSq;
      StepMahony(s);
    }

    method LearnFrom(raw: Raw)
      modifies this`accel, this`gyro, this`conditioned, this`stillCount, this`stationary, this`bias, this`calmCount
      ensures State() == Learned(libm, settings, old(State()), raw)
    {
      hide Conditioned, StillUpdated, BiasUpdated, Each, Minus;
      ApplyLowPass(raw);
      UpdateStationary();
      var oldBias := bias;
      UpdateAutoBias(raw.gyro);
      gyro := Minus(gyro, Each(Minus(bias, oldBias), settings.scale));
    }

    /** One sample, if the device is ready and the registers could be read. */
    method Update(raw: Raw, readable: bool) returns (ok: bool)
      requires Valid()
      modifies this
      ensures Valid() && ready == old(ready)
      ensures ok <==> old(ready) && readable
      ensures Whole() == if ok then Applied(libm, old(Whole()), NewSample(raw)) else old(Whole())
    {
      ok := ready && readable;
      if !ok {
        return;
      }
      hide Learned, AttitudeUpdated, NormSq;
      LearnFrom(raw);
      if settings.mode == Mahony6Axis {
        UpdateMahony();
      } else {
        UpdateComplementary();
      }
    }
  }
}
