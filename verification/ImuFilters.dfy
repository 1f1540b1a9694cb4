/** What the filters of the IMU device do with a sample, over every run from power-on: the
    low-pass, the complementary filter, and the quaternion filter's pull towards gravity. */
module ImuFilters {
  import opened Quaternions
  import opened AttitudeFilter
  import opened AttitudeGeometry
  import opened GravityFeedback
  import opened ImuDevice
  import opened ImuHistory

  // ----- the low-pass -----

  /** `out` follows `input` as a first-order low-pass with the given cut-off, by one implicit
      step of the sample time; without a cut-off it is the input. */
  ghost predicate Follows(before: Vec3, input: Vec3, out: Vec3, cutoff: real, dt: real) {
    if cutoff <= 0.0 || dt <= 0.0 then out == input
    else Minus(out, before) == Times(6.283185307 * cutoff * dt, Minus(input, out))
  }

  lemma LowPassStep(before: real, input: real, cutoff: real, dt: real)
    requires cutoff > 0.0 && dt > 0.0
    ensures var out := LpfStep(before, input, cutoff, dt);
            out - before == 6.283185307 * cutoff * dt * (input - out)
  {
    var x := TWO_PI * cutoff * dt;
    SameSigns(cutoff, dt);
    assert x == TWO_PI * Mul(cutoff, dt) && x > 0.0;
    var a := x / (1.0 + x);
    assert a * (1.0 + x) == x;
    ShareOfOne(a, x);
    assert LpfAlpha(cutoff, dt) == a;
    hide LpfAlpha;
    ImplicitStep(before, input, a, x);
  }

  lemma ShareOfOne(a: real, x: real)
    requires x > 0.0 && a * (1.0 + x) == x
    ensures 0.0 < a < 1.0
  {
    Sign(a, 1.0 + x);
    Sign(1.0 - a, 1.0 + x);
    assert (1.0 - a) * (1.0 + x) == 1.0;
  }

  lemma ImplicitStep(before: real, input: real, a: real, x: real)
    requires a * (1.0 + x) == x
    ensures var out := before + a * (input - before); out - before == x * (input - out)
  {
    var gap := input - before;
    assert a + a * x == x;
    assert (a + a * x) * gap == x * gap;
    assert x * (gap - a * gap) == a * gap;
  }

  lemma LowPassFollows(before: Vec3, input: Vec3, cutoff: real, dt: real)
    ensures Follows(before, input, LpfVec(before, input, cutoff, dt), cutoff, dt)
  {
    if cutoff > 0.0 && dt > 0.0 {
      LowPassStep(before.x, input.x, cutoff, dt);
      LowPassStep(before.y, input.y, cutoff, dt);
      LowPassStep(before.z, input.z, cutoff, dt);
      hide LpfStep;
    } else {
      LpfOffPassesThrough(before, input, cutoff, dt);
      hide LpfVec;
    }
  }

  lemma AccelIsConditioned(m: Libm, c: Settings, d: Device, raw: Raw)
    ensures Sampled(m, c, d, raw).accel == Conditioned(c, d, raw).accel && Sampled(m, c, d, raw).conditioned
  {
    hide LpfVec, Unbiased, QuietSample, Towards, MahonyStep, ComplementaryStep, Calm, Minus, Each;
  }

  /** Each sample moves acceleration and rate by their own low-pass; the first one after a
      start or a reset is taken as it is. The rate's input is the raw rate without the bias,
      on the scale; a sample that also moves the bias then shifts its rate by as much. */
  lemma SampleIsLowPassed(m: Libm, es: seq<Event>, hs: seq<Handle>, k: nat)
    requires Run(m, es, hs) && k < |es| && es[k].NewSample?
    ensures var c, before, after, raw := hs[k].settings, hs[k].device, hs[k + 1].device, es[k].raw;
            var rate := Calibrated(raw.gyro, before.bias, c.scale);
            var filtered := Plus(after.gyro, Calibrated(after.bias, before.bias, c.scale));
            && after.conditioned
            && (!before.conditioned ==> after.accel == raw.accel && filtered == rate)
            && (before.conditioned ==>
                  Follows(before.accel, raw.accel, after.accel, c.accelCutoff, c.gains.dt) &&
                  Follows(before.gyro, rate, filtered, c.gyroCutoff, c.gains.dt))
  {
    hide Sampled, LpfVec, Minus, Each, Follows, Plus;
    var c, d, raw := hs[k].settings, hs[k].device, es[k].raw;
    assert Happens(m, es, hs, k);
    var rate := Calibrated(raw.gyro, d.bias, c.scale);
    ScaledDifference(raw.gyro, d.bias, c.scale);
    hide Calibrated;
    LowPassFollows(d.accel, raw.accel, c.accelCutoff, c.gains.dt);
    LowPassFollows(d.gyro, rate, c.gyroCutoff, c.gains.dt);
    AccelIsConditioned(m, c, d, raw);
    GyroIsOnlyShifted(m, c, d, raw);
    ScaledDifference(hs[k + 1].device.bias, d.bias, c.scale);
    Unshifted(Conditioned(c, d, raw).gyro, Each(Minus(hs[k + 1].device.bias, d.bias), c.scale));
  }

  lemma Unshifted(rate: Vec3, shift: Vec3)
    ensures Plus(Minus(rate, shift), shift) == rate
  {
  }

  // ----- the complementary filter -----

  /** The sample that a device after event `k` has just shown to its filter. */
  function ShownSample(d: Device): Sample {
    Sample(d.accel, d.gyro, d.stationary)
  }

  lemma SampledAttitude(m: Libm, c: Settings, d: Device, raw: Raw)
    ensures var e := Sampled(m, c, d, raw);
            e.attitude == if c.mode == Mahony6Axis then MahonyStep(m, c.gains, d.attitude, ShownSample(e))
                          else ComplementaryStep(m, c.gains, c.alpha, d.attitude, ShownSample(e))
  {
    assert Learned(m, c, d, raw).attitude == d.attitude by {
      hide LpfVec, Unbiased, QuietSample, Towards, Calm, Minus, Each;
    }
    hide Learned, MahonyStep, ComplementaryStep;
  }

  /** In the complementary filter a sample adds what the car turned, and, if the acceleration
      is heard, keeps only the share `alpha` of the difference to the accelerometer's angle. */
  lemma ComplementarySample(m: Libm, es: seq<Event>, hs: seq<Handle>, k: nat)
    requires Run(m, es, hs) && k < |es| && es[k].NewSample? && hs[k].settings.mode == Complementary
    ensures var c, a, e := hs[k].settings, hs[k].device.attitude, hs[k + 1].device;
            var pitch, roll := a.pitch + e.gyro.x * c.gains.dt, a.roll + e.gyro.y * c.gains.dt;
            && e.attitude.yaw == (if Locked(e) then a.yaw else a.yaw + e.gyro.z * c.gains.dt)
            && (!Heard(m, c.gains, e.accel) ==> e.attitude.pitch == pitch && e.attitude.roll == roll)
            && (Heard(m, c.gains, e.accel) ==>
                  e.attitude.pitch - AccelPitch(m, e.accel) == c.alpha * (pitch - AccelPitch(m, e.accel)) &&
                  e.attitude.roll - AccelRoll(m, e.accel) == c.alpha * (roll - AccelRoll(m, e.accel)))
  {
    hide AccelPitch, AccelRoll, Sampled;
    var c, a, e := hs[k].settings, hs[k].device.attitude, hs[k + 1].device;
    assert Happens(m, es, hs, k);
    SampledAttitude(m, c, hs[k].device, es[k].raw);
    LockedIsYawLocked(e);
    hide YawLocked, Locked, Blend, Dot;
    BlendKeepsAShare(c.alpha, a.pitch + e.gyro.x * c.gains.dt, AccelPitch(m, e.accel));
    BlendKeepsAShare(c.alpha, a.roll + e.gyro.y * c.gains.dt, AccelRoll(m, e.accel));
  }

  lemma BlendKeepsAShare(alpha: real, a: real, b: real)
    ensures Blend(alpha, a, b) - b == alpha * (a - b)
  {
  }

  /** Event `j` is a complementary sample of a car that rests at the given tilt. */
  ghost predicate RestsAt(m: Libm, es: seq<Event>, hs: seq<Handle>, j: nat, pitch: real, alpha: real)
    requires j < |es| && |hs| == |es| + 1
  {
    var e := hs[j + 1].device;
    && es[j].NewSample? && hs[j].settings.mode == Complementary && hs[j].settings.alpha == alpha
    && e.gyro.x == 0.0 && Heard(m, hs[j].settings.gains, e.accel) && AccelPitch(m, e.accel) == pitch
  }

  /** At rest the difference to the accelerometer's angle dies out geometrically. */
  lemma {:induction false} ComplementaryForgets(
      m: Libm, es: seq<Event>, hs: seq<Handle>, a: nat, b: nat, pitch: real, alpha: real)
    requires Run(m, es, hs) && a <= b <= |es|
    requires forall j | a <= j < b :: RestsAt(m, es, hs, j, pitch, alpha)
    ensures hs[b].device.attitude.pitch - pitch == Power(alpha, b - a) * (hs[a].device.attitude.pitch - pitch)
  {
    hide Applied, Heard, AccelPitch, AccelRoll;
    if a < b {
      ComplementaryForgets(m, es, hs, a, b - 1, pitch, alpha);
      assert RestsAt(m, es, hs, b - 1, pitch, alpha);
      ComplementarySample(m, es, hs, b - 1);
      OneMoreFactor(alpha, Power(alpha, b - 1 - a), hs[a].device.attitude.pitch - pitch);
    }
  }

  lemma OneMoreFactor(alpha: real, p: real, d: real)
    ensures alpha * (p * d) == (alpha * p) * d
  {
  }

  // ----- the quaternion filter -----

  /** In every run: a sample of the quaternion filter in which the car does not turn carries
      the estimated vertical closer to the measured one, unless they are parallel. */
  lemma SampleApproachesGravity(m: Libm, es: seq<Event>, hs: seq<Handle>, k: nat)
    requires Run(m, es, hs) && k < |es| && es[k].NewSample? && hs[k].settings.mode == Mahony6Axis
    requires hs[k + 1].device.gyro == ZERO && !hs[k + 1].device.stationary && GentleGain(hs[k].settings.gains)
    requires Heard(m, hs[k].settings.gains, hs[k + 1].device.accel)
    requires Accepted(m, hs[k].settings.gains, hs[k].device.attitude, ShownSample(hs[k + 1].device))
    ensures var accel, q := hs[k + 1].device.accel, hs[k].device.attitude.quat;
            var before, after := Agreement(m, accel, q), Agreement(m, accel, hs[k + 1].device.attitude.quat);
            after >= before &&
            (after == before <==>
               Direction(m, accel) == Gravity(q) || Direction(m, accel) == Times(-1.0, Gravity(q)))
  {
    hide Sampled, Unit, Heard, Accepted, GentleGain, MahonyStep, Agreement, Gravity, Direction, Times, Libm.Sound;
    assert Happens(m, es, hs, k);
    NormIsOneForEver(m, es, hs, k);
    SampledAttitude(m, hs[k].settings, hs[k].device, es[k].raw);
    TiltApproachesGravity(m, hs[k].settings.gains, hs[k].device.attitude, ShownSample(hs[k + 1].device));
  }

  /** Switching to the quaternion filter gives it the attitude the angles describe: its vertical
      is the one tilted by pitch and roll, and it turns by the yaw, the roll and the pitch. */
  lemma SwitchingKeepsTheAttitude(m: Libm, es: seq<Event>, hs: seq<Handle>, k: nat)
    requires Run(m, es, hs) && k < |es| && es[k] == ModeSet(Mahony6Axis)
    requires hs[k].settings.mode == Complementary && DoubleAngles(m)
    ensures var a, q := hs[k].device.attitude, hs[k + 1].device.attitude.quat;
            var x, y, z := a.pitch * DEG_TO_RAD * 0.5, a.roll * DEG_TO_RAD * 0.5, a.yaw * DEG_TO_RAD * 0.5;
            && hs[k + 1].device.attitude == a.(quat := q)
            && Gravity(q) == Tilted(m, a.pitch * DEG_TO_RAD, a.roll * DEG_TO_RAD)
            && q == Product(Product(Quat(m.cos(z), 0.0, 0.0, m.sin(z)), Quat(m.cos(y), 0.0, m.sin(y), 0.0)),
                            Quat(m.cos(x), m.sin(x), 0.0, 0.0))
  {
    assert Happens(m, es, hs, k);
    var a := hs[k].device.attitude;
    EulerHasItsTilt(m, a.pitch, a.roll, a.yaw);
    EulerIsThreeTurns(m, a.pitch, a.roll, a.yaw);
    hide FromEuler, Gravity, Tilted, Product, Configured;
  }
}
