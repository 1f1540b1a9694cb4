/** What the IMU device guarantees over every run, from power-on: any sequence of samples
    and of calls that configure, calibrate or reset it. */
module ImuHistory {
  import opened Quaternions
  import opened AttitudeFilter
  import opened ImuDevice
  import opened Streaks

  /** `hs[k]` is the handle before event `k`. */
  ghost predicate Run(m: Libm, es: seq<Event>, hs: seq<Handle>) {
    && m.Sound()
    && |hs| == |es| + 1
    && hs[0] == PoweredUp()
    && forall k | 0 <= k < |es| :: Happens(m, es, hs, k)
  }

  ghost predicate Happens(m: Libm, es: seq<Event>, hs: seq<Handle>, k: nat)
    requires k < |es| && |hs| == |es| + 1
  {
    hs[k + 1] == Applied(m, hs[k], es[k])
  }

  // ----- unit norm -----

  lemma SampleKeepsUnit(m: Libm, c: Settings, d: Device, raw: Raw)
    requires m.Sound() && Unit(d.attitude.quat)
    ensures Unit(Sampled(m, c, d, raw).attitude.quat)
  {
    var shifted := Shifted(c, BiasUpdated(c, StillUpdated(m, c, Conditioned(c, d, raw)), raw.gyro), d.bias);
    MahonyKeepsUnit(m, c.gains, d.attitude, Sample(shifted.accel, shifted.gyro, shifted.stationary));
    hide MahonyStep, Unit, QuietSample, Towards, Calm, Unbiased, LpfVec, Minus, Each;
  }

  lemma EventKeepsUnit(m: Libm, h: Handle, e: Event)
    requires m.Sound() && Unit(h.device.attitude.quat)
    ensures Unit(Applied(m, h, e).device.attitude.quat)
  {
    if e.NewSample? {
      SampleKeepsUnit(m, h.settings, h.device, e.raw);
    }
    if e.ModeSet? {
      var a := h.device.attitude;
      FromEulerIsUnit(m, a.pitch, a.roll, a.yaw);
    }
    assert Unit(IDENTITY);
    hide Sampled, Unit, FromEuler, Configured;
  }

  /** Over every run, whatever the sensor reports and whoever resets or reconfigures the
      device, the quaternion has unit norm. */
  lemma {:induction false} NormIsOneForEver(m: Libm, es: seq<Event>, hs: seq<Handle>, k: nat)
    requires Run(m, es, hs) && k <= |es|
    ensures Unit(hs[k].device.attitude.quat)
  {
    if k == 0 {
    } else {
      hide Applied, Unit;
      NormIsOneForEver(m, es, hs, k - 1);
      assert Happens(m, es, hs, k - 1);
      EventKeepsUnit(m, hs[k - 1], es[k - 1]);
    }
  }

  // ----- stationarity -----

  /** The device in the middle of a sample, when stationarity has been decided. */
  ghost function Judged(m: Libm, h: Handle, raw: Raw): Device {
    StillUpdated(m, h.settings, Conditioned(h.settings, h.device, raw))
  }

  /** The device turns at most as fast as the one threshold, and its acceleration differs from
      1 g by at most the other. */
  ghost predicate SlowAtOneG(c: Settings, d: Device) {
    && Dot(d.accel, d.accel) > 0.000001
    && c.stillGyro > 0.0 && c.stillAccel >= 0.0
    && Dot(d.gyro, d.gyro) <= Square(c.stillGyro)
    && Dot(d.accel, d.accel) <= Square(1.0 + c.stillAccel)
    && (c.stillAccel < 1.0 ==> Dot(d.accel, d.accel) >= Square(1.0 - c.stillAccel))
  }

  lemma RootOrder(r: real, limit: real)
    requires r >= 0.0 && limit >= 0.0
    ensures r <= limit <==> Square(r) <= Square(limit)
  {
    var d, e := r - limit, r + limit;
    assert Square(r) - Square(limit) == d * e;
    if r > limit {
      assert d * e > 0.0;
    } else {
      assert (-d) * e >= 0.0;
    }
  }

  lemma DotIsNonNegative(a: Vec3)
    ensures Dot(a, a) >= 0.0
  {
    assert a.x * a.x >= 0.0 && a.y * a.y >= 0.0 && a.z * a.z >= 0.0;
  }

  lemma QuietIsSlowAtOneG(m: Libm, c: Settings, d: Device)
    requires m.Sound()
    ensures QuietSample(m, c, d) <==> SlowAtOneG(c, d)
  {
    var rate, pull := m.sqrt(Dot(d.gyro, d.gyro)), m.sqrt(Dot(d.accel, d.accel));
    DotIsNonNegative(d.gyro);
    DotIsNonNegative(d.accel);
    assert Square(rate) == Dot(d.gyro, d.gyro) && Square(pull) == Dot(d.accel, d.accel);
    hide Dot, Square, Libm.Sound;
    if c.stillGyro > 0.0 && c.stillAccel >= 0.0 {
      RootOrder(rate, c.stillGyro);
      RootOrder(pull, 1.0 + c.stillAccel);
      if c.stillAccel < 1.0 {
        RootOrder(1.0 - c.stillAccel, pull);
      }
    }
  }

  /** A quiet sample counts, a noisy one breaks the streak, and so do new thresholds and
      the two initialisations; every other call leaves the streak alone. */
  ghost function QuietMark(m: Libm, h: Handle, e: Event): Mark {
    match e
    case NewSample(raw) =>
      if SlowAtOneG(h.settings, Conditioned(h.settings, h.device, raw)) then Counts else Breaks
    case Initialised => Breaks
    case Begun => Breaks
    case DetectionSet(_, _, _) => Breaks
    case _ => Skips
  }

  ghost function QuietMarks(m: Libm, es: seq<Event>, hs: seq<Handle>): (ms: seq<Mark>)
    requires |hs| == |es| + 1
    ensures |ms| == |es| && forall k | 0 <= k < |es| :: ms[k] == QuietMark(m, hs[k], es[k])
  {
    seq(|es|, k requires 0 <= k < |es| && |hs| == |es| + 1 => QuietMark(m, hs[k], es[k]))
  }

  function Capped(n: nat, cap: nat): nat {
    if n < cap then n else cap
  }

  lemma StillUpdatedCounts(m: Libm, c: Settings, d: Device)
    ensures StillUpdated(m, c, d).stillCount ==
              (if !QuietSample(m, c, d) then 0 else if d.stillCount < Hold(c) then d.stillCount + 1 else d.stillCount)
    ensures StillUpdated(m, c, d).stationary <==> StillUpdated(m, c, d).stillCount >= Hold(c)
  {
  }

  lemma KeepsStillCount(c: Settings, d: Device, raw: Raw)
    ensures Conditioned(c, d, raw).stillCount == d.stillCount && Conditioned(c, d, raw).calmCount == d.calmCount
    ensures Conditioned(c, d, raw).bias == d.bias
  {
  }

  lemma EventCountsStillness(m: Libm, h: Handle, e: Event)
    requires m.Sound()
    ensures var d, n := Applied(m, h, e).device, h.device.stillCount;
      && d.stillCount == (match QuietMark(m, h, e)
                          case Counts => if n < Hold(h.settings) then n + 1 else n
                          case Breaks => 0
                          case Skips => n)
      && (e.NewSample? ==> (d.stationary <==> d.stillCount >= Hold(h.settings)))
      && (!e.NewSample? ==> d.stationary == (h.device.stationary && QuietMark(m, h, e) == Skips))
    ensures QuietMark(m, h, e) == Skips || e.NewSample? ==> Hold(Applied(m, h, e).settings) == Hold(h.settings)
  {
    if e.NewSample? {
      KeepsStillCount(h.settings, h.device, e.raw);
      StillUpdatedCounts(m, h.settings, Conditioned(h.settings, h.device, e.raw));
      QuietIsSlowAtOneG(m, h.settings, Conditioned(h.settings, h.device, e.raw));
      SampleParts(m, h.settings, h.device, e.raw);
    }
    hide Sampled, QuietSample, SlowAtOneG, Conditioned, StillUpdated, BiasUpdated, FromEuler, Unbiased;
  }

  /** Sample by sample, the parts of the device evolve on their own. */
  lemma SampleParts(m: Libm, c: Settings, d: Device, raw: Raw)
    ensures var j, s := StillUpdated(m, c, Conditioned(c, d, raw)), Sampled(m, c, d, raw);
      && s.stillCount == j.stillCount && s.stationary == j.stationary
      && s.bias == BiasUpdated(c, j, raw.gyro).bias && s.calmCount == BiasUpdated(c, j, raw.gyro).calmCount
  {
    hide Conditioned, QuietSample, Towards, MahonyStep, ComplementaryStep, Calm;
  }

  /** How many quiet samples the device has to hold. */
  ghost function Needed(c: Settings): nat {
    if c.holdSamples > 1 then c.holdSamples else 1
  }

  /** The saturating counter is the current streak of quiet samples. */
  lemma {:induction false} StillCountIsTheQuietRun(m: Libm, es: seq<Event>, hs: seq<Handle>, k: nat)
    requires Run(m, es, hs) && k <= |es|
    ensures hs[k].device.stillCount == Capped(Streak(QuietMarks(m, es, hs), k), Needed(hs[k].settings))
    ensures hs[k].device.stationary <==> Streak(QuietMarks(m, es, hs), k) >= Needed(hs[k].settings)
  {
    hide QuietMark;
    if k > 0 {
      hide Applied, Libm.Sound;
      StillCountIsTheQuietRun(m, es, hs, k - 1);
      assert Happens(m, es, hs, k - 1);
      EventCountsStillness(m, hs[k - 1], es[k - 1]);
      var ms := QuietMarks(m, es, hs);
      assert ms[k - 1] == QuietMark(m, hs[k - 1], es[k - 1]);
      NeededIsTheHold(hs[k - 1].settings);
      NeededIsTheHold(hs[k].settings);
      hide Needed, Hold, QuietMarks;
    }
  }

  lemma NeededIsTheHold(c: Settings)
    ensures Needed(c) == Hold(c) > 0
  {
  }

  /** The device is stationary exactly when, since some moment without noise, new
      thresholds or initialisation, there have been `hold` quiet samples; whatever else
      was called in between. */
  lemma StationaryExactlyWhenHeldQuiet(m: Libm, es: seq<Event>, hs: seq<Handle>, k: nat)
    requires Run(m, es, hs) && k <= |es|
    ensures var ms, hold := QuietMarks(m, es, hs), Needed(hs[k].settings);
      hs[k].device.stationary <==>
      exists a: nat | a <= k :: Unbroken(ms, a, k) && CountBetween(ms, a, k) >= hold
  {
    StillCountIsTheQuietRun(m, es, hs, k);
    StreakReaches(QuietMarks(m, es, hs), k, Needed(hs[k].settings));
    hide Applied, QuietMarks, Needed;
  }

  // ----- automatic bias -----

  /** Judged stationary, and no axis turns faster than 0.35 degrees per second. */
  ghost predicate AtRest(d: Device) {
    d.stationary && -0.35 <= d.gyro.x <= 0.35 && -0.35 <= d.gyro.y <= 0.35 && -0.35 <= d.gyro.z <= 0.35
  }

  lemma CalmIsAtRest(d: Device)
    ensures Calm(d) <==> AtRest(d)
  {
  }

  /** While learning is on, a sample judged stationary and slow on every axis counts; any
      other sample breaks the streak, and so does every call that touches the bias, the
      learning or the thresholds. */
  ghost function CalmMark(m: Libm, h: Handle, e: Event): Mark {
    match e
    case NewSample(raw) => if h.settings.autoBias && AtRest(Judged(m, h, raw)) then Counts else Breaks
    case Initialised => Breaks
    case Begun => Breaks
    case DetectionSet(_, _, _) => Breaks
    case BiasSet(_) => Breaks
    case AutoBiasSet(_, _) => Breaks
    case _ => Skips
  }

  ghost function CalmMarks(m: Libm, es: seq<Event>, hs: seq<Handle>): (ms: seq<Mark>)
    requires |hs| == |es| + 1
    ensures |ms| == |es| && forall k | 0 <= k < |es| :: ms[k] == CalmMark(m, hs[k], es[k])
  {
    seq(|es|, k requires 0 <= k < |es| && |hs| == |es| + 1 => CalmMark(m, hs[k], es[k]))
  }

  lemma JudgedKeepsBias(m: Libm, h: Handle, raw: Raw)
    ensures Judged(m, h, raw).calmCount == h.device.calmCount && Judged(m, h, raw).bias == h.device.bias
  {
    KeepsStillCount(h.settings, h.device, raw);
  }

  lemma EventCountsCalm(m: Libm, h: Handle, e: Event)
    requires h.settings.autoBias || h.device.calmCount == 0
    ensures var g, n := Applied(m, h, e), h.device.calmCount;
      && g.device.calmCount == (match CalmMark(m, h, e)
                                case Counts => if n < BIAS_LEARN_SAMPLES then n + 1 else n
                                case Breaks => 0
                                case Skips => n)
      && (g.settings.autoBias || g.device.calmCount == 0)
  {
    if e.NewSample? {
      JudgedKeepsBias(m, h, e.raw);
      CalmIsAtRest(Judged(m, h, e.raw));
      SampleParts(m, h.settings, h.device, e.raw);
    }
    hide Sampled, Conditioned, StillUpdated, Calm, AtRest, Learn, Towards, FromEuler, RejectionSq;
  }

  /** The calm counter is the current streak of calm samples, up to 600. */
  lemma {:induction false} CalmCountIsTheCalmRun(m: Libm, es: seq<Event>, hs: seq<Handle>, k: nat)
    requires Run(m, es, hs) && k <= |es|
    ensures hs[k].device.calmCount == Capped(Streak(CalmMarks(m, es, hs), k), BIAS_LEARN_SAMPLES)
    ensures hs[k].settings.autoBias || hs[k].device.calmCount == 0
  {
    hide CalmMark;
    if k > 0 {
      hide Applied;
      CalmCountIsTheCalmRun(m, es, hs, k - 1);
      assert Happens(m, es, hs, k - 1);
      EventCountsCalm(m, hs[k - 1], es[k - 1]);
      assert CalmMarks(m, es, hs)[k - 1] == CalmMark(m, hs[k - 1], es[k - 1]);
    }
  }

  /** Event `k` is a sample that learns: learning is on, and this sample and the 600
      samples before it were calm, with nothing in between that restarts the count. */
  ghost predicate Learns(m: Libm, es: seq<Event>, hs: seq<Handle>, k: nat)
    requires k < |es| && |hs| == |es| + 1
  {
    var ms := CalmMarks(m, es, hs);
    && Learn(hs[k].settings) > 0.0
    && ms[k] == Counts
    && exists a: nat | a <= k :: Unbroken(ms, a, k) && CountBetween(ms, a, k) >= BIAS_LEARN_SAMPLES
  }

  lemma LearnsWhenCounted(m: Libm, es: seq<Event>, hs: seq<Handle>, k: nat)
    requires Run(m, es, hs) && k < |es|
    ensures Learns(m, es, hs, k) <==>
              es[k].NewSample? && hs[k].settings.autoBias && Learn(hs[k].settings) > 0.0 &&
              hs[k].device.calmCount >= BIAS_LEARN_SAMPLES && Calm(Judged(m, hs[k], es[k].raw))
  {
    CalmCountIsTheCalmRun(m, es, hs, k);
    StreakReaches(CalmMarks(m, es, hs), k, BIAS_LEARN_SAMPLES);
    assert CalmMarks(m, es, hs)[k] == CalmMark(m, hs[k], es[k]);
    if es[k].NewSample? {
      CalmIsAtRest(Judged(m, hs[k], es[k].raw));
    }
    hide Applied, Judged, Calm, AtRest, Learn, CalmMarks;
  }

  /** The bias moves towards the raw rate exactly in the samples that learn, is replaced by
      a call that sets it or initialises the handle, and is kept by everything else; a
      sample never takes it outside the interval between its old value and the raw rate. */
  lemma BiasLearnsOnlyAfterLongCalm(m: Libm, es: seq<Event>, hs: seq<Handle>, k: nat)
    requires Run(m, es, hs) && k < |es|
    ensures hs[k + 1].device.bias ==
              if Learns(m, es, hs, k) then Towards(hs[k].device.bias, es[k].raw.gyro, Learn(hs[k].settings))
              else if es[k].BiasSet? then es[k].bias
              else if es[k].Initialised? then ZERO
              else hs[k].device.bias
    ensures es[k].NewSample? ==> BetweenEach(hs[k + 1].device.bias, hs[k].device.bias, es[k].raw.gyro)
  {
    assert Happens(m, es, hs, k);
    LearnsWhenCounted(m, es, hs, k);
    if es[k].NewSample? {
      var raw := es[k].raw;
      JudgedKeepsBias(m, hs[k], raw);
      SampleParts(m, hs[k].settings, hs[k].device, raw);
      TowardsIsBetween(hs[k].device.bias, raw.gyro, Learn(hs[k].settings));
    }
    hide Sampled, Conditioned, StillUpdated, Calm, Learns, Towards, FromEuler, Configured;
  }

  ghost predicate BetweenEach(v: Vec3, a: Vec3, b: Vec3) {
    Between(v.x, a.x, b.x) && Between(v.y, a.y, b.y) && Between(v.z, a.z, b.z)
  }

  ghost predicate Between(v: real, a: real, b: real) {
    a <= v <= b || b <= v <= a
  }

  lemma StepIsBetween(bias: real, raw: real, learn: real)
    requires 0.0 <= learn <= 1.0
    ensures Between(bias + (raw - bias) * learn, bias, raw)
  {
    var d, rest := raw - bias, 1.0 - learn;
    var part := d * learn;
    assert part + d * rest == d;
    if d >= 0.0 {
      assert part >= 0.0;
      assert d * rest >= 0.0;
    } else {
      assert part <= 0.0;
      assert d * rest <= 0.0;
    }
  }

  lemma TowardsIsBetween(bias: Vec3, raw: Vec3, learn: real)
    requires 0.0 <= learn <= 1.0
    ensures BetweenEach(Towards(bias, raw, learn), bias, raw) && BetweenEach(bias, bias, raw)
  {
    StepIsBetween(bias.x, raw.x, learn);
    StepIsBetween(bias.y, raw.y, learn);
    StepIsBetween(bias.z, raw.z, learn);
  }

  ghost function Power(x: real, n: nat): real {
    if n == 0 then 1.0 else x * Power(x, n - 1)
  }

  /** In `a .. b - 1` every sample learns from the same rate, and nothing sets the bias or
      the learning. */
  ghost predicate SteadyLearning(m: Libm, es: seq<Event>, hs: seq<Handle>, a: nat, b: nat, rate: Vec3)
    requires b <= |es| && |hs| == |es| + 1
  {
    forall j | a <= j < b :: LearnsFrom(m, es, hs, j, rate)
  }

  ghost predicate LearnsFrom(m: Libm, es: seq<Event>, hs: seq<Handle>, j: nat, rate: Vec3)
    requires j < |es| && |hs| == |es| + 1
  {
    && !es[j].BiasSet? && !es[j].AutoBiasSet? && !es[j].Initialised?
    && (es[j].NewSample? ==> Learns(m, es, hs, j) && es[j].raw.gyro == rate)
  }

  function SamplesIn(es: seq<Event>, a: nat, b: nat): nat
    requires b <= |es|
    decreases b
  {
    if b <= a then 0 else SamplesIn(es, a, b - 1) + if es[b - 1].NewSample? then 1 else 0
  }

  lemma LearningRateIsKept(m: Libm, h: Handle, e: Event)
    requires !e.AutoBiasSet? && !e.Initialised?
    ensures Learn(Applied(m, h, e).settings) == Learn(h.settings)
  {
    hide Affected, RejectionSq;
  }

  /** On a constant rate the bias closes in geometrically, by one factor per sample. */
  lemma {:induction false} BiasConvergesGeometrically(
      m: Libm, es: seq<Event>, hs: seq<Handle>, a: nat, b: nat, rate: Vec3)
    requires Run(m, es, hs) && a <= b <= |es| && SteadyLearning(m, es, hs, a, b, rate)
    ensures Learn(hs[b].settings) == Learn(hs[a].settings)
    ensures Minus(hs[b].device.bias, rate) ==
              Times(Power(1.0 - Learn(hs[a].settings), SamplesIn(es, a, b)), Minus(hs[a].device.bias, rate))
  {
    hide Learns, Learn, Towards, Minus, Times, Applied;
    if a == b {
      TimesOne(Minus(hs[a].device.bias, rate));
    } else {
      BiasConvergesGeometrically(m, es, hs, a, b - 1, rate);
      assert LearnsFrom(m, es, hs, b - 1, rate) && Happens(m, es, hs, b - 1);
      LearningRateIsKept(m, hs[b - 1], es[b - 1]);
      BiasLearnsOnlyAfterLongCalm(m, es, hs, b - 1);
      if es[b - 1].NewSample? {
        var l, n := Learn(hs[a].settings), SamplesIn(es, a, b - 1);
        ErrorShrinks(hs[b - 1].device.bias, rate, l, Power(1.0 - l, n), Power(1.0 - l, n + 1),
                     Minus(hs[a].device.bias, rate));
      } else {
        LearnsNeedsASample(m, es, hs, b - 1);
      }
    }
  }

  lemma LearnsNeedsASample(m: Libm, es: seq<Event>, hs: seq<Handle>, k: nat)
    requires k < |es| && |hs| == |es| + 1
    ensures Learns(m, es, hs, k) ==> es[k].NewSample?
  {
    assert CalmMarks(m, es, hs)[k] == CalmMark(m, hs[k], es[k]);
  }

  lemma TimesOne(v: Vec3)
    ensures Times(1.0, v) == v
  {
  }

  lemma ErrorShrinks(bias: Vec3, rate: Vec3, l: real, p: real, q: real, e: Vec3)
    requires Minus(bias, rate) == Times(p, e) && q == (1.0 - l) * p
    ensures Minus(Towards(bias, rate, l), rate) == Times(q, e)
  {
    ComponentShrinks(bias.x, rate.x, l, p, e.x);
    ComponentShrinks(bias.y, rate.y, l, p, e.y);
    ComponentShrinks(bias.z, rate.z, l, p, e.z);
  }

  lemma ComponentShrinks(bias: real, rate: real, l: real, p: real, e: real)
    requires bias - rate == p * e
    ensures bias + (rate - bias) * l - rate == ((1.0 - l) * p) * e
  {
    assert bias + (rate - bias) * l - rate == (bias - rate) * (1.0 - l);
    assert (p * e) * (1.0 - l) == ((1.0 - l) * p) * e;
  }

  /** The calls that end the start-up calibration and switch learning on. */
  function Operation(bias: Vec3, zScale: real, rate: real): seq<Event> {
    [BiasSet(bias), ScaleSet(Vec3(1.0, 1.0, zScale)), AutoBiasSet(true, rate), LowPassReset, AttitudeReset]
  }

  function AppliedAll(m: Libm, h: Handle, es: seq<Event>): Handle {
    if es == [] then h else Applied(m, AppliedAll(m, h, es[..|es| - 1]), es[|es| - 1])
  }

  lemma OneMore(m: Libm, h: Handle, es: seq<Event>, e: Event)
    ensures AppliedAll(m, h, es + [e]) == Applied(m, AppliedAll(m, h, es), e)
  {
    hide Applied;
    assert (es + [e])[..|es|] == es;
  }

  /** What the start-up calibration does to the device once it has a quiet block. */
  method BeginOperation(imu: Imu, bias: Vec3, zScale: real, rate: real)
    requires imu.Valid()
    modifies imu
    ensures imu.Valid() && imu.ready == old(imu.ready)
    ensures imu.Whole() == AppliedAll(imu.libm, old(imu.Whole()), Operation(bias, zScale, rate))
  {
    hide Applied, AppliedAll, NormSq;
    ghost var m, h, op := imu.libm, imu.Whole(), Operation(bias, zScale, rate);
    assert AppliedAll(m, h, []) == h by { NothingApplied(m, h); }
    imu.SetGyroBias(bias);
    OneMore(m, h, [], op[0]);
    imu.SetGyroScale(Vec3(1.0, 1.0, zScale));
    OneMore(m, h, op[..1], op[1]);
    imu.SetGyroBiasAutoUpdate(true, rate);
    OneMore(m, h, op[..2], op[2]);
    imu.ResetSampleLowPass();
    OneMore(m, h, op[..3], op[3]);
    imu.ResetAttitude();
    OneMore(m, h, op[..4], op[4]);
    assert [] + [op[0]] == op[..1] && op[..1] + [op[1]] == op[..2] && op[..2] + [op[2]] == op[..3];
    assert op[..3] + [op[3]] == op[..4] && op[..4] + [op[4]] == op;
  }

  lemma NothingApplied(m: Libm, h: Handle)
    ensures AppliedAll(m, h, []) == h
  {
  }

  /** Operation begins with a device that is as stationary as it was when the calibration
      ended, but learning starts its count of calm samples afresh. */
  lemma OperationBeginsStill(m: Libm, es: seq<Event>, hs: seq<Handle>, k: nat, bias: Vec3, zScale: real, rate: real)
    requires Run(m, es, hs) && k + 5 <= |es| && es[k..k + 5] == Operation(bias, zScale, rate)
    ensures var before, after := hs[k].device, hs[k + 5];
      && after.device.stationary == before.stationary && after.device.stillCount == before.stillCount
      && after.settings.autoBias && after.device.bias == bias && after.device.calmCount == 0
      && after.device.attitude == Level()
  {
    var op := Operation(bias, zScale, rate);
    assert op[0] == es[k] && op[1] == es[k + 1] && op[2] == es[k + 2] && op[3] == es[k + 3] && op[4] == es[k + 4];
    assert Happens(m, es, hs, k) && Happens(m, es, hs, k + 1) && Happens(m, es, hs, k + 2);
    assert Happens(m, es, hs, k + 3) && Happens(m, es, hs, k + 4);
    hide Sampled, FromEuler, RejectionSq;
  }

  // ----- the published rate -----

  lemma LpfOffPassesThrough(prev: Vec3, input: Vec3, cutoff: real, dt: real)
    requires cutoff <= 0.0 || dt <= 0.0
    ensures LpfVec(prev, input, cutoff, dt) == input
  {
  }

  lemma ShiftCompensates(raw: Vec3, o: Vec3, n: Vec3, scale: Vec3)
    ensures Minus(Each(Minus(raw, o), scale), Each(Minus(n, o), scale)) == Each(Minus(raw, n), scale)
  {
  }

  /** With the gyro low-pass off, the rate a sample publishes is the raw rate less the bias
      in force after the sample, on the scale then set, even when that sample learned. */
  lemma PublishedRateUsesTheCurrentBias(m: Libm, es: seq<Event>, hs: seq<Handle>, k: nat)
    requires Run(m, es, hs) && k < |es| && es[k].NewSample?
    requires hs[k].settings.gyroCutoff <= 0.0 || hs[k].settings.gains.dt <= 0.0
    ensures hs[k + 1].device.gyro == Calibrated(es[k].raw.gyro, hs[k + 1].device.bias, hs[k].settings.scale)
  {
    hide Sampled, Minus, Each, LpfVec, Calibrated;
    var c, d, raw := hs[k].settings, hs[k].device, es[k].raw;
    assert Happens(m, es, hs, k);
    LpfOffPassesThrough(d.gyro, Unbiased(c, raw.gyro, d.bias), c.gyroCutoff, c.gains.dt);
    GyroIsOnlyShifted(m, c, d, raw);
    ShiftCompensates(raw.gyro, d.bias, hs[k + 1].device.bias, c.scale);
    ScaledDifference(raw.gyro, hs[k + 1].device.bias, c.scale);
  }

  /** A rate without its bias, on its scale. */
  ghost function Calibrated(rate: Vec3, bias: Vec3, scale: Vec3): Vec3 {
    Vec3((rate.x - bias.x) * scale.x, (rate.y - bias.y) * scale.y, (rate.z - bias.z) * scale.z)
  }

  lemma ScaledDifference(a: Vec3, b: Vec3, scale: Vec3)
    ensures Each(Minus(a, b), scale) == Calibrated(a, b, scale)
  {
  }

  lemma GyroIsOnlyShifted(m: Libm, c: Settings, d: Device, raw: Raw)
    ensures Sampled(m, c, d, raw).gyro ==
              Minus(Conditioned(c, d, raw).gyro, Each(Minus(Sampled(m, c, d, raw).bias, d.bias), c.scale))
  {
    hide Conditioned, QuietSample, Towards, MahonyStep, ComplementaryStep, Calm, Minus, Each;
  }

  // ----- yaw -----

  /** The last sample locked the yaw: stationary, and turning at most 0.25 dps. */
  ghost predicate Locked(d: Device) {
    d.stationary && -0.25 <= d.gyro.z <= 0.25
  }

  lemma LockedIsYawLocked(d: Device)
    ensures Locked(d) <==> YawLocked(Sample(d.accel, d.gyro, d.stationary))
  {
  }

  ghost predicate LevelsYaw(e: Event) {
    e.AttitudeReset? || e.Begun? || e.Initialised?
  }

  lemma SampleYaw(m: Libm, c: Settings, d: Device, raw: Raw)
    requires m.Sound() && Unit(d.attitude.quat)
    ensures var e := Sampled(m, c, d, raw); var s := Sample(e.accel, e.gyro, e.stationary);
            && (YawLocked(s) ==> e.attitude.yaw == d.attitude.yaw)
            && (!YawLocked(s) && c.mode == Mahony6Axis ==>
                e.attitude.yaw == Unwrapped(d.attitude.yaw, Reading(m, e.attitude.quat)))
  {
    var shifted := Shifted(c, BiasUpdated(c, StillUpdated(m, c, Conditioned(c, d, raw)), raw.gyro), d.bias);
    assert shifted.attitude == d.attitude by {
      hide Unbiased, LpfVec, Towards, Minus, Each, QuietSample, Calm, MahonyStep;
    }
    MahonyKeepsUnit(m, c.gains, d.attitude, Sample(shifted.accel, shifted.gyro, shifted.stationary));
    hide MahonyStep, Unit, Conditioned, StillUpdated, BiasUpdated, Shifted, Unwrapped, Reading, YawLocked;
  }

  lemma EventYaw(m: Libm, h: Handle, e: Event)
    requires m.Sound() && Unit(h.device.attitude.quat) && !LevelsYaw(e)
    ensures var d := Applied(m, h, e).device;
      && (!e.NewSample? || Locked(d) ==> d.attitude.yaw == h.device.attitude.yaw)
      && (e.NewSample? && !Locked(d) && h.settings.mode == Mahony6Axis ==>
          d.attitude.yaw == Unwrapped(h.device.attitude.yaw, Reading(m, d.attitude.quat)))
  {
    if e.NewSample? {
      SampleYaw(m, h.settings, h.device, e.raw);
      LockedIsYawLocked(Applied(m, h, e).device);
    }
    hide Locked, Sampled, Unit, YawLocked, Unwrapped, Reading, FromEuler, Configured;
  }

  /** As long as no sample turns fast enough to unlock the yaw and nobody levels it, it does
      not drift at all; in either filter, whatever is reconfigured meanwhile. */
  lemma {:induction false} LockedYawNeverDrifts(m: Libm, es: seq<Event>, hs: seq<Handle>, a: nat, b: nat)
    requires Run(m, es, hs) && a <= b <= |es|
    requires forall k | a <= k < b :: !LevelsYaw(es[k]) && (es[k].NewSample? ==> Locked(hs[k + 1].device))
    ensures hs[b].device.attitude.yaw == hs[a].device.attitude.yaw
  {
    hide Applied, Unit, Locked;
    if a < b {
      LockedYawNeverDrifts(m, es, hs, a, b - 1);
      assert Happens(m, es, hs, b - 1);
      NormIsOneForEver(m, es, hs, b - 1);
      EventYaw(m, hs[b - 1], es[b - 1]);
    }
  }

  /** Event `k` shows the heading: a sample of the quaternion filter whose quaternion reads
      it, unlocked and at most half a turn on, or a call that moves neither yaw nor heading. */
  ghost predicate HeadingShown(m: Libm, es: seq<Event>, hs: seq<Handle>, headings: seq<real>, k: nat)
    requires k < |es| && |headings| == |hs| == |es| + 1
  {
    if es[k].NewSample? then
      && hs[k].settings.mode == Mahony6Axis && !Locked(hs[k + 1].device)
      && Congruent(Reading(m, hs[k + 1].device.attitude.quat), headings[k + 1])
      && -180.0 < headings[k + 1] - headings[k] <= 180.0
    else !LevelsYaw(es[k]) && headings[k + 1] == headings[k]
  }

  /** In the quaternion filter, over any stretch of unlocked samples, the published yaw
      changes by exactly the cumulative change of the heading the quaternion shows, however
      many turns that is and whatever is recalibrated meanwhile. */
  lemma {:induction false} PublishedYawTracksHeading(
      m: Libm, es: seq<Event>, hs: seq<Handle>, headings: seq<real>, a: nat, b: nat)
    requires Run(m, es, hs) && a <= b <= |es| && |headings| == |hs|
    requires Congruent(hs[a].device.attitude.yaw, headings[a])
    requires forall k | a <= k < b :: HeadingShown(m, es, hs, headings, k)
    ensures Congruent(hs[b].device.attitude.yaw, headings[b])
    ensures hs[b].device.attitude.yaw - hs[a].device.attitude.yaw == headings[b] - headings[a]
  {
    hide Applied, Unit, Locked, Congruent, Unwrapped, Reading;
    if a < b {
      PublishedYawTracksHeading(m, es, hs, headings, a, b - 1);
      assert Happens(m, es, hs, b - 1) && HeadingShown(m, es, hs, headings, b - 1);
      NormIsOneForEver(m, es, hs, b - 1);
      EventYaw(m, hs[b - 1], es[b - 1]);
      if es[b - 1].NewSample? {
        UnwrappingFollows(hs[b - 1].device.attitude.yaw, Reading(m, hs[b].device.attitude.quat),
                          headings[b - 1], headings[b]);
      }
    }
  }
}
