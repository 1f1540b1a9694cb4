/** The attitude estimate: Mahony feedback, quaternion integration, Euler angles and
    the unwrapped yaw, in exact real arithmetic. The C library's square root and
    trigonometry enter only through what they promise. */
module AttitudeFilter {
  import opened Quaternions

  const DEG_TO_RAD := 0.0174532925
  const RAD_TO_DEG := 57.2957795
  const MIN_NORM_SQ := 0.000001
  const YAW_LOCK_GYRO_DPS := 0.25

  datatype Libm = Libm(sqrt: real -> real, sin: real -> real, cos: real -> real,
                       asin: real -> real, atan2: (real, real) -> real)
  {
    ghost predicate Sound() {
      && (forall x {:trigger sqrt(x)} | x >= 0.0 :: sqrt(x) >= 0.0 && sqrt(x) * sqrt(x) == x)
      && (forall x {:trigger sin(x)} {:trigger cos(x)} :: sin(x) * sin(x) + cos(x) * cos(x) == 1.0)
      && forall y, x {:trigger atan2(y, x)} :: -3.1415926536 <= atan2(y, x) <= 3.1415926536
    }
  }

  function Abs(x: real): real {
    if x < 0.0 then -x else x
  }

  function Clamp(x: real, lo: real, hi: real): real {
    if x < lo then lo else if x > hi then hi else x
  }

  datatype Gains = Gains(dt: real, kp: real, ki: real, trustWindow: real, rejectionSq: real)

  datatype Attitude = Attitude(quat: Quat, integral: Vec3, pitch: real, roll: real, yaw: real)

  function Level(): Attitude {
    Attitude(IDENTITY, ZERO, 0.0, 0.0, 0.0)
  }

  /** One conditioned sample: acceleration in g, angular rate in degrees per second. */
  datatype Sample = Sample(accel: Vec3, gyro: Vec3, stationary: bool)

  // ----- unwrapping -----

  /** The full turns by which an angle lies outside (-180, 180]. */
  function Turns(a: real): int {
    -((180.0 - a) / 360.0).Floor
  }

  function Wrap180(a: real): (r: real)
    ensures -180.0 < r <= 180.0
    ensures r == a - 360.0 * (Turns(a) as real)
  {
    a - 360.0 * (Turns(a) as real)
  }

  /** The angles differ by a whole number of turns. */
  ghost predicate Congruent(a: real, b: real) {
    exists k: int :: ByTurns(a, b, k)
  }

  ghost predicate ByTurns(a: real, b: real, k: int) {
    a == b + 360.0 * (k as real)
  }

  /** An angle has exactly one representative in (-180, 180]. */
  lemma WrapIsTheRepresentative(a: real, r: real)
    requires Congruent(a, r)
    ensures Congruent(a, Wrap180(a))
    ensures r == Wrap180(a) <==> -180.0 < r <= 180.0
  {
    var k: int :| ByTurns(a, r, k);
    assert ByTurns(a, Wrap180(a), Turns(a));
    assert (Turns(a) - k) as real == Turns(a) as real - k as real;
  }

  /** The loop form the firmware uses. */
  method WrapDegrees180(angle: real) returns (r: real)
    ensures r == Wrap180(angle)
  {
    r := angle;
    ghost var k := 0;
    while r > 180.0
      invariant ByTurns(angle, r, k)
      invariant angle > 180.0 ==> r > -180.0
      invariant angle <= 180.0 ==> r == angle
      decreases if r > 180.0 then ((r - 180.0) / 360.0).Floor + 1 else 0
    {
      r := r - 360.0;
      k := k + 1;
    }
    while r <= -180.0
      invariant ByTurns(angle, r, k) && r <= 180.0
      decreases if r <= -180.0 then ((-180.0 - r) / 360.0).Floor + 1 else 0
    {
      r := r + 360.0;
      k := k - 1;
    }
    WrapIsTheRepresentative(angle, r);
  }

  /** The new continuous yaw, from the previous one and a reading in (-180, 180]. */
  function Unwrapped(previous: real, reading: real): real {
    previous + Wrap180(reading - Wrap180(previous))
  }

  /** One sample of unwrapping follows the true heading's change exactly when the
      heading moves by more than -180 and at most 180 degrees; in any case it stays
      congruent to the true heading. */
  lemma UnwrappingFollows(previous: real, reading: real, was: real, here: real)
    requires Congruent(previous, was) && Congruent(reading, here)
    ensures Congruent(Unwrapped(previous, reading), here)
    ensures Unwrapped(previous, reading) - previous == here - was <==> -180.0 < here - was <= 180.0
  {
    var j: int :| ByTurns(previous, was, j);
    var k: int :| ByTurns(reading, here, k);
    var d := reading - Wrap180(previous);
    assert ByTurns(d, here - was, k - j + Turns(previous));
    WrapIsTheRepresentative(d, here - was);
    assert ByTurns(Unwrapped(previous, reading), here, k + Turns(previous) - Turns(d));
  }

  /** A run of the unwrapping: continuous yaws and the readings that extended them. */
  ghost predicate Unwraps(yaws: seq<real>, readings: seq<real>) {
    |yaws| == |readings| + 1 && forall k | 0 <= k < |readings| :: UnwrapsAt(yaws, readings, k)
  }

  ghost predicate UnwrapsAt(yaws: seq<real>, readings: seq<real>, k: nat)
    requires k < |readings| && |yaws| == |readings| + 1
  {
    yaws[k + 1] == Unwrapped(yaws[k], readings[k])
  }

  /** `headings[0]` is where the run starts; reading `k` shows `headings[k + 1]`. */
  ghost predicate Shows(readings: seq<real>, headings: seq<real>) {
    |headings| == |readings| + 1 && forall k | 0 <= k < |readings| :: ShowsAt(readings, headings, k)
  }

  ghost predicate ShowsAt(readings: seq<real>, headings: seq<real>, k: nat)
    requires k < |readings| && |headings| == |readings| + 1
  {
    Congruent(readings[k], headings[k + 1]) && -180.0 < headings[k + 1] - headings[k] <= 180.0
  }

  /** If the heading moves by at most half a turn per sample, the continuous yaw
      changes by exactly the cumulative change of the true heading, for ever. */
  lemma {:induction false} YawTracksHeading(yaws: seq<real>, readings: seq<real>, headings: seq<real>, k: nat)
    requires Unwraps(yaws, readings) && Shows(readings, headings) && k <= |readings|
    requires Congruent(yaws[0], headings[0])
    ensures Congruent(yaws[k], headings[k])
    ensures yaws[k] - yaws[0] == headings[k] - headings[0]
  {
    hide Unwrapped, Congruent;
    if k > 0 {
      YawTracksHeading(yaws, readings, headings, k - 1);
      assert UnwrapsAt(yaws, readings, k - 1) && ShowsAt(readings, headings, k - 1);
      UnwrappingFollows(yaws[k - 1], readings[k - 1], headings[k - 1], headings[k]);
    }
  }

  // ----- Euler angles -----

  function AheadY(q: Quat): real {
    2.0 * (q.w * q.z + q.x * q.y)
  }

  function AheadX(q: Quat): real {
    1.0 - 2.0 * (q.y * q.y + q.z * q.z)
  }

  function UpY(q: Quat): real {
    2.0 * (q.w * q.x + q.y * q.z)
  }

  function UpZ(q: Quat): real {
    1.0 - 2.0 * (q.x * q.x + q.y * q.y)
  }

  function Reading(m: Libm, q: Quat): real {
    m.atan2(AheadY(q), AheadX(q)) * RAD_TO_DEG
  }

  function SinPitch(q: Quat): real {
    2.0 * (q.w * q.y - q.z * q.x)
  }

  function PitchOf(m: Libm, q: Quat): real {
    m.atan2(UpY(q), UpZ(q)) * RAD_TO_DEG
  }

  function RollOf(m: Libm, q: Quat): real {
    m.asin(Clamp(SinPitch(q), -1.0, 1.0)) * RAD_TO_DEG
  }

  function WithEuler(m: Libm, a: Attitude): Attitude {
    a.(pitch := PitchOf(m, a.quat), roll := RollOf(m, a.quat), yaw := Unwrapped(a.yaw, Reading(m, a.quat)))
  }

  /** A reading is never on the cut of the circle. */
  lemma ReadingRange(m: Libm, q: Quat)
    requires m.Sound()
    ensures -180.0 < Reading(m, q) < 180.0 && Wrap180(Reading(m, q)) == Reading(m, q)
  {
    var r := m.atan2(AheadY(q), AheadX(q));
    assert -3.1415926536 <= r <= 3.1415926536;
    assert -180.0 < r * RAD_TO_DEG < 180.0;
  }

  lemma TwiceAProduct(a: real, b: real)
    ensures -(a * a + b * b) <= 2.0 * (a * b) <= a * a + b * b
  {
    var d, s := a - b, a + b;
    assert d * d >= 0.0 && s * s >= 0.0;
    assert d * d == a * a + b * b - 2.0 * (a * b);
    assert s * s == a * a + b * b + 2.0 * (a * b);
  }

  /** For a unit quaternion the clamp before the arc sine does nothing. */
  lemma ClampIsIdle(q: Quat)
    requires Unit(q)
    ensures -1.0 <= SinPitch(q) <= 1.0 && Clamp(SinPitch(q), -1.0, 1.0) == SinPitch(q)
  {
    TwiceAProduct(q.w, q.y);
    TwiceAProduct(q.z, q.x);
  }

  /** The axis product, from the half angles' cosines and sines. */
  function AxisProduct(cr: real, sr: real, cp: real, sp: real, cy: real, sy: real): Quat {
    Quat(cr * cp * cy + sr * sp * sy, sr * cp * cy - cr * sp * sy,
         cr * sp * cy + sr * cp * sy, cr * cp * sy - sr * sp * cy)
  }

  function FromEuler(m: Libm, pitch: real, roll: real, yaw: real): Quat {
    var x, y, z := pitch * DEG_TO_RAD * 0.5, roll * DEG_TO_RAD * 0.5, yaw * DEG_TO_RAD * 0.5;
    AxisProduct(m.cos(x), m.sin(x), m.cos(y), m.sin(y), m.cos(z), m.sin(z))
  }

  lemma AxisProductNorm(cr: real, sr: real, cp: real, sp: real, cy: real, sy: real)
    ensures NormSq(AxisProduct(cr, sr, cp, sp, cy, sy)) ==
              (cr * cr + sr * sr) * (cp * cp + sp * sp) * (cy * cy + sy * sy)
  {
  }

  lemma FromEulerIsUnit(m: Libm, pitch: real, roll: real, yaw: real)
    requires m.Sound()
    ensures Unit(FromEuler(m, pitch, roll, yaw))
  {
    var x, y, z := pitch * DEG_TO_RAD * 0.5, roll * DEG_TO_RAD * 0.5, yaw * DEG_TO_RAD * 0.5;
    assert m.sin(x) * m.sin(x) + m.cos(x) * m.cos(x) == 1.0;
    assert m.sin(y) * m.sin(y) + m.cos(y) * m.cos(y) == 1.0;
    assert m.sin(z) * m.sin(z) + m.cos(z) * m.cos(z) == 1.0;
    AxisProductIsUnit(m.cos(x), m.sin(x), m.cos(y), m.sin(y), m.cos(z), m.sin(z));
    hide AxisProduct, NormSq, Libm.Sound;
  }

  lemma AxisProductIsUnit(cr: real, sr: real, cp: real, sp: real, cy: real, sy: real)
    requires sr * sr + cr * cr == 1.0 && sp * sp + cp * cp == 1.0 && sy * sy + cy * cy == 1.0
    ensures Unit(AxisProduct(cr, sr, cp, sp, cy, sy))
  {
    AxisProductNorm(cr, sr, cp, sp, cy, sy);
    hide AxisProduct;
  }

  // ----- the Mahony step -----

  predicate YawLocked(s: Sample) {
    s.stationary && Abs(s.gyro.z) <= YAW_LOCK_GYRO_DPS
  }

  predicate AccelTrusted(m: Libm, g: Gains, accel: Vec3) {
    && Dot(accel, accel) > MIN_NORM_SQ
    && (g.trustWindow <= 0.0 || Abs(m.sqrt(Dot(accel, accel)) - 1.0) <= g.trustWindow)
  }

  /** Half the cross product of the measured and the predicted gravity. */
  function HalfError(q: Quat, a: Vec3): Vec3 {
    var vx := q.x * q.z - q.w * q.y;
    var vy := q.w * q.x + q.y * q.z;
    var vz := q.w * q.w - 0.5 + q.z * q.z;
    Vec3(a.y * vz - a.z * vy, a.z * vx - a.x * vz, a.x * vy - a.y * vx)
  }

  function Direction(m: Libm, a: Vec3): Vec3 {
    var norm := m.sqrt(Dot(a, a));
    if norm == 0.0 then ZERO else Vec3(a.x / norm, a.y / norm, a.z / norm)
  }

  datatype Corrected = Corrected(rate: Vec3, integral: Vec3)

  function Feedback(m: Libm, g: Gains, a: Attitude, s: Sample): Corrected {
    var rate := Times(DEG_TO_RAD, s.gyro);
    if !AccelTrusted(m, g, s.accel) then Corrected(rate, a.integral)
    else
      var e := HalfError(a.quat, Direction(m, s.accel));
      var trusted := s.stationary || g.rejectionSq <= 0.0 || Dot(e, e) <= g.rejectionSq;
      var integral :=
        if trusted && g.ki > 0.0 then Plus(a.integral, Times(g.ki * g.dt, e))
        else if g.ki <= 0.0 then ZERO
        else a.integral;
      var integrated := if trusted && g.ki > 0.0 then Plus(rate, integral) else rate;
      Corrected(if trusted then Plus(integrated, Times(g.kp, e)) else integrated, integral)
  }

  function Held(c: Corrected): Corrected {
    Corrected(c.rate.(z := 0.0), c.integral.(z := 0.0))
  }

  /** A vanishing quaternion resets the attitude. */
  function Normalised(m: Libm, a: Attitude, q: Quat): Attitude {
    var n := NormSq(q);
    if n > MIN_NORM_SQ && m.sqrt(n) != 0.0 then a.(quat := Scaled(q, 1.0 / m.sqrt(n))) else Level()
  }

  /** Rotates by the corrected rate and renormalises. */
  function Rotated(m: Libm, g: Gains, a: Attitude, c: Corrected): Attitude {
    Normalised(m, a.(integral := c.integral), Product(a.quat, Increment(c.rate, 0.5 * g.dt)))
  }

  function MahonyStep(m: Libm, g: Gains, a: Attitude, s: Sample): Attitude {
    var c := Feedback(m, g, a, s);
    var e := WithEuler(m, Rotated(m, g, a, if YawLocked(s) then Held(c) else c));
    if YawLocked(s) then e.(yaw := a.yaw, quat := FromEuler(m, e.pitch, e.roll, a.yaw)) else e
  }

  lemma NormalisingIsUnit(q: Quat, root: real)
    requires root > 0.0 && root * root == NormSq(q)
    ensures Unit(Scaled(q, 1.0 / root))
  {
    var k := 1.0 / root;
    assert root * k == 1.0;
    ScaledNorm(q, k);
    assert NormSq(q) * k * k == (root * k) * (root * k);
  }

  /** From a unit quaternion the reset branch is dead, whatever the rates: the
      rotated quaternion has unit norm again. */
  lemma RotationKeepsUnit(m: Libm, g: Gains, a: Attitude, c: Corrected)
    requires m.Sound() && Unit(a.quat)
    ensures Unit(Rotated(m, g, a, c).quat)
    ensures Rotated(m, g, a, c) == a.(quat := Rotated(m, g, a, c).quat, integral := c.integral)
    ensures NormSq(Product(a.quat, Increment(c.rate, 0.5 * g.dt))) > 0.19
  {
    var h := 0.5 * g.dt;
    var d := Increment(c.rate, h);
    var n := NormSq(Product(a.quat, d));
    FourSquares(a.quat, d);
    IncrementNorm(c.rate, h);
    HalfAngleIsNonNegative(c.rate, h);
    IncrementNormIsBounded(HalfAngleSq(c.rate, h));
    assert n == IncrementNormSq(HalfAngleSq(c.rate, h));
    assert m.sqrt(n) * m.sqrt(n) == n;
    NormalisingIsUnit(Product(a.quat, d), m.sqrt(n));
  }

  lemma HalfAngleIsNonNegative(rate: Vec3, h: real)
    ensures HalfAngleSq(rate, h) >= 0.0
  {
    assert rate.x * rate.x >= 0.0 && rate.y * rate.y >= 0.0 && rate.z * rate.z >= 0.0;
    var d := Dot(rate, rate);
    assert h * h >= 0.0;
    assert d * h * h == d * (h * h);
  }

  /** One Mahony step keeps the unit norm and never resets; a locked yaw does not
      move, a free yaw follows its reading. */
  lemma MahonyKeepsUnit(m: Libm, g: Gains, a: Attitude, s: Sample)
    requires m.Sound() && Unit(a.quat)
    ensures Unit(MahonyStep(m, g, a, s).quat)
    ensures YawLocked(s) ==> MahonyStep(m, g, a, s).yaw == a.yaw
    ensures !YawLocked(s) ==>
              MahonyStep(m, g, a, s).yaw == Unwrapped(a.yaw, Reading(m, MahonyStep(m, g, a, s).quat))
  {
    var c := Feedback(m, g, a, s);
    var locked := if YawLocked(s) then Held(c) else c;
    RotationKeepsUnit(m, g, a, locked);
    var e := WithEuler(m, Rotated(m, g, a, locked));
    FromEulerIsUnit(m, e.pitch, e.roll, a.yaw);
    hide Feedback, Held, Rotated, FromEuler, Reading, PitchOf, RollOf, Unwrapped, NormSq;
  }
}
