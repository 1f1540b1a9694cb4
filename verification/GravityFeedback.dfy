/** What the accelerometer does for the attitude: its angles are those of the gravity it
    shows, and its feedback turns the estimate towards that gravity. */
module GravityFeedback {
  import opened Quaternions
  import opened AttitudeFilter
  import opened AttitudeGeometry
  import opened ImuDevice

  // ----- the accelerometer's angles -----

  /** Pitch and roll computed from an acceleration are exactly those of an attitude in which
      gravity would show that acceleration. */
  lemma AccelAnglesAreTheTilt(m: Libm, a: Vec3) returns (pitch: real, roll: real)
    requires m.Sound() && Polar(m)
    ensures AccelPitch(m, a) == pitch * RAD_TO_DEG && AccelRoll(m, a) == roll * RAD_TO_DEG
    ensures a == Times(m.sqrt(Dot(a, a)), Tilted(m, pitch, roll))
  {
    var side, whole := SideSq(a), Dot(a, a);
    var across := m.sqrt(side);
    pitch, roll := m.atan2(a.y, a.z), m.atan2(-a.x, across);
    Sides(m, a, across);
    PlaneAngle(m, a.y, a.z, side);
    PlaneAngle(m, -a.x, across, whole);
    hide SideSq, Dot, Polar, Libm.Sound, Times, Tilted, OnRay;
    TiltFromParts(m, a, pitch, roll, m.sqrt(whole), across);
  }

  lemma Sides(m: Libm, a: Vec3, across: real)
    requires m.Sound() && across == m.sqrt(SideSq(a))
    ensures SideSq(a) == a.z * a.z + a.y * a.y
    ensures Dot(a, a) == across * across + (-a.x) * (-a.x)
  {
    SquareSign(a.y);
    SquareSign(a.z);
    assert SideSq(a) == Square(a.y) + Square(a.z);
    assert across * across == SideSq(a);
  }

  lemma PlaneAngle(m: Libm, y: real, x: real, square: real)
    requires Polar(m) && square == x * x + y * y
    ensures OnRay(m, m.sqrt(square), m.atan2(y, x), y, x)
  {
  }

  /** The point `(x, y)` lies at the given distance and angle. */
  ghost predicate OnRay(m: Libm, distance: real, angle: real, y: real, x: real) {
    distance * m.sin(angle) == y && distance * m.cos(angle) == x
  }

  lemma TiltFromParts(m: Libm, a: Vec3, pitch: real, roll: real, whole: real, across: real)
    requires OnRay(m, across, pitch, a.y, a.z) && OnRay(m, whole, roll, -a.x, across)
    ensures a == Times(whole, Tilted(m, pitch, roll))
  {
    var sp, cp, sr, cr := m.sin(pitch), m.cos(pitch), m.sin(roll), m.cos(roll);
    assert whole * (sp * cr) == (whole * cr) * sp;
    assert whole * (cp * cr) == (whole * cr) * cp;
  }

  // ----- the error -----

  /** The error is half the cross product of the measured direction and the vertical as the
      estimated attitude sees it. */
  lemma ErrorIsHalfTheCross(q: Quat, a: Vec3)
    requires Unit(q)
    ensures HalfError(q, a) == Times(0.5, Cross(a, Gravity(q)))
  {
    GravityComponents(q);
    hide Gravity;
    var v := Gravity(q);
    var vx, vy, vz := q.x * q.z - q.w * q.y, q.w * q.x + q.y * q.z, q.w * q.w - 0.5 + q.z * q.z;
    assert v == Vec3(2.0 * vx, 2.0 * vy, 2.0 * vz);
    assert HalfError(q, a) == Vec3(a.y * vz - a.z * vy, a.z * vx - a.x * vz, a.x * vy - a.y * vx);
    hide Unit, Cross, HalfError;
    HalfOfCross(a, v.x, v.y, v.z, vx, vy, vz);
  }

  lemma HalfOfCross(a: Vec3, x: real, y: real, z: real, vx: real, vy: real, vz: real)
    requires x == 2.0 * vx && y == 2.0 * vy && z == 2.0 * vz
    ensures Vec3(a.y * vz - a.z * vy, a.z * vx - a.x * vz, a.x * vy - a.y * vx)
         == Times(0.5, Cross(a, Vec3(x, y, z)))
  {
  }

  lemma CrossFacts(a: Vec3, v: Vec3)
    ensures Dot(Cross(a, v), a) == 0.0 && Dot(Cross(a, v), v) == 0.0
    ensures Dot(a, Cross(v, Cross(a, v))) == Dot(Cross(a, v), Cross(a, v))
    ensures Dot(Cross(a, v), Cross(a, v)) == Dot(a, a) * Dot(v, v) - Square(Dot(a, v))
  {
    TripleProduct(a, v, Cross(a, v));
    Lagrange(a.x, a.y, a.z, v.x, v.y, v.z);
    CrossIsAcross(a, v);
    hide Cross, Dot;
  }

  lemma CrossIsAcross(a: Vec3, v: Vec3)
    ensures Dot(Cross(a, v), a) == 0.0 && Dot(Cross(a, v), v) == 0.0
    ensures Dot(Cross(a, v), Cross(a, v)) ==
            Square(a.y * v.z - a.z * v.y) + Square(a.z * v.x - a.x * v.z) + Square(a.x * v.y - a.y * v.x)
    ensures Dot(a, a) * Dot(v, v) - Square(Dot(a, v)) ==
            (a.x * a.x + a.y * a.y + a.z * a.z) * (v.x * v.x + v.y * v.y + v.z * v.z)
            - Square(a.x * v.x + a.y * v.y + a.z * v.z)
  {
  }

  lemma TripleProduct(a: Vec3, v: Vec3, c: Vec3)
    ensures Dot(a, Cross(v, c)) == Dot(c, Cross(a, v))
  {
  }

  lemma Lagrange(a: real, b: real, c: real, d: real, e: real, f: real)
    ensures Square(b * f - c * e) + Square(c * d - a * f) + Square(a * e - b * d) ==
            (a * a + b * b + c * c) * (d * d + e * e + f * f) - Square(a * d + b * e + c * f)
  {
  }

  function Mul(x: real, y: real): real {
    x * y
  }

  lemma SameSigns(x: real, y: real)
    ensures x > 0.0 && y > 0.0 ==> Mul(x, y) > 0.0
    ensures x < 0.0 && y < 0.0 ==> Mul(x, y) > 0.0
    ensures x == 0.0 || y == 0.0 ==> Mul(x, y) == 0.0
  {
    if x < 0.0 && y < 0.0 {
      assert Mul(x, y) == (-x) * (-y);
    }
  }

  lemma SquareSign(x: real)
    ensures Square(x) >= 0.0
    ensures x == 0.0 <==> Square(x) == 0.0
  {
    SameSigns(x, x);
    assert Square(x) == Mul(x, x);
    hide Square, Mul;
  }

  lemma SquareAgainstOne(x: real)
    ensures x == 1.0 || x == -1.0 ==> Square(x) == 1.0
    ensures -1.0 < x < 1.0 ==> Square(x) < 1.0
    ensures x < -1.0 || x > 1.0 ==> Square(x) > 1.0
  {
    if x > 1.0 {
      assert x * x > 1.0;
    } else if x < -1.0 {
      assert (-x) * (-x) > 1.0;
    } else if -1.0 < x < 1.0 {
      assert (1.0 - x) * (1.0 + x) > 0.0;
    }
  }

  lemma LengthSquares(a: Vec3)
    ensures Dot(a, a) == Square(a.x) + Square(a.y) + Square(a.z)
  {
  }

  lemma ZeroLength(a: Vec3)
    ensures Dot(a, a) >= 0.0
    ensures Dot(a, a) == 0.0 <==> a == ZERO
  {
    LengthSquares(a);
    SquareSign(a.x);
    SquareSign(a.y);
    SquareSign(a.z);
    hide Square, Dot;
  }

  lemma HalfOf(e: Vec3, c: Vec3, a: Vec3, v: Vec3)
    requires e == Times(0.5, c)
    ensures Dot(e, a) == 0.5 * Dot(c, a) && Dot(e, v) == 0.5 * Dot(c, v)
    ensures 4.0 * Dot(e, e) == Dot(c, c) && Dot(a, Cross(v, e)) == 0.5 * Dot(a, Cross(v, c))
    ensures e == ZERO <==> c == ZERO
  {
  }

  lemma SumAndDifference(a: Vec3, v: Vec3)
    ensures Dot(Minus(a, v), Minus(a, v)) == Dot(a, a) + Dot(v, v) - 2.0 * Dot(a, v)
    ensures Dot(Plus(a, v), Plus(a, v)) == Dot(a, a) + Dot(v, v) + 2.0 * Dot(a, v)
    ensures Minus(a, v) == ZERO <==> a == v
    ensures Plus(a, v) == ZERO <==> a == Times(-1.0, v)
  {
  }

  /** Two unit vectors are parallel exactly when they are equal or opposite. */
  lemma Aligned(a: Vec3, v: Vec3)
    requires Dot(a, a) == 1.0 && Dot(v, v) == 1.0
    ensures Cross(a, v) == ZERO <==> a == v || a == Times(-1.0, v)
    ensures -1.0 <= Dot(a, v) <= 1.0
  {
    CrossFacts(a, v);
    ZeroLength(Cross(a, v));
    SumAndDifference(a, v);
    ZeroLength(Minus(a, v));
    ZeroLength(Plus(a, v));
    SquareSign(Dot(a, v));
    SquareAgainstOne(Dot(a, v));
    hide Cross, Dot, Minus, Plus, Times, Square;
  }

  /** The error stands across the measured and the estimated vertical, vanishes exactly when
      they are parallel, and turning about it carries the estimate towards the measurement. */
  lemma ErrorRestores(q: Quat, a: Vec3)
    requires Unit(q) && Dot(a, a) == 1.0
    ensures var e, v := HalfError(q, a), Gravity(q);
      && Dot(v, v) == 1.0 && Dot(e, a) == 0.0 && Dot(e, v) == 0.0
      && (e == ZERO <==> a == v || a == Times(-1.0, v))
      && Dot(a, Cross(v, e)) == 2.0 * Dot(e, e)
      && 4.0 * Dot(e, e) == 1.0 - Square(Dot(a, v))
  {
    var v := Gravity(q);
    var c := Cross(a, v);
    ErrorIsHalfTheCross(q, a);
    GravityIsUnit(q);
    CrossFacts(a, v);
    HalfOf(HalfError(q, a), c, a, v);
    Aligned(a, v);
    hide Gravity, HalfError, Cross, Dot, Unit;
  }

  // ----- the feedback -----

  /** The filter listens to an acceleration that is long enough and, with a trust window,
      close enough to 1 g. */
  ghost predicate Heard(m: Libm, g: Gains, accel: Vec3) {
    && Dot(accel, accel) > 0.000001
    && (g.trustWindow <= 0.0 || -g.trustWindow <= m.sqrt(Dot(accel, accel)) - 1.0 <= g.trustWindow)
  }

  lemma DirectionIsUnit(m: Libm, a: Vec3)
    requires m.Sound() && Dot(a, a) > 0.0
    ensures Dot(Direction(m, a), Direction(m, a)) == 1.0
    ensures a == Times(m.sqrt(Dot(a, a)), Direction(m, a)) && m.sqrt(Dot(a, a)) > 0.0
  {
    var r, d := m.sqrt(Dot(a, a)), Direction(m, a);
    assert r * r == Dot(a, a) && r > 0.0;
    assert r * d.x == a.x && r * d.y == a.y && r * d.z == a.z;
    LengthOf(r, d);
    assert (r * r) * Dot(d, d) == r * r;
  }

  lemma LengthOf(r: real, d: Vec3)
    ensures Dot(Times(r, d), Times(r, d)) == (r * r) * Dot(d, d)
  {
  }

  /** What the accelerometer adds to the gyro's rate. With `n` the measured and `v` the
      estimated vertical, a deviation that is accepted adds the gains' share of the restoring
      error, half of n x v; one that is too large, or an acceleration that is not heard, adds
      nothing. The integral collects accepted errors, and is dropped without an integral gain. */
  lemma FeedbackLaw(m: Libm, g: Gains, a: Attitude, s: Sample)
    requires m.Sound() && Unit(a.quat)
    ensures var turn := Times(DEG_TO_RAD, s.gyro);
            var e := Times(0.5, Cross(Direction(m, s.accel), Gravity(a.quat)));
            var c := Feedback(m, g, a, s);
            if !Heard(m, g, s.accel) then c == Corrected(turn, a.integral)
            else
              && c.integral == (if g.ki <= 0.0 then ZERO
                                else if Accepted(m, g, a, s) then Plus(a.integral, Times(g.ki * g.dt, e))
                                else a.integral)
              && c.rate == (if !Accepted(m, g, a, s) then turn
                            else Plus(if g.ki > 0.0 then Plus(turn, c.integral) else turn, Times(g.kp, e)))
  {
    ErrorIsHalfTheCross(a.quat, Direction(m, s.accel));
    if Heard(m, g, s.accel) {
      AcceptedByTheError(m, g, a, s);
    }
    hide Accepted, Gravity, HalfError, Cross, Direction, Dot, Plus, Times, Unit, Libm.Sound;
  }

  /** The measured vertical is accepted: in rest, without a rejection limit, or if the sine of
      its angle with the estimated one is within the limit. */
  ghost predicate Accepted(m: Libm, g: Gains, a: Attitude, s: Sample) {
    var cosine := Agreement(m, s.accel, a.quat);
    s.stationary || g.rejectionSq <= 0.0 || 1.0 - Square(cosine) <= 4.0 * g.rejectionSq
  }

  lemma AcceptedByTheError(m: Libm, g: Gains, a: Attitude, s: Sample)
    requires m.Sound() && Unit(a.quat) && Heard(m, g, s.accel)
    ensures var e := HalfError(a.quat, Direction(m, s.accel));
            Accepted(m, g, a, s) <==> s.stationary || g.rejectionSq <= 0.0 || Dot(e, e) <= g.rejectionSq
  {
    DirectionIsUnit(m, s.accel);
    ErrorRestores(a.quat, Direction(m, s.accel));
    hide Gravity, HalfError, Cross, Direction, Dot, Unit, Libm.Sound, Square;
  }

  /** The cosine of the angle between the measured and the estimated vertical. */
  function Agreement(m: Libm, accel: Vec3, q: Quat): real {
    Dot(Direction(m, accel), Gravity(q))
  }

  // ----- the gyro -----

  /** The increment of a sample turns about the measured rate, in its sense, by the rate times
      the sample time, up to the share `s` of a large angle that the cut series lose. */
  lemma IncrementTurnsAtTheRate(rate: Vec3, dt: real)
    requires dt > 0.0 && HalfAngleSq(rate, 0.5 * dt) <= 1.0
    ensures var d, s := Increment(rate, 0.5 * dt), HalfAngleSq(rate, 0.5 * dt);
            var c := VectorScale(s, 0.5 * dt);
            TurnsAbout(d, c, rate) && dt * (1.0 - s) <= 2.0 * d.w * c <= dt
  {
    var s := HalfAngleSq(rate, 0.5 * dt);
    HalfAngleIsNonNegative(rate, 0.5 * dt);
    SeriesProduct(s);
    IncrementIsAlongTheRate(rate, 0.5 * dt);
    hide SeriesCos, SeriesSinc, HalfAngleSq, Mul, Increment, TurnsAbout;
    TwiceTheShare(Increment(rate, 0.5 * dt).w, VectorScale(s, 0.5 * dt), SeriesSinc(s), dt, s);
  }

  lemma IncrementIsAlongTheRate(rate: Vec3, h: real)
    ensures TurnsAbout(Increment(rate, h), VectorScale(HalfAngleSq(rate, h), h), rate)
    ensures Increment(rate, h).w == SeriesCos(HalfAngleSq(rate, h))
  {
    hide SeriesCos, SeriesSinc, HalfAngleSq;
  }

  lemma TwiceTheShare(w: real, c: real, sinc: real, dt: real, s: real)
    requires dt > 0.0 && 1.0 - s <= Mul(w, sinc) <= 1.0 && c == 0.5 * dt * sinc
    ensures dt * (1.0 - s) <= 2.0 * w * c <= dt
  {
    var f := Mul(w, sinc);
    assert 2.0 * w * c == dt * f;
    ScaledBound(dt, 1.0 - s, f);
    ScaledBound(dt, f, 1.0);
  }

  lemma ScaledBound(dt: real, x: real, y: real)
    requires dt >= 0.0 && x <= y
    ensures Mul(dt, x) <= Mul(dt, y)
  {
    SameSigns(dt, y - x);
    assert Mul(dt, y - x) == Mul(dt, y) - Mul(dt, x);
    hide Mul;
  }

  lemma SeriesProduct(s: real)
    requires 0.0 <= s <= 1.0
    ensures 1.0 - s <= Mul(SeriesCos(s), SeriesSinc(s)) <= 1.0
  {
    assert 0.0 <= s * s <= s;
    SeriesFactors(SeriesCos(s), SeriesSinc(s), s);
  }

  lemma SeriesFactors(c: real, k: real, s: real)
    requires 0.0 <= s <= 1.0 && 1.0 - 0.5 * s <= c <= 1.0 && 1.0 - s / 6.0 <= k <= 1.0
    ensures 1.0 - s <= Mul(c, k) <= 1.0
  {
    var a, b := 1.0 - 0.5 * s, 1.0 - s / 6.0;
    ScaledBound(c, k, 1.0);
    ScaledBound(k, a, c);
    ScaledBound(a, b, k);
    ShortProduct(s);
    assert Mul(c, 1.0) == c && Mul(c, k) == Mul(k, c) && Mul(a, k) == Mul(k, a);
    hide Mul;
  }

  lemma ShortProduct(s: real)
    ensures Mul(1.0 - 0.5 * s, 1.0 - s / 6.0) >= 1.0 - 2.0 * s / 3.0
  {
    SquareSign(s);
    assert Mul(1.0 - 0.5 * s, 1.0 - s / 6.0) == 1.0 - 2.0 * s / 3.0 + Square(s) / 12.0;
    hide Square, Mul;
  }

  // ----- one step towards gravity -----

  /** The proportional gain is small against the sample rate, as every stable setting is. */
  ghost predicate GentleGain(g: Gains) {
    g.dt > 0.0 && g.kp > 0.0 && g.kp * g.dt <= 2.0 && g.ki <= 0.0
  }

  function Scalar3(a: real, b: real, c: real, d: real, e: real, f: real): real {
    a * d + b * e + c * f
  }

  function Minor(a: real, b: real, c: real, d: real): real {
    a * b - c * d
  }

  function Mix(k: real, a: real, l: real, b: real): real {
    k * a + l * b
  }

  lemma DotByParts(a: Vec3, b: Vec3)
    ensures Dot(a, b) == Scalar3(a.x, a.y, a.z, b.x, b.y, b.z) == Scalar3(a.y, a.z, a.x, b.y, b.z, b.x)
    ensures Dot(a, b) == Scalar3(a.z, a.x, a.y, b.z, b.x, b.y)
  {
  }

  lemma CrossByParts(v: Vec3, r: Vec3)
    ensures Cross(v, r) == Vec3(Minor(v.y, r.z, v.z, r.y), Minor(v.z, r.x, v.x, r.z), Minor(v.x, r.y, v.y, r.x))
  {
  }

  lemma SpunAcross(w: real, c: real, x: real, y: real, z: real, a: real, b: real, d: real)
    requires Scalar3(x, y, z, a, b, d) == 0.0
    ensures Spun(w, c, x, y, z, a, b, d) ==
            Mix(Minor(w, w, c * c, Scalar3(x, y, z, x, y, z)), a, 2.0 * w * c, Minor(b, z, d, y))
  {
  }

  lemma Combined(a: Vec3, v: Vec3, o: Vec3, k: real, l: real)
    ensures Dot(a, Vec3(Mix(k, v.x, l, o.x), Mix(k, v.y, l, o.y), Mix(k, v.z, l, o.z))) ==
            Mix(k, Dot(a, v), l, Dot(a, o))
  {
  }

  /** The cosine after a turn by `(w, c r)`, unnormalised, from the squared length of `r`, the
      cosine before and the part of the turn that goes across. */
  function TurnedCosine(w: real, c: real, r: real, cosine: real, across: real): real {
    Mix(Minor(w, w, c * c, r), cosine, 2.0 * w * c, across)
  }

  /** Turned about an axis across both vectors, `v` agrees with `a` as in the plane. */
  lemma SpunAgreement(d: Quat, c: real, r: Vec3, a: Vec3, v: Vec3)
    requires Dot(r, v) == 0.0 && TurnsAbout(d, c, r)
    ensures Dot(a, InBody(d, v)) == TurnedCosine(d.w, c, Dot(r, r), Dot(a, v), Dot(a, Cross(v, r)))
  {
    var w := d.w;
    DotByParts(r, v);
    DotByParts(r, r);
    CrossByParts(v, r);
    RotationFormula(d, c, r, v);
    hide InBody, Spun, Dot, Cross, Scalar3, Minor, Mix, TurnsAbout;
    SpunAcross(w, c, r.x, r.y, r.z, v.x, v.y, v.z);
    SpunAcross(w, c, r.y, r.z, r.x, v.y, v.z, v.x);
    SpunAcross(w, c, r.z, r.x, r.y, v.z, v.x, v.y);
    Combined(a, v, Cross(v, r), Minor(w, w, c * c, Dot(r, r)), 2.0 * w * c);
  }

  lemma SeriesAreTame(s: real)
    requires 0.0 <= s <= 0.25
    ensures SeriesCos(s) >= 0.875 && 0.0 < SeriesSinc(s) <= 1.0
  {
    assert 0.0 <= s * s <= 0.25 * s;
  }

  lemma SmallProduct(x: real, y: real)
    requires 0.0 <= x <= 1.0 && y >= 0.0
    ensures 0.0 <= x * y <= y
  {
    var rest := 1.0 - x;
    SameSigns(x, y);
    SameSigns(rest, y);
    assert Mul(x, y) == x * y && Mul(rest, y) == y - x * y;
    hide Mul;
  }

  lemma HalfAngleIsTame(k: real, h: real, e: real, s: real)
    requires 0.0 <= k * h <= 1.0 && 0.0 <= e <= 0.25 && s == (k * k * e) * h * h
    ensures 0.0 <= s <= 0.25
  {
    var p := k * h;
    var q := p * e;
    SmallProduct(p, e);
    SmallProduct(p, q);
    assert s == p * q;
  }

  /** The turned agreement, over the norm it is turned with, is at least the old one. */
  lemma AgreementGrows(w: real, c: real, e: real, cosine: real, n: real)
    requires w >= 0.875 && 0.0 < c <= 1.0 && e >= 0.0 && cosine <= 1.0 && n == w * w + c * c * e && n > 0.0
    ensures var turned := (w * w - c * c * e) * cosine + 2.0 * w * c * (2.0 * e);
            turned >= n * cosine && (turned == n * cosine <==> e == 0.0)
  {
    var rest := 2.0 * w - c * cosine;
    assert c * cosine <= c by { assert c * (1.0 - cosine) >= 0.0; }
    assert rest > 0.0;
    var gain := c * rest;
    assert gain > 0.0;
    assert (w * w - c * c * e) * cosine + 2.0 * w * c * (2.0 * e) - n * cosine == 2.0 * (gain * e);
    if e > 0.0 {
      assert gain * e > 0.0;
    }
  }

  lemma NoTurn(k: real, v: Vec3)
    ensures Plus(Times(k, ZERO), v) == v
  {
    assert Times(k, ZERO) == ZERO;
    hide Times;
  }

  lemma DotScaled(n: Vec3, k: real, v: Vec3)
    ensures Dot(n, Times(k, v)) == k * Dot(n, v)
  {
    var u := Times(k, v);
    assert n.x * u.x + n.y * u.y + n.z * u.z == k * (n.x * v.x + n.y * v.y + n.z * v.z);
  }

  /** A step that does not lock the yaw turns by the corrected rate. */
  lemma UnlockedStep(m: Libm, g: Gains, a: Attitude, s: Sample)
    requires !YawLocked(s)
    ensures MahonyStep(m, g, a, s).quat ==
            Normalised(m, a, Product(a.quat, Increment(Feedback(m, g, a, s).rate, 0.5 * g.dt))).quat
  {
    var c := Feedback(m, g, a, s);
    AnglesKeepTheQuaternion(m, Rotated(m, g, a, c));
    NormalisingIgnoresTheIntegral(m, a, c.integral, Product(a.quat, Increment(c.rate, 0.5 * g.dt)));
    hide Feedback, YawLocked, Product, Increment, WithEuler, FromEuler, Normalised;
  }

  /** Without rotation the corrected rate is the proportional share of the error. */
  lemma RateWhileStill(m: Libm, g: Gains, a: Attitude, s: Sample, e: Vec3)
    requires m.Sound() && Unit(a.quat) && s.gyro == ZERO && g.ki <= 0.0
    requires Heard(m, g, s.accel) && Accepted(m, g, a, s)
    requires e == Times(0.5, Cross(Direction(m, s.accel), Gravity(a.quat)))
    ensures Feedback(m, g, a, s).rate == Times(g.kp, e)
  {
    FeedbackLaw(m, g, a, s);
    NoTurn(DEG_TO_RAD, Times(g.kp, e));
    hide Feedback, Accepted, Heard, Gravity, Cross, Direction, Plus, Times, Unit, Libm.Sound;
  }

  lemma AnglesKeepTheQuaternion(m: Libm, a: Attitude)
    ensures WithEuler(m, a).quat == a.quat
  {
    hide PitchOf, RollOf, Unwrapped, Reading;
  }

  lemma NormalisingIgnoresTheIntegral(m: Libm, a: Attitude, integral: Vec3, q: Quat)
    ensures Normalised(m, a.(integral := integral), q).quat == Normalised(m, a, q).quat
  {
    hide NormSq, Scaled;
  }

  /** After a step, whatever the body sees of the world has turned by the step's increment;
      renormalising takes out exactly the increment's length. */
  lemma StepTurnsTheView(m: Libm, a: Attitude, d: Quat, v: Vec3)
    requires m.Sound() && Unit(a.quat) && NormSq(d) > 0.19
    ensures InBody(Normalised(m, a, Product(a.quat, d)).quat, v)
         == Times(1.0 / NormSq(d), InBody(d, InBody(a.quat, v)))
  {
    var p, n := Product(a.quat, d), NormSq(d);
    FourSquares(a.quat, d);
    assert NormSq(p) == n;
    var root := m.sqrt(n);
    assert root * root == n && root > 0.0;
    var k := 1.0 / root;
    assert k * k == 1.0 / n by { InverseSquare(root, k, n); }
    RotationsCompose(a.quat, d, v);
    ScaledRotation(p, k, v);
    hide Product, Scaled, InBody, NormSq, Times;
  }

  lemma InverseSquare(root: real, k: real, n: real)
    requires root > 0.0 && root * root == n && k == 1.0 / root
    ensures k * k == 1.0 / n
  {
    assert k * root == 1.0;
    assert (k * k) * n == (k * root) * (k * root);
  }

  /** The squared norm of the quaternion `(w, c e)`, from the squared length of `e`. */
  function TurnNorm(w: real, c: real, e: real): real {
    w * w + c * c * e
  }

  /** The share of the error that one step turns by. */
  function Share(g: Gains, e: Vec3): real {
    g.kp * VectorScale(HalfAngleSq(Times(g.kp, e), 0.5 * g.dt), 0.5 * g.dt)
  }

  /** The half angle of one step, squared. */
  function StepAngleSq(g: Gains, e: Vec3): real {
    HalfAngleSq(Times(g.kp, e), 0.5 * g.dt)
  }

  lemma StepIsTame(g: Gains, e: Vec3)
    requires GentleGain(g) && 0.0 <= Dot(e, e) <= 0.25
    ensures 0.0 <= StepAngleSq(g, e) <= 0.25
  {
    ScaledLength(g.kp, e);
    HalfAngleIsTame(g.kp, 0.5 * g.dt, Dot(e, e), StepAngleSq(g, e));
    hide Dot, Times;
  }

  lemma StepNumbers(g: Gains, e: Vec3)
    requires GentleGain(g) && 0.0 <= StepAngleSq(g, e) <= 0.25
    ensures var d, c := Increment(Times(g.kp, e), 0.5 * g.dt), Share(g, e);
            && 0.0 < c <= 1.0 && TurnsAbout(d, c, e)
            && NormSq(d) == TurnNorm(d.w, c, Dot(e, e)) && NormSq(d) > 0.19
  {
    var h, r := 0.5 * g.dt, Times(g.kp, e);
    var s := StepAngleSq(g, e);
    SeriesAreTame(s);
    IncrementNorm(r, h);
    IncrementNormIsBounded(s);
    ShareIsSmall(g.kp, h, SeriesSinc(s));
    IncrementAlong(g, e);
    NormOfTurn(Increment(r, h), Share(g, e), e);
    hide NormSq, SeriesCos, SeriesSinc, IncrementNormSq, Dot, Times;
    assert 0.0 < Share(g, e) <= 1.0;
    hide Share, TurnNorm;
  }

  lemma ScaledLength(k: real, e: Vec3)
    ensures Dot(Times(k, e), Times(k, e)) == k * k * Dot(e, e)
  {
  }

  lemma IncrementAlong(g: Gains, e: Vec3)
    ensures var c, d := Share(g, e), Increment(Times(g.kp, e), 0.5 * g.dt);
            && TurnsAbout(d, c, e)
            && d.w == SeriesCos(StepAngleSq(g, e))
  {
    hide SeriesCos, SeriesSinc, HalfAngleSq;
  }

  lemma NormOfTurn(d: Quat, c: real, e: Vec3)
    requires TurnsAbout(d, c, e)
    ensures NormSq(d) == TurnNorm(d.w, c, Dot(e, e))
  {
  }

  lemma ShareIsSmall(kp: real, h: real, sinc: real)
    requires kp > 0.0 && h > 0.0 && kp * h <= 1.0 && 0.0 < sinc <= 1.0
    ensures 0.0 < kp * (h * sinc) <= 1.0
  {
    var p := Mul(kp, h);
    SameSigns(kp, h);
    SameSigns(sinc, p);
    ScaledBound(p, sinc, 1.0);
    ShareByFactors(kp, h, sinc);
    hide Mul;
  }

  lemma ShareByFactors(kp: real, h: real, sinc: real)
    ensures kp * (h * sinc) == Mul(sinc, Mul(kp, h)) == Mul(Mul(kp, h), sinc)
    ensures Mul(kp, h) == kp * h && Mul(Mul(kp, h), 1.0) == Mul(kp, h)
  {
  }

  /** While the car does not turn, a sample carries the estimated vertical closer to the
      measured one, and leaves it alone only if the two are parallel already: the estimate
      cannot settle anywhere but along gravity. */
  lemma TiltApproachesGravity(m: Libm, g: Gains, a: Attitude, s: Sample)
    requires m.Sound() && Unit(a.quat) && !s.stationary && s.gyro == ZERO && GentleGain(g)
    requires Heard(m, g, s.accel) && Accepted(m, g, a, s)
    ensures var n, v := Direction(m, s.accel), Gravity(a.quat);
            var before, after := Agreement(m, s.accel, a.quat), Agreement(m, s.accel, MahonyStep(m, g, a, s).quat);
            after >= before && (after == before <==> n == v || n == Times(-1.0, v))
  {
    hide MahonyStep, Gravity, HalfError, Cross, Direction, Accepted, Feedback, Libm.Sound, Increment, Unit, Product,
         Normalised, Times;
    var n := Direction(m, s.accel);
    var e := HalfError(a.quat, n);
    DirectionIsUnit(m, s.accel);
    ErrorIsHalfTheCross(a.quat, n);
    ErrorIsSmall(a.quat, n);
    UnlockedStep(m, g, a, s);
    RateWhileStill(m, g, a, s, e);
    hide Dot, GentleGain, Heard, YawLocked;
    TurnedAgreement(m, g, a, n, e);
  }

  lemma ErrorIsSmall(q: Quat, n: Vec3)
    requires Unit(q) && Dot(n, n) == 1.0
    ensures var e, v := HalfError(q, n), Gravity(q);
            && Dot(v, v) == 1.0 && Dot(e, v) == 0.0 && Dot(n, Cross(v, e)) == 2.0 * Dot(e, e)
            && 0.0 <= Dot(e, e) <= 0.25 && (Dot(e, e) == 0.0 <==> n == v || n == Times(-1.0, v))
  {
    ErrorRestores(q, n);
    ZeroLength(HalfError(q, n));
    SquareSign(Dot(n, Gravity(q)));
    hide HalfError, Gravity, Dot, Cross, Times, Unit, Square;
  }

  lemma TurnedAgreement(m: Libm, g: Gains, a: Attitude, n: Vec3, e: Vec3)
    requires m.Sound() && Unit(a.quat) && GentleGain(g) && Dot(n, n) == 1.0
    requires var v := Gravity(a.quat);
             Dot(v, v) == 1.0 && Dot(e, v) == 0.0 && Dot(n, Cross(v, e)) == 2.0 * Dot(e, e) && 0.0 <= Dot(e, e) <= 0.25
    ensures var q := Normalised(m, a, Product(a.quat, Increment(Times(g.kp, e), 0.5 * g.dt))).quat;
            Dot(n, Gravity(q)) >= Dot(n, Gravity(a.quat)) &&
            (Dot(n, Gravity(q)) == Dot(n, Gravity(a.quat)) <==> Dot(e, e) == 0.0)
  {
    var v, d, c := Gravity(a.quat), Increment(Times(g.kp, e), 0.5 * g.dt), Share(g, e);
    StepIsTame(g, e);
    SeriesAreTame(StepAngleSq(g, e));
    IncrementAlong(g, e);
    StepNumbers(g, e);
    StepTurnsTheView(m, a, d, UP);
    SpunAgreement(d, c, e, n, v);
    DotOver(n, NormSq(d), InBody(d, v));
    Aligned(n, v);
    hide Gravity, Cross, Dot, Times, Increment, Normalised, Product, Share, NormSq, InBody, Libm.Sound, GentleGain,
         TurnNorm, TurnedCosine, TurnsAbout, Over, StepAngleSq, SeriesCos, SeriesSinc;
    TurnedNumbers(d.w, c, Dot(e, e), Dot(n, v), NormSq(d), Dot(n, Cross(v, e)), Dot(n, InBody(d, v)));
  }

  function Over(x: real, n: real): real
    requires n > 0.0
  {
    (1.0 / n) * x
  }

  lemma DotOver(a: Vec3, n: real, u: Vec3)
    requires n > 0.0
    ensures Dot(a, Times(1.0 / n, u)) == Over(Dot(a, u), n)
  {
    DotScaled(a, 1.0 / n, u);
    hide Dot, Times;
  }

  lemma TurnedNumbers(w: real, c: real, e: real, cosine: real, n: real, across: real, turned: real)
    requires w >= 0.875 && 0.0 < c <= 1.0 && e >= 0.0 && cosine <= 1.0 && n == TurnNorm(w, c, e) && n > 0.0
    requires across == 2.0 * e && turned == TurnedCosine(w, c, e, cosine, across)
    ensures Over(turned, n) >= cosine && (Over(turned, n) == cosine <==> e == 0.0)
  {
    AgreementGrows(w, c, e, cosine, n);
    var q := (1.0 / n) * turned;
    assert q * n == turned;
    assert turned == (w * w - c * c * e) * cosine + 2.0 * w * c * (2.0 * e);
    assert (q - cosine) * n == turned - n * cosine;
    Sign(q - cosine, n);
  }

  lemma Sign(x: real, n: real)
    requires n > 0.0
    ensures x * n >= 0.0 <==> x >= 0.0
    ensures x * n == 0.0 <==> x == 0.0
  {
    SameSigns(x, n);
    SameSigns(-x, n);
    assert Mul(x, n) == x * n && Mul(-x, n) == -(x * n);
    hide Mul;
  }

  // ----- the angles of a step -----

  /** The quaternion a step arrives at: turned by the corrected rate, of which a locked yaw
      keeps only the part across the body's vertical. */
  function Arrived(m: Libm, g: Gains, a: Attitude, s: Sample): Quat {
    var rate := Feedback(m, g, a, s).rate;
    var held := if s.stationary && -0.25 <= s.gyro.z <= 0.25 then Vec3(rate.x, rate.y, 0.0) else rate;
    Normalised(m, a, Product(a.quat, Increment(held, 0.5 * g.dt))).quat
  }

  /** After a step pitch and roll are the tilt of gravity in the quaternion it arrived at. A
      free yaw keeps that quaternion; a locked one rebuilds it from pitch, roll and the held
      yaw, and forgets the vertical part of the integral. */
  lemma StepAnglesAreTheAttitude(m: Libm, g: Gains, a: Attitude, s: Sample)
    requires m.Sound() && Unit(a.quat)
    ensures var q, after := Arrived(m, g, a, s), MahonyStep(m, g, a, s);
            && Unit(q)
            && after.pitch == m.atan2(Gravity(q).y, Gravity(q).z) * RAD_TO_DEG
            && after.roll == m.asin(-Gravity(q).x) * RAD_TO_DEG
            && (if s.stationary && -0.25 <= s.gyro.z <= 0.25
                then after.yaw == a.yaw && after.quat == FromEuler(m, after.pitch, after.roll, a.yaw) &&
                     after.integral == Feedback(m, g, a, s).integral.(z := 0.0)
                else after.quat == q && after.integral == Feedback(m, g, a, s).integral)
  {
    var c := Feedback(m, g, a, s);
    var locked := if YawLocked(s) then Held(c) else c;
    RotationKeepsUnit(m, g, a, locked);
    AnglesAreTheAttitude(m, Arrived(m, g, a, s));
    AnglesKeepTheQuaternion(m, Rotated(m, g, a, locked));
    NormalisingIgnoresTheIntegral(m, a, locked.integral, Product(a.quat, Increment(locked.rate, 0.5 * g.dt)));
    hide Feedback, Product, Increment, Normalised, NormSq, FromEuler, Gravity, PitchOf, RollOf, Reading, Unwrapped,
         Libm.Sound;
  }
}
