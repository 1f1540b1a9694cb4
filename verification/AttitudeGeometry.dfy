/** What the attitude filter's formulas mean in space: the quaternion as a rotation between
    the world and the body, and gravity as the world's vertical carried into the body. */
module AttitudeGeometry {
  import opened Quaternions
  import opened AttitudeFilter

  // ----- rotations -----

  function Conjugate(q: Quat): Quat {
    Quat(q.w, -q.x, -q.y, -q.z)
  }

  function Pure(v: Vec3): Quat {
    Quat(0.0, v.x, v.y, v.z)
  }

  function Vector(q: Quat): Vec3 {
    Vec3(q.x, q.y, q.z)
  }

  function Cross(a: Vec3, b: Vec3): Vec3 {
    Vec3(a.y * b.z - a.z * b.y, a.z * b.x - a.x * b.z, a.x * b.y - a.y * b.x)
  }

  /** A vector of the world, seen from the body. */
  function InBody(q: Quat, v: Vec3): Vec3 {
    Vector(Product(Product(Conjugate(q), Pure(v)), q))
  }

  /** A vector of the body, seen from the world. */
  function InWorld(q: Quat, v: Vec3): Vec3 {
    Vector(Product(Product(q, Pure(v)), Conjugate(q)))
  }

  const FORWARD := Vec3(1.0, 0.0, 0.0)
  const UP := Vec3(0.0, 0.0, 1.0)

  /** What an accelerometer at rest shows, in g. */
  function Gravity(q: Quat): Vec3 {
    InBody(q, UP)
  }

  /** The scalar part and, with the axes in cyclic order, one vector part of a product. */
  function ScalarPart(a: real, b: real, c: real, d: real, e: real, f: real, g: real, h: real): real {
    a * e - b * f - c * g - d * h
  }

  function AxisPart(a: real, b: real, c: real, d: real, e: real, f: real, g: real, h: real): real {
    a * f + b * e + c * h - d * g
  }

  function ByParts(q: Quat, d: Quat): Quat {
    Quat(ScalarPart(q.w, q.x, q.y, q.z, d.w, d.x, d.y, d.z), AxisPart(q.w, q.x, q.y, q.z, d.w, d.x, d.y, d.z),
         AxisPart(q.w, q.y, q.z, q.x, d.w, d.y, d.z, d.x), AxisPart(q.w, q.z, q.x, q.y, d.w, d.z, d.x, d.y))
  }

  lemma ProductByParts(q: Quat, d: Quat)
    ensures Product(q, d) == ByParts(q, d)
  {
  }

  lemma AssociativeScalar(a: real, b: real, c: real, d: real, e: real, f: real, g: real, h: real,
                          i: real, j: real, k: real, l: real)
    ensures ScalarPart(ScalarPart(a, b, c, d, e, f, g, h), AxisPart(a, b, c, d, e, f, g, h),
                       AxisPart(a, c, d, b, e, g, h, f), AxisPart(a, d, b, c, e, h, f, g), i, j, k, l)
         == ScalarPart(a, b, c, d, ScalarPart(e, f, g, h, i, j, k, l), AxisPart(e, f, g, h, i, j, k, l),
                       AxisPart(e, g, h, f, i, k, l, j), AxisPart(e, h, f, g, i, l, j, k))
  {
  }

  lemma AssociativeAxis(a: real, b: real, c: real, d: real, e: real, f: real, g: real, h: real,
                        i: real, j: real, k: real, l: real)
    ensures AxisPart(ScalarPart(a, b, c, d, e, f, g, h), AxisPart(a, b, c, d, e, f, g, h),
                     AxisPart(a, c, d, b, e, g, h, f), AxisPart(a, d, b, c, e, h, f, g), i, j, k, l)
         == AxisPart(a, b, c, d, ScalarPart(e, f, g, h, i, j, k, l), AxisPart(e, f, g, h, i, j, k, l),
                     AxisPart(e, g, h, f, i, k, l, j), AxisPart(e, h, f, g, i, l, j, k))
    ensures ScalarPart(a, b, c, d, e, f, g, h) == ScalarPart(a, c, d, b, e, g, h, f)
    ensures ScalarPart(e, f, g, h, i, j, k, l) == ScalarPart(e, g, h, f, i, k, l, j)
  {
  }

  lemma ProductIsAssociative(a: Quat, b: Quat, c: Quat)
    ensures Product(Product(a, b), c) == Product(a, Product(b, c))
  {
    ProductByParts(a, b);
    ProductByParts(b, c);
    ProductByParts(Product(a, b), c);
    ProductByParts(a, Product(b, c));
    AssociativeScalar(a.w, a.x, a.y, a.z, b.w, b.x, b.y, b.z, c.w, c.x, c.y, c.z);
    AssociativeAxis(a.w, a.x, a.y, a.z, b.w, b.x, b.y, b.z, c.w, c.x, c.y, c.z);
    AssociativeAxis(a.w, a.y, a.z, a.x, b.w, b.y, b.z, b.x, c.w, c.y, c.z, c.x);
    AssociativeAxis(a.w, a.z, a.x, a.y, b.w, b.z, b.x, b.y, c.w, c.z, c.x, c.y);
    hide Product, ScalarPart, AxisPart;
  }

  lemma ConjugateParts(a: real, b: real, c: real, d: real, e: real, f: real, g: real, h: real)
    ensures ScalarPart(e, -f, -g, -h, a, -b, -c, -d) == ScalarPart(a, b, c, d, e, f, g, h)
    ensures AxisPart(e, -f, -g, -h, a, -b, -c, -d) == -AxisPart(a, b, c, d, e, f, g, h)
  {
  }

  lemma ConjugateOfProduct(a: Quat, b: Quat)
    ensures Conjugate(Product(a, b)) == Product(Conjugate(b), Conjugate(a))
  {
    ProductByParts(a, b);
    ProductByParts(Conjugate(b), Conjugate(a));
    ConjugateParts(a.w, a.x, a.y, a.z, b.w, b.x, b.y, b.z);
    ConjugateParts(a.w, a.y, a.z, a.x, b.w, b.y, b.z, b.x);
    ConjugateParts(a.w, a.z, a.x, a.y, b.w, b.z, b.x, b.y);
    hide Product, ScalarPart, AxisPart;
  }

  /** Turning a vector leaves no scalar part. */
  lemma TurnedIsPure(q: Quat, v: Vec3)
    ensures Product(Product(Conjugate(q), Pure(v)), q) == Pure(InBody(q, v))
  {
  }

  /** Seen from a body that has turned on by `d`, a vector is what the body saw before,
      turned by `d`. */
  lemma RotationsCompose(q: Quat, d: Quat, v: Vec3)
    ensures InBody(Product(q, d), v) == InBody(d, InBody(q, v))
  {
    var c, p := Conjugate(q), Pure(v);
    ConjugateOfProduct(q, d);
    TurnedIsPure(q, v);
    ProductIsAssociative(Conjugate(d), c, p);
    ProductIsAssociative(Conjugate(d), Product(c, p), Product(q, d));
    ProductIsAssociative(Product(c, p), q, d);
    ProductIsAssociative(Conjugate(d), Product(Product(c, p), q), d);
    hide Product;
  }

  lemma ScaledRotation(q: Quat, k: real, v: Vec3)
    ensures InBody(Scaled(q, k), v) == Times(k * k, InBody(q, v))
  {
    ScaledSandwich(q, k, Pure(v));
    hide Product;
  }

  lemma ScaledSandwich(q: Quat, k: real, p: Quat)
    ensures Product(Product(Conjugate(Scaled(q, k)), p), Scaled(q, k))
         == Scaled(Product(Product(Conjugate(q), p), q), k * k)
  {
    var c := Conjugate(q);
    assert Conjugate(Scaled(q, k)) == Scaled(c, k);
    ScaledLeft(c, p, k);
    ScaledLeft(Product(c, p), Scaled(q, k), k);
    ScaledRight(Product(c, p), q, k);
    ScaledTwice(Product(Product(c, p), q), k);
    hide Product, Scaled;
  }

  lemma ScaledTwice(q: Quat, k: real)
    ensures Scaled(Scaled(q, k), k) == Scaled(q, k * k)
  {
  }

  lemma ScaledParts(a: real, b: real, c: real, d: real, e: real, f: real, g: real, h: real,
                    p: real, q: real, r: real, s: real, k: real)
    requires IsShare(p, a, k) && IsShare(q, b, k) && IsShare(r, c, k) && IsShare(s, d, k)
    ensures IsShare(ScalarPart(p, q, r, s, e, f, g, h), ScalarPart(a, b, c, d, e, f, g, h), k)
    ensures IsShare(ScalarPart(e, f, g, h, p, q, r, s), ScalarPart(e, f, g, h, a, b, c, d), k)
    ensures IsShare(AxisPart(p, q, r, s, e, f, g, h), AxisPart(a, b, c, d, e, f, g, h), k)
    ensures IsShare(AxisPart(e, f, g, h, p, q, r, s), AxisPart(e, f, g, h, a, b, c, d), k)
  {
  }

  lemma SharesAreScaled(q: Quat, k: real, s: Quat)
    ensures s == Scaled(q, k) <==>
              IsShare(s.w, q.w, k) && IsShare(s.x, q.x, k) && IsShare(s.y, q.y, k) && IsShare(s.z, q.z, k)
  {
  }

  lemma ScaledLeft(a: Quat, b: Quat, k: real)
    ensures Product(Scaled(a, k), b) == Scaled(Product(a, b), k)
  {
    var s := Scaled(a, k);
    SharesAreScaled(a, k, s);
    SharesAreScaled(Product(a, b), k, Product(s, b));
    ProductByParts(a, b);
    ProductByParts(s, b);
    hide Product, Scaled, ScalarPart, AxisPart, IsShare;
    ScaledParts(a.w, a.x, a.y, a.z, b.w, b.x, b.y, b.z, s.w, s.x, s.y, s.z, k);
    ScaledParts(a.w, a.y, a.z, a.x, b.w, b.y, b.z, b.x, s.w, s.y, s.z, s.x, k);
    ScaledParts(a.w, a.z, a.x, a.y, b.w, b.z, b.x, b.y, s.w, s.z, s.x, s.y, k);
  }

  lemma ScaledRight(a: Quat, b: Quat, k: real)
    ensures Product(a, Scaled(b, k)) == Scaled(Product(a, b), k)
  {
    var s := Scaled(b, k);
    SharesAreScaled(b, k, s);
    SharesAreScaled(Product(a, b), k, Product(a, s));
    ProductByParts(a, b);
    ProductByParts(a, s);
    hide Product, Scaled, ScalarPart, AxisPart, IsShare;
    ScaledParts(b.w, b.x, b.y, b.z, a.w, a.x, a.y, a.z, s.w, s.x, s.y, s.z, k);
    ScaledParts(b.w, b.y, b.z, b.x, a.w, a.y, a.z, a.x, s.w, s.y, s.z, s.x, k);
    ScaledParts(b.w, b.z, b.x, b.y, a.w, a.z, a.x, a.y, s.w, s.z, s.x, s.y, k);
  }

  /** One component of a vector turned about `(x, y, z)`. */
  function Spun(w: real, c: real, x: real, y: real, z: real, a: real, b: real, d: real): real {
    (w * w - c * c * (x * x + y * y + z * z)) * a + 2.0 * w * c * (b * z - d * y)
    + 2.0 * c * c * (x * a + y * b + z * d) * x
  }

  /** Seen from a body that turns about `r`: the part of `v` along `r` stays, the rest turns the other way. */
  lemma RotationFormula(q: Quat, c: real, r: Vec3, v: Vec3)
    requires TurnsAbout(q, c, r)
    ensures InBody(q, v) ==
            Vec3(Spun(q.w, c, r.x, r.y, r.z, v.x, v.y, v.z), Spun(q.w, c, r.y, r.z, r.x, v.y, v.z, v.x),
                 Spun(q.w, c, r.z, r.x, r.y, v.z, v.x, v.y))
  {
    ProductByParts(Conjugate(q), Pure(v));
    ProductByParts(Product(Conjugate(q), Pure(v)), q);
    SpunComponent(q.w, c, r.x, r.y, r.z, v.x, v.y, v.z, q.x, q.y, q.z);
    SpunComponent(q.w, c, r.y, r.z, r.x, v.y, v.z, v.x, q.y, q.z, q.x);
    SpunComponent(q.w, c, r.z, r.x, r.y, v.z, v.x, v.y, q.z, q.x, q.y);
    hide Product, ScalarPart, AxisPart, Spun, IsShare;
  }

  /** `q` turns about `r`, with `c r` as its vector part. */
  predicate TurnsAbout(q: Quat, c: real, r: Vec3) {
    IsShare(q.x, r.x, c) && IsShare(q.y, r.y, c) && IsShare(q.z, r.z, c)
  }

  predicate IsShare(e: real, x: real, c: real) {
    e == x * c
  }

  lemma SpunComponent(w: real, c: real, x: real, y: real, z: real, a: real, b: real, d: real,
                      e: real, f: real, g: real)
    requires IsShare(e, x, c) && IsShare(f, y, c) && IsShare(g, z, c)
    ensures AxisPart(ScalarPart(w, -e, -f, -g, 0.0, a, b, d), AxisPart(w, -e, -f, -g, 0.0, a, b, d),
                     AxisPart(w, -f, -g, -e, 0.0, b, d, a), AxisPart(w, -g, -e, -f, 0.0, d, a, b), w, e, f, g)
         == Spun(w, c, x, y, z, a, b, d)
    ensures ScalarPart(w, -e, -f, -g, 0.0, a, b, d) == ScalarPart(w, -f, -g, -e, 0.0, b, d, a)
  {
  }

  /** Unit quaternions keep lengths. */
  lemma GravityIsUnit(q: Quat)
    requires Unit(q)
    ensures Dot(Gravity(q), Gravity(q)) == 1.0
  {
    GravityComponents(q);
    assert NormSq(q) * NormSq(q) == 1.0;
    hide Gravity;
  }

  lemma GravityComponents(q: Quat)
    ensures Gravity(q) == Vec3(2.0 * (q.x * q.z - q.w * q.y), 2.0 * (q.w * q.x + q.y * q.z),
                               q.w * q.w - q.x * q.x - q.y * q.y + q.z * q.z)
  {
  }

  // ----- the angles -----

  /** The filter's angles are those of the car in space: pitch and roll are the tilt of
      gravity against the body, yaw is the heading of the body's forward axis. */
  lemma AnglesAreTheAttitude(m: Libm, q: Quat)
    requires m.Sound() && Unit(q)
    ensures PitchOf(m, q) == m.atan2(Gravity(q).y, Gravity(q).z) * RAD_TO_DEG
    ensures RollOf(m, q) == m.asin(-Gravity(q).x) * RAD_TO_DEG
    ensures Reading(m, q) == m.atan2(InWorld(q, FORWARD).y, InWorld(q, FORWARD).x) * RAD_TO_DEG
  {
    AngleArguments(q);
    ClampIsIdle(q);
    hide Gravity, InWorld, NormSq, SinPitch, UpY, UpZ, AheadX, AheadY;
  }

  lemma AngleArguments(q: Quat)
    requires Unit(q)
    ensures UpY(q) == Gravity(q).y && UpZ(q) == Gravity(q).z && SinPitch(q) == -Gravity(q).x
    ensures AheadY(q) == InWorld(q, FORWARD).y && AheadX(q) == InWorld(q, FORWARD).x
  {
    GravityComponents(q);
    ForwardComponents(q);
    hide Gravity, InWorld;
  }

  lemma ForwardComponents(q: Quat)
    ensures InWorld(q, FORWARD) == Vec3(q.w * q.w + q.x * q.x - q.y * q.y - q.z * q.z,
                                        2.0 * (q.x * q.y + q.w * q.z), 2.0 * (q.x * q.z - q.w * q.y))
  {
  }

  /** A quaternion rebuilt from angles turns about the vertical by the yaw, then about the
      body's second axis by the roll, then about its first by the pitch. */
  lemma EulerIsThreeTurns(m: Libm, pitch: real, roll: real, yaw: real)
    ensures var x, y, z := pitch * DEG_TO_RAD * 0.5, roll * DEG_TO_RAD * 0.5, yaw * DEG_TO_RAD * 0.5;
            FromEuler(m, pitch, roll, yaw) ==
            Product(Product(Quat(m.cos(z), 0.0, 0.0, m.sin(z)), Quat(m.cos(y), 0.0, m.sin(y), 0.0)),
                    Quat(m.cos(x), m.sin(x), 0.0, 0.0))
  {
    var x, y, z := pitch * DEG_TO_RAD * 0.5, roll * DEG_TO_RAD * 0.5, yaw * DEG_TO_RAD * 0.5;
    ThreeTurns(m.cos(x), m.sin(x), m.cos(y), m.sin(y), m.cos(z), m.sin(z));
    hide Product, AxisProduct;
  }

  lemma ThreeTurns(cr: real, sr: real, cp: real, sp: real, cy: real, sy: real)
    ensures AxisProduct(cr, sr, cp, sp, cy, sy) ==
            Product(Product(Quat(cy, 0.0, 0.0, sy), Quat(cp, 0.0, sp, 0.0)), Quat(cr, sr, 0.0, 0.0))
  {
    var zy := Product(Quat(cy, 0.0, 0.0, sy), Quat(cp, 0.0, sp, 0.0));
    TwoTurns(cp, sp, cy, sy);
    OneMoreTurn(zy.w, zy.x, zy.y, zy.z, cr, sr);
    ThreeFactors(cr, sr, cp, sp, cy, sy, zy.w, zy.x, zy.y, zy.z);
    hide Product;
  }

  lemma TwoTurns(cp: real, sp: real, cy: real, sy: real)
    ensures Product(Quat(cy, 0.0, 0.0, sy), Quat(cp, 0.0, sp, 0.0)) == Quat(cy * cp, -(sy * sp), cy * sp, sy * cp)
  {
  }

  lemma OneMoreTurn(w: real, x: real, y: real, z: real, c: real, s: real)
    ensures Product(Quat(w, x, y, z), Quat(c, s, 0.0, 0.0)) ==
            Quat(w * c - x * s, w * s + x * c, y * c + z * s, z * c - y * s)
  {
  }

  lemma ThreeFactors(cr: real, sr: real, cp: real, sp: real, cy: real, sy: real, w: real, x: real, y: real, z: real)
    requires w == cy * cp && x == -(sy * sp) && y == cy * sp && z == sy * cp
    ensures AxisProduct(cr, sr, cp, sp, cy, sy) ==
            Quat(w * cr - x * sr, w * sr + x * cr, y * cr + z * sr, z * cr - y * sr)
  {
  }

  /** The double-angle formulas. */
  ghost predicate DoubleAngles(m: Libm) {
    forall t :: DoubleAngle(m, t)
  }

  ghost predicate DoubleAngle(m: Libm, t: real) {
    m.sin(2.0 * t) == 2.0 * m.sin(t) * m.cos(t) && m.cos(2.0 * t) == m.cos(t) * m.cos(t) - m.sin(t) * m.sin(t)
  }

  /** `atan2` is the angle of a point in the plane. */
  ghost predicate Polar(m: Libm) {
    forall y, x {:trigger m.atan2(y, x)} ::
      m.sqrt(x * x + y * y) * m.sin(m.atan2(y, x)) == y && m.sqrt(x * x + y * y) * m.cos(m.atan2(y, x)) == x
  }

  /** The vertical, seen from a body that is pitched and rolled by the given angles. */
  function Tilted(m: Libm, pitch: real, roll: real): Vec3 {
    Vec3(-m.sin(roll), m.sin(pitch) * m.cos(roll), m.cos(pitch) * m.cos(roll))
  }

  lemma TiltOfHalfTurns(cr: real, sr: real, cp: real, sp: real, cy: real, sy: real,
                        sinPitch: real, cosPitch: real, sinRoll: real, cosRoll: real)
    requires cr * cr + sr * sr == 1.0 && cp * cp + sp * sp == 1.0 && cy * cy + sy * sy == 1.0
    requires sinPitch == 2.0 * sr * cr && cosPitch == cr * cr - sr * sr
    requires sinRoll == 2.0 * sp * cp && cosRoll == cp * cp - sp * sp
    ensures Gravity(AxisProduct(cr, sr, cp, sp, cy, sy)) == Vec3(-sinRoll, sinPitch * cosRoll, cosPitch * cosRoll)
  {
    var q := AxisProduct(cr, sr, cp, sp, cy, sy);
    GravityComponents(q);
    hide Gravity;
    TiltX(cr, sr, cp, sp, cy, sy);
    TiltY(cr, sr, cp, sp, cy, sy);
    TiltZ(cr, sr, cp, sp, cy, sy);
  }

  lemma TiltX(cr: real, sr: real, cp: real, sp: real, cy: real, sy: real)
    requires cr * cr + sr * sr == 1.0 && cy * cy + sy * sy == 1.0
    ensures var q := AxisProduct(cr, sr, cp, sp, cy, sy);
            2.0 * (q.x * q.z - q.w * q.y) == -(2.0 * sp * cp)
  {
    var q := AxisProduct(cr, sr, cp, sp, cy, sy);
    assert q.x * q.z - q.w * q.y == -(sp * cp) * ((cr * cr + sr * sr) * (cy * cy + sy * sy));
  }

  lemma TiltY(cr: real, sr: real, cp: real, sp: real, cy: real, sy: real)
    requires cy * cy + sy * sy == 1.0
    ensures var q := AxisProduct(cr, sr, cp, sp, cy, sy);
            2.0 * (q.w * q.x + q.y * q.z) == (2.0 * sr * cr) * (cp * cp - sp * sp)
  {
    var q := AxisProduct(cr, sr, cp, sp, cy, sy);
    assert q.w * q.x + q.y * q.z == (sr * cr) * (cp * cp - sp * sp) * (cy * cy + sy * sy);
  }

  lemma TiltZ(cr: real, sr: real, cp: real, sp: real, cy: real, sy: real)
    requires cy * cy + sy * sy == 1.0
    ensures var q := AxisProduct(cr, sr, cp, sp, cy, sy);
            q.w * q.w - q.x * q.x - q.y * q.y + q.z * q.z == (cr * cr - sr * sr) * (cp * cp - sp * sp)
  {
    var q := AxisProduct(cr, sr, cp, sp, cy, sy);
    assert q.w * q.w - q.x * q.x - q.y * q.y + q.z * q.z
        == (cr * cr - sr * sr) * (cp * cp - sp * sp) * (cy * cy + sy * sy);
  }

  /** Cosine and sine of half an angle, and what they say about the angle. */
  ghost predicate Halves(m: Libm, angle: real, c: real, s: real) {
    c * c + s * s == 1.0 && m.sin(angle) == 2.0 * s * c && m.cos(angle) == c * c - s * s
  }

  lemma HalfAngles(m: Libm, degrees: real)
    requires m.Sound() && DoubleAngles(m)
    ensures var half := degrees * DEG_TO_RAD * 0.5; Halves(m, degrees * DEG_TO_RAD, m.cos(half), m.sin(half))
  {
    var half := degrees * DEG_TO_RAD * 0.5;
    assert 2.0 * half == degrees * DEG_TO_RAD;
    assert DoubleAngle(m, half);
  }

  /** The quaternion rebuilt from angles has exactly the tilt of those angles, whatever the
      yaw. */
  lemma EulerHasItsTilt(m: Libm, pitch: real, roll: real, yaw: real)
    requires m.Sound() && DoubleAngles(m)
    ensures Gravity(FromEuler(m, pitch, roll, yaw)) == Tilted(m, pitch * DEG_TO_RAD, roll * DEG_TO_RAD)
  {
    HalfAngles(m, pitch);
    HalfAngles(m, roll);
    HalfAngles(m, yaw);
    var x, y, z := pitch * DEG_TO_RAD * 0.5, roll * DEG_TO_RAD * 0.5, yaw * DEG_TO_RAD * 0.5;
    TiltOfTurns(m, pitch * DEG_TO_RAD, roll * DEG_TO_RAD, yaw * DEG_TO_RAD,
                m.cos(x), m.sin(x), m.cos(y), m.sin(y), m.cos(z), m.sin(z));
    hide Gravity, AxisProduct, Halves, Tilted, DoubleAngles, Libm.Sound;
  }

  lemma TiltOfTurns(m: Libm, pitch: real, roll: real, yaw: real,
                    cr: real, sr: real, cp: real, sp: real, cy: real, sy: real)
    requires Halves(m, pitch, cr, sr) && Halves(m, roll, cp, sp) && Halves(m, yaw, cy, sy)
    ensures Gravity(AxisProduct(cr, sr, cp, sp, cy, sy)) == Tilted(m, pitch, roll)
  {
    TiltOfHalfTurns(cr, sr, cp, sp, cy, sy, m.sin(pitch), m.cos(pitch), m.sin(roll), m.cos(roll));
    hide Gravity, AxisProduct;
  }
}
