/** Quaternion algebra of the attitude filter: the norm of a product, and of the
    truncated-series increment it multiplies by. */
module Quaternions {

  datatype Vec3 = Vec3(x: real, y: real, z: real)

  datatype Quat = Quat(w: real, x: real, y: real, z: real)

  function Dot(a: Vec3, b: Vec3): real {
    a.x * b.x + a.y * b.y + a.z * b.z
  }

  function Plus(a: Vec3, b: Vec3): Vec3 {
    Vec3(a.x + b.x, a.y + b.y, a.z + b.z)
  }

  function Times(k: real, a: Vec3): Vec3 {
    Vec3(k * a.x, k * a.y, k * a.z)
  }

  const ZERO := Vec3(0.0, 0.0, 0.0)

  function NormSq(q: Quat): real {
    q.w * q.w + q.x * q.x + q.y * q.y + q.z * q.z
  }

  ghost predicate Unit(q: Quat) {
    NormSq(q) == 1.0
  }

  const IDENTITY := Quat(1.0, 0.0, 0.0, 0.0)

  function Product(q: Quat, d: Quat): Quat {
    Quat(q.w * d.w - q.x * d.x - q.y * d.y - q.z * d.z,
         q.w * d.x + q.x * d.w + q.y * d.z - q.z * d.y,
         q.w * d.y - q.x * d.z + q.y * d.w + q.z * d.x,
         q.w * d.z + q.x * d.y - q.y * d.x + q.z * d.w)
  }

  function Scaled(q: Quat, k: real): Quat {
    Quat(q.w * k, q.x * k, q.y * k, q.z * k)
  }

  /** The rotation over one sample: cosine and sine of the half angle, as series cut
      after the fourth power. */
  function Increment(rate: Vec3, halfDt: real): Quat {
    var s := HalfAngleSq(rate, halfDt);
    var v := VectorScale(s, halfDt);
    Quat(SeriesCos(s), rate.x * v, rate.y * v, rate.z * v)
  }

  function HalfAngleSq(rate: Vec3, halfDt: real): real {
    Dot(rate, rate) * halfDt * halfDt
  }

  function SeriesCos(s: real): real {
    1.0 - 0.5 * s + s * s * (1.0 / 24.0)
  }

  function SeriesSinc(s: real): real {
    1.0 - s * (1.0 / 6.0) + s * s * (1.0 / 120.0)
  }

  function VectorScale(s: real, halfDt: real): real {
    halfDt * SeriesSinc(s)
  }

  function Square(x: real): real {
    x * x
  }

  lemma EulerIdentity(a: real, b: real, c: real, d: real, e: real, f: real, g: real, h: real)
    ensures Square(a * e - b * f - c * g - d * h) + Square(a * f + b * e + c * h - d * g)
          + Square(a * g - b * h + c * e + d * f) + Square(a * h + b * g - c * f + d * e)
         == (a * a + b * b + c * c + d * d) * (e * e + f * f + g * g + h * h)
  {
  }

  /** The norm of a product is the product of the norms. */
  lemma FourSquares(q: Quat, d: Quat)
    ensures NormSq(Product(q, d)) == NormSq(q) * NormSq(d)
  {
    hide Square, NormSq, Product;
    ProductSquares(q, d);
    EulerIdentity(q.w, q.x, q.y, q.z, d.w, d.x, d.y, d.z);
    NormProduct(q, d);
  }

  lemma ProductSquares(q: Quat, d: Quat)
    ensures NormSq(Product(q, d)) ==
      Square(q.w * d.w - q.x * d.x - q.y * d.y - q.z * d.z) + Square(q.w * d.x + q.x * d.w + q.y * d.z - q.z * d.y)
      + Square(q.w * d.y - q.x * d.z + q.y * d.w + q.z * d.x) + Square(q.w * d.z + q.x * d.y - q.y * d.x + q.z * d.w)
  {
  }

  lemma NormProduct(q: Quat, d: Quat)
    ensures NormSq(q) * NormSq(d) ==
      (q.w * q.w + q.x * q.x + q.y * q.y + q.z * q.z) * (d.w * d.w + d.x * d.x + d.y * d.y + d.z * d.z)
  {
  }

  lemma ScaledNorm(q: Quat, k: real)
    ensures NormSq(Scaled(q, k)) == NormSq(q) * k * k
  {
  }

  /** What the truncation makes of the increment's squared norm. */
  function IncrementNormSq(s: real): real {
    1.0 + s * s * s / 360.0 - s * s * s * s / 960.0 + s * s * s * s * s / 14400.0
  }

  lemma SeriesNorm(s: real)
    ensures SeriesCos(s) * SeriesCos(s) + s * SeriesSinc(s) * SeriesSinc(s) == IncrementNormSq(s)
  {
  }

  lemma IncrementNorm(rate: Vec3, halfDt: real)
    ensures NormSq(Increment(rate, halfDt)) == IncrementNormSq(HalfAngleSq(rate, halfDt))
  {
    var s := HalfAngleSq(rate, halfDt);
    SeriesNorm(s);
  }

  /** For any rate whatever, the increment's squared norm stays above 0.19. */
  lemma IncrementNormIsBounded(s: real)
    requires s >= 0.0
    ensures IncrementNormSq(s) > 0.19
  {
    var r := s - 9.5;
    var c := s * s * s + 4.0 * s * s + 25.75 * s + 128.25;
    assert 14400.0 * IncrementNormSq(s) == r * r * c + 112.8125 * s + 2825.4375;
    assert c >= 0.0;
    assert r * r >= 0.0;
    assert r * r * c >= 0.0;
  }
}
