/** The chassis odometry: mid-point integration of two wheel travels per tick, in
    exact real arithmetic. */
module Odometry {
  import opened QuadratureEncoder

  const PI := 3.14159265358979323846
  const TWO_PI := 6.28318530717958647692

  datatype Pose = Pose(x: real, y: real, theta: real)

  datatype Config = Config(leftPulsesPerCm: real, rightPulsesPerCm: real, wheelBaseCm: real)
  {
    /** What the initialiser guarantees of every configuration. */
    predicate Valid() {
      leftPulsesPerCm > 0.0 && rightPulsesPerCm > 0.0 && wheelBaseCm > 0.0
    }
  }

  const DEFAULT := Config(73.44, 73.14, 13.5)

  function Normalised(c: Config): (r: Config)
    ensures r.Valid()
    ensures r.leftPulsesPerCm == if c.leftPulsesPerCm > 0.0 then c.leftPulsesPerCm else 73.44
    ensures r.rightPulsesPerCm == if c.rightPulsesPerCm > 0.0 then c.rightPulsesPerCm else 73.14
    ensures r.wheelBaseCm == if c.wheelBaseCm > 0.0 then c.wheelBaseCm else 13.5
  {
    Config(if c.leftPulsesPerCm <= 0.0 then DEFAULT.leftPulsesPerCm else c.leftPulsesPerCm,
           if c.rightPulsesPerCm <= 0.0 then DEFAULT.rightPulsesPerCm else c.rightPulsesPerCm,
           if c.wheelBaseCm <= 0.0 then DEFAULT.wheelBaseCm else c.wheelBaseCm)
  }

  /** Sine and cosine enter only through `sin^2 + cos^2 == 1`. */
  datatype Trig = Trig(sin: real -> real, cos: real -> real)
  {
    ghost predicate Sound() {
      forall x {:trigger sin(x)} {:trigger cos(x)} :: sin(x) * sin(x) + cos(x) * cos(x) == 1.0
    }
  }

  datatype Odometer = Odometer(pose: Pose, distance: real)

  function Abs(x: real): real {
    if x < 0.0 then -x else x
  }

  // ----- wrapping -----

  /** How many full turns bring `x` towards [-pi, pi], by the nearer edge. */
  function PiTurns(x: real): int {
    if x > PI then -((PI - x) / TWO_PI).Floor
    else if x < -PI then ((x + PI) / TWO_PI).Floor
    else 0
  }

  function WrapPi(x: real): (r: real)
    ensures -PI <= r <= PI
    ensures r == x - TWO_PI * (PiTurns(x) as real)
    ensures -PI <= x <= PI ==> r == x
  {
    x - TWO_PI * (PiTurns(x) as real)
  }

  /** An angle beyond an edge wraps to the one representative short of the other edge. */
  lemma WrapPiIsUnique(angle: real, x: real, k: int)
    requires x == angle - TWO_PI * (k as real)
    requires if k > 0 then angle > PI && -PI < x <= PI
             else if k < 0 then angle < -PI && -PI <= x < PI
             else -PI <= x <= PI
    ensures x == WrapPi(angle)
  {
    assert PiTurns(angle) == k;
  }

  /** The loop form the firmware uses. */
  method WrapPiLocal(angle: real) returns (x: real)
    ensures x == WrapPi(angle)
  {
    x := angle;
    ghost var k := 0;
    while x > PI
      invariant x == angle - TWO_PI * (k as real) && k >= 0
      invariant k > 0 ==> angle > PI && x > -PI
      decreases if x > PI then ((x - PI) / TWO_PI).Floor + 1 else 0
    {
      x := x - TWO_PI;
      k := k + 1;
    }
    while x < -PI
      invariant x == angle - TWO_PI * (k as real) && x <= PI
      invariant k > 0 ==> angle > PI && x > -PI
      invariant k < 0 ==> angle < -PI && x < PI
      decreases if x < -PI then ((-PI - x) / TWO_PI).Floor + 1 else 0
    {
      x := x + TWO_PI;
      k := k - 1;
    }
    WrapPiIsUnique(angle, x, k);
  }

  // ----- one tick -----

  /** The travels are magnitudes of pulse counts: the encoders' signs are dropped. */
  function Travel(pulses: int, pulsesPerCm: real): real
    requires pulsesPerCm > 0.0
  {
    Abs(pulses as real) / pulsesPerCm
  }

  function MeanTravel(c: Config, left: int, right: int): real
    requires c.Valid()
  {
    0.5 * (Travel(left, c.leftPulsesPerCm) + Travel(right, c.rightPulsesPerCm))
  }

  function Turn(c: Config, left: int, right: int): real
    requires c.Valid()
  {
    (Travel(right, c.rightPulsesPerCm) - Travel(left, c.leftPulsesPerCm)) / c.wheelBaseCm
  }

  function Along(start: real, ds: real, direction: real): real {
    start + ds * direction
  }

  function Integrated(t: Trig, o: Odometer, ds: real, dtheta: real): Odometer {
    var mid := o.pose.theta + 0.5 * dtheta;
    Odometer(Pose(Along(o.pose.x, ds, t.cos(mid)), Along(o.pose.y, ds, t.sin(mid)), WrapPi(o.pose.theta + dtheta)),
             o.distance + Abs(ds))
  }

  /** One chassis tick, from the two encoder deltas. */
  function Ticked(t: Trig, c: Config, o: Odometer, left: int, right: int): Odometer
    requires c.Valid()
  {
    Integrated(t, o, MeanTravel(c, left, right), Turn(c, left, right))
  }

  class Chassis {
    const trig: Trig
    const config: Config
    const encoder: BoardEncoder
    var x: real
    var y: real
    var theta: real
    var segmentDist: real
    var measuredLeft: real
    var measuredRight: real

    ghost function State(): Odometer
      reads this
    {
      Odometer(Pose(x, y, theta), segmentDist)
    }

    constructor (t: Trig, c: Config, wheels: BoardEncoder)
      ensures trig == t && config == Normalised(c) && encoder == wheels
      ensures State() == Odometer(Pose(0.0, 0.0, 0.0), 0.0)
    {
      trig, config, encoder := t, Normalised(c), wheels;
      x, y, theta, segmentDist := 0.0, 0.0, 0.0, 0.0;
      measuredLeft, measuredRight := 0.0, 0.0;
    }

    /** A reset also zeroes both encoders, which then show `left` and `right`. */
    method ResetOdometry(pose: Pose, left: Phases, right: Phases)
      modifies this, encoder
      ensures State() == Odometer(pose, 0.0)
      ensures encoder.Left() == Zeroed(left) && encoder.Right() == Zeroed(right)
      ensures encoder.LeftSeen() == FreshDiagnostics(left) && encoder.RightSeen() == FreshDiagnostics(right)
    {
      x, y, theta := pose.x, pose.y, pose.theta;
      segmentDist := 0.0;
      encoder.Reset(0, left);
      encoder.Reset(1, right);
    }

    method ResetSegmentDistance()
      modifies this`segmentDist
      ensures State() == old(State()).(distance := 0.0)
    {
      segmentDist := 0.0;
    }

    method IntegrateOdometry(dsLeft: real, dsRight: real)
      requires config.Valid()
      modifies this`x, this`y, this`theta, this`segmentDist
      ensures State() == Integrated(trig, old(State()), 0.5 * (dsLeft + dsRight),
                                    (dsRight - dsLeft) / config.wheelBaseCm)
    {
      hide Along, WrapPi;
      var ds := 0.5 * (dsLeft + dsRight);
      var dtheta := (dsRight - dsLeft) / config.wheelBaseCm;
      var mid := theta + 0.5 * dtheta;
      x := Along(x, ds, trig.cos(mid));
      y := Along(y, ds, trig.sin(mid));
      theta := WrapPiLocal(theta + dtheta);
      segmentDist := segmentDist + Abs(ds);
    }

    /** The encoder part of the tick; the duties are not part of this model. */
    method Tick()
      requires config.Valid()
      modifies this, encoder
      ensures var l, r := old(encoder.Left()), old(encoder.Right());
        && State() == Ticked(trig, config, old(State()), l.total - l.reported, r.total - r.reported)
        && encoder.Left() == l.(reported := l.total) && encoder.Right() == r.(reported := r.total)
    {
      var deltaLeft := encoder.GetDelta(0);
      var deltaRight := encoder.GetDelta(1);
      var left, right := Abs(deltaLeft as real), Abs(deltaRight as real);
      IntegrateOdometry(left / config.leftPulsesPerCm, right / config.rightPulsesPerCm);
      measuredLeft, measuredRight := left, right;
    }
  }

  // ----- runs since a reset -----

  datatype Deltas = Deltas(left: int, right: int)

  /** `os[k]` is the odometer before tick `k`; the run begins with a reset to `start`. */
  ghost predicate Run(t: Trig, c: Config, start: Pose, ds: seq<Deltas>, os: seq<Odometer>) {
    && t.Sound() && c.Valid()
    && |os| == |ds| + 1
    && os[0] == Odometer(start, 0.0)
    && forall k | 0 <= k < |ds| :: TickedAt(t, c, ds, os, k)
  }

  ghost predicate TickedAt(t: Trig, c: Config, ds: seq<Deltas>, os: seq<Odometer>, k: nat)
    requires c.Valid() && k < |ds| && |os| == |ds| + 1
  {
    os[k + 1] == Ticked(t, c, os[k], ds[k].left, ds[k].right)
  }

  /** How far the rims of the wheels have turned, forwards or backwards. */
  ghost function LeftPath(c: Config, ds: seq<Deltas>, k: nat): real
    requires c.Valid() && k <= |ds|
  {
    if k == 0 then 0.0 else LeftPath(c, ds, k - 1) + Abs(ds[k - 1].left as real) / c.leftPulsesPerCm
  }

  ghost function RightPath(c: Config, ds: seq<Deltas>, k: nat): real
    requires c.Valid() && k <= |ds|
  {
    if k == 0 then 0.0 else RightPath(c, ds, k - 1) + Abs(ds[k - 1].right as real) / c.rightPulsesPerCm
  }

  lemma TravelIsNonNegative(pulses: int, pulsesPerCm: real)
    requires pulsesPerCm > 0.0
    ensures Travel(pulses, pulsesPerCm) >= 0.0
    ensures Travel(pulses, pulsesPerCm) == 0.0 <==> pulses == 0
  {
    var q := Travel(pulses, pulsesPerCm);
    assert q * pulsesPerCm == Abs(pulses as real);
  }

  /** The segment distance is the mean of the two wheels' paths, and never shrinks. */
  lemma {:induction false} DistanceIsThePathLength(
      t: Trig, c: Config, start: Pose, ds: seq<Deltas>, os: seq<Odometer>, k: nat)
    requires Run(t, c, start, ds, os) && k <= |ds|
    ensures os[k].distance == (LeftPath(c, ds, k) + RightPath(c, ds, k)) / 2.0 >= 0.0
    ensures k > 0 ==> os[k].distance >= os[k - 1].distance
  {
    hide Travel, WrapPi;
    if k > 0 {
      DistanceIsThePathLength(t, c, start, ds, os, k - 1);
      assert TickedAt(t, c, ds, os, k - 1);
      PathsGrow(c, ds, k);
      TravelIsNonNegative(ds[k - 1].left, c.leftPulsesPerCm);
      TravelIsNonNegative(ds[k - 1].right, c.rightPulsesPerCm);
    }
  }

  /** A step of length `s` in a unit direction lengthens a vector by at most `s`. */
  lemma StepExtends(dx: real, dy: real, l: real, s: real, ux: real, uy: real)
    requires l >= 0.0 && s >= 0.0 && dx * dx + dy * dy <= l * l && ux * ux + uy * uy == 1.0
    ensures (dx + s * ux) * (dx + s * ux) + (dy + s * uy) * (dy + s * uy) <= (l + s) * (l + s)
  {
    var p, q := dx * ux + dy * uy, dx * uy - dy * ux;
    assert p * p + q * q == (dx * dx + dy * dy) * (ux * ux + uy * uy);
    Square(q);
    assert p * p <= l * l;
    Root(p, l);
    assert s * p <= s * l by { assert s * (l - p) >= 0.0; }
    assert (dx + s * ux) * (dx + s * ux) + (dy + s * uy) * (dy + s * uy)
        == (dx * dx + dy * dy) + 2.0 * (s * p) + (s * s) * (ux * ux + uy * uy);
    assert (l + s) * (l + s) == l * l + 2.0 * (s * l) + s * s;
  }

  lemma Square(q: real)
    ensures q * q >= 0.0
  {
  }

  lemma SquareGrows(p: real, l: real)
    requires p > l >= 0.0
    ensures p * p > l * l
  {
    var a, b := p - l, p + l;
    assert a * b > 0.0;
    assert a * b == p * p - l * l;
  }

  lemma Root(p: real, l: real)
    requires l >= 0.0 && p * p <= l * l
    ensures p <= l
  {
    if p > l {
      SquareGrows(p, l);
    }
  }

  /** The odometer is no farther from `start` than the distance it reports. */
  ghost predicate Within(start: Pose, o: Odometer) {
    var dx, dy := o.pose.x - start.x, o.pose.y - start.y;
    dx * dx + dy * dy <= o.distance * o.distance
  }

  /** Since any reset the car is never farther from its start than the distance it
      has travelled. */
  lemma {:induction false} NeverFartherThanTravelled(
      t: Trig, c: Config, start: Pose, ds: seq<Deltas>, os: seq<Odometer>, k: nat)
    requires Run(t, c, start, ds, os) && k <= |ds|
    ensures Within(start, os[k])
  {
    hide Ticked;
    if k > 0 {
      NeverFartherThanTravelled(t, c, start, ds, os, k - 1);
      DistanceIsThePathLength(t, c, start, ds, os, k - 1);
      TickExtends(t, c, start, os[k - 1], ds[k - 1]);
      assert TickedAt(t, c, ds, os, k - 1);
      hide Within;
    }
  }

  lemma TickExtends(t: Trig, c: Config, start: Pose, o: Odometer, d: Deltas)
    requires t.Sound() && c.Valid() && o.distance >= 0.0
    requires Within(start, o)
    ensures Within(start, Ticked(t, c, o, d.left, d.right))
  {
    var s, dtheta := MeanTravel(c, d.left, d.right), Turn(c, d.left, d.right);
    var mid := o.pose.theta + 0.5 * dtheta;
    TravelIsNonNegative(d.left, c.leftPulsesPerCm);
    TravelIsNonNegative(d.right, c.rightPulsesPerCm);
    assert t.sin(mid) * t.sin(mid) + t.cos(mid) * t.cos(mid) == 1.0;
    StepExtends(o.pose.x - start.x, o.pose.y - start.y, o.distance, s, t.cos(mid), t.sin(mid));
    hide MeanTravel, Turn, WrapPi;
  }

  ghost predicate ByTurns(a: real, b: real, k: int) {
    a == b + TWO_PI * (k as real)
  }

  lemma TurnOfPaths(c: Config, l: real, r: real, left: int, right: int)
    requires c.Valid()
    ensures (r + Travel(right, c.rightPulsesPerCm) - (l + Travel(left, c.leftPulsesPerCm))) / c.wheelBaseCm
         == (r - l) / c.wheelBaseCm + Turn(c, left, right)
  {
    hide Travel;
    var q := Travel(right, c.rightPulsesPerCm) - Travel(left, c.leftPulsesPerCm);
    assert ((r - l) + q) / c.wheelBaseCm == (r - l) / c.wheelBaseCm + q / c.wheelBaseCm;
  }

  /** From the first tick on the heading stays in [-pi, pi]. Up to whole turns it is the
      start heading plus what the right wheel has travelled more than the left, over the
      wheel base: a longer right path turns the car counterclockwise. */
  lemma {:induction false} HeadingIsTheWheelDifference(
      t: Trig, c: Config, start: Pose, ds: seq<Deltas>, os: seq<Odometer>, k: nat) returns (turns: int)
    requires Run(t, c, start, ds, os) && k <= |ds|
    ensures k > 0 || -PI <= start.theta <= PI ==> -PI <= os[k].pose.theta <= PI
    ensures ByTurns(os[k].pose.theta,
                    start.theta + (RightPath(c, ds, k) - LeftPath(c, ds, k)) / c.wheelBaseCm, turns)
  {
    if k == 0 {
      turns := 0;
    } else {
      hide MeanTravel, Turn, Travel;
      var before := HeadingIsTheWheelDifference(t, c, start, ds, os, k - 1);
      assert TickedAt(t, c, ds, os, k - 1);
      PathsGrow(c, ds, k);
      TurnOfPaths(c, LeftPath(c, ds, k - 1), RightPath(c, ds, k - 1), ds[k - 1].left, ds[k - 1].right);
      var n := PiTurns(os[k - 1].pose.theta + Turn(c, ds[k - 1].left, ds[k - 1].right));
      turns := before - n;
      hide PiTurns, LeftPath, RightPath;
      assert turns as real == before as real - n as real;
    }
  }

  lemma PathsGrow(c: Config, ds: seq<Deltas>, k: nat)
    requires c.Valid() && 0 < k <= |ds|
    ensures LeftPath(c, ds, k) == LeftPath(c, ds, k - 1) + Travel(ds[k - 1].left, c.leftPulsesPerCm)
    ensures RightPath(c, ds, k) == RightPath(c, ds, k - 1) + Travel(ds[k - 1].right, c.rightPulsesPerCm)
  {
  }

  /** A tick moves the car by its mean wheel travel along the heading half-way through the
      tick's turn: x by the cosine, y by the sine. */
  lemma TicksMoveAlongTheHeading(
      t: Trig, c: Config, start: Pose, ds: seq<Deltas>, os: seq<Odometer>, k: nat)
    requires Run(t, c, start, ds, os) && k < |ds|
    ensures var l := Abs(ds[k].left as real) / c.leftPulsesPerCm;
            var r := Abs(ds[k].right as real) / c.rightPulsesPerCm;
            var mid := os[k].pose.theta + (r - l) / (2.0 * c.wheelBaseCm);
            var dx, dy := os[k + 1].pose.x - os[k].pose.x, os[k + 1].pose.y - os[k].pose.y;
            && dx == (l + r) / 2.0 * t.cos(mid) && dy == (l + r) / 2.0 * t.sin(mid)
            && dx * t.cos(mid) + dy * t.sin(mid) == (l + r) / 2.0
            && dx * dx + dy * dy == (l + r) / 2.0 * ((l + r) / 2.0)
  {
    assert TickedAt(t, c, ds, os, k);
    var l, r := Travel(ds[k].left, c.leftPulsesPerCm), Travel(ds[k].right, c.rightPulsesPerCm);
    var s, mid := (l + r) / 2.0, os[k].pose.theta + (r - l) / (2.0 * c.wheelBaseCm);
    hide WrapPi, Travel;
    HalfTurn(r - l, c.wheelBaseCm);
    assert MeanTravel(c, ds[k].left, ds[k].right) == s;
    hide MeanTravel, Turn;
    OnTheCircle(s, t.cos(mid), t.sin(mid));
    assert t.sin(mid) * t.sin(mid) + t.cos(mid) * t.cos(mid) == 1.0;
  }

  lemma HalfTurn(d: real, base: real)
    requires base > 0.0
    ensures 0.5 * (d / base) == d / (2.0 * base)
  {
    var q := d / base;
    assert q * base == d;
    assert (0.5 * q) * (2.0 * base) == d;
  }

  lemma OnTheCircle(s: real, ux: real, uy: real)
    ensures (s * ux) * ux + (s * uy) * uy == s * (uy * uy + ux * ux)
    ensures (s * ux) * (s * ux) + (s * uy) * (s * uy) == s * s * (uy * uy + ux * ux)
  {
  }

  /** The odometer cannot tell driving backwards from driving forwards. */
  lemma {:induction false} ReversingIsInvisible(
      t: Trig, c: Config, start: Pose, ds: seq<Deltas>, rs: seq<Deltas>,
      os: seq<Odometer>, ps: seq<Odometer>, k: nat)
    requires Run(t, c, start, ds, os) && Run(t, c, start, rs, ps) && |rs| == |ds| && k <= |ds|
    requires forall j | 0 <= j < |ds| :: rs[j] == Deltas(-ds[j].left, -ds[j].right)
    ensures os[k] == ps[k]
  {
    hide Integrated;
    if k > 0 {
      ReversingIsInvisible(t, c, start, ds, rs, os, ps, k - 1);
      assert TickedAt(t, c, ds, os, k - 1) && TickedAt(t, c, rs, ps, k - 1);
      assert rs[k - 1] == Deltas(-ds[k - 1].left, -ds[k - 1].right);
      assert Abs(ds[k - 1].left as real) == Abs((-ds[k - 1].left) as real);
      assert Abs(ds[k - 1].right as real) == Abs((-ds[k - 1].right) as real);
    }
  }

  /** The signed travel of the car's middle: what the odometer would report if it kept the
      signs of the encoders. */
  ghost function SignedPath(c: Config, ds: seq<Deltas>, k: nat): real
    requires c.Valid() && k <= |ds|
  {
    if k == 0 then 0.0
    else SignedPath(c, ds, k - 1)
         + 0.5 * (ds[k - 1].left as real / c.leftPulsesPerCm + ds[k - 1].right as real / c.rightPulsesPerCm)
  }

  lemma TravelKeepsNoSign(pulses: int, pulsesPerCm: real)
    requires pulsesPerCm > 0.0
    ensures pulses as real / pulsesPerCm <= Travel(pulses, pulsesPerCm)
    ensures pulses as real / pulsesPerCm == Travel(pulses, pulsesPerCm) <==> pulses >= 0
  {
    var q := pulses as real / pulsesPerCm;
    assert q * pulsesPerCm == pulses as real;
    if pulses < 0 {
      assert Travel(pulses, pulsesPerCm) == (-pulses) as real / pulsesPerCm;
      TravelIsNonNegative(pulses, pulsesPerCm);
    }
  }

  /** The reported distance is never below the signed path, and equals it exactly as long as
      no wheel has turned backwards. */
  lemma {:induction false} DistanceIsSignedWithoutReversing(
      t: Trig, c: Config, start: Pose, ds: seq<Deltas>, os: seq<Odometer>, k: nat)
    requires Run(t, c, start, ds, os) && k <= |ds|
    ensures os[k].distance >= SignedPath(c, ds, k)
    ensures os[k].distance == SignedPath(c, ds, k) <==>
              forall j | 0 <= j < k :: ds[j].left >= 0 && ds[j].right >= 0
  {
    hide Travel, WrapPi;
    if k > 0 {
      DistanceIsSignedWithoutReversing(t, c, start, ds, os, k - 1);
      DistanceIsThePathLength(t, c, start, ds, os, k);
      DistanceIsThePathLength(t, c, start, ds, os, k - 1);
      TravelKeepsNoSign(ds[k - 1].left, c.leftPulsesPerCm);
      TravelKeepsNoSign(ds[k - 1].right, c.rightPulsesPerCm);
    }
  }

  /** One tick straight ahead, forwards or backwards, at heading zero. */
  lemma StraightTick(t: Trig, o: Odometer, left: int, right: int)
    requires t.cos(0.0) == 1.0 && t.sin(0.0) == 0.0 && o.pose.theta == 0.0
    requires (left == 1224 && right == 1219) || (left == -1224 && right == -1219)
    ensures Ticked(t, DEFAULT, o, left, right) ==
            Odometer(o.pose.(x := o.pose.x + 50.0 / 3.0), o.distance + 50.0 / 3.0)
  {
    assert Travel(left, 73.44) == 50.0 / 3.0 && Travel(right, 73.14) == 50.0 / 3.0;
    hide Travel;
    assert MeanTravel(DEFAULT, left, right) == 50.0 / 3.0 && Turn(DEFAULT, left, right) == 0.0;
    hide MeanTravel, Turn;
    assert WrapPi(0.0) == 0.0;
    hide WrapPi;
  }

  /** A car that drives a sixth of a metre forward and the same way back: the odometer
      reports a third of a metre, and a place that far ahead. */
  lemma DrivingBackAddsUp(t: Trig) returns (ds: seq<Deltas>, os: seq<Odometer>)
    requires t.Sound() && t.cos(0.0) == 1.0 && t.sin(0.0) == 0.0
    ensures Run(t, DEFAULT, Pose(0.0, 0.0, 0.0), ds, os)
    ensures ds == [Deltas(1224, 1219), Deltas(-1224, -1219)] && SignedPath(DEFAULT, ds, 2) == 0.0
    ensures os[2].distance == 100.0 / 3.0 && os[2].pose == Pose(100.0 / 3.0, 0.0, 0.0)
  {
    ds := [Deltas(1224, 1219), Deltas(-1224, -1219)];
    var o0 := Odometer(Pose(0.0, 0.0, 0.0), 0.0);
    StraightTick(t, o0, 1224, 1219);
    var o1 := Ticked(t, DEFAULT, o0, 1224, 1219);
    StraightTick(t, o1, -1224, -1219);
    var o2 := Ticked(t, DEFAULT, o1, -1224, -1219);
    os := [o0, o1, o2];
    hide Ticked;
    assert TickedAt(t, DEFAULT, ds, os, 0) && TickedAt(t, DEFAULT, ds, os, 1);
    assert SignedPath(DEFAULT, ds, 0) == 0.0;
    assert SignedPath(DEFAULT, ds, 1) == 0.5 * (1224.0 / 73.44 + 1219.0 / 73.14);
  }
}
