/** What the line sensor promises over whole runs of frames. */
module LineSensorHistory {
  import opened LineSensor

  /** Frame k turns the state before it into the state after it. */
  ghost predicate Sampled(c: Config, rows: seq<Row>, fs: seq<Frame>, k: nat)
    requires k < |rows| && |fs| == |rows| + 1
  {
    |rows[k].raw| == c.Count() && fs[k + 1] == Updated(c, fs[k], rows[k])
  }

  ghost predicate Run(c: Config, rows: seq<Row>, fs: seq<Frame>) {
    && |fs| == |rows| + 1
    && fs[0] == BlankFrame()
    && forall k | 0 <= k < |rows| :: Sampled(c, rows, fs, k)
  }

  lemma PrefixesAreRuns(c: Config, rows: seq<Row>, fs: seq<Frame>, k: nat)
    requires Run(c, rows, fs) && k <= |rows|
    ensures Run(c, rows[..k], fs[..k + 1])
  {
    hide Updated;
    var shorter, states := rows[..k], fs[..k + 1];
    forall j | 0 <= j < k
      ensures Sampled(c, shorter, states, j)
    {
      assert Sampled(c, rows, fs, j);
    }
  }

  // ----- the position a single frame shows -----

  lemma PositiveFactor(x: real, d: real)
    requires d > 0.0 && x * d >= 0.0
    ensures x >= 0.0
  {
  }

  lemma QuotientBound(m: real, d: real)
    requires d > 0.0 && -d <= m <= d
    ensures -1.0 <= m / d <= 1.0
  {
    var q := m / d;
    assert q * d == m;
    PositiveFactor(1.0 - q, d);
    PositiveFactor(q + 1.0, d);
  }

  lemma RatioBound(m: int, t: int, n: int)
    requires t > 0 && n > 0 && -(n * t) <= m <= n * t
    ensures -1.0 <= Ratio(m, t, n) <= 1.0
  {
    var d := t as real * n as real;
    assert d == (n * t) as real && d > 0.0;
    QuotientBound(m as real, d);
  }

  lemma RowFacts(raw: seq<U16>)
    requires raw != []
    ensures 0 <= Total(raw) && Darkest(raw) <= Brightest(raw)
  {
    ExtremesAreExtreme(raw, |raw|);
    MomentIsBounded(raw, Darkest(raw), |raw|);
  }

  lemma RawBiasIsInRange(raw: seq<U16>)
    requires |raw| > 1 && Total(raw) > 0
    ensures -1.0 <= RawBias(raw) <= 1.0
  {
    hide Ratio;
    ExtremesAreExtreme(raw, |raw|);
    MomentIsBounded(raw, Darkest(raw), |raw|);
    RatioBound(Moment(raw), Total(raw), |raw| - 1);
  }

  /** A row with one bright channel on an even background. */
  ghost predicate OneBright(raw: seq<U16>, at: nat) {
    && |raw| > 1 && at < |raw|
    && (forall j, k | 0 <= j < |raw| && 0 <= k < |raw| && j != at && k != at :: raw[j] == raw[k])
    && (forall j | 0 <= j < |raw| && j != at :: raw[j] < raw[at])
  }

  lemma {:induction false} OneBrightSums(raw: seq<U16>, at: nat, floor: int, k: nat)
    requires OneBright(raw, at) && k <= |raw|
    requires forall j | 0 <= j < |raw| && j != at :: raw[j] == floor
    ensures StrengthTo(raw, floor, k) == if k > at then raw[at] - floor else 0
    ensures WeightedTo(raw, floor, k) == if k > at then Weight(at, |raw|) * (raw[at] - floor) else 0
  {
    if k > 0 {
      OneBrightSums(raw, at, floor, k - 1);
    }
  }

  /** The bias of a single bright channel is that channel's exact place, whatever its
      brightness and the background. */
  lemma OneBrightIsExact(raw: seq<U16>, at: nat)
    requires OneBright(raw, at)
    ensures Total(raw) > 0
    ensures RawBias(raw) == Weight(at, |raw|) as real / (|raw| - 1) as real
    ensures RawBias(raw) == -1.0 <==> at == 0
    ensures RawBias(raw) == 1.0 <==> at == |raw| - 1
  {
    var other := if at == 0 then 1 else 0;
    var floor, n := raw[other], |raw| - 1;
    ExtremesAreExtreme(raw, |raw|);
    assert Darkest(raw) == floor by {
      assert raw[..|raw|] == raw;
      assert raw[other] in raw;
      ExtremesAreUnique(raw, floor, raw[at]);
    }
    OneBrightSums(raw, at, floor, |raw|);
    var v, w := raw[at] - floor, Weight(at, |raw|);
    assert Total(raw) == v && Moment(raw) == w * v;
    hide Total, Moment, Ratio;
    assert -n <= w <= n && (w == n <==> at == n) && (w == -n <==> at == 0);
    Cancel(w, v, n);
  }

  lemma Cancel(w: int, v: int, n: int)
    requires v > 0 && n > 0
    ensures Ratio(w * v, v, n) == w as real / n as real
    ensures w as real / n as real == 1.0 <==> w == n
    ensures w as real / n as real == -1.0 <==> w == -n
  {
    var d := v as real * n as real;
    assert d > 0.0;
    var q := w as real / n as real;
    assert q * n as real == w as real;
    assert (w * v) as real == w as real * v as real == q * d;
  }

  /** The sum of the first `k` channels. */
  ghost function SumTo(raw: seq<U16>, k: nat): int
    requires k <= |raw|
  {
    if k == 0 then 0 else SumTo(raw, k - 1) + raw[k - 1]
  }

  /** The first `k` excesses over the darkest channel, each times its place. */
  ghost function PlacesTo(raw: seq<U16>, floor: int, k: nat): int
    requires k <= |raw|
  {
    if k == 0 then 0 else PlacesTo(raw, floor, k - 1) + (k - 1) * (raw[k - 1] - floor)
  }

  lemma {:induction false} SumsExpand(raw: seq<U16>, floor: int, k: nat)
    requires k <= |raw|
    ensures StrengthTo(raw, floor, k) == SumTo(raw, k) - k * floor
    ensures WeightedTo(raw, floor, k) == 2 * PlacesTo(raw, floor, k) - (|raw| - 1) * StrengthTo(raw, floor, k)
  {
    if k > 0 {
      SumsExpand(raw, floor, k - 1);
      OneMoreChannel(k - 1, |raw|, raw[k - 1] - floor, StrengthTo(raw, floor, k - 1), PlacesTo(raw, floor, k - 1));
      assert k * floor == (k - 1) * floor + floor;
      hide Weight;
    }
  }

  lemma OneMoreChannel(i: nat, n: nat, v: int, strength: int, places: int)
    ensures 2 * places - (n - 1) * strength + Weight(i, n) * v == 2 * (places + i * v) - (n - 1) * (strength + v)
  {
    assert (2 * i - (n - 1)) * v == 2 * (i * v) - (n - 1) * v;
    assert (n - 1) * (strength + v) == (n - 1) * strength + (n - 1) * v;
  }

  /** The position of any row is the centroid of the light above the darkest channel, with the
      first channel at -1 and the last at 1. */
  lemma PositionIsTheCentroid(raw: seq<U16>)
    requires |raw| > 1 && Total(raw) > 0
    ensures Total(raw) == SumTo(raw, |raw|) - |raw| * Darkest(raw)
    ensures (RawBias(raw) + 1.0) * (|raw| - 1) as real * Total(raw) as real
         == 2.0 * PlacesTo(raw, Darkest(raw), |raw|) as real
  {
    SumsExpand(raw, Darkest(raw), |raw|);
    CentroidOfMoment(Moment(raw), Total(raw), |raw| - 1, PlacesTo(raw, Darkest(raw), |raw|));
    hide Ratio, Darkest;
  }

  lemma CentroidOfMoment(m: int, total: int, span: int, places: int)
    requires total > 0 && span > 0 && m == 2 * places - span * total
    ensures (Ratio(m, total, span) + 1.0) * span as real * total as real == 2.0 * places as real
  {
    var t, s := total as real, span as real;
    var q := m as real / (t * s);
    assert t * s > 0.0;
    assert q * (t * s) == m as real;
    assert (span * total) as real == s * t;
    assert (q + 1.0) * s * t == q * (t * s) + s * t;
  }

  // ----- what a frame reports -----

  /** A frame in numbers: the levels, the line decision, and the channels, which the array
      names itself and which otherwise are those at least half-way up from the darkest to the
      brightest. */
  lemma FrameIsReported(c: Config, rows: seq<Row>, fs: seq<Frame>, k: nat)
    requires Run(c, rows, fs) && k < |rows| && rows[k].raw != []
    ensures var raw, f := rows[k].raw, fs[k + 1];
            && f.minValue in raw && f.maxValue in raw && (forall v | v in raw :: f.minValue <= v <= f.maxValue)
            && f.contrast == f.maxValue - f.minValue
            && f.strength == (var s := SumTo(raw, |raw|) - |raw| * f.minValue; if s > 65535 then 65535 else s)
            && (f.onLine <==> f.contrast >= c.Contrast() && f.strength >= c.Strength())
            && (forall i: nat :: i in f.bits <==>
                  if c.hasArray then i in rows[k].digital
                  else f.contrast > 0 && i < |raw| && 2 * (raw[i] - f.minValue) >= f.contrast - 1)
  {
    assert Sampled(c, rows, fs, k);
    var raw := rows[k].raw;
    RowFacts(raw);
    ExtremesAreExtreme(raw, |raw|);
    assert raw[..|raw|] == raw;
    SumsExpand(raw, Darkest(raw), |raw|);
    UpdatedMeasures(c, fs[k], rows[k]);
    BrightHalf(raw, Darkest(raw), Brightest(raw) - Darkest(raw));
    hide Updated, StrengthTo, MinTo, MaxTo, BitsOf;
  }

  lemma UpdatedMeasures(c: Config, f: Frame, row: Row)
    requires row.raw != []
    ensures 0 <= Total(row.raw) && Darkest(row.raw) <= Brightest(row.raw)
    ensures var g, m := Updated(c, f, row), Measured(c, f, row);
            g == m.(bias := g.bias, lastBias := g.lastBias, primed := g.primed)
  {
    RowFacts(row.raw);
    hide Measured, Smoothed, RawBias;
  }

  lemma BrightHalf(raw: seq<U16>, floor: U16, span: U16)
    ensures forall i: nat :: i in BitsOf(raw, floor, span) <==>
                             span > 0 && i < |raw| && 2 * (raw[i] - floor) >= span - 1
  {
  }

  // ----- the smoothed position over a run -----

  /** The frame is strong enough to trust, and the position can be computed from it. */
  predicate Sighting(c: Config, raw: seq<U16>) {
    && |raw| > 1
    && Total(raw) > 0
    && Brightest(raw) - Darkest(raw) >= c.Contrast()
    && ClampU16(Total(raw)) >= c.Strength()
  }

  function Sightings(c: Config, rows: seq<Row>): seq<real> {
    if rows == [] then []
    else
      var before := Sightings(c, rows[..|rows| - 1]);
      var raw := rows[|rows| - 1].raw;
      if Sighting(c, raw) then before + [RawBias(raw)] else before
  }

  /** An exponential moving average that starts at its first sample. */
  function Average(alpha: real, xs: seq<real>): real {
    if xs == [] then 0.0
    else if |xs| == 1 then xs[0]
    else alpha * xs[|xs| - 1] + (1.0 - alpha) * Average(alpha, xs[..|xs| - 1])
  }

  lemma AverageIsSmoothed(alpha: real, xs: seq<real>)
    requires |xs| > 1
    ensures Average(alpha, xs) == Smoothed(alpha, xs[|xs| - 1], Average(alpha, xs[..|xs| - 1]))
  {
  }

  /** What a frame does to the position. */
  lemma FrameMoves(c: Config, f: Frame, row: Row)
    requires f.bias == f.lastBias
    ensures var g, raw := Updated(c, f, row), row.raw;
      && g.bias == g.lastBias
      && g.primed == (f.primed || Sighting(c, raw))
      && g.bias == if !Sighting(c, raw) then f.bias
                   else if f.primed then Smoothed(c.Alpha(), RawBias(raw), f.bias) else RawBias(raw)
  {
    if row.raw != [] {
      RowFacts(row.raw);
    }
  }

  /** After any run the bias is the moving average of the sightings alone: frames without
      a line neither move it nor age it, and lastBias never differs from it. */
  lemma {:induction false} BiasAveragesTheSightings(c: Config, rows: seq<Row>, fs: seq<Frame>)
    requires Run(c, rows, fs)
    ensures var f := fs[|rows|];
      && f.bias == f.lastBias == Average(c.Alpha(), Sightings(c, rows))
      && f.primed == (Sightings(c, rows) != [])
  {
    hide Updated, RawBias, Sighting, Smoothed;
    if rows != [] {
      var k := |rows| - 1;
      PrefixesAreRuns(c, rows, fs, k);
      BiasAveragesTheSightings(c, rows[..k], fs[..k + 1]);
      assert Sampled(c, rows, fs, k);
      FrameMoves(c, fs[k], rows[k]);
      if Sighting(c, rows[k].raw) {
        var before := Sightings(c, rows[..k]);
        assert Sightings(c, rows)[..|before|] == before;
        if before != [] {
          AverageIsSmoothed(c.Alpha(), Sightings(c, rows));
        }
      }
    }
  }

  lemma SmoothingStays(alpha: real, x: real, y: real, lo: real, hi: real)
    requires 0.0 <= alpha <= 1.0 && lo <= x <= hi && lo <= y <= hi
    ensures lo <= Smoothed(alpha, x, y) <= hi
  {
    assert alpha * (x - lo) >= 0.0 && (1.0 - alpha) * (y - lo) >= 0.0;
    assert alpha * (hi - x) >= 0.0 && (1.0 - alpha) * (hi - y) >= 0.0;
  }

  lemma {:induction false} AverageStays(alpha: real, xs: seq<real>, lo: real, hi: real)
    requires 0.0 <= alpha <= 1.0 && xs != []
    requires forall i | 0 <= i < |xs| :: lo <= xs[i] <= hi
    ensures lo <= Average(alpha, xs) <= hi
  {
    hide Smoothed;
    if |xs| > 1 {
      AverageStays(alpha, xs[..|xs| - 1], lo, hi);
      SmoothingStays(alpha, xs[|xs| - 1], Average(alpha, xs[..|xs| - 1]), lo, hi);
      AverageIsSmoothed(alpha, xs);
    }
  }

  lemma {:induction false} SightingsAreInRange(c: Config, rows: seq<Row>)
    ensures forall i | 0 <= i < |Sightings(c, rows)| :: -1.0 <= Sightings(c, rows)[i] <= 1.0
  {
    hide RawBias;
    if rows != [] {
      SightingsAreInRange(c, rows[..|rows| - 1]);
      var raw := rows[|rows| - 1].raw;
      if Sighting(c, raw) {
        RawBiasIsInRange(raw);
      }
    }
  }

  /** In every reachable state the bias and the remembered bias lie in [-1, 1]. */
  lemma BiasStaysInRange(c: Config, rows: seq<Row>, fs: seq<Frame>, k: nat)
    requires Run(c, rows, fs) && k < |fs|
    ensures -1.0 <= fs[k].bias <= 1.0 && -1.0 <= fs[k].lastBias <= 1.0
  {
    hide Updated, Sightings, Average;
    PrefixesAreRuns(c, rows, fs, k);
    BiasAveragesTheSightings(c, rows[..k], fs[..k + 1]);
    SightingsAreInRange(c, rows[..k]);
    var xs := Sightings(c, rows[..k]);
    if xs != [] {
      AverageStays(c.Alpha(), xs, -1.0, 1.0);
    } else {
      assert Average(c.Alpha(), xs) == 0.0 by { AverageOfNothing(c.Alpha()); }
    }
  }

  lemma AverageOfNothing(alpha: real)
    ensures Average(alpha, []) == 0.0
  {
  }

  // ----- mirror images -----

  function Mirrored(raw: seq<U16>): (m: seq<U16>)
    ensures |m| == |raw|
  {
    seq(|raw|, i requires 0 <= i < |raw| => raw[|raw| - 1 - i])
  }

  lemma {:induction false} MirroredSums(raw: seq<U16>, floor: int, k: nat)
    requires k <= |raw|
    ensures StrengthTo(Mirrored(raw), floor, k)
         == StrengthTo(raw, floor, |raw|) - StrengthTo(raw, floor, |raw| - k)
    ensures WeightedTo(Mirrored(raw), floor, k)
         == WeightedTo(raw, floor, |raw| - k) - WeightedTo(raw, floor, |raw|)
  {
    if k > 0 {
      MirroredSums(raw, floor, k - 1);
      var j := |raw| - k;
      assert Mirrored(raw)[k - 1] == raw[j];
      assert Weight(k - 1, |raw|) == -Weight(j, |raw|);
      hide Weight;
      NegatedTerm(Weight(j, |raw|), raw[j] - floor);
    }
  }

  lemma NegatedTerm(w: int, v: int)
    ensures (-w) * v == -(w * v)
  {
  }

  lemma MirroredRow(raw: seq<U16>)
    requires raw != []
    ensures Darkest(Mirrored(raw)) == Darkest(raw) && Brightest(Mirrored(raw)) == Brightest(raw)
    ensures Total(Mirrored(raw)) == Total(raw) && Moment(Mirrored(raw)) == -Moment(raw)
  {
    var m, n := Mirrored(raw), |raw|;
    ExtremesAreExtreme(raw, n);
    assert raw[..n] == raw;
    var lo, hi := Darkest(raw), Brightest(raw);
    assert lo in m && hi in m by {
      var i :| 0 <= i < n && raw[i] == lo;
      assert m[n - 1 - i] == lo;
      var j :| 0 <= j < n && raw[j] == hi;
      assert m[n - 1 - j] == hi;
    }
    ExtremesAreUnique(m, lo, hi);
    MirroredSums(raw, lo, n);
  }

  /** The mirror image of a frame: opposite position, reflected channel bits, and
      everything else the same. */
  ghost predicate Opposite(f: Frame, g: Frame, count: nat) {
    && g.bias == -f.bias && g.lastBias == -f.lastBias
    && g.onLine == f.onLine && g.primed == f.primed
    && g.minValue == f.minValue && g.maxValue == f.maxValue
    && g.contrast == f.contrast && g.strength == f.strength
    && (forall i: nat :: i in g.bits <==> i < count && count - 1 - i in f.bits)
  }

  predicate Reflects(digital: set<nat>, n: nat, i: nat) {
    i < n && n - 1 - i in digital
  }

  function Image(row: Row): Row {
    Row(Mirrored(row.raw), set i: nat | i < |row.raw| && Reflects(row.digital, |row.raw|, i))
  }

  lemma MirroredUpdate(c: Config, f: Frame, g: Frame, row: Row)
    requires Opposite(f, g, |row.raw|)
    ensures Opposite(Updated(c, f, row), Updated(c, g, Image(row)), |row.raw|)
  {
    var raw := row.raw;
    if raw != [] {
      RowFacts(raw);
      RowFacts(Mirrored(raw));
      MirroredRow(raw);
      hide Darkest, Brightest, Total, Moment, Smoothed, Ratio;
      if |raw| > 1 && Total(raw) > 0 {
        Negation(Moment(raw), Total(raw), |raw| - 1);
        assert RawBias(Mirrored(raw)) == -RawBias(raw);
        SmoothedNegation(c.Alpha(), RawBias(raw), f.bias);
      }
    }
  }

  lemma Negation(m: int, t: int, n: int)
    requires t > 0 && n > 0
    ensures Ratio(-m, t, n) == -Ratio(m, t, n)
  {
  }

  lemma SmoothedNegation(alpha: real, x: real, y: real)
    ensures Smoothed(alpha, -x, -y) == -Smoothed(alpha, x, y)
  {
  }

  /** Two equal sensors fed mirror-image frames keep exactly opposite positions and agree
      on everything else, for ever. */
  lemma {:induction false} MirrorImagesStayOpposite(c: Config, rows: seq<Row>, images: seq<Row>,
                                                    fs: seq<Frame>, gs: seq<Frame>, k: nat)
    requires Run(c, rows, fs) && Run(c, images, gs)
    requires |images| == |rows| && forall j | 0 <= j < |rows| :: images[j] == Image(rows[j])
    requires k < |fs|
    ensures Opposite(fs[k], gs[k], c.Count())
  {
    hide Updated;
    if k > 0 {
      MirrorImagesStayOpposite(c, rows, images, fs, gs, k - 1);
      assert Sampled(c, rows, fs, k - 1) && Sampled(c, images, gs, k - 1);
      MirroredUpdate(c, fs[k - 1], gs[k - 1], rows[k - 1]);
    }
  }

  // ----- ambient light -----

  /** Row b is row a with the same amount of light added to every channel. */
  ghost predicate Lit(a: seq<U16>, b: seq<U16>, d: int) {
    |a| == |b| && forall i | 0 <= i < |a| :: b[i] == a[i] + d
  }

  lemma {:induction false} LitSums(a: seq<U16>, b: seq<U16>, d: int, floor: int, k: nat)
    requires Lit(a, b, d) && k <= |a|
    ensures StrengthTo(b, floor + d, k) == StrengthTo(a, floor, k)
    ensures WeightedTo(b, floor + d, k) == WeightedTo(a, floor, k)
  {
    if k > 0 {
      LitSums(a, b, d, floor, k - 1);
    }
  }

  lemma LitRow(a: seq<U16>, b: seq<U16>, d: int)
    requires Lit(a, b, d) && a != []
    ensures Darkest(b) == Darkest(a) + d && Brightest(b) == Brightest(a) + d
    ensures Total(b) == Total(a) && Moment(b) == Moment(a)
  {
    var n := |a|;
    ExtremesAreExtreme(a, n);
    assert a[..n] == a;
    var lo, hi := Darkest(a), Brightest(a);
    assert lo + d in b && hi + d in b by {
      var i :| 0 <= i < n && a[i] == lo;
      assert b[i] == lo + d;
      var j :| 0 <= j < n && a[j] == hi;
      assert b[j] == hi + d;
    }
    ExtremesAreUnique(b, lo + d, hi + d);
    LitSums(a, b, d, lo, n);
  }

  lemma LitBits(a: seq<U16>, b: seq<U16>, d: int, floor: U16, span: U16)
    requires Lit(a, b, d) && 0 <= floor + d <= U16_MAX
    ensures BitsOf(b, floor + d, span) == BitsOf(a, floor, span)
  {
  }

  /** Equal but for the absolute levels. */
  ghost predicate SameLine(f: Frame, g: Frame) {
    g.(minValue := 0, maxValue := 0) == f.(minValue := 0, maxValue := 0)
  }

  lemma LitUpdate(c: Config, f: Frame, g: Frame, row: Row, other: Row, d: int)
    requires SameLine(f, g) && Lit(row.raw, other.raw, d) && row.digital == other.digital
    ensures SameLine(Updated(c, f, row), Updated(c, g, other))
  {
    var a, b := row.raw, other.raw;
    if a != [] {
      RowFacts(a);
      RowFacts(b);
      LitRow(a, b, d);
      LitBits(a, b, d, Darkest(a), Brightest(a) - Darkest(a));
      hide Darkest, Brightest, Total, Moment, Smoothed, Ratio, BitsOf;
    }
  }

  /** Light that falls evenly on every channel, even if it changes from frame to frame,
      changes nothing the sensor reports but the two extreme levels. */
  lemma {:induction false} AmbientLightIsInvisible(c: Config, rows: seq<Row>, lit: seq<Row>,
                                                   light: seq<int>, fs: seq<Frame>, gs: seq<Frame>, k: nat)
    requires Run(c, rows, fs) && Run(c, lit, gs)
    requires |lit| == |light| == |rows|
    requires forall j | 0 <= j < |rows| :: Lit(rows[j].raw, lit[j].raw, light[j]) && lit[j].digital == rows[j].digital
    requires k < |fs|
    ensures SameLine(fs[k], gs[k])
  {
    hide Updated;
    if k > 0 {
      AmbientLightIsInvisible(c, rows, lit, light, fs, gs, k - 1);
      assert Sampled(c, rows, fs, k - 1) && Sampled(c, lit, gs, k - 1);
      LitUpdate(c, fs[k - 1], gs[k - 1], rows[k - 1], lit[k - 1], light[k - 1]);
    }
  }
}
