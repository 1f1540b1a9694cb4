/** The line sensor frame: contrast, strength and the smoothed line position of up to
    eight grayscale channels. */
module LineSensor {

  const MAX_COUNT := 8
  const DEFAULT_CONTRAST := 120
  const DEFAULT_STRENGTH := 260
  const DEFAULT_ALPHA := 0.35
  const U16_MAX := 65535

  type U16 = v: nat | v <= U16_MAX

  /** A sensor reads through a callback, through an array of digital pins, or not at all. */
  datatype Config = Config(count: nat, contrastThreshold: nat, strengthThreshold: nat, alpha: real,
                           hasReader: bool, hasArray: bool)
  {
    function Count(): nat {
      if count > MAX_COUNT then MAX_COUNT else count
    }

    function Contrast(): nat {
      if contrastThreshold != 0 then contrastThreshold else DEFAULT_CONTRAST
    }

    function Strength(): nat {
      if strengthThreshold != 0 then strengthThreshold else DEFAULT_STRENGTH
    }

    function Alpha(): (a: real)
      ensures 0.0 < a <= 1.0
    {
      if alpha <= 0.0 || alpha > 1.0 then DEFAULT_ALPHA else alpha
    }
  }

  datatype Frame = Frame(minValue: U16, maxValue: U16, contrast: U16, strength: U16, bits: set<nat>,
                         bias: real, lastBias: real, onLine: bool, primed: bool)

  /** One reading: the channels' values, and the active pins of a sensor array. */
  datatype Row = Row(raw: seq<U16>, digital: set<nat>)

  function BlankFrame(): Frame {
    Frame(0, 0, 0, 0, {}, 0.0, 0.0, false, false)
  }

  // ----- sums over a row of channels -----

  function MinTo(raw: seq<U16>, k: nat): U16
    requires 0 < k <= |raw|
  {
    if k == 1 then raw[0] else if raw[k - 1] < MinTo(raw, k - 1) then raw[k - 1] else MinTo(raw, k - 1)
  }

  function MaxTo(raw: seq<U16>, k: nat): U16
    requires 0 < k <= |raw|
  {
    if k == 1 then raw[0] else if raw[k - 1] > MaxTo(raw, k - 1) then raw[k - 1] else MaxTo(raw, k - 1)
  }

  function Weight(index: nat, count: nat): int {
    2 * index - (count - 1)
  }

  /** The total excess over the darkest channel. */
  function StrengthTo(raw: seq<U16>, floor: int, k: nat): int
    requires k <= |raw|
  {
    if k == 0 then 0 else StrengthTo(raw, floor, k - 1) + (raw[k - 1] - floor)
  }

  /** The excesses weighted by their channel's distance from the middle. */
  function WeightedTo(raw: seq<U16>, floor: int, k: nat): int
    requires k <= |raw|
  {
    if k == 0 then 0 else WeightedTo(raw, floor, k - 1) + Weight(k - 1, |raw|) * (raw[k - 1] - floor)
  }

  function Darkest(raw: seq<U16>): U16
    requires raw != []
  {
    MinTo(raw, |raw|)
  }

  function Brightest(raw: seq<U16>): U16
    requires raw != []
  {
    MaxTo(raw, |raw|)
  }

  function Total(raw: seq<U16>): int
    requires raw != []
  {
    StrengthTo(raw, Darkest(raw), |raw|)
  }

  function Moment(raw: seq<U16>): int
    requires raw != []
  {
    WeightedTo(raw, Darkest(raw), |raw|)
  }

  lemma {:induction false} ExtremesAreExtreme(raw: seq<U16>, k: nat)
    requires 0 < k <= |raw|
    ensures MinTo(raw, k) in raw[..k] && forall j | 0 <= j < k :: MinTo(raw, k) <= raw[j]
    ensures MaxTo(raw, k) in raw[..k] && forall j | 0 <= j < k :: raw[j] <= MaxTo(raw, k)
  {
    if k > 1 {
      ExtremesAreExtreme(raw, k - 1);
      assert raw[..k] == raw[..k - 1] + [raw[k - 1]];
    } else {
      assert raw[..1] == [raw[0]];
    }
  }

  lemma ExtremesAreUnique(raw: seq<U16>, lo: int, hi: int)
    requires raw != []
    requires lo in raw && forall j | 0 <= j < |raw| :: lo <= raw[j]
    requires hi in raw && forall j | 0 <= j < |raw| :: raw[j] <= hi
    ensures Darkest(raw) == lo && Brightest(raw) == hi
  {
    ExtremesAreExtreme(raw, |raw|);
    assert raw[..|raw|] == raw;
  }

  lemma WeightBound(w: int, v: int, b: int)
    requires v >= 0 && -b <= w <= b
    ensures -(b * v) <= w * v <= b * v
  {
    assert (b - w) * v >= 0;
    assert (b + w) * v >= 0;
  }

  /** The moment never exceeds the outermost weight times the strength. */
  lemma {:induction false} MomentIsBounded(raw: seq<U16>, floor: int, k: nat)
    requires k <= |raw| && forall j | 0 <= j < k :: floor <= raw[j]
    ensures 0 <= StrengthTo(raw, floor, k) <= k * U16_MAX - k * floor
    ensures k > 0 ==> -((|raw| - 1) * StrengthTo(raw, floor, k)) <= WeightedTo(raw, floor, k)
    ensures k > 0 ==> WeightedTo(raw, floor, k) <= (|raw| - 1) * StrengthTo(raw, floor, k)
  {
    if k > 0 {
      MomentIsBounded(raw, floor, k - 1);
      var v, b, s := raw[k - 1] - floor, |raw| - 1, StrengthTo(raw, floor, k - 1);
      WeightBound(Weight(k - 1, |raw|), v, b);
      assert b * (s + v) == b * s + b * v;
      assert (k - 1) * floor + floor == k * floor;
    }
  }

  // ----- one frame -----

  function ClampU16(v: nat): U16 {
    if v > U16_MAX then U16_MAX else v
  }

  /** The channels at least half-way up the contrast; none without contrast. */
  function BitsOf(raw: seq<U16>, minValue: U16, contrast: U16): set<nat> {
    if contrast == 0 then {} else set i: nat | i < |raw| && raw[i] >= minValue + contrast / 2
  }

  function Ratio(weighted: int, total: int, span: int): real
    requires total > 0 && span > 0
  {
    weighted as real / (total as real * span as real)
  }

  /** The line position, from -1 at the first channel to 1 at the last. */
  function RawBias(raw: seq<U16>): real
    requires |raw| > 1 && Total(raw) > 0
  {
    Ratio(Moment(raw), Total(raw), |raw| - 1)
  }

  function Smoothed(alpha: real, sample: real, before: real): real {
    alpha * sample + (1.0 - alpha) * before
  }

  function Measured(c: Config, f: Frame, row: Row): Frame
    requires row.raw != []
    requires 0 <= Total(row.raw)
    requires Darkest(row.raw) <= Brightest(row.raw)
  {
    var raw := row.raw;
    var contrast := Brightest(raw) - Darkest(raw);
    var strength := ClampU16(Total(raw));
    f.(minValue := Darkest(raw), maxValue := Brightest(raw), contrast := contrast, strength := strength,
       bits := if c.hasArray then row.digital else BitsOf(raw, Darkest(raw), contrast),
       onLine := contrast >= c.Contrast() && strength >= c.Strength())
  }

  function Positioned(c: Config, f: Frame, raw: seq<U16>): Frame
    requires raw != []
  {
    if f.onLine && Total(raw) > 0 && |raw| > 1 then
      var bias := if f.primed then Smoothed(c.Alpha(), RawBias(raw), f.bias) else RawBias(raw);
      f.(bias := bias, lastBias := bias, primed := true)
    else f.(bias := f.lastBias)
  }

  /** One update with the row of values now in the frame. */
  function Updated(c: Config, f: Frame, row: Row): Frame {
    if row.raw == [] then
      f.(minValue := 0, maxValue := 0, contrast := 0, strength := 0, bits := {}, onLine := false)
    else
      ExtremesAreExtreme(row.raw, |row.raw|);
      MomentIsBounded(row.raw, Darkest(row.raw), |row.raw|);
      Positioned(c, Measured(c, f, row), row.raw)
  }

  class Sensor {
    const config: Config
    const raw: array<U16>
    var minValue: U16
    var maxValue: U16
    var contrast: U16
    var strength: U16
    var bits: set<nat>
    var bias: real
    var lastBias: real
    var onLine: bool
    var primed: bool

    ghost function State(): Frame
      reads this
    {
      Frame(minValue, maxValue, contrast, strength, bits, bias, lastBias, onLine, primed)
    }

    ghost predicate Valid()
    {
      raw.Length == MAX_COUNT
    }

    constructor (c: Config)
      ensures Valid() && fresh(raw) && config == c && State() == BlankFrame()
    {
      config := c;
      raw := new U16[MAX_COUNT](i => 0);
      minValue, maxValue, contrast, strength, bits := 0, 0, 0, 0, {};
      bias, lastBias, onLine, primed := 0.0, 0.0, false, false;
    }

    method Reset()
      modifies this
      ensures State() == BlankFrame()
    {
      minValue, maxValue, contrast, strength, bits := 0, 0, 0, 0, {};
      bias, lastBias, onLine, primed := 0.0, 0.0, false, false;
    }

    /** Stores what the channels read, if there is anything to read, and clears the unused
        ones. */
    method Fill(reading: seq<U16>)
      requires Valid() && |reading| <= MAX_COUNT
      modifies raw
      ensures raw[..|reading|] == if config.hasReader || config.hasArray then reading else old(raw[..|reading|])
      ensures forall i | |reading| <= i < MAX_COUNT :: raw[i] == 0
    {
      if config.hasReader || config.hasArray {
        for i := 0 to |reading|
          invariant raw[..i] == reading[..i]
        {
          raw[i] := reading[i];
        }
      }
      ghost var row := raw[..|reading|];
      for i := |reading| to MAX_COUNT
        invariant raw[..|reading|] == row
        invariant forall j | |reading| <= j < i :: raw[j] == 0
      {
        raw[i] := 0;
      }
    }

    method FindExtremes(n: nat) returns (lo: U16, hi: U16)
      requires Valid() && 0 < n <= MAX_COUNT
      ensures lo == Darkest(raw[..n]) && hi == Brightest(raw[..n])
    {
      lo, hi := raw[0], raw[0];
      ghost var row := raw[..n];
      for i := 0 to n
        invariant i == 0 ==> lo == hi == row[0]
        invariant i > 0 ==> lo == MinTo(row, i) && hi == MaxTo(row, i)
      {
        if raw[i] < lo { lo := raw[i]; }
        if raw[i] > hi { hi := raw[i]; }
      }
    }

    method Weigh(n: nat, floor: U16) returns (total: int, weighted: int)
      requires Valid() && 0 < n <= MAX_COUNT && floor == Darkest(raw[..n])
      ensures total == Total(raw[..n]) && weighted == Moment(raw[..n])
    {
      total, weighted := 0, 0;
      ghost var row := raw[..n];
      for i := 0 to n
        invariant total == StrengthTo(row, floor, i) && weighted == WeightedTo(row, floor, i)
      {
        var v := raw[i] - floor;
        total := total + v;
        weighted := weighted + Weight(i, n) * v;
      }
    }

    method BitsFromRaw(n: nat, floor: U16, span: U16) returns (found: set<nat>)
      requires Valid() && n <= MAX_COUNT
      ensures found == BitsOf(raw[..n], floor, span)
    {
      found := {};
      if n == 0 || span == 0 {
        return;
      }
      var threshold := floor + span / 2;
      for i := 0 to n
        invariant found == set j: nat | j < i && raw[j] >= threshold
      {
        if raw[i] >= threshold {
          found := found + {i};
        }
      }
    }

    /** Everything but the position, from the first `n` values of the frame. */
    method Measure(n: nat, digital: set<nat>) returns (total: int, weighted: int)
      requires Valid() && 0 < n <= MAX_COUNT
      modifies this
      ensures var row := raw[..n];
        && total == Total(row) && weighted == Moment(row)
        && 0 <= total && Darkest(row) <= Brightest(row)
        && State() == Measured(config, old(State()), Row(row, digital))
    {
      ghost var row := raw[..n];
      ExtremesAreExtreme(row, n);
      MomentIsBounded(row, Darkest(row), n);
      hide MinTo, MaxTo, StrengthTo, WeightedTo, BitsOf;
      var lo, hi := FindExtremes(n);
      total, weighted := Weigh(n, lo);
      minValue, maxValue := lo, hi;
      contrast := hi - lo;
      strength := ClampU16(total);
      onLine := contrast >= config.Contrast() && strength >= config.Strength();
      if config.hasArray {
        bits := digital;
      } else {
        bits := BitsFromRaw(n, lo, contrast);
      }
    }

    method Update(reading: Row)
      requires Valid() && |reading.raw| == config.Count()
      modifies this, raw
      ensures raw[..|reading.raw|] ==
                if config.hasReader || config.hasArray then reading.raw else old(raw[..|reading.raw|])
      ensures State() == Updated(config, old(State()), Row(raw[..|reading.raw|], reading.digital))
    {
      hide Measured, Positioned, Darkest, Brightest, Total, Moment;
      Fill(reading.raw);
      var n := |reading.raw|;
      if n == 0 {
        minValue, maxValue, contrast, strength, bits, onLine := 0, 0, 0, 0, {}, false;
        return;
      }
      var total, weighted := Measure(n, reading.digital);
      Position(raw[..n], total, weighted);
    }

    method Position(ghost reading: seq<U16>, total: int, weighted: int)
      requires reading != [] && |reading| == config.Count()
      requires total == Total(reading) && weighted == Moment(reading)
      modifies this`bias, this`lastBias, this`primed
      ensures State() == Positioned(config, old(State()), reading)
    {
      if onLine && total > 0 && config.Count() > 1 {
        var sample := Ratio(weighted, total, config.Count() - 1);
        if !primed {
          bias := sample;
          primed := true;
        } else {
          bias := Smoothed(config.Alpha(), sample, bias);
        }
        lastBias := bias;
      } else {
        bias := lastBias;
      }
    }
  }
}
