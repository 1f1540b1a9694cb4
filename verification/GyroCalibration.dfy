/** The start-up calibration of the gyro bias: the mean of one quiet block of samples,
    where quiet is judged by a standard deviation computed from running sums. */
module GyroCalibration {
  import opened Quaternions
  import opened AttitudeFilter

  /** One wait for the IMU: a fresh rate, or the error the wait ended with. */
  datatype Reading = Sample(gyro: Vec3) | Fault(status: int)

  datatype Profile = Profile(warmup: nat, samples: nat, limit: real)
  {
    function Block(): nat {
      warmup + samples
    }
  }

  /** `Unfinished` is a calibration that still waits for readings. */
  datatype Outcome = Calibrated(bias: Vec3) | Broken(status: int) | Unfinished

  // ----- statistics of one axis -----

  function Sq(x: real): (y: real)
    ensures y >= 0.0
  {
    x * x
  }

  function SumTo(xs: seq<real>, k: nat): real
    requires k <= |xs|
  {
    if k == 0 then 0.0 else SumTo(xs, k - 1) + xs[k - 1]
  }

  function SquaresTo(xs: seq<real>, k: nat): real
    requires k <= |xs|
  {
    if k == 0 then 0.0 else SquaresTo(xs, k - 1) + Sq(xs[k - 1])
  }

  function Share(sum: real, count: nat): real
    requires count > 0
  {
    sum / count as real
  }

  function Mean(xs: seq<real>): real
    requires xs != []
  {
    Share(SumTo(xs, |xs|), |xs|)
  }

  /** The variance as the firmware computes it, from the two sums. */
  function SumVariance(sum: real, sumSq: real, count: nat): real
    requires count > 0
  {
    Share(sumSq, count) - Sq(Share(sum, count))
  }

  function StdDev(m: Libm, sum: real, sumSq: real, count: nat): real {
    if count == 0 then 0.0
    else
      var variance := SumVariance(sum, sumSq, count);
      m.sqrt(if variance < 0.0 then 0.0 else variance)
  }

  /** The sum of squared distances from a centre: the definition of spread. */
  function SpreadTo(xs: seq<real>, c: real, k: nat): real
    requires k <= |xs|
  {
    if k == 0 then 0.0 else SpreadTo(xs, c, k - 1) + Sq(xs[k - 1] - c)
  }

  function Expanded(sumSq: real, sum: real, c: real, count: nat): real {
    sumSq - 2.0 * c * sum + count as real * c * c
  }

  lemma ExpandedStep(sumSq: real, sum: real, c: real, count: nat, x: real)
    ensures Expanded(sumSq, sum, c, count) + Sq(x - c) == Expanded(sumSq + Sq(x), sum + x, c, count + 1)
  {
    var n := count as real;
    assert (count + 1) as real == n + 1.0;
    assert (n + 1.0) * c * c == n * c * c + c * c;
  }

  lemma {:induction false} SpreadExpands(xs: seq<real>, c: real, k: nat)
    requires k <= |xs|
    ensures SpreadTo(xs, c, k) == Expanded(SquaresTo(xs, k), SumTo(xs, k), c, k)
  {
    if k > 0 {
      SpreadExpands(xs, c, k - 1);
      ExpandedStep(SquaresTo(xs, k - 1), SumTo(xs, k - 1), c, k - 1, xs[k - 1]);
      hide Expanded, Sq;
    }
  }

  lemma ExpandedAtTheMean(sumSq: real, sum: real, count: nat)
    requires count > 0
    ensures Times(count, SumVariance(sum, sumSq, count)) == Expanded(sumSq, sum, Share(sum, count), count)
  {
    var n, c := count as real, sum / count as real;
    assert n * c == sum && n * (sumSq / n) == sumSq;
    assert n * (sumSq / n - c * c) == sumSq - n * c * c;
    assert 2.0 * c * sum == 2.0 * (n * c * c);
  }

  function Times(count: nat, x: real): real {
    count as real * x
  }

  lemma TimesKeepsOrder(count: nat, x: real, y: real)
    requires count > 0
    ensures x <= y <==> Times(count, x) <= Times(count, y)
    ensures Times(count, x) >= 0.0 ==> x >= 0.0
  {
    var n := count as real;
    assert n * (y - x) == n * y - n * x;
    if x <= y {
      assert n * (y - x) >= 0.0;
    } else {
      assert n * (x - y) > 0.0;
    }
  }

  /** The variance from the two sums is the mean squared distance from the mean: it is
      never negative, so the firmware's clamp is idle. */
  lemma VarianceIsMeanSpread(xs: seq<real>)
    requires xs != []
    ensures Times(|xs|, Variance(xs)) == SpreadTo(xs, Mean(xs), |xs|)
    ensures Variance(xs) >= 0.0
  {
    hide SumTo, SquaresTo, SpreadTo, SumVariance, Expanded, Share, Times, Sq;
    var n := |xs|;
    SpreadExpands(xs, Mean(xs), n);
    ExpandedAtTheMean(SquaresTo(xs, n), SumTo(xs, n), n);
    SpreadCoversEach(xs, Mean(xs), n, 0);
    TimesKeepsOrder(n, Variance(xs), 0.0);
  }

  function Variance(xs: seq<real>): real
    requires xs != []
  {
    SumVariance(SumTo(xs, |xs|), SquaresTo(xs, |xs|), |xs|)
  }

  lemma {:induction false} SpreadCoversEach(xs: seq<real>, c: real, k: nat, i: nat)
    requires k <= |xs| && i < |xs|
    ensures SpreadTo(xs, c, k) >= 0.0
    ensures i < k ==> Sq(xs[i] - c) <= SpreadTo(xs, c, k)
  {
    hide Sq;
    if k > 0 {
      SpreadCoversEach(xs, c, k - 1, i);
    }
  }

  lemma RootOrder(r: real, limit: real)
    requires r >= 0.0 && limit >= 0.0
    ensures r <= limit <==> Sq(r) <= Sq(limit)
  {
    var d, e := r - limit, r + limit;
    assert Sq(r) - Sq(limit) == d * e;
    if r > limit {
      assert d * e > 0.0;
    } else {
      assert (-d) * e >= 0.0;
    }
  }

  lemma StdDevIsTheRoot(m: Libm, xs: seq<real>)
    requires m.Sound() && xs != []
    ensures Deviation(m, xs) >= 0.0 && Sq(Deviation(m, xs)) == Variance(xs)
  {
    VarianceIsMeanSpread(xs);
    hide SumTo, SquaresTo, SpreadTo, SumVariance, Times;
    var v := Variance(xs);
    assert m.sqrt(v) >= 0.0 && m.sqrt(v) * m.sqrt(v) == v;
  }

  /** A block passes exactly when its samples spread little enough around their mean;
      then no single sample is further than sqrt(n) limits away from it. */
  lemma PassingMeansCloseSamples(m: Libm, xs: seq<real>, limit: real, i: nat)
    requires m.Sound() && xs != [] && limit >= 0.0 && i < |xs|
    ensures Steady(m, limit, xs) <==> SpreadTo(xs, Mean(xs), |xs|) <= Times(|xs|, Sq(limit))
    ensures Steady(m, limit, xs) ==> Sq(xs[i] - Mean(xs)) <= Times(|xs|, Sq(limit))
  {
    hide SumTo, SquaresTo, SpreadTo, Variance, Mean, Deviation, Sq, Times;
    VarianceIsMeanSpread(xs);
    StdDevIsTheRoot(m, xs);
    SpreadCoversEach(xs, Mean(xs), |xs|, i);
    RootOrder(Deviation(m, xs), limit);
    TimesKeepsOrder(|xs|, Variance(xs), Sq(limit));
  }

  function Corrected(xs: seq<real>, bias: real): (ys: seq<real>)
    ensures |ys| == |xs|
  {
    seq(|xs|, i requires 0 <= i < |xs| => xs[i] - bias)
  }

  lemma {:induction false} CorrectedSum(xs: seq<real>, bias: real, k: nat)
    requires k <= |xs|
    ensures SumTo(Corrected(xs, bias), k) == SumTo(xs, k) - Times(k, bias)
  {
    if k > 0 {
      CorrectedSum(xs, bias, k - 1);
      assert Times(k, bias) == Times(k - 1, bias) + bias;
      hide Times;
    }
  }

  /** With the mean as bias, the corrected block averages to exactly zero, and no other
      bias does that. */
  lemma OnlyTheMeanCentres(xs: seq<real>, bias: real)
    requires xs != []
    ensures Mean(Corrected(xs, bias)) == 0.0 <==> bias == Mean(xs)
  {
    hide SumTo;
    CorrectedSum(xs, bias, |xs|);
    ShareOfRest(SumTo(xs, |xs|), bias, |xs|);
  }

  lemma ShareOfRest(sum: real, x: real, count: nat)
    requires count > 0
    ensures Share(sum - Times(count, x), count) == Share(sum, count) - x
  {
    var n := count as real;
    assert sum - n * x == n * (sum / n - x);
  }

  // ----- one block -----

  ghost predicate AllSamples(rs: seq<Reading>) {
    forall i | 0 <= i < |rs| :: rs[i].Sample?
  }

  function Kept(p: Profile, block: seq<Reading>): (vs: seq<Vec3>)
    requires |block| == p.Block() && AllSamples(block)
    ensures |vs| == p.samples
  {
    seq(p.samples, i requires 0 <= i < p.samples => block[p.warmup + i].gyro)
  }

  function Xs(vs: seq<Vec3>): (xs: seq<real>)
    ensures |xs| == |vs|
  {
    seq(|vs|, i requires 0 <= i < |vs| => vs[i].x)
  }

  function Ys(vs: seq<Vec3>): (ys: seq<real>)
    ensures |ys| == |vs|
  {
    seq(|vs|, i requires 0 <= i < |vs| => vs[i].y)
  }

  function Zs(vs: seq<Vec3>): (zs: seq<real>)
    ensures |zs| == |vs|
  {
    seq(|vs|, i requires 0 <= i < |vs| => vs[i].z)
  }

  function Deviation(m: Libm, xs: seq<real>): real {
    StdDev(m, SumTo(xs, |xs|), SquaresTo(xs, |xs|), |xs|)
  }

  predicate Steady(m: Libm, limit: real, xs: seq<real>) {
    Deviation(m, xs) <= limit
  }

  predicate Quiet(m: Libm, limit: real, vs: seq<Vec3>) {
    Steady(m, limit, Xs(vs)) && Steady(m, limit, Ys(vs)) && Steady(m, limit, Zs(vs))
  }

  function MeanOf(vs: seq<Vec3>): Vec3
    requires vs != []
  {
    Vec3(Mean(Xs(vs)), Mean(Ys(vs)), Mean(Zs(vs)))
  }

  // ----- the retry loop -----

  function FirstFault(rs: seq<Reading>): (k: nat)
    ensures k <= |rs| && AllSamples(rs[..k])
    ensures k < |rs| ==> rs[k].Fault?
  {
    if rs == [] || rs[0].Fault? then 0
    else
      var k := 1 + FirstFault(rs[1..]);
      assert rs[..k] == [rs[0]] + rs[1..][..k - 1];
      k
  }

  function Calibration(m: Libm, p: Profile, rs: seq<Reading>): Outcome
    requires p.samples > 0
    decreases |rs|
  {
    var f := FirstFault(rs);
    if f < p.Block() then
      if f < |rs| then Broken(rs[f].status) else Unfinished
    else
      var block := rs[..p.Block()];
      assert forall i | 0 <= i < |block| :: block[i] == rs[..f][i];
      var vs := Kept(p, block);
      if Quiet(m, p.limit, vs) then Calibrated(MeanOf(vs)) else Calibration(m, p, rs[p.Block()..])
  }

  /** The blocks of `rs` are full, error-free and too noisy. */
  ghost predicate NoisyBlocks(m: Libm, p: Profile, rs: seq<Reading>)
    requires p.samples > 0
    decreases |rs|
  {
    rs == [] ||
    (|rs| >= p.Block() && AllSamples(rs[..p.Block()]) &&
     !Quiet(m, p.limit, Kept(p, rs[..p.Block()])) && NoisyBlocks(m, p, rs[p.Block()..]))
  }

  lemma CalibrationOfBlock(m: Libm, p: Profile, rs: seq<Reading>)
    requires p.samples > 0 && FirstFault(rs) >= p.Block()
    ensures AllSamples(rs[..p.Block()])
    ensures var vs := Kept(p, rs[..p.Block()]);
      Calibration(m, p, rs) ==
      if Quiet(m, p.limit, vs) then Calibrated(MeanOf(vs)) else Calibration(m, p, rs[p.Block()..])
  {
    assert forall i | 0 <= i < p.Block() :: rs[..p.Block()][i] == rs[..FirstFault(rs)][i];
    hide Quiet, MeanOf, Kept;
  }

  lemma CalibrationWithoutBlock(m: Libm, p: Profile, rs: seq<Reading>)
    requires p.samples > 0 && FirstFault(rs) < p.Block()
    ensures Calibration(m, p, rs) == if FirstFault(rs) < |rs| then Broken(rs[FirstFault(rs)].status) else Unfinished
  {
  }

  lemma NoisyOnceMore(m: Libm, p: Profile, first: seq<Reading>, rest: seq<Reading>)
    requires p.samples > 0 && |first| == p.Block() && AllSamples(first)
    requires !Quiet(m, p.limit, Kept(p, first)) && NoisyBlocks(m, p, rest)
    ensures NoisyBlocks(m, p, first + rest)
  {
    hide Quiet, Kept;
    var both, n := first + rest, p.Block();
    assert both[..n] == first && both[n..] == rest;
  }

  /** Error-free noisy blocks decide nothing: what comes after them does. */
  lemma {:induction false} NoisyBlocksAreSkipped(m: Libm, p: Profile, noisy: seq<Reading>, rest: seq<Reading>)
    requires p.samples > 0 && NoisyBlocks(m, p, noisy)
    ensures Calibration(m, p, noisy + rest) == Calibration(m, p, rest)
    decreases |noisy|
  {
    hide Quiet, Kept, MeanOf, Calibration;
    var n, all := p.Block(), noisy + rest;
    if noisy == [] {
      assert all == rest;
    } else {
      assert all[..n] == noisy[..n] && all[n..] == noisy[n..] + rest;
      FaultsComeLater(all, n);
      CalibrationOfBlock(m, p, all);
      NoisyBlocksAreSkipped(m, p, noisy[n..], rest);
    }
  }

  lemma {:induction false} FaultsComeLater(rs: seq<Reading>, n: nat)
    requires n <= |rs| && AllSamples(rs[..n])
    ensures FirstFault(rs) >= n
  {
    assert forall i | 0 <= i < n :: rs[i] == rs[..n][i];
  }

  /** The outcome is decided after some noisy blocks: by the first fault, if it comes
      before the next block is full, with that fault's status; or not at all, if the
      readings end there; or by that block, if it is quiet. */
  ghost predicate DecidedAt(m: Libm, p: Profile, rs: seq<Reading>, c: nat, o: Outcome)
    requires p.samples > 0 && c <= |rs|
  {
    var rest := rs[c..];
    var f := FirstFault(rest);
    && NoisyBlocks(m, p, rs[..c])
    && match o
       case Broken(status) => f < p.Block() && f < |rest| && rest[f] == Fault(status)
       case Unfinished => f < p.Block() && f == |rest|
       case Calibrated(bias) =>
         && f >= p.Block() && AllSamples(rest[..p.Block()])
         && Quiet(m, p.limit, Kept(p, rest[..p.Block()])) && bias == MeanOf(Kept(p, rest[..p.Block()]))
  }

  lemma {:induction false} FindDecision(m: Libm, p: Profile, rs: seq<Reading>) returns (c: nat)
    requires p.samples > 0
    ensures c <= |rs| && DecidedAt(m, p, rs, c, Calibration(m, p, rs))
    decreases |rs|
  {
    hide Quiet, Kept, MeanOf, Calibration, AllSamples;
    var n := p.Block();
    if FirstFault(rs) < n {
      CalibrationWithoutBlock(m, p, rs);
      c := 0;
      assert rs[0..] == rs && rs[..0] == [];
    } else {
      CalibrationOfBlock(m, p, rs);
      if Quiet(m, p.limit, Kept(p, rs[..n])) {
        c := 0;
        assert rs[0..] == rs && rs[..0] == [];
      } else {
        var d := FindDecision(m, p, rs[n..]);
        NoisyOnceMore(m, p, rs[..n], rs[n..][..d]);
        c := n + d;
        assert rs[c..] == rs[n..][d..] && rs[..c] == rs[..n] + rs[n..][..d];
      }
    }
  }

  /** A calibration ends well only in the first quiet block, with that block's mean,
      after error-free noisy blocks only. */
  lemma CalibratesInTheFirstQuietBlock(m: Libm, p: Profile, rs: seq<Reading>) returns (c: nat)
    requires p.samples > 0 && Calibration(m, p, rs).Calibrated?
    ensures c + p.Block() <= |rs| && NoisyBlocks(m, p, rs[..c])
    ensures AllSamples(rs[c..c + p.Block()])
    ensures var vs := Kept(p, rs[c..c + p.Block()]);
      Quiet(m, p.limit, vs) && Calibration(m, p, rs).bias == MeanOf(vs)
  {
    hide Quiet, Kept, MeanOf, Calibration, AllSamples, NoisyBlocks;
    c := FindDecision(m, p, rs);
    assert rs[c..][..p.Block()] == rs[c..c + p.Block()];
  }

  lemma DecisionIsTheOutcome(m: Libm, p: Profile, rs: seq<Reading>, c: nat, o: Outcome)
    requires p.samples > 0 && c <= |rs| && DecidedAt(m, p, rs, c, o)
    ensures Calibration(m, p, rs) == o
  {
    hide Quiet, Kept, MeanOf, Calibration, AllSamples, NoisyBlocks;
    assert rs == rs[..c] + rs[c..];
    NoisyBlocksAreSkipped(m, p, rs[..c], rs[c..]);
    if FirstFault(rs[c..]) < p.Block() {
      CalibrationWithoutBlock(m, p, rs[c..]);
    } else {
      CalibrationOfBlock(m, p, rs[c..]);
    }
  }

  /** The calibration ends with outcome `o` exactly when `o` is decided somewhere: broken
      if and only if a fault comes before any quiet block is full. */
  lemma OutcomeIsTheFirstDecision(m: Libm, p: Profile, rs: seq<Reading>, o: Outcome)
    requires p.samples > 0
    ensures Calibration(m, p, rs) == o <==> exists c: nat | c <= |rs| :: DecidedAt(m, p, rs, c, o)
  {
    var c := FindDecision(m, p, rs);
    forall d: nat | d <= |rs| && DecidedAt(m, p, rs, d, o)
      ensures Calibration(m, p, rs) == o
    {
      DecisionIsTheOutcome(m, p, rs, d, o);
    }
    hide Calibration, DecidedAt;
  }

  /** What the bias leaves of the first `k` rates of a stretch of readings. */
  ghost function ResidueTo(rs: seq<Reading>, bias: Vec3, k: nat): Vec3
    requires k <= |rs| && AllSamples(rs)
  {
    if k == 0 then ZERO
    else
      var rest := ResidueTo(rs, bias, k - 1);
      var g := rs[k - 1].gyro;
      Vec3(rest.x + g.x - bias.x, rest.y + g.y - bias.y, rest.z + g.z - bias.z)
  }

  lemma {:induction false} ResidueOfKept(p: Profile, block: seq<Reading>, kept: seq<Reading>, bias: Vec3, k: nat)
    requires |block| == p.Block() && AllSamples(block) && kept == block[p.warmup..] && k <= p.samples
    requires AllSamples(kept)
    ensures var vs, r := Kept(p, block), ResidueTo(kept, bias, k);
            && r.x == SumTo(Xs(vs), k) - Times(k, bias.x) && r.y == SumTo(Ys(vs), k) - Times(k, bias.y)
            && r.z == SumTo(Zs(vs), k) - Times(k, bias.z)
  {
    if k > 0 {
      ResidueOfKept(p, block, kept, bias, k - 1);
      OneMoreTime(k, bias.x);
      OneMoreTime(k, bias.y);
      OneMoreTime(k, bias.z);
      assert kept[k - 1] == block[p.warmup + k - 1];
    }
    hide Times;
  }

  lemma OneMoreTime(k: nat, x: real)
    requires k > 0
    ensures Times(k, x) == Times(k - 1, x) + x && Times(0, x) == 0.0
  {
  }

  lemma TimesTheShare(sum: real, n: nat)
    requires n > 0
    ensures Times(n, Share(sum, n)) == sum
  {
  }

  /** A successful calibration's bias centres the readings it was measured on: after the warm-up
      of some block, exactly `samples` readings in a row, on every axis. */
  lemma BiasCentresItsReadings(m: Libm, p: Profile, rs: seq<Reading>) returns (c: nat)
    requires p.samples > 0 && Calibration(m, p, rs).Calibrated?
    ensures c + p.warmup + p.samples <= |rs| && NoisyBlocks(m, p, rs[..c])
    ensures var kept := rs[c + p.warmup..c + p.warmup + p.samples];
            AllSamples(kept) && ResidueTo(kept, Calibration(m, p, rs).bias, p.samples) == ZERO
  {
    hide Calibration, Kept, Quiet, NoisyBlocks, MeanOf;
    c := CalibratesInTheFirstQuietBlock(m, p, rs);
    var block := rs[c..c + p.Block()];
    var kept := rs[c + p.warmup..c + p.warmup + p.samples];
    assert kept == block[p.warmup..];
    assert forall i | 0 <= i < |kept| :: kept[i] == block[p.warmup + i];
    hide ResidueTo, AllSamples;
    MeanLeavesNothing(p, block, kept);
  }

  lemma MeanLeavesNothing(p: Profile, block: seq<Reading>, kept: seq<Reading>)
    requires p.samples > 0 && |block| == p.Block() && AllSamples(block) && kept == block[p.warmup..]
    requires AllSamples(kept)
    ensures ResidueTo(kept, MeanOf(Kept(p, block)), p.samples) == ZERO
  {
    var vs := Kept(p, block);
    ResidueOfKept(p, block, kept, MeanOf(vs), p.samples);
    TimesTheShare(SumTo(Xs(vs), p.samples), p.samples);
    TimesTheShare(SumTo(Ys(vs), p.samples), p.samples);
    TimesTheShare(SumTo(Zs(vs), p.samples), p.samples);
    hide Kept, SumTo, Times, Share, ResidueTo, Xs, Ys, Zs, AllSamples;
  }

  ghost predicate HasSums(vs: seq<Vec3>, sum: Vec3, sumSq: Vec3) {
    && sum == Vec3(SumTo(Xs(vs), |vs|), SumTo(Ys(vs), |vs|), SumTo(Zs(vs), |vs|))
    && sumSq == Vec3(SquaresTo(Xs(vs), |vs|), SquaresTo(Ys(vs), |vs|), SquaresTo(Zs(vs), |vs|))
  }

  method Measure(p: Profile, block: seq<Reading>)
      returns (sum: Vec3, sumSq: Vec3)
    requires |block| == p.Block() && AllSamples(block)
    ensures HasSums(Kept(p, block), sum, sumSq)
  {
    var sx, sy, sz := 0.0, 0.0, 0.0;
    var qx, qy, qz := 0.0, 0.0, 0.0;
    ghost var vs := Kept(p, block);
    ghost var k: nat := 0;
    for i := 0 to p.Block()
      invariant k == if i < p.warmup then 0 else i - p.warmup
      invariant sx == SumTo(Xs(vs), k) && sy == SumTo(Ys(vs), k) && sz == SumTo(Zs(vs), k)
      invariant qx == SquaresTo(Xs(vs), k) && qy == SquaresTo(Ys(vs), k) && qz == SquaresTo(Zs(vs), k)
    {
      if i >= p.warmup {
        var g := block[i].gyro;
        assert g == vs[k];
        sx, sy, sz := sx + g.x, sy + g.y, sz + g.z;
        qx, qy, qz := qx + Sq(g.x), qy + Sq(g.y), qz + Sq(g.z);
        k := k + 1;
      }
    }
    sum, sumSq := Vec3(sx, sy, sz), Vec3(qx, qy, qz);
  }

  lemma QuietBySums(m: Libm, limit: real, vs: seq<Vec3>, sum: Vec3, sumSq: Vec3)
    requires vs != [] && HasSums(vs, sum, sumSq)
    ensures Quiet(m, limit, vs) <==>
      StdDev(m, sum.x, sumSq.x, |vs|) <= limit && StdDev(m, sum.y, sumSq.y, |vs|) <= limit
      && StdDev(m, sum.z, sumSq.z, |vs|) <= limit
    ensures MeanOf(vs) == Vec3(Share(sum.x, |vs|), Share(sum.y, |vs|), Share(sum.z, |vs|))
  {
    hide SumTo, SquaresTo, StdDev, Share;
  }

  /** The endless retry loop, run on the readings that arrive. */
  method Calibrate(m: Libm, p: Profile, rs: seq<Reading>) returns (o: Outcome)
    requires p.samples > 0
    ensures o == Calibration(m, p, rs)
  {
    hide Calibration, Quiet, MeanOf, Kept, StdDev, Share, AllSamples, HasSums;
    var at, n := 0, p.Block();
    assert rs[0..] == rs;
    while true
      invariant at <= |rs|
      invariant Calibration(m, p, rs) == Calibration(m, p, rs[at..])
      decreases |rs| - at
    {
      var rest := rs[at..];
      var f := FirstFault(rest);
      if f < n {
        CalibrationWithoutBlock(m, p, rest);
        return if f < |rest| then Broken(rest[f].status) else Unfinished;
      }
      CalibrationOfBlock(m, p, rest);
      var sum, sumSq := Measure(p, rest[..n]);
      QuietBySums(m, p.limit, Kept(p, rest[..n]), sum, sumSq);
      if StdDev(m, sum.x, sumSq.x, p.samples) <= p.limit && StdDev(m, sum.y, sumSq.y, p.samples) <= p.limit
         && StdDev(m, sum.z, sumSq.z, p.samples) <= p.limit {
        return Calibrated(Vec3(Share(sum.x, p.samples), Share(sum.y, p.samples), Share(sum.z, p.samples)));
      }
      assert rest[n..] == rs[at + n..];
      at := at + n;
    }
  }
}
