/** The entry point `tpcf` (clustering.py:18-321): resolve the period,
    downsample, validate, count pairs, and apply the estimator. */
module Tpcf {
  import opened Common
  import opened Values
  import opened Period
  import opened Samples
  import opened Volumes
  import opened Estimators
  import opened Validation
  import opened Counts
  import opened Dispatch

  /** The arguments of `tpcf`, threads and MPI communicator aside. */
  datatype Args = Args(sample1: Sample, rbins: seq<real>, sample2: Option<Sample>, randoms: Option<Sample>,
                       period: PeriodArg, maxSampleSize: nat, doAuto: bool, doCross: bool, estimator: string)

  /** The sizes handed to the estimator: the sample lengths with randoms,
      and 1.0 for all four without (clustering.py:291-298). */
  function SizesFor(s1: Sample, s2: Sample, randoms: Option<Sample>): (n: (real, real, real))
    ensures randoms.None? ==> n == (1.0, 1.0, 1.0)
    ensures randoms.Some? ==> n.0 >= 0.0 && n.1 >= 0.0 && n.2 >= 0.0
  {
    if randoms.Some? then (|s1.points| as real, |s2.points| as real, |randoms.value.points| as real)
    else (1.0, 1.0, 1.0)
  }

  /** Every array of an output has `n` bins. */
  predicate HasBins(out: XiOutput<seq<Value>>, n: nat)
  {
    Each(out, (xi: seq<Value>) => |xi| == n)
  }

  /** Counting and estimation once the inputs are validated
      (clustering.py:289-321). `!p.pbcs ==> randoms.Some?` and
      `randoms.None? ==> AllBounded(p.period)` are what the checks leave.
      Every call of the estimator takes its sizes as Python numbers. */
  function Counted(npairs: Counter, unitBall: real, s1: Sample, s2: Sample, randoms: Option<Sample>,
                   rbins: seq<real>, p: Resolved, e: Estimator, doAuto: bool, doCross: bool)
    : (r: Result<XiOutput<seq<Value>>>)
    requires CounterShape(npairs)
    requires !p.pbcs ==> randoms.Some?
    requires randoms.None? ==> AllBounded(p.period)
    ensures r.Err? ==> r.error in {MissingCounts, ZeroDivision}
    ensures r == Err(ZeroDivision) ==>
      randoms.Some? && e != Hamilton && (|s1.points| == 0 || |s2.points| == 0 || |randoms.value.points| == 0)
    ensures r.Ok? ==> HasBins(r.value, NBins(rbins))
    ensures r.Ok? && Same(s1, s2) ==> r.value.Single?
  {
    var q := RequirementsOf(e);
    var n := SizesFor(s1, s2, randoms);
    var (n1, n2, nr) := (n.0, n.1, n.2);
    var (z11, z12, z22) := (Sizes(n1, n1, nr, nr), Sizes(n1, n2, nr, nr), Sizes(n2, n2, nr, nr));
    SizesRaiseExactly(e, z11);
    SizesRaiseExactly(e, z12);
    SizesRaiseExactly(e, z22);
    var d := PairCounts(npairs, s1, s2, rbins, p.period);
    var c := RandomCountsOf(npairs, unitBall, s1, s2, randoms, rbins, p, s1.dim, q.rr, q.dr);
    Select(Same(s1, s2), doAuto, doCross,
           ScalarEstimate(e, z11, Estimate(e, d.d1d1, c.d1r, c.rr, z11)),
           ScalarEstimate(e, z12, Estimate(e, d.d1d2, c.d1r, c.rr, z12)),
           ScalarEstimate(e, z22, Estimate(e, d.d2d2, c.d2r, c.rr, z22)),
           ScalarEstimate(e, z11, Estimate(e, d.d1d1, c.d1r, c.d1r, z11)),
           ScalarEstimate(e, z22, Estimate(e, d.d2d2, c.d2r, c.d2r, z22)))
  }

  /** `tpcf` from arguments to result. `perm1`/`perm2` stand for the
      shuffled index arrays; `unitBall` for pi^(k/2)/gamma(k/2+1). */
  function TpcfSpec(a: Args, perm1: seq<nat>, perm2: seq<nat>, npairs: Counter, unitBall: real)
    : (r: Result<XiOutput<seq<Value>>>)
    requires CounterShape(npairs)
    requires IsPermutation(perm1, |a.sample1.points|)
    requires IsPermutation(perm2, |DefaultSecond(a.sample1, a.sample2).points|)
    ensures r.Err? ==> r.error in {PeriodShape, EmptyArray, SeparationTooLarge, DimensionMismatch,
                                   RandomsRequired, UnknownEstimator, MixedPeriod, MissingCounts, ZeroDivision}
    ensures r == Err(ZeroDivision) ==> a.randoms.Some?
    ensures r.Ok? ==> HasBins(r.value, NBins(a.rbins))
  {
    var p :- ResolvePeriod(a.period, a.sample1.dim);
    var s := PrepareSamples(a.sample1, DefaultSecond(a.sample1, a.sample2), perm1, perm2, a.maxSampleSize);
    var e :- CheckTpcf(a.rbins, p, s.0.dim, s.1.dim, a.randoms.Some?, a.estimator);
    TpcfChecksSound(a.rbins, a.period, a.sample1.dim, s.1.dim, a.randoms.Some?, a.estimator);
    Counted(npairs, unitBall, s.0, s.1, a.randoms, a.rbins, p, e, a.doAuto, a.doCross)
  }

  /** `tpcf`, rebinding its arguments step by step as the source does. */
  method Tpcf(a: Args, perm1: seq<nat>, perm2: seq<nat>, npairs: Counter, unitBall: real)
    returns (r: Result<XiOutput<seq<Value>>>)
    requires CounterShape(npairs)
    requires IsPermutation(perm1, |a.sample1.points|)
    requires IsPermutation(perm2, |DefaultSecond(a.sample1, a.sample2).points|)
    ensures r == TpcfSpec(a, perm1, perm2, npairs, unitBall)
  {
    var sample1 := a.sample1;
    var sample2 := DefaultSecond(a.sample1, a.sample2);
    var resolved := ResolvePeriod(a.period, sample1.dim);
    if resolved.Err? {
      return Err(resolved.error);
    }
    var p := resolved.value;
    sample1, sample2 := Downsample(sample1, sample2, perm1, perm2, a.maxSampleSize);
    var checked := CheckTpcf(a.rbins, p, sample1.dim, sample2.dim, a.randoms.Some?, a.estimator);
    if checked.Err? {
      return Err(checked.error);
    }
    TpcfChecksSound(a.rbins, a.period, a.sample1.dim, sample2.dim, a.randoms.Some?, a.estimator);
    r := Counted(npairs, unitBall, sample1, sample2, a.randoms, a.rbins, p, checked.value, a.doAuto, a.doCross);
  }

  /** A malformed period is refused first, whatever else is wrong. */
  lemma PeriodShapeFirst(a: Args, perm1: seq<nat>, perm2: seq<nat>, npairs: Counter, unitBall: real)
    requires CounterShape(npairs)
    requires IsPermutation(perm1, |a.sample1.points|)
    requires IsPermutation(perm2, |DefaultSecond(a.sample1, a.sample2).points|)
    ensures TpcfSpec(a, perm1, perm2, npairs, unitBall) == Err(PeriodShape) <==>
      a.period.Vector? && |a.period.lengths| != a.sample1.dim
  {
  }

  /** Without a second sample (or with one equal to the first), tpcf returns
      the single auto-correlation, whatever the flags. */
  lemma {:induction false} AutoWhenSame(a: Args, perm1: seq<nat>, perm2: seq<nat>, npairs: Counter, unitBall: real)
    requires CounterShape(npairs)
    requires IsPermutation(perm1, |a.sample1.points|)
    requires IsPermutation(perm2, |DefaultSecond(a.sample1, a.sample2).points|)
    requires a.sample2.None? || a.sample2 == Some(a.sample1)
    ensures var r := TpcfSpec(a, perm1, perm2, npairs, unitBall);
      r.Ok? ==> r.value.Single?
  {
    var s := PrepareSamples(a.sample1, DefaultSecond(a.sample1, a.sample2), perm1, perm2, a.maxSampleSize);
    assert Same(s.0, s.1);
  }

  /** The auto-only branch fails, by reading a None, exactly for the Natural
      estimator in a periodic box with randoms: there D1R and D2R are not
      counted, yet they are passed as RR. Its first call raises on its
      sizes before reading D1R when sample1 or the randoms are empty. */
  lemma MissingCountsExactly(npairs: Counter, unitBall: real, s1: Sample, s2: Sample, randoms: Option<Sample>,
                             rbins: seq<real>, p: Resolved, e: Estimator, doAuto: bool, doCross: bool)
    requires CounterShape(npairs)
    requires !p.pbcs ==> randoms.Some?
    requires randoms.None? ==> AllBounded(p.period)
    ensures Counted(npairs, unitBall, s1, s2, randoms, rbins, p, e, doAuto, doCross) == Err(MissingCounts) <==>
      e == Natural && p.pbcs && randoms.Some? && !Same(s1, s2) && doAuto && !doCross
      && |s1.points| > 0 && |randoms.value.points| > 0
  {
    if randoms.Some? {
      var (n1, nr) := (|s1.points| as real, |randoms.value.points| as real);
      SizesRaiseExactly(e, Sizes(n1, n1, nr, nr));
    }
  }

  /** With randoms, an empty first sample, an empty random catalogue, or an
      empty second sample asked for the cross-correlation makes every
      estimator but Hamilton raise ZeroDivisionError, on every branch that
      computes an estimate. */
  lemma EmptyInputsRaise(npairs: Counter, unitBall: real, s1: Sample, s2: Sample, randoms: Option<Sample>,
                         rbins: seq<real>, p: Resolved, e: Estimator, doAuto: bool, doCross: bool)
    requires CounterShape(npairs)
    requires !p.pbcs ==> randoms.Some?
    requires randoms.Some? && e != Hamilton
    requires |s1.points| == 0 || |randoms.value.points| == 0 || (|s2.points| == 0 && doCross)
    requires Same(s1, s2) || doAuto || doCross
    ensures Counted(npairs, unitBall, s1, s2, randoms, rbins, p, e, doAuto, doCross) == Err(ZeroDivision)
  {
    var (n1, n2, nr) := (|s1.points| as real, |s2.points| as real, |randoms.value.points| as real);
    SizesRaiseExactly(e, Sizes(n1, n1, nr, nr));
    SizesRaiseExactly(e, Sizes(n1, n2, nr, nr));
    SizesRaiseExactly(e, Sizes(n2, n2, nr, nr));
  }

  /** Both flags off with two different samples: nothing is returned. */
  lemma NothingWithoutFlags(npairs: Counter, unitBall: real, s1: Sample, s2: Sample, randoms: Option<Sample>,
                            rbins: seq<real>, p: Resolved, e: Estimator)
    requires CounterShape(npairs)
    requires !p.pbcs ==> randoms.Some?
    requires randoms.None? ==> AllBounded(p.period)
    ensures Counted(npairs, unitBall, s1, s2, randoms, rbins, p, e, false, false) ==
      if Same(s1, s2) then Counted(npairs, unitBall, s1, s2, randoms, rbins, p, e, true, true)
      else Ok(NoResult)
  {
  }

  /** In a periodic box without randoms the auto-correlation, by any of the
      five estimators, is DD/D1R - 1 bin by bin, with D1R the analytic
      expectation N1*dv*N1/volume: the sizes are all 1.0 and RR is D1R. */
  lemma {:induction false} AnalyticAutoCorrelation(npairs: Counter, unitBall: real, s: Sample, rbins: seq<real>,
                                                   p: Resolved, e: Estimator, doAuto: bool, doCross: bool)
    requires CounterShape(npairs)
    requires p.pbcs && AllBounded(p.period)
    ensures var r := Counted(npairs, unitBall, s, s, None, rbins, p, e, doAuto, doCross);
      var dd := PairCounts(npairs, s, s, rbins, p.period).d1d1;
      var d1r := Expected(|s.points| as real, ShellVolumes(unitBall, rbins, s.dim), Volume(p.period));
      r.Ok? && r.value.Single? && |r.value.xi| == |dd| == |d1r|
      && forall i :: 0 <= i < |dd| ==> r.value.xi[i] == Sub(Div(dd[i], d1r[i]), One)
  {
    var d := PairCounts(npairs, s, s, rbins, p.period);
    var c := RandomCountsOf(npairs, unitBall, s, s, None, rbins, p, s.dim, RequirementsOf(e).rr, RequirementsOf(e).dr);
    var d1r := Expected(|s.points| as real, ShellVolumes(unitBall, rbins, s.dim), Volume(p.period));
    assert c.d1r == Some(d1r) && c.rr == Some(d1r);
    var xi := Estimate(e, d.d1d1, c.d1r, c.rr, Units);
    forall i | 0 <= i < |d.d1d1|
      ensures xi.value[i] == Sub(Div(d.d1d1[i], d1r[i]), One)
    {
      UnitSizesReduce(e, d.d1d1[i], d1r[i]);
    }
  }
}
