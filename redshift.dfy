/** The entry point `redshift_space_tpcf` (clustering.py:703-1024): the
    correlation function on a grid of projected (rp) and line-of-sight (pi)
    separations. */
module Redshift {
  import opened Common
  import opened Values
  import opened Period
  import opened Samples
  import opened Volumes
  import opened Estimators
  import opened Validation
  import opened Counts
  import opened Dispatch

  /** The arguments of `redshift_space_tpcf` (and of `wp`), threads and MPI
      communicator aside. */
  datatype Args = Args(sample1: Sample, rpBins: seq<real>, piBins: seq<real>, sample2: Option<Sample>,
                       randoms: Option<Sample>, period: PeriodArg, maxSampleSize: nat,
                       doAuto: bool, doCross: bool, estimator: string)

  /** Every array of an output is a `rows` by `cols` grid. */
  predicate HasGrid(out: XiOutput<seq<seq<Value>>>, rows: nat, cols: nat)
  {
    Each(out, (xi: seq<seq<Value>>) => IsMatrix(xi, rows, cols))
  }

  /** The scalar estimator applied to every cell of a grid with one set of
      sizes. */
  function EstimateGrid(e: Estimator, dd: seq<seq<Value>>, dr: Option<seq<seq<Value>>>, rr: Option<seq<seq<Value>>>,
                        n: Sizes, cols: nat)
    : (r: Option<seq<seq<Value>>>)
    requires IsMatrix(dd, |dd|, cols) && HasShape(dr, |dd|, cols) && HasShape(rr, |dd|, cols)
    ensures r.Some? <==> Supplied(RequirementsOf(e), dr, rr)
    ensures r.Some? ==> IsMatrix(r.value, |dd|, cols)
    ensures r.Some? ==> forall i, j :: 0 <= i < |dd| && 0 <= j < cols ==>
      r.value[i][j] == Xi(e, dd[i][j], At(RowOf(dr, i), j), At(RowOf(rr, i), j), n)
  {
    var r := EstimateRows(e, dd, dr, rr, seq(|dd|, _ => n));
    if r.Some? then
      assert forall i :: 0 <= i < |dd| ==> Some(r.value[i]) == Estimate(e, dd[i], RowOf(dr, i), RowOf(rr, i), n);
      r
    else r
  }

  /** Counting and estimation once the inputs are validated
      (clustering.py:992-1024), on the same branches as tpcf, with the
      sizes again Python numbers. */
  function Counted(npairs: Counter2, pi: real, s1: Sample, s2: Sample, randoms: Option<Sample>,
                   rpBins: seq<real>, piBins: seq<real>, p: Resolved, e: Estimator, doAuto: bool, doCross: bool)
    : (r: Result<XiOutput<seq<seq<Value>>>>)
    requires Counter2Shape(npairs)
    requires !p.pbcs ==> randoms.Some?
    requires randoms.None? ==> AllBounded(p.period)
    ensures r.Err? ==> r.error in {MissingCounts, ZeroDivision}
    ensures r == Err(ZeroDivision) ==>
      randoms.Some? && e != Hamilton && (|s1.points| == 0 || |s2.points| == 0 || |randoms.value.points| == 0)
    ensures r.Ok? ==> HasGrid(r.value, NBins(rpBins), NBins(piBins))
    ensures r.Ok? && Same(s1, s2) ==> r.value.Single?
  {
    var q := RequirementsOf(e);
    var (n1, n2, nr) := if randoms.Some? then (|s1.points| as real, |s2.points| as real, |randoms.value.points| as real)
                        else (1.0, 1.0, 1.0);
    var (z11, z12, z22) := (Sizes(n1, n1, nr, nr), Sizes(n1, n2, nr, nr), Sizes(n2, n2, nr, nr));
    SizesRaiseExactly(e, z11);
    SizesRaiseExactly(e, z12);
    SizesRaiseExactly(e, z22);
    var cols := NBins(piBins);
    var d := PairCounts2(npairs, s1, s2, rpBins, piBins, p.period);
    var c := RandomCounts2(npairs, pi, s1, s2, randoms, rpBins, piBins, p, q.rr, q.dr);
    Select(Same(s1, s2), doAuto, doCross,
           ScalarEstimate(e, z11, EstimateGrid(e, d.d1d1, c.d1r, c.rr, z11, cols)),
           ScalarEstimate(e, z12, EstimateGrid(e, d.d1d2, c.d1r, c.rr, z12, cols)),
           ScalarEstimate(e, z22, EstimateGrid(e, d.d2d2, c.d2r, c.rr, z22, cols)),
           ScalarEstimate(e, z11, EstimateGrid(e, d.d1d1, c.d1r, c.d1r, z11, cols)),
           ScalarEstimate(e, z22, EstimateGrid(e, d.d2d2, c.d2r, c.d2r, z22, cols)))
  }

  /** `redshift_space_tpcf` from arguments to result; `pi` is the constant
      of the cylinder volume pi*R^2*h. */
  function RedshiftSpec(a: Args, perm1: seq<nat>, perm2: seq<nat>, npairs: Counter2, pi: real)
    : (r: Result<XiOutput<seq<seq<Value>>>>)
    requires Counter2Shape(npairs)
    requires IsPermutation(perm1, |a.sample1.points|)
    requires IsPermutation(perm2, |DefaultSecond(a.sample1, a.sample2).points|)
    ensures r.Err? ==> r.error in {PeriodShape, EmptyArray, SeparationTooLarge, UnsupportedDimension, DimensionMismatch,
                                   RandomsRequired, UnknownEstimator, MixedPeriod, MissingCounts, ZeroDivision}
    ensures r == Err(ZeroDivision) ==> a.randoms.Some?
    ensures r.Ok? ==> a.sample1.dim >= 3 && HasGrid(r.value, NBins(a.rpBins), NBins(a.piBins))
  {
    var p :- ResolvePeriod(a.period, a.sample1.dim);
    var s := PrepareSamples(a.sample1, DefaultSecond(a.sample1, a.sample2), perm1, perm2, a.maxSampleSize);
    var e :- CheckRedshift(a.rpBins, a.piBins, p, s.0.dim, s.1.dim, a.randoms.Some?, a.estimator);
    RedshiftChecksSound(a.rpBins, a.piBins, p, s.0.dim, s.1.dim, a.randoms.Some?, a.estimator);
    Counted(npairs, pi, s.0, s.1, a.randoms, a.rpBins, a.piBins, p, e, a.doAuto, a.doCross)
  }

  /** `redshift_space_tpcf`, rebinding its arguments step by step. */
  method RedshiftSpaceTpcf(a: Args, perm1: seq<nat>, perm2: seq<nat>, npairs: Counter2, pi: real)
    returns (r: Result<XiOutput<seq<seq<Value>>>>)
    requires Counter2Shape(npairs)
    requires IsPermutation(perm1, |a.sample1.points|)
    requires IsPermutation(perm2, |DefaultSecond(a.sample1, a.sample2).points|)
    ensures r == RedshiftSpec(a, perm1, perm2, npairs, pi)
  {
    var sample1 := a.sample1;
    var sample2 := DefaultSecond(a.sample1, a.sample2);
    var resolved := ResolvePeriod(a.period, sample1.dim);
    if resolved.Err? {
      return Err(resolved.error);
    }
    var p := resolved.value;
    sample1, sample2 := Downsample(sample1, sample2, perm1, perm2, a.maxSampleSize);
    var checked := CheckRedshift(a.rpBins, a.piBins, p, sample1.dim, sample2.dim, a.randoms.Some?, a.estimator);
    if checked.Err? {
      return Err(checked.error);
    }
    RedshiftChecksSound(a.rpBins, a.piBins, p, sample1.dim, sample2.dim, a.randoms.Some?, a.estimator);
    r := Counted(npairs, pi, sample1, sample2, a.randoms, a.rpBins, a.piBins, p, checked.value, a.doAuto, a.doCross);
  }

  /** Fewer than three coordinates are refused: the line of sight is the
      third axis. */
  lemma NeedsThreeDimensions(a: Args, perm1: seq<nat>, perm2: seq<nat>, npairs: Counter2, pi: real)
    requires Counter2Shape(npairs)
    requires IsPermutation(perm1, |a.sample1.points|)
    requires IsPermutation(perm2, |DefaultSecond(a.sample1, a.sample2).points|)
    requires |a.rpBins| > 0 && |a.piBins| > 0 && a.sample1.dim < 3
    requires !(a.period.Vector? && |a.period.lengths| != a.sample1.dim)
    ensures RedshiftSpec(a, perm1, perm2, npairs, pi) in {Err(EmptyArray), Err(SeparationTooLarge), Err(UnsupportedDimension)}
  {
  }

  /** With randoms, an empty first sample, an empty random catalogue, or an
      empty second sample asked for the cross-correlation makes every
      estimator but Hamilton raise ZeroDivisionError, on every branch that
      computes an estimate. */
  lemma EmptyInputsRaise(npairs: Counter2, pi: real, s1: Sample, s2: Sample, randoms: Option<Sample>,
                         rpBins: seq<real>, piBins: seq<real>, p: Resolved, e: Estimator, doAuto: bool, doCross: bool)
    requires Counter2Shape(npairs)
    requires !p.pbcs ==> randoms.Some?
    requires randoms.Some? && e != Hamilton
    requires |s1.points| == 0 || |randoms.value.points| == 0 || (|s2.points| == 0 && doCross)
    requires Same(s1, s2) || doAuto || doCross
    ensures Counted(npairs, pi, s1, s2, randoms, rpBins, piBins, p, e, doAuto, doCross) == Err(ZeroDivision)
  {
    var (n1, n2, nr) := (|s1.points| as real, |s2.points| as real, |randoms.value.points| as real);
    SizesRaiseExactly(e, Sizes(n1, n1, nr, nr));
    SizesRaiseExactly(e, Sizes(n1, n2, nr, nr));
    SizesRaiseExactly(e, Sizes(n2, n2, nr, nr));
  }

  /** In a periodic box without randoms the auto-correlation on every
      (rp, pi) cell is DD/D1R - 1, with D1R = N1*dv*N1/volume over the
      annulus volumes dv. */
  lemma {:induction false} AnalyticAutoCorrelation(npairs: Counter2, pi: real, s: Sample, rpBins: seq<real>,
                                                   piBins: seq<real>, p: Resolved, e: Estimator, doAuto: bool, doCross: bool)
    requires Counter2Shape(npairs)
    requires p.pbcs && AllBounded(p.period)
    ensures var r := Counted(npairs, pi, s, s, None, rpBins, piBins, p, e, doAuto, doCross);
      var dd := PairCounts2(npairs, s, s, rpBins, piBins, p.period).d1d1;
      var d1r := ExpectedRows(|s.points| as real, AnnulusVolumes(pi, rpBins, piBins), Volume(p.period));
      r.Ok? && r.value.Single? && IsMatrix(d1r, NBins(rpBins), NBins(piBins))
      && forall i, j :: 0 <= i < NBins(rpBins) && 0 <= j < NBins(piBins) ==>
           r.value.xi[i][j] == Sub(Div(dd[i][j], d1r[i][j]), One)
  {
    var d := PairCounts2(npairs, s, s, rpBins, piBins, p.period);
    var c := RandomCounts2(npairs, pi, s, s, None, rpBins, piBins, p, RequirementsOf(e).rr, RequirementsOf(e).dr);
    var d1r := ExpectedRows(|s.points| as real, AnnulusVolumes(pi, rpBins, piBins), Volume(p.period));
    assert c.d1r == Some(d1r) && c.rr == Some(d1r);
    var xi := EstimateGrid(e, d.d1d1, c.d1r, c.rr, Units, NBins(piBins));
    forall i, j | 0 <= i < NBins(rpBins) && 0 <= j < NBins(piBins)
      ensures xi.value[i][j] == Sub(Div(d.d1d1[i][j], d1r[i][j]), One)
    {
      UnitSizesReduce(e, d.d1d1[i][j], d1r[i][j]);
    }
  }
}
