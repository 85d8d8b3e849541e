/** The entry point `tpcf_jackknife` (clustering.py:324-700): the
    correlation function of the full sample together with its covariance
    over delete-one-subvolume resamples. */
module Jackknife {
  import opened Common
  import opened Values
  import opened Period
  import opened Samples
  import opened Estimators
  import opened Validation
  import opened Counts
  import opened Subvolumes
  import opened Covariance

  /** `Nsub`: one count for every axis, or a whole number broadcast. */
  datatype Subdivision = Uniform(n: int) | PerAxis(ns: seq<int>)

  /** `Lbox`: one length for every axis, or a number broadcast. */
  datatype BoxSize = Cube(l: real) | Sides(ls: seq<real>)

  /** The broadcast of clustering.py:401-402. */
  function SubdivisionFor(a: Subdivision, k: nat): (n: seq<int>)
    ensures a.Uniform? ==> |n| == k
  {
    match a
    case Uniform(n) => seq(k, _ => n)
    case PerAxis(ns) => ns
  }

  /** The broadcast of clustering.py:403-404. */
  function BoxFor(a: BoxSize, k: nat): (l: seq<real>)
    ensures a.Cube? ==> |l| == k
  {
    match a
    case Cube(l) => seq(k, _ => l)
    case Sides(ls) => ls
  }

  /** `jnpairs(s1, s2, rbins, period, jtags1, jtags2, N_samples)`:
      cumulative counts per edge, row 0 for the full samples and row r for
      the samples without subvolume r. */
  type JackknifeCounter = (seq<Point>, seq<Point>, seq<real>, seq<Extent>, seq<int>, seq<int>, nat) -> seq<seq<real>>

  ghost predicate JackknifeCounterShape(jnpairs: JackknifeCounter)
  {
    forall a, b, bins, p, t1, t2, n: nat :: var m := jnpairs(a, b, bins, p, t1, t2, n);
      |m| == n + 1 && forall r :: 0 <= r < |m| ==> |m[r]| == |bins|
  }

  /** `np.diff(counts, axis=1)`. */
  function BinnedRows(m: seq<seq<real>>, bins: nat): (r: seq<seq<Value>>)
    requires forall k :: 0 <= k < |m| ==> |m[k]| == bins
    ensures |r| == |m| && Grid(r, NBins(m[0])) <== |m| > 0
    ensures |r| == |m| && forall k :: 0 <= k < |m| ==> r[k] == Binned(m[k])
  {
    seq(|m|, k requires 0 <= k < |m| => Binned(m[k]))
  }

  /** The arguments of `tpcf_jackknife`, threads and MPI aside. */
  datatype Args = Args(sample1: Sample, randoms: Sample, rbins: seq<real>, nsub: Subdivision, lbox: BoxSize,
                       sample2: Option<Sample>, period: PeriodArg, maxSampleSize: nat,
                       doAuto: bool, doCross: bool, estimator: string)

  /** What `tpcf_jackknife` hands back: the full-sample estimates followed by
      their covariance matrices, in the order of clustering.py:692-700. */
  datatype Output =
    | Nothing
    | One(xi: seq<Value>, cov: seq<seq<Value>>)
    | AutoPair(xi11: seq<Value>, xi22: seq<Value>, cov11: seq<seq<Value>>, cov22: seq<seq<Value>>)
    | All(xi11: seq<Value>, xi12: seq<Value>, xi22: seq<Value>,
          cov11: seq<seq<Value>>, cov12: seq<seq<Value>>, cov22: seq<seq<Value>>)

  /** Rows 1.. of an optional matrix. */
  function Tail(c: Option<seq<seq<Value>>>): (t: Option<seq<seq<Value>>>)
    ensures t.Some? <==> c.Some?
    ensures c.Some? && |c.value| > 0 ==> t == Some(c.value[1..])
  {
    if c.Some? && |c.value| > 0 then Some(c.value[1..]) else c
  }

  /** The full estimate from row 0 and the resampled estimates from rows
      1..N, row r+1 with the sizes of resample r (clustering.py:672-680).
      The pair counts of the resamples are used as counted, never
      subtracted from the full counts. */
  function Resample(e: Estimator, counts: seq<seq<Value>>, dr: Option<seq<seq<Value>>>, rr: Option<seq<seq<Value>>>,
                    full: Sizes, subs: seq<Sizes>, cols: nat)
    : (r: (seq<Value>, seq<seq<Value>>))
    requires |counts| == |subs| + 1 && Grid(counts, cols)
    requires RowsAligned(counts, dr) && RowsAligned(counts, rr)
    requires Supplied(RequirementsOf(e), dr, rr)
    ensures |r.0| == cols && |r.1| == |subs| && Grid(r.1, cols)
    ensures Some(r.0) == Estimate(e, counts[0], RowOf(dr, 0), RowOf(rr, 0), full)
    ensures forall k :: 0 <= k < |subs| ==>
      Some(r.1[k]) == Estimate(e, counts[k + 1], RowOf(dr, k + 1), RowOf(rr, k + 1), subs[k])
  {
    var fullXi := Estimate(e, counts[0], RowOf(dr, 0), RowOf(rr, 0), full);
    var subXi := EstimateRows(e, counts[1..], Tail(dr), Tail(rr), subs);
    (fullXi.value, subXi.value)
  }

  /** The delete-one sizes as the reals the estimator divides by. */
  function AsReals(s: seq<nat>): (r: seq<real>)
    ensures |r| == |s| && forall k :: 0 <= k < |s| ==> r[k] == s[k] as real
  {
    seq(|s|, k requires 0 <= k < |s| => s[k] as real)
  }

  /** Every point of the samples lies inside the box `lbox`. */
  predicate AllInBox(points: seq<Point>, lbox: seq<real>)
  {
    forall i :: 0 <= i < |points| ==> InBox(points[i], lbox)
  }

  /** What a call must satisfy: the box holds every point (a point on or
      beyond the far wall indexes out of the label grid), a box-length
      vector has one entry per axis, and the randoms are within the cap. */
  predicate WellFormed(a: Args)
  {
    (a.lbox.Sides? ==> |a.lbox.ls| == a.sample1.dim)
    && (a.sample1.dim == 3 ==>
          var lbox := BoxFor(a.lbox, 3);
          AllInBox(a.sample1.points, lbox) && AllInBox(DefaultSecond(a.sample1, a.sample2).points, lbox)
          && AllInBox(a.randoms.points, lbox))
    && |a.randoms.points| <= a.maxSampleSize
  }

  /** The six count arrays of the jackknife, each with a row for the full
      samples and one for every resample. */
  datatype JackknifeCounts = JackknifeCounts(d1d1: seq<seq<Value>>, d1d2: seq<seq<Value>>, d2d2: seq<seq<Value>>,
                                             d1r: Option<seq<seq<Value>>>, d2r: Option<seq<seq<Value>>>,
                                             rr: Option<seq<seq<Value>>>)

  predicate Shaped(m: seq<seq<Value>>, rows: nat, cols: nat)
  {
    |m| == rows && Grid(m, cols)
  }

  predicate ShapedIfThere(m: Option<seq<seq<Value>>>, rows: nat, cols: nat)
  {
    m.Some? ==> Shaped(m.value, rows, cols)
  }

  /** `jnpair_counts` and `jrandom_counts` (clustering.py:492-536, 639-666):
      DR only when the estimator reads DR, RR only when it reads RR, and
      D2R taken to be D1R when the samples are the same. */
  function CountAll(jnpairs: JackknifeCounter, s1: Sample, s2: Sample, randoms: Sample, rbins: seq<real>,
                    period: seq<Extent>, l1: seq<int>, l2: seq<int>, lr: seq<int>, n: nat, q: Requirements)
    : (c: JackknifeCounts)
    requires JackknifeCounterShape(jnpairs)
    ensures Shaped(c.d1d1, n + 1, NBins(rbins)) && Shaped(c.d1d2, n + 1, NBins(rbins))
      && Shaped(c.d2d2, n + 1, NBins(rbins))
    ensures ShapedIfThere(c.d1r, n + 1, NBins(rbins)) && ShapedIfThere(c.d2r, n + 1, NBins(rbins))
      && ShapedIfThere(c.rr, n + 1, NBins(rbins))
    ensures (c.d1r.Some? <==> q.dr) && (c.d2r.Some? <==> q.dr) && (c.rr.Some? <==> q.rr)
    ensures Same(s1, s2) ==> c.d1d2 == c.d1d1 && c.d2d2 == c.d1d1 && c.d2r == c.d1r
  {
    var d1d1 := BinnedRows(jnpairs(s1.points, s1.points, rbins, period, l1, l1, n), |rbins|);
    var d1d2 := if Same(s1, s2) then d1d1 else BinnedRows(jnpairs(s1.points, s2.points, rbins, period, l1, l2, n), |rbins|);
    var d2d2 := if Same(s1, s2) then d1d1 else BinnedRows(jnpairs(s2.points, s2.points, rbins, period, l2, l2, n), |rbins|);
    var d1r := if q.dr then Some(BinnedRows(jnpairs(s1.points, randoms.points, rbins, period, l1, lr, n), |rbins|)) else None;
    var rr := if q.rr then Some(BinnedRows(jnpairs(randoms.points, randoms.points, rbins, period, lr, lr, n), |rbins|)) else None;
    var d2r := if Same(s1, s2) then d1r
               else if q.dr then Some(BinnedRows(jnpairs(s2.points, randoms.points, rbins, period, l2, lr, n), |rbins|))
               else None;
    JackknifeCounts(d1d1, d1d2, d2d2, d1r, d2r, rr)
  }

  /** Per-resample sizes: `Sizes(a[k], b[k], r[k], r[k])` for every k. */
  function SubSizes(a: seq<real>, b: seq<real>, r: seq<real>, n: nat): (s: seq<Sizes>)
    requires |a| == n && |b| == n && |r| == n
    ensures |s| == n && forall k :: 0 <= k < n ==> s[k] == Sizes(a[k], b[k], r[k], r[k])
  {
    seq(n, k requires 0 <= k < n => Sizes(a[k], b[k], r[k], r[k]))
  }

  /** Whether one of the three full-sample calls of the estimator raises on
      its sizes, which are Python integers (clustering.py:620-622, 673-675);
      the per-resample sizes are numpy arrays and divide to inf or nan. */
  predicate FullSizesRaise(e: Estimator, n1: real, n2: real, nr: real)
  {
    SizesRaise(e, Sizes(n1, n1, nr, nr)) || SizesRaise(e, Sizes(n1, n2, nr, nr)) || SizesRaise(e, Sizes(n2, n2, nr, nr))
  }

  /** Counting, estimation and covariance once the inputs are validated and
      the grid is known (clustering.py:618-700). The three covariance
      matrices are always made; only the requested ones are returned. */
  function Counted(jnpairs: JackknifeCounter, s1: Sample, s2: Sample, randoms: Sample, rbins: seq<real>,
                   period: seq<Extent>, e: Estimator, nsub: seq<int>, lbox: seq<real>, doAuto: bool, doCross: bool)
    : (r: Result<Output>)
    requires JackknifeCounterShape(jnpairs) && ValidGrid(nsub)
    requires AllInBox(s1.points, lbox) && AllInBox(s2.points, lbox) && AllInBox(randoms.points, lbox)
    ensures r.Err? <==> e != Hamilton && (|s1.points| == 0 || |s2.points| == 0 || |randoms.points| == 0)
    ensures r.Err? ==> r.error == ZeroDivision
    ensures r.Ok? && Same(s1, s2) ==> r.value.One?
    ensures r.Ok? ==> (r.value.Nothing? <==> !Same(s1, s2) && !doAuto && !doCross)
    ensures r.Ok? && r.value.One? ==>
      |r.value.xi| == NBins(rbins) && |r.value.cov| == NBins(rbins) && Grid(r.value.cov, NBins(rbins))
  {
    var n := CellCount(nsub);
    var cols := NBins(rbins);
    var l1, l2, lr := Labels(s1.points, lbox, nsub), Labels(s2.points, lbox, nsub), Labels(randoms.points, lbox, nsub);
    var n1, n2, nr := |s1.points| as real, |s2.points| as real, |randoms.points| as real;
    var n1s, n2s, nrs := AsReals(DeleteOneSizes(l1, n)), AsReals(DeleteOneSizes(l2, n)), AsReals(DeleteOneSizes(lr, n));
    var c := CountAll(jnpairs, s1, s2, randoms, rbins, period, l1, l2, lr, n, RequirementsOf(e));
    SizesRaiseExactly(e, Sizes(n1, n1, nr, nr));
    SizesRaiseExactly(e, Sizes(n1, n2, nr, nr));
    SizesRaiseExactly(e, Sizes(n2, n2, nr, nr));
    if FullSizesRaise(e, n1, n2, nr) then Err(ZeroDivision)
    else
      var x11 := Resample(e, c.d1d1, c.d1r, c.rr, Sizes(n1, n1, nr, nr), SubSizes(n1s, n1s, nrs, n), cols);
      var x12 := Resample(e, c.d1d2, c.d1r, c.rr, Sizes(n1, n2, nr, nr), SubSizes(n1s, n2s, nrs, n), cols);
      var x22 := Resample(e, c.d2d2, c.d2r, c.rr, Sizes(n2, n2, nr, nr), SubSizes(n2s, n2s, nrs, n), cols);
      Ok(Assemble(Same(s1, s2), doAuto, doCross, x11, x12, x22, cols))
  }

  /** The closing branches (clustering.py:692-700). */
  function Assemble(same: bool, doAuto: bool, doCross: bool, x11: (seq<Value>, seq<seq<Value>>),
                    x12: (seq<Value>, seq<seq<Value>>), x22: (seq<Value>, seq<seq<Value>>), cols: nat)
    : (r: Output)
    requires |x11.1| >= 1 && |x12.1| >= 1 && |x22.1| >= 1
    requires Grid(x11.1, cols) && Grid(x12.1, cols) && Grid(x22.1, cols)
    requires |x11.0| == cols && |x12.0| == cols && |x22.0| == cols
    ensures same ==> r.One?
    ensures r.Nothing? <==> !same && !doAuto && !doCross
    ensures r.One? ==> |r.xi| == cols && |r.cov| == cols && Grid(r.cov, cols)
  {
    var c11, c12, c22 := CovMatrix(x11.1, cols), CovMatrix(x12.1, cols), CovMatrix(x22.1, cols);
    if same then One(x11.0, c11)
    else if doAuto && doCross then All(x11.0, x12.0, x22.0, c11, c12, c22)
    else if doAuto then AutoPair(x11.0, x22.0, c11, c22)
    else if doCross then One(x12.0, c12)
    else Nothing
  }

  /** The closing branches with the covariance matrices filled in place by
      `covariance_matrix`. */
  method AssembleInPlace(same: bool, doAuto: bool, doCross: bool, x11: (seq<Value>, seq<seq<Value>>),
                         x12: (seq<Value>, seq<seq<Value>>), x22: (seq<Value>, seq<seq<Value>>), cols: nat)
    returns (r: Output)
    requires |x11.1| >= 1 && |x12.1| >= 1 && |x22.1| >= 1
    requires Grid(x11.1, cols) && Grid(x12.1, cols) && Grid(x22.1, cols)
    requires |x11.0| == cols && |x12.0| == cols && |x22.0| == cols
    ensures r == Assemble(same, doAuto, doCross, x11, x12, x22, cols)
  {
    var m11 := CovarianceMatrix(x11.1, x11.0);
    var m12 := CovarianceMatrix(x12.1, x12.0);
    var m22 := CovarianceMatrix(x22.1, x22.0);
    var c11, c12, c22 := Rows(m11), Rows(m12), Rows(m22);
    RowsAreCovariance(m11, x11.1, cols);
    RowsAreCovariance(m12, x12.1, cols);
    RowsAreCovariance(m22, x22.1, cols);
    if same {
      r := One(x11.0, c11);
    } else if doAuto && doCross {
      r := All(x11.0, x12.0, x22.0, c11, c12, c22);
    } else if doAuto {
      r := AutoPair(x11.0, x22.0, c11, c22);
    } else if doCross {
      r := One(x12.0, c12);
    } else {
      r := Nothing;
    }
  }

  /** `xi.T` on a matrix of resample estimates: one row per bin, one
      column per resample. */
  function Transpose(m: seq<seq<Value>>, cols: nat): (t: seq<seq<Value>>)
    requires Grid(m, cols)
    ensures |t| == cols && Grid(t, |m|)
    ensures forall i, k :: 0 <= i < cols && 0 <= k < |m| ==> t[i][k] == m[k][i]
  {
    seq(cols, i requires 0 <= i < cols => seq(|m|, k requires 0 <= k < |m| => m[k][i]))
  }

  /** The three covariance matrices as written (clustering.py:687-690).
      The jackknife copy of the estimator returns `xi.T`; the other four
      formulas transpose inside first, so their resample matrices keep one
      row per resample, but Hamilton's does not (552-553, 560) and reaches
      `covariance_matrix` with one row per bin. */
  function CovariancesAsWritten(e: Estimator, sub11: seq<seq<Value>>, sub12: seq<seq<Value>>,
                                sub22: seq<seq<Value>>, cols: nat)
    : (r: Result<(seq<seq<Value>>, seq<seq<Value>>, seq<seq<Value>>)>)
    requires |sub11| >= 1 && |sub12| == |sub11| && |sub22| == |sub11|
    requires Grid(sub11, cols) && Grid(sub12, cols) && Grid(sub22, cols)
    ensures r.Err? <==> e == Hamilton && cols > 0 && cols != |sub11|
    ensures r.Err? ==> r.error == IndexOutOfRange
    ensures e != Hamilton ==> r == Ok((CovMatrix(sub11, cols), CovMatrix(sub12, cols), CovMatrix(sub22, cols)))
    ensures e == Hamilton && cols == |sub11| ==>
      r == Ok((CovMatrix(Transpose(sub11, cols), cols), CovMatrix(Transpose(sub12, cols), cols),
               CovMatrix(Transpose(sub22, cols), cols)))
  {
    var n := |sub11|;
    var width := if e == Hamilton then n else cols;
    var l11 := if e == Hamilton then Transpose(sub11, cols) else sub11;
    var l12 := if e == Hamilton then Transpose(sub12, cols) else sub12;
    var l22 := if e == Hamilton then Transpose(sub22, cols) else sub22;
    CovarianceIndexedAgrees(if e == Hamilton && cols == n then l11 else sub11, cols);
    CovarianceIndexedAgrees(if e == Hamilton && cols == n then l12 else sub12, cols);
    CovarianceIndexedAgrees(if e == Hamilton && cols == n then l22 else sub22, cols);
    var c11, c12, c22 := CovarianceIndexed(l11, width, n, cols), CovarianceIndexed(l12, width, n, cols),
                         CovarianceIndexed(l22, width, n, cols);
    if c11.Err? || c12.Err? || c22.Err? then Err(IndexOutOfRange)
    else Ok((c11.value, c12.value, c22.value))
  }

  /** With Nsub = 5 (125 resamples) and ten bins, the Hamilton jackknife as
      written raises IndexError in `covariance_matrix`, while the corrected
      layout hands back the three covariance matrices. */
  lemma HamiltonLayoutRaises(x11: (seq<Value>, seq<seq<Value>>), x12: (seq<Value>, seq<seq<Value>>),
                             x22: (seq<Value>, seq<seq<Value>>))
    requires |x11.1| == 125 && |x12.1| == 125 && |x22.1| == 125
    requires Grid(x11.1, 10) && Grid(x12.1, 10) && Grid(x22.1, 10)
    requires |x11.0| == 10 && |x12.0| == 10 && |x22.0| == 10
    ensures CovariancesAsWritten(Hamilton, x11.1, x12.1, x22.1, 10) == Err(IndexOutOfRange)
    ensures Assemble(false, true, true, x11, x12, x22, 10)
         == All(x11.0, x12.0, x22.0, CovMatrix(x11.1, 10), CovMatrix(x12.1, 10), CovMatrix(x22.1, 10))
  {
  }

  lemma RowsAreCovariance(m: array2<Value>, sub: seq<seq<Value>>, cols: nat)
    requires |sub| >= 1 && Grid(sub, cols)
    requires m.Length0 == cols && m.Length1 == cols
    requires forall i, j :: 0 <= i < cols && 0 <= j < cols ==> m[i, j] == CovEntry(sub, cols, i, j)
    ensures Rows(m) == CovMatrix(sub, cols)
  {
    forall i | 0 <= i < cols
      ensures Rows(m)[i] == CovMatrix(sub, cols)[i]
    {
    }
  }

  /** The counting and estimating part of `tpcf_jackknife`
      (clustering.py:618-700), with the covariances filled in place. */
  method CountedInPlace(jnpairs: JackknifeCounter, s1: Sample, s2: Sample, randoms: Sample, rbins: seq<real>,
                        period: seq<Extent>, e: Estimator, nsub: seq<int>, lbox: seq<real>, doAuto: bool, doCross: bool)
    returns (r: Result<Output>)
    requires JackknifeCounterShape(jnpairs) && ValidGrid(nsub)
    requires AllInBox(s1.points, lbox) && AllInBox(s2.points, lbox) && AllInBox(randoms.points, lbox)
    ensures r == Counted(jnpairs, s1, s2, randoms, rbins, period, e, nsub, lbox, doAuto, doCross)
  {
    var n := CellCount(nsub);
    var cols := NBins(rbins);
    var l1, l2, lr := Labels(s1.points, lbox, nsub), Labels(s2.points, lbox, nsub), Labels(randoms.points, lbox, nsub);
    var n1, n2, nr := |s1.points| as real, |s2.points| as real, |randoms.points| as real;
    var n1s, n2s, nrs := AsReals(DeleteOneSizes(l1, n)), AsReals(DeleteOneSizes(l2, n)), AsReals(DeleteOneSizes(lr, n));
    var c := CountAll(jnpairs, s1, s2, randoms, rbins, period, l1, l2, lr, n, RequirementsOf(e));
    if FullSizesRaise(e, n1, n2, nr) {
      return Err(ZeroDivision);
    }
    var x11 := Resample(e, c.d1d1, c.d1r, c.rr, Sizes(n1, n1, nr, nr), SubSizes(n1s, n1s, nrs, n), cols);
    var x12 := Resample(e, c.d1d2, c.d1r, c.rr, Sizes(n1, n2, nr, nr), SubSizes(n1s, n2s, nrs, n), cols);
    var x22 := Resample(e, c.d2d2, c.d2r, c.rr, Sizes(n2, n2, nr, nr), SubSizes(n2s, n2s, nrs, n), cols);
    var out := AssembleInPlace(Same(s1, s2), doAuto, doCross, x11, x12, x22, cols);
    r := Ok(out);
  }

  /** `tpcf_jackknife` from arguments to result. */
  function JackknifeSpec(a: Args, perm1: seq<nat>, perm2: seq<nat>, jnpairs: JackknifeCounter)
    : (r: Result<Output>)
    requires JackknifeCounterShape(jnpairs) && WellFormed(a)
    requires IsPermutation(perm1, |a.sample1.points|)
    requires IsPermutation(perm2, |DefaultSecond(a.sample1, a.sample2).points|)
    ensures r.Err? ==> r.error in {PeriodShape, NsubShape, EmptyArray, SeparationTooLarge, DimensionMismatch,
                                   UnknownEstimator, MixedPeriod, UnsupportedDimension, BadSubdivision, ZeroDivision}
    ensures r.Ok? ==> a.sample1.dim == 3
  {
    var k := a.sample1.dim;
    var nsub := SubdivisionFor(a.nsub, k);
    var p :- ResolvePeriod(a.period, k);
    var s := PrepareSamples(a.sample1, DefaultSecond(a.sample1, a.sample2), perm1, perm2, a.maxSampleSize);
    if |nsub| != k then Err(NsubShape)
    else
      var e :- CheckJackknife(a.rbins, p, s.0.dim, s.1.dim, a.estimator);
      if k != 3 then Err(UnsupportedDimension)
      else if !ValidGrid(nsub) then Err(BadSubdivision)
      else
        PrepareSamplesKeepsRows(a.sample1, DefaultSecond(a.sample1, a.sample2), perm1, perm2, a.maxSampleSize);
        Counted(jnpairs, s.0, s.1, a.randoms, a.rbins, p.period, e, nsub, BoxFor(a.lbox, 3), a.doAuto, a.doCross)
  }

  /** `tpcf_jackknife`, rebinding its arguments step by step. */
  method TpcfJackknife(a: Args, perm1: seq<nat>, perm2: seq<nat>, jnpairs: JackknifeCounter)
    returns (r: Result<Output>)
    requires JackknifeCounterShape(jnpairs) && WellFormed(a)
    requires IsPermutation(perm1, |a.sample1.points|)
    requires IsPermutation(perm2, |DefaultSecond(a.sample1, a.sample2).points|)
    ensures r == JackknifeSpec(a, perm1, perm2, jnpairs)
  {
    var sample1 := a.sample1;
    var sample2 := DefaultSecond(a.sample1, a.sample2);
    var k := sample1.dim;
    var nsub := SubdivisionFor(a.nsub, k);
    var lbox := BoxFor(a.lbox, k);
    var resolved := ResolvePeriod(a.period, k);
    if resolved.Err? {
      return Err(resolved.error);
    }
    var period := resolved.value.period;
    sample1, sample2 := Downsample(sample1, sample2, perm1, perm2, a.maxSampleSize);
    if |nsub| != k {
      return Err(NsubShape);
    }
    var checked := CheckJackknife(a.rbins, resolved.value, sample1.dim, sample2.dim, a.estimator);
    if checked.Err? {
      return Err(checked.error);
    }
    if k != 3 {
      return Err(UnsupportedDimension);
    }
    if !ValidGrid(nsub) {
      return Err(BadSubdivision);
    }
    PrepareSamplesKeepsRows(a.sample1, DefaultSecond(a.sample1, a.sample2), perm1, perm2, a.maxSampleSize);
    r := CountedInPlace(jnpairs, sample1, sample2, a.randoms, a.rbins, period, checked.value, nsub, lbox,
                        a.doAuto, a.doCross);
  }

  /** Without a second sample, or with one equal to the first, the
      jackknife returns the auto-correlation and its covariance. */
  lemma AutoWhenSame(a: Args, perm1: seq<nat>, perm2: seq<nat>, jnpairs: JackknifeCounter)
    requires JackknifeCounterShape(jnpairs) && WellFormed(a)
    requires IsPermutation(perm1, |a.sample1.points|)
    requires IsPermutation(perm2, |DefaultSecond(a.sample1, a.sample2).points|)
    requires a.sample2.None? || a.sample2 == Some(a.sample1)
    ensures var r := JackknifeSpec(a, perm1, perm2, jnpairs);
      r.Ok? ==> r.value.One? && |r.value.xi| == NBins(a.rbins) && Grid(r.value.cov, NBins(a.rbins))
  {
    var s := PrepareSamples(a.sample1, DefaultSecond(a.sample1, a.sample2), perm1, perm2, a.maxSampleSize);
    assert Same(s.0, s.1);
  }

  /** With two different samples and only the auto flag, both
      auto-correlations and both covariances come back, sample1 first. */
  lemma AutoOnlyReturnsBoth(same: bool, x11: (seq<Value>, seq<seq<Value>>), x12: (seq<Value>, seq<seq<Value>>),
                            x22: (seq<Value>, seq<seq<Value>>), cols: nat)
    requires |x11.1| >= 1 && |x12.1| >= 1 && |x22.1| >= 1
    requires Grid(x11.1, cols) && Grid(x12.1, cols) && Grid(x22.1, cols)
    requires |x11.0| == cols && |x12.0| == cols && |x22.0| == cols
    requires !same
    ensures Assemble(same, true, false, x11, x12, x22, cols)
         == AutoPair(x11.0, x22.0, CovMatrix(x11.1, cols), CovMatrix(x22.1, cols))
  {
  }

  /** The covariance returned with an estimate is symmetric, and its
      diagonal holds the squared jackknife errors of the resampled
      estimates, none of them negative. */
  lemma ReturnedCovariance(sub: seq<seq<Value>>, cols: nat)
    requires |sub| >= 1 && Grid(sub, cols)
    ensures var c := CovMatrix(sub, cols);
      (forall i, j :: 0 <= i < cols && 0 <= j < cols ==> c[i][j] == c[j][i])
      && (forall i :: 0 <= i < cols ==> c[i][i] == ErrorSquared(sub, cols)[i] && NonNegative(c[i][i]))
  {
    forall i, j | 0 <= i < cols && 0 <= j < cols
      ensures CovEntry(sub, cols, i, j) == CovEntry(sub, cols, j, i)
    {
      CovSymmetric(sub, cols, i, j);
    }
    forall i | 0 <= i < cols
      ensures CovEntry(sub, cols, i, i) == ErrorSquared(sub, cols)[i] && NonNegative(ErrorSquared(sub, cols)[i])
    {
      CovDiagonal(sub, cols, i);
      ErrorSquaredNonnegative(sub, cols, i);
    }
  }
}
