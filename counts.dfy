/** Pair counting around the external counters: `pair_counts` and
    `random_counts` of tpcf (clustering.py:155-230) and of
    redshift_space_tpcf (835-930). The counters themselves (npairs,
    xy_z_npairs) are parameters returning cumulative counts per bin edge. */
module Counts {
  import opened Common
  import opened Values
  import opened Period
  import opened Samples
  import opened Volumes

  /** `npairs(sample1, sample2, rbins, period=period)`: cumulative counts,
      one per edge. */
  type Counter = (seq<Point>, seq<Point>, seq<real>, seq<Extent>) -> seq<real>

  ghost predicate CounterShape(npairs: Counter)
  {
    forall a, b, bins, p :: |npairs(a, b, bins, p)| == |bins|
  }

  /** `xy_z_npairs(sample1, sample2, rp_bins, pi_bins, period=period)`:
      cumulative counts, one per (rp edge, pi edge). */
  type Counter2 = (seq<Point>, seq<Point>, seq<real>, seq<real>, seq<Extent>) -> seq<seq<real>>

  ghost predicate Counter2Shape(npairs: Counter2)
  {
    forall a, b, rp, pi, p :: IsMatrix(npairs(a, b, rp, pi, p), |rp|, |pi|)
  }

  /** The number of bins between the edges. */
  function NBins(edges: seq<real>): nat
  {
    if |edges| == 0 then 0 else |edges| - 1
  }

  /** `np.diff` of cumulative counts: the count in each bin. */
  function Binned(cumulative: seq<real>): (r: seq<Value>)
    ensures |r| == NBins(cumulative)
    ensures forall i :: 0 <= i < |r| ==> r[i] == Finite(cumulative[i + 1] - cumulative[i])
  {
    var d := Diff(cumulative);
    seq(|d|, i requires 0 <= i < |d| => Finite(d[i]))
  }

  /** `np.diff(np.diff(c, axis=0), axis=1)`: the count in each (rp, pi) cell. */
  function Binned2(cumulative: seq<seq<real>>, rows: nat, cols: nat): (r: seq<seq<Value>>)
    requires IsMatrix(cumulative, rows, cols)
    ensures IsMatrix(r, if rows == 0 then 0 else rows - 1, if cols == 0 then 0 else cols - 1)
  {
    var d := Diff2(cumulative, rows, cols);
    seq(|d|, i requires 0 <= i < |d| => seq(|d[i]|, j requires 0 <= j < |d[i]| => Finite(d[i][j])))
  }

  /** The three data-data count arrays. */
  datatype DataCounts<T> = DataCounts(d1d1: T, d1d2: T, d2d2: T)

  /** The three random count arrays; `None` where the source leaves `None`. */
  datatype RandomCounts<T> = RandomCounts(d1r: Option<T>, d2r: Option<T>, rr: Option<T>)

  predicate HasLength<T>(c: Option<seq<T>>, n: nat)
  {
    c.Some? ==> |c.value| == n
  }

  /** `pair_counts` (clustering.py:215-230): one auto count when the samples
      are the same, otherwise auto, cross and second auto counts. */
  function PairCounts(npairs: Counter, s1: Sample, s2: Sample, bins: seq<real>, period: seq<Extent>)
    : (c: DataCounts<seq<Value>>)
    requires CounterShape(npairs)
    ensures |c.d1d1| == NBins(bins) && |c.d1d2| == NBins(bins) && |c.d2d2| == NBins(bins)
    ensures Same(s1, s2) ==> c.d1d2 == c.d1d1 && c.d2d2 == c.d1d1
  {
    var d1d1 := Binned(npairs(s1.points, s1.points, bins, period));
    if Same(s1, s2) then DataCounts(d1d1, d1d1, d1d1)
    else DataCounts(d1d1, Binned(npairs(s1.points, s2.points, bins, period)),
                    Binned(npairs(s2.points, s2.points, bins, period)))
  }

  /** `random_counts` (clustering.py:137-213) with its three branches: no
      periodic box (randoms counted, every count made), a periodic box with
      randoms (only the counts the estimator asks for), and a periodic box
      without randoms (expected counts from the shell volumes). */
  function RandomCountsOf(npairs: Counter, unitBall: real, s1: Sample, s2: Sample, randoms: Option<Sample>,
                          bins: seq<real>, p: Resolved, k: nat, doRR: bool, doDR: bool)
    : (c: RandomCounts<seq<Value>>)
    requires CounterShape(npairs)
    requires !p.pbcs ==> randoms.Some?
    requires randoms.None? ==> AllBounded(p.period)
    ensures HasLength(c.d1r, NBins(bins)) && HasLength(c.d2r, NBins(bins)) && HasLength(c.rr, NBins(bins))
    ensures !p.pbcs ==> c.d1r.Some? && c.rr.Some? && (c.d2r.Some? <==> !Same(s1, s2))
    ensures p.pbcs && randoms.Some? ==>
      (c.rr.Some? <==> doRR) && (c.d1r.Some? <==> doDR) && (c.d2r.Some? <==> doDR && !Same(s1, s2))
    ensures randoms.None? ==>
      c.d1r.Some? && c.rr.Some? && (c.d2r.Some? <==> !Same(s1, s2)) && (Same(s1, s2) ==> c.rr == c.d1r)
  {
    if !p.pbcs then
      var r := randoms.value;
      var rr := Binned(npairs(r.points, r.points, bins, p.period));
      var d1r := Binned(npairs(s1.points, r.points, bins, p.period));
      var d2r := if Same(s1, s2) then None else Some(Binned(npairs(s2.points, r.points, bins, p.period)));
      RandomCounts(Some(d1r), d2r, Some(rr))
    else if randoms.Some? then
      var r := randoms.value;
      var rr := if doRR then Some(Binned(npairs(r.points, r.points, bins, p.period))) else None;
      var d1r := if doDR then Some(Binned(npairs(s1.points, r.points, bins, p.period))) else None;
      var d2r := if Same(s1, s2) || !doDR then None else Some(Binned(npairs(s2.points, r.points, bins, p.period)));
      RandomCounts(d1r, d2r, rr)
    else
      var dv := ShellVolumes(unitBall, bins, k);
      var volume := Volume(p.period);
      var n1 := |s1.points| as real;
      var d1r := Expected(n1, dv, volume);
      if Same(s1, s2) then RandomCounts(Some(d1r), None, Some(d1r))
      else
        var n2 := |s2.points| as real;
        RandomCounts(Some(d1r), Some(Expected(n2, dv, volume)), Some(ExpectedCross(n1, n2, dv, volume)))
  }

  /** `pair_counts` of redshift_space_tpcf (clustering.py:915-930). */
  function PairCounts2(npairs: Counter2, s1: Sample, s2: Sample, rp: seq<real>, pi: seq<real>, period: seq<Extent>)
    : (c: DataCounts<seq<seq<Value>>>)
    requires Counter2Shape(npairs)
    ensures IsMatrix(c.d1d1, NBins(rp), NBins(pi)) && IsMatrix(c.d1d2, NBins(rp), NBins(pi))
      && IsMatrix(c.d2d2, NBins(rp), NBins(pi))
    ensures Same(s1, s2) ==> c.d1d2 == c.d1d1 && c.d2d2 == c.d1d1
  {
    var d1d1 := Binned2(npairs(s1.points, s1.points, rp, pi, period), |rp|, |pi|);
    if Same(s1, s2) then DataCounts(d1d1, d1d1, d1d1)
    else DataCounts(d1d1, Binned2(npairs(s1.points, s2.points, rp, pi, period), |rp|, |pi|),
                    Binned2(npairs(s2.points, s2.points, rp, pi, period), |rp|, |pi|))
  }

  predicate HasShape<T>(c: Option<seq<seq<T>>>, rows: nat, cols: nat)
  {
    c.Some? ==> IsMatrix(c.value, rows, cols)
  }

  /** `random_counts` of redshift_space_tpcf (clustering.py:835-913), the
      analytic branch using the annulus volumes. */
  function RandomCounts2(npairs: Counter2, pi: real, s1: Sample, s2: Sample, randoms: Option<Sample>,
                         rpBins: seq<real>, piBins: seq<real>, p: Resolved, doRR: bool, doDR: bool)
    : (c: RandomCounts<seq<seq<Value>>>)
    requires Counter2Shape(npairs)
    requires !p.pbcs ==> randoms.Some?
    requires randoms.None? ==> AllBounded(p.period)
    ensures var rows, cols := NBins(rpBins), NBins(piBins);
      HasShape(c.d1r, rows, cols) && HasShape(c.d2r, rows, cols) && HasShape(c.rr, rows, cols)
    ensures !p.pbcs ==> c.d1r.Some? && c.rr.Some? && (c.d2r.Some? <==> !Same(s1, s2))
    ensures p.pbcs && randoms.Some? ==>
      (c.rr.Some? <==> doRR) && (c.d1r.Some? <==> doDR) && (c.d2r.Some? <==> doDR && !Same(s1, s2))
    ensures randoms.None? ==>
      c.d1r.Some? && c.rr.Some? && (c.d2r.Some? <==> !Same(s1, s2)) && (Same(s1, s2) ==> c.rr == c.d1r)
  {
    var rows, cols := |rpBins|, |piBins|;
    if !p.pbcs then
      var r := randoms.value;
      var rr := Binned2(npairs(r.points, r.points, rpBins, piBins, p.period), rows, cols);
      var d1r := Binned2(npairs(s1.points, r.points, rpBins, piBins, p.period), rows, cols);
      var d2r := if Same(s1, s2) then None
                 else Some(Binned2(npairs(s2.points, r.points, rpBins, piBins, p.period), rows, cols));
      RandomCounts(Some(d1r), d2r, Some(rr))
    else if randoms.Some? then
      var r := randoms.value;
      var rr := if doRR then Some(Binned2(npairs(r.points, r.points, rpBins, piBins, p.period), rows, cols)) else None;
      var d1r := if doDR then Some(Binned2(npairs(s1.points, r.points, rpBins, piBins, p.period), rows, cols)) else None;
      var d2r := if Same(s1, s2) || !doDR then None
                 else Some(Binned2(npairs(s2.points, r.points, rpBins, piBins, p.period), rows, cols));
      RandomCounts(d1r, d2r, rr)
    else
      var dv := AnnulusVolumes(pi, rpBins, piBins);
      var volume := Volume(p.period);
      var n1 := |s1.points| as real;
      var d1r := ExpectedRows(n1, dv, volume);
      if Same(s1, s2) then RandomCounts(Some(d1r), None, Some(d1r))
      else
        var n2 := |s2.points| as real;
        RandomCounts(Some(d1r), Some(ExpectedRows(n2, dv, volume)), Some(ExpectedCrossRows(n1, n2, dv, volume)))
  }
}
