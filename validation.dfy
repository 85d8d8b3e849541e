/** The consistency checks every entry point runs before any pair is counted
    (clustering.py:125-135, 448-456 and 817-832). Each check is a function
    returning the first error raised, in the order the source tests them. */
module Validation {
  import opened Common
  import opened Period
  import opened Estimators

  /** `np.max(bins)` */
  function MaxEdge(bins: seq<real>): (m: real)
    requires |bins| > 0
    ensures m in bins
    ensures forall j :: 0 <= j < |bins| ==> bins[j] <= m
  {
    if |bins| == 1 then bins[0]
    else
      var rest := MaxEdge(bins[1..]);
      if bins[0] >= rest then bins[0] else rest
  }

  /** No bin edge is larger than half of any period entry. */
  predicate WithinHalfPeriod(bins: seq<real>, period: seq<Extent>)
  {
    forall j, i :: 0 <= j < |bins| && 0 <= i < |period| ==> !ExceedsHalf(bins[j], period[i])
  }

  /** `np.max(bins) > np.min(period)/2.0`: the maximum and the minimum of an
      empty array raise; otherwise the test fails exactly when some edge is
      beyond half of some period entry. */
  function SeparationCheck(bins: seq<real>, period: seq<Extent>): (r: Option<Error>)
    ensures r == Some(EmptyArray) <==> |bins| == 0 || |period| == 0
    ensures r.Some? ==> r.value in {EmptyArray, SeparationTooLarge}
    ensures r.None? <==> |bins| > 0 && |period| > 0 && WithinHalfPeriod(bins, period)
  {
    if |bins| == 0 || |period| == 0 then Some(EmptyArray)
    else if ExceedsHalf(MaxEdge(bins), Min(period)) then
      SeparationFails(bins, period);
      Some(SeparationTooLarge)
    else
      SeparationHolds(bins, period);
      None
  }

  lemma SeparationFails(bins: seq<real>, period: seq<Extent>)
    requires |bins| > 0 && |period| > 0
    requires ExceedsHalf(MaxEdge(bins), Min(period))
    ensures !WithinHalfPeriod(bins, period)
  {
    ExceedsHalfMin(MaxEdge(bins), period);
    var i :| 0 <= i < |period| && ExceedsHalf(MaxEdge(bins), period[i]);
    var j :| 0 <= j < |bins| && bins[j] == MaxEdge(bins);
  }

  lemma SeparationHolds(bins: seq<real>, period: seq<Extent>)
    requires |bins| > 0 && |period| > 0
    requires !ExceedsHalf(MaxEdge(bins), Min(period))
    ensures WithinHalfPeriod(bins, period)
  {
    ExceedsHalfMin(MaxEdge(bins), period);
  }

  /** The checks after the separation test: matching dimensions, randoms when
      the volume is unbounded (skipped by the jackknife, whose randoms are
      mandatory), a known estimator, and no infinite entry in a periodic box. */
  function RemainingChecks(dim1: nat, dim2: nat, checkRandoms: bool, randomsGiven: bool, name: string, p: Resolved)
    : (r: Result<Estimator>)
    requires |p.period| > 0
    ensures r == Err(DimensionMismatch) <==> dim1 != dim2
    ensures r == Err(RandomsRequired) <==>
      dim1 == dim2 && checkRandoms && !randomsGiven && forall i :: 0 <= i < |p.period| ==> p.period[i].Unbounded?
    ensures r.Ok? ==> Parse(name) == Some(r.value)
    ensures r.Ok? <==>
      dim1 == dim2
      && (checkRandoms && !randomsGiven ==> exists i :: 0 <= i < |p.period| && p.period[i].Bounded?)
      && Parse(name).Some?
      && (p.pbcs ==> AllBounded(p.period))
  {
    MinUnbounded(p.period);
    MaxUnbounded(p.period);
    if dim1 != dim2 then Err(DimensionMismatch)
    else if checkRandoms && !randomsGiven && Min(p.period).Unbounded? then Err(RandomsRequired)
    else if Parse(name).None? then Err(UnknownEstimator)
    else if p.pbcs && Max(p.period).Unbounded? then Err(MixedPeriod)
    else Ok(Parse(name).value)
  }

  /** tpcf's checks (clustering.py:125-135). */
  function CheckTpcf(bins: seq<real>, p: Resolved, dim1: nat, dim2: nat, randomsGiven: bool, name: string)
    : (r: Result<Estimator>)
  {
    var sep := SeparationCheck(bins, p.period);
    if sep.Some? then Err(sep.value)
    else RemainingChecks(dim1, dim2, true, randomsGiven, name, p)
  }

  /** redshift_space_tpcf's checks (clustering.py:817-832): rp edges against
      the first two period entries, pi edges against the third, which must
      exist. */
  function CheckRedshift(rpBins: seq<real>, piBins: seq<real>, p: Resolved, dim1: nat, dim2: nat,
                         randomsGiven: bool, name: string)
    : (r: Result<Estimator>)
  {
    var k := |p.period|;
    var sepRp := SeparationCheck(rpBins, p.period[..if k < 2 then k else 2]);
    if sepRp.Some? then Err(sepRp.value)
    else if |piBins| == 0 then Err(EmptyArray)
    else if k < 3 then Err(UnsupportedDimension)
    else if ExceedsHalf(MaxEdge(piBins), p.period[2]) then Err(SeparationTooLarge)
    else RemainingChecks(dim1, dim2, true, randomsGiven, name, p)
  }

  /** tpcf_jackknife's checks (clustering.py:448-456). */
  function CheckJackknife(bins: seq<real>, p: Resolved, dim1: nat, dim2: nat, name: string)
    : (r: Result<Estimator>)
  {
    var sep := SeparationCheck(bins, p.period);
    if sep.Some? then Err(sep.value)
    else RemainingChecks(dim1, dim2, false, true, name, p)
  }

  /** What passing tpcf's checks guarantees for a resolved period: every edge
      within half of every period entry, equal dimensions, a supported
      estimator, and either randoms or a fully bounded periodic box, which is
      what the analytic randoms need. */
  lemma TpcfChecksSound(bins: seq<real>, arg: PeriodArg, k: nat, dim2: nat, randomsGiven: bool, name: string)
    requires ResolvePeriod(arg, k).Ok?
    requires CheckTpcf(bins, ResolvePeriod(arg, k).value, k, dim2, randomsGiven, name).Ok?
    ensures var p := ResolvePeriod(arg, k).value;
      WithinHalfPeriod(bins, p.period)
      && k == dim2 && k > 0 && |bins| > 0
      && Parse(name).Some?
      && (p.pbcs ==> AllBounded(p.period))
      && (!randomsGiven ==> p.pbcs && AllBounded(p.period))
  {
  }

  /** Every failure of tpcf's checks is one of the listed refusals, and each
      refusal is raised exactly when its condition is the first to fail. */
  lemma TpcfCheckErrors(bins: seq<real>, p: Resolved, dim1: nat, dim2: nat, randomsGiven: bool, name: string)
    ensures var r := CheckTpcf(bins, p, dim1, dim2, randomsGiven, name);
      (r == Err(EmptyArray) <==> |bins| == 0 || |p.period| == 0)
      && (r == Err(SeparationTooLarge) <==>
            |bins| > 0 && |p.period| > 0 && !WithinHalfPeriod(bins, p.period))
      && (r == Err(UnknownEstimator) ==> Parse(name).None?)
      && (r == Err(MixedPeriod) ==> p.pbcs && !AllBounded(p.period))
  {
  }

  /** The redshift-space checks pass only for three or more dimensions, with
      every rp edge within half of the first two period entries and every pi
      edge within half of the third. */
  lemma RedshiftChecksSound(rpBins: seq<real>, piBins: seq<real>, p: Resolved, dim1: nat, dim2: nat,
                            randomsGiven: bool, name: string)
    requires CheckRedshift(rpBins, piBins, p, dim1, dim2, randomsGiven, name).Ok?
    ensures |p.period| >= 3 && dim1 == dim2
    ensures WithinHalfPeriod(rpBins, p.period[..2]) && WithinHalfPeriod(piBins, [p.period[2]])
  {
    var m := MaxEdge(piBins);
    assert forall j :: 0 <= j < |piBins| ==> piBins[j] <= m;
  }
}
