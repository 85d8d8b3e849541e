/** The entry point `wp` (clustering.py:1027-1121): the projected
    correlation function, the redshift-space correlation function summed
    along the line of sight with the pi bin widths as weights. */
module Projected {
  import opened Common
  import opened Values
  import opened Volumes
  import opened Samples
  import opened Counts
  import opened Dispatch
  import opened Redshift

  /** `x*np.diff(pi_bins)` for one rp row. */
  function Weighted(row: seq<Value>, widths: seq<real>): (p: seq<Value>)
    requires |row| == |widths|
    ensures |p| == |row|
    ensures forall j :: 0 <= j < |p| ==> p[j] == Mul(row[j], Finite(widths[j]))
  {
    seq(|row|, j requires 0 <= j < |row| => Mul(row[j], Finite(widths[j])))
  }

  /** One entry of wp: the row of xi summed with the bin widths as weights. */
  function IntegrateRow(row: seq<Value>, widths: seq<real>): Value
    requires |row| == |widths|
  {
    Sum(Weighted(row, widths))
  }

  /** `integrate_2D_xi` (clustering.py:1107-1108): one value per rp bin. */
  function IntegrateXi(xi: seq<seq<Value>>, piBins: seq<real>): (wp: seq<Value>)
    requires IsMatrix(xi, |xi|, NBins(piBins))
    ensures |wp| == |xi|
    ensures forall i :: 0 <= i < |xi| ==> wp[i] == IntegrateRow(xi[i], Diff(piBins))
  {
    seq(|xi|, i requires 0 <= i < |xi| => IntegrateRow(xi[i], Diff(piBins)))
  }

  lemma WeightedPrefix(row: seq<Value>, widths: seq<real>)
    requires |row| == |widths| && |row| > 0
    ensures Weighted(row, widths)[..|row| - 1] == Weighted(row[..|row| - 1], widths[..|row| - 1])
  {
  }

  lemma Rearrange(x: Value, y: Value, u: Value, v: Value, w: real)
    ensures Add(Add(x, y), Mul(Add(u, v), Finite(w))) == Add(Add(x, Mul(u, Finite(w))), Add(y, Mul(v, Finite(w))))
  {
    if x.Finite? && y.Finite? && u.Finite? && v.Finite? {
      assert (u.v + v.v) * w == u.v * w + v.v * w;
    }
  }

  /** The integral is additive in xi, bin by bin. */
  lemma {:induction false} IntegrateAdd(a: seq<Value>, b: seq<Value>, widths: seq<real>)
    requires |a| == |widths| && |b| == |widths|
    ensures IntegrateRow(seq(|a|, j requires 0 <= j < |a| => Add(a[j], b[j])), widths)
         == Add(IntegrateRow(a, widths), IntegrateRow(b, widths))
  {
    var s := seq(|a|, j requires 0 <= j < |a| => Add(a[j], b[j]));
    if |a| > 0 {
      var n := |a| - 1;
      WeightedPrefix(s, widths);
      WeightedPrefix(a, widths);
      WeightedPrefix(b, widths);
      assert s[..n] == seq(n, j requires 0 <= j < n => Add(a[..n][j], b[..n][j]));
      IntegrateAdd(a[..n], b[..n], widths[..n]);
      var x, y := IntegrateRow(a[..n], widths[..n]), IntegrateRow(b[..n], widths[..n]);
      assert IntegrateRow(s, widths) == Add(Add(x, y), Mul(Add(a[n], b[n]), Finite(widths[n])));
      assert IntegrateRow(a, widths) == Add(x, Mul(a[n], Finite(widths[n])));
      assert IntegrateRow(b, widths) == Add(y, Mul(b[n], Finite(widths[n])));
      Rearrange(x, y, a[n], b[n], widths[n]);
    }
  }

  /** The integral scales with xi. */
  lemma {:induction false} IntegrateScale(c: real, a: seq<Value>, widths: seq<real>)
    requires |a| == |widths|
    ensures IntegrateRow(seq(|a|, j requires 0 <= j < |a| => Mul(Finite(c), a[j])), widths)
         == Mul(Finite(c), IntegrateRow(a, widths))
  {
    var s := seq(|a|, j requires 0 <= j < |a| => Mul(Finite(c), a[j]));
    if |a| > 0 {
      var n := |a| - 1;
      WeightedPrefix(s, widths);
      WeightedPrefix(a, widths);
      assert s[..n] == seq(n, j requires 0 <= j < n => Mul(Finite(c), a[..n][j]));
      IntegrateScale(c, a[..n], widths[..n]);
    }
  }

  /** A constant xi = c integrates to c times the summed widths. */
  lemma {:induction false} IntegrateConstant(c: real, widths: seq<real>)
    ensures IntegrateRow(seq(|widths|, _ => Finite(c)), widths) == Finite(c * RealSum(widths))
  {
    var s := seq(|widths|, _ => Finite(c));
    if |widths| > 0 {
      var n := |widths| - 1;
      WeightedPrefix(s, widths);
      assert s[..n] == seq(n, _ => Finite(c));
      IntegrateConstant(c, widths[..n]);
    }
  }

  lemma ConstantRow(c: real, piBins: seq<real>)
    requires |piBins| > 0
    ensures IntegrateRow(seq(NBins(piBins), _ => Finite(c)), Diff(piBins))
         == Finite(c * (piBins[|piBins| - 1] - piBins[0]))
  {
    var w := Diff(piBins);
    var row := seq(NBins(piBins), _ => Finite(c));
    assert |w| == NBins(piBins);
    assert row == seq(|w|, _ => Finite(c));
    IntegrateConstant(c, w);
    assert IntegrateRow(row, w) == Finite(c * RealSum(w));
    DiffTelescopes(piBins);
  }

  /** A constant xi = c over pi bins from pi_0 to pi_last gives
      wp = c*(pi_last - pi_0) in every rp bin. */
  lemma ConstantXi(c: real, rows: nat, piBins: seq<real>)
    requires |piBins| > 0
    ensures var xi := seq(rows, _ => seq(NBins(piBins), _ => Finite(c)));
      forall i :: 0 <= i < rows ==> IntegrateXi(xi, piBins)[i] == Finite(c * (piBins[|piBins| - 1] - piBins[0]))
  {
    var xi := seq(rows, _ => seq(NBins(piBins), _ => Finite(c)));
    forall i | 0 <= i < rows
      ensures IntegrateXi(xi, piBins)[i] == Finite(c * (piBins[|piBins| - 1] - piBins[0]))
    {
      ConstantRow(c, piBins);
    }
  }

  /** A single pi bin [0, pi_max] gives wp = xi*pi_max. */
  lemma SinglePiBin(xi: seq<seq<Value>>, piMax: real)
    requires IsMatrix(xi, |xi|, 1)
    ensures forall i :: 0 <= i < |xi| ==> IntegrateXi(xi, [0.0, piMax])[i] == Mul(xi[i][0], Finite(piMax))
  {
    forall i | 0 <= i < |xi|
      ensures IntegrateXi(xi, [0.0, piMax])[i] == Mul(xi[i][0], Finite(piMax))
    {
      assert Diff([0.0, piMax]) == [piMax];
      var p := Weighted(xi[i], [piMax]);
      assert p[..0] == [];
      assert IntegrateXi(xi, [0.0, piMax])[i] == Sum(p) == Add(Finite(0.0), p[0]);
    }
  }

  /** The cross-correlation is wanted only for a second sample that is given
      and differs from the first (clustering.py:1104-1105). */
  function CrossWanted(a: Args): bool
  {
    a.doCross && a.sample2.Some? && a.sample2.value != a.sample1
  }

  /** `wp` from arguments to result: the redshift-space result integrated
      array by array. A result of the wrong arity for the branch taken
      (None, or one grid where three are indexed) raises. */
  function WpSpec(a: Args, perm1: seq<nat>, perm2: seq<nat>, npairs: Counter2, pi: real)
    : (r: Result<XiOutput<seq<Value>>>)
    requires Counter2Shape(npairs)
    requires IsPermutation(perm1, |a.sample1.points|)
    requires IsPermutation(perm2, |DefaultSecond(a.sample1, a.sample2).points|)
    ensures r.Err? ==> r.error in {PeriodShape, EmptyArray, SeparationTooLarge, UnsupportedDimension, DimensionMismatch,
                                   RandomsRequired, UnknownEstimator, MixedPeriod, MissingCounts, ZeroDivision,
                                   MalformedResult}
    ensures r == Err(ZeroDivision) ==> a.randoms.Some?
    ensures r.Ok? ==> Each(r.value, (wp: seq<Value>) => |wp| == NBins(a.rpBins))
    ensures r.Ok? ==> !r.value.NoResult?
  {
    var result :- RedshiftSpec(a, perm1, perm2, npairs, pi);
    var cols := NBins(a.piBins);
    if a.doAuto && CrossWanted(a) then
      if result.Triple? then
        Ok(Triple(IntegrateXi(result.xi11, a.piBins), IntegrateXi(result.xi12, a.piBins),
                  IntegrateXi(result.xi22, a.piBins)))
      else Err(MalformedResult)
    else
      if result.Single? then Ok(Single(IntegrateXi(result.xi, a.piBins)))
      else Err(MalformedResult)
  }

  /** `wp`, rebinding `do_cross` before choosing the branch. */
  method Wp(a: Args, perm1: seq<nat>, perm2: seq<nat>, npairs: Counter2, pi: real)
    returns (r: Result<XiOutput<seq<Value>>>)
    requires Counter2Shape(npairs)
    requires IsPermutation(perm1, |a.sample1.points|)
    requires IsPermutation(perm2, |DefaultSecond(a.sample1, a.sample2).points|)
    ensures r == WpSpec(a, perm1, perm2, npairs, pi)
  {
    var result := RedshiftSpaceTpcf(a, perm1, perm2, npairs, pi);
    if result.Err? {
      return Err(result.error);
    }
    var doCross := a.doCross;
    if a.sample2.Some? && a.sample2.value == a.sample1 {
      doCross := false;
    }
    if a.sample2.None? {
      doCross := false;
    }
    var xi := result.value;
    if a.doAuto && doCross {
      if !xi.Triple? {
        return Err(MalformedResult);
      }
      r := Ok(Triple(IntegrateXi(xi.xi11, a.piBins), IntegrateXi(xi.xi12, a.piBins), IntegrateXi(xi.xi22, a.piBins)));
    } else {
      if !xi.Single? {
        return Err(MalformedResult);
      }
      r := Ok(Single(IntegrateXi(xi.xi, a.piBins)));
    }
  }

  /** Without a second sample, or with one equal to the first, wp returns
      the single projected auto-correlation. */
  lemma AutoWhenSame(a: Args, perm1: seq<nat>, perm2: seq<nat>, npairs: Counter2, pi: real)
    requires Counter2Shape(npairs)
    requires IsPermutation(perm1, |a.sample1.points|)
    requires IsPermutation(perm2, |DefaultSecond(a.sample1, a.sample2).points|)
    requires a.sample2.None? || a.sample2 == Some(a.sample1)
    ensures var r := WpSpec(a, perm1, perm2, npairs, pi);
      r.Ok? <==> RedshiftSpec(a, perm1, perm2, npairs, pi).Ok?
    ensures var r := WpSpec(a, perm1, perm2, npairs, pi);
      r.Ok? ==> r.value.Single?
  {
    var s := PrepareSamples(a.sample1, DefaultSecond(a.sample1, a.sample2), perm1, perm2, a.maxSampleSize);
    assert Same(s.0, s.1);
  }

  /** When no sample exceeds the cap, wp fails on the shape of the result
      only when redshift_space_tpcf returned nothing: two different samples
      with both flags off. */
  lemma MalformedOnlyWithoutFlags(a: Args, perm1: seq<nat>, perm2: seq<nat>, npairs: Counter2, pi: real)
    requires Counter2Shape(npairs)
    requires IsPermutation(perm1, |a.sample1.points|)
    requires IsPermutation(perm2, |DefaultSecond(a.sample1, a.sample2).points|)
    requires |a.sample1.points| <= a.maxSampleSize && |DefaultSecond(a.sample1, a.sample2).points| <= a.maxSampleSize
    ensures WpSpec(a, perm1, perm2, npairs, pi) == Err(MalformedResult) <==>
      RedshiftSpec(a, perm1, perm2, npairs, pi) == Ok(NoResult)
  {
    var s := PrepareSamples(a.sample1, DefaultSecond(a.sample1, a.sample2), perm1, perm2, a.maxSampleSize);
    CapShape(a.sample1, perm1, a.maxSampleSize);
    assert s.0 == a.sample1;
  }
}
