/** Bin differences and the volumes behind the analytic randoms: n-ball
    shells (nball_volume, clustering.py:148-152 and 189-190), cylinder
    annuli (cylinder_volume, 850-854 and 891-892), and the expected pair
    counts built from them (192-209, 893-911). */
module Volumes {
  import opened Values

  /** `np.diff` of a vector. */
  function Diff(s: seq<real>): (d: seq<real>)
    ensures |d| == if |s| == 0 then 0 else |s| - 1
    ensures forall i :: 0 <= i < |d| ==> d[i] == s[i + 1] - s[i]
  {
    if |s| <= 1 then [] else seq(|s| - 1, i requires 0 <= i < |s| - 1 => s[i + 1] - s[i])
  }

  /** Sum of a vector of reals, accumulated left to right. */
  function RealSum(s: seq<real>): real
  {
    if |s| == 0 then 0.0 else RealSum(s[..|s| - 1]) + s[|s| - 1]
  }

  /** The differences of a vector add up to its last entry minus its first. */
  lemma {:induction false} DiffTelescopes(s: seq<real>)
    requires |s| > 0
    ensures RealSum(Diff(s)) == s[|s| - 1] - s[0]
  {
    if |s| > 1 {
      var t := s[..|s| - 1];
      DiffTelescopes(t);
      var d := Diff(s);
      assert d[..|d| - 1] == Diff(t);
      assert RealSum(d) == RealSum(Diff(t)) + (s[|s| - 1] - s[|s| - 2]);
    }
  }

  /** `x**k` for a whole exponent. */
  function Pow(x: real, k: nat): real
  {
    if k == 0 then 1.0 else x * Pow(x, k - 1)
  }

  lemma {:induction false} PowNonnegative(x: real, k: nat)
    requires x >= 0.0
    ensures Pow(x, k) >= 0.0
  {
    if k > 0 {
      PowNonnegative(x, k - 1);
    }
  }

  lemma MulLeft(x: real, y: real, z: real)
    requires x <= y && z >= 0.0
    ensures x * z <= y * z
  {
  }

  lemma MulRight(x: real, y: real, z: real)
    requires x < y && z > 0.0
    ensures z * x < z * y
  {
  }

  lemma Positive(x: real, y: real)
    requires x > 0.0 && y > 0.0
    ensures x * y > 0.0
  {
  }

  /** `R**k` grows strictly with R on the non-negative reals. */
  lemma {:induction false} PowIncreasing(a: real, b: real, k: nat)
    requires 0.0 <= a < b && k >= 1
    ensures Pow(a, k) < Pow(b, k)
  {
    if k == 1 {
      assert Pow(a, 0) == 1.0 && Pow(b, 0) == 1.0;
    } else {
      var pa, pb := Pow(a, k - 1), Pow(b, k - 1);
      PowIncreasing(a, b, k - 1);
      PowNonnegative(a, k - 1);
      MulLeft(a, b, pa);
      MulRight(pa, pb, b);
      assert Pow(a, k) == a * pa && Pow(b, k) == b * pb;
      assert b * pa == pa * b;
    }
  }

  lemma PowTwo(x: real)
    ensures Pow(x, 2) == x * x
  {
    assert Pow(x, 1) == x * Pow(x, 0);
  }

  /** `nball_volume(R, k)`: the volume of a k-ball of radius R, with
      `unitBall` standing for pi**(k/2)/gamma(k/2+1). */
  function BallVolume(unitBall: real, r: real, k: nat): real
  {
    unitBall * Pow(r, k)
  }

  /** `np.diff(nball_volume(rbins, k))`: the volume of each spherical shell. */
  function ShellVolumes(unitBall: real, bins: seq<real>, k: nat): (dv: seq<real>)
    ensures |dv| == if |bins| == 0 then 0 else |bins| - 1
    ensures forall i :: 0 <= i < |dv| ==>
      dv[i] == BallVolume(unitBall, bins[i + 1], k) - BallVolume(unitBall, bins[i], k)
  {
    Diff(seq(|bins|, i requires 0 <= i < |bins| => BallVolume(unitBall, bins[i], k)))
  }

  /** Edges that start at zero or above and strictly increase. */
  predicate IncreasingEdges(bins: seq<real>)
  {
    (|bins| > 0 ==> bins[0] >= 0.0)
    && forall i :: 0 <= i < |bins| - 1 ==> bins[i] < bins[i + 1]
  }

  /** Over increasing non-negative edges every shell has positive volume. */
  lemma ShellsPositive(unitBall: real, bins: seq<real>, k: nat)
    requires unitBall > 0.0 && k >= 1 && IncreasingEdges(bins)
    ensures forall i :: 0 <= i < |ShellVolumes(unitBall, bins, k)| ==> ShellVolumes(unitBall, bins, k)[i] > 0.0
  {
    var dv := ShellVolumes(unitBall, bins, k);
    forall i | 0 <= i < |dv|
      ensures dv[i] > 0.0
    {
      EdgesNonnegative(bins, i);
      PowIncreasing(bins[i], bins[i + 1], k);
    }
  }

  lemma {:induction false} EdgesNonnegative(bins: seq<real>, i: nat)
    requires IncreasingEdges(bins) && i < |bins|
    ensures bins[i] >= 0.0
  {
    if i > 0 {
      EdgesNonnegative(bins, i - 1);
    }
  }

  /** The shells tile the ball of the outermost edge minus that of the
      innermost. */
  lemma ShellsTile(unitBall: real, bins: seq<real>, k: nat)
    requires |bins| > 0
    ensures RealSum(ShellVolumes(unitBall, bins, k))
      == BallVolume(unitBall, bins[|bins| - 1], k) - BallVolume(unitBall, bins[0], k)
  {
    DiffTelescopes(seq(|bins|, i requires 0 <= i < |bins| => BallVolume(unitBall, bins[i], k)));
  }

  /** A matrix with `rows` rows of `cols` entries each. */
  predicate IsMatrix<T>(m: seq<seq<T>>, rows: nat, cols: nat)
  {
    |m| == rows && forall i :: 0 <= i < rows ==> |m[i]| == cols
  }

  /** `np.diff(np.diff(m, axis=0), axis=1)` */
  function Diff2(m: seq<seq<real>>, rows: nat, cols: nat): (d: seq<seq<real>>)
    requires IsMatrix(m, rows, cols)
    ensures IsMatrix(d, if rows == 0 then 0 else rows - 1, if cols == 0 then 0 else cols - 1)
    ensures forall i, j {:trigger d[i][j]} :: 0 <= i < |d| && 0 <= j < |d[i]| ==>
      d[i][j] == (m[i + 1][j + 1] - m[i][j + 1]) - (m[i + 1][j] - m[i][j])
  {
    var down := seq(if rows == 0 then 0 else rows - 1,
                    i requires 0 <= i < rows - 1 => seq(cols, j requires 0 <= j < cols => m[i + 1][j] - m[i][j]));
    seq(|down|, i requires 0 <= i < |down| => Diff(down[i]))
  }

  /** `pi*np.outer(R**2.0, h)`: cylinders of every radius and every height. */
  function CylinderVolumes(pi: real, rp: seq<real>, h: seq<real>): (m: seq<seq<real>>)
    ensures IsMatrix(m, |rp|, |h|)
    ensures forall i, j :: 0 <= i < |rp| && 0 <= j < |h| ==> m[i][j] == pi * (rp[i] * rp[i] * h[j])
  {
    seq(|rp|, i requires 0 <= i < |rp| => seq(|h|, j requires 0 <= j < |h| => pi * (rp[i] * rp[i] * h[j])))
  }

  /** The annulus volumes of the rp-pi grid. */
  function AnnulusVolumes(pi: real, rp: seq<real>, h: seq<real>): (dv: seq<seq<real>>)
    ensures IsMatrix(dv, if |rp| == 0 then 0 else |rp| - 1, if |h| == 0 then 0 else |h| - 1)
  {
    Diff2(CylinderVolumes(pi, rp, h), |rp|, |h|)
  }

  lemma Factorise(pi: real, a: real, b: real, c: real, d: real)
    ensures (pi * (a * c) - pi * (b * c)) - (pi * (a * d) - pi * (b * d)) == pi * (a - b) * (c - d)
  {
    calc {
      (pi * (a * c) - pi * (b * c)) - (pi * (a * d) - pi * (b * d));
      == pi * ((a * c - b * c) - (a * d - b * d));
      == { assert (a * c - b * c) - (a * d - b * d) == (a - b) * (c - d); }
      pi * ((a - b) * (c - d));
    }
  }

  /** The double difference of pi*R^2*h is the annulus area times the slab
      height: pi*(rp[i+1]^2 - rp[i]^2)*(h[j+1] - h[j]). */
  lemma AnnulusClosedForm(pi: real, rp: seq<real>, h: seq<real>, i: nat, j: nat)
    requires i + 1 < |rp| && j + 1 < |h|
    ensures AnnulusVolumes(pi, rp, h)[i][j]
      == pi * (rp[i + 1] * rp[i + 1] - rp[i] * rp[i]) * (h[j + 1] - h[j])
  {
    var m := CylinderVolumes(pi, rp, h);
    Factorise(pi, rp[i + 1] * rp[i + 1], rp[i] * rp[i], h[j + 1], h[j]);
  }

  /** Over increasing non-negative rp edges and increasing pi edges, every
      annulus has positive volume. */
  lemma AnnuliPositive(pi: real, rp: seq<real>, h: seq<real>, i: nat, j: nat)
    requires pi > 0.0 && IncreasingEdges(rp) && (forall t :: 0 <= t < |h| - 1 ==> h[t] < h[t + 1])
    requires i + 1 < |rp| && j + 1 < |h|
    ensures AnnulusVolumes(pi, rp, h)[i][j] > 0.0
  {
    AnnulusClosedForm(pi, rp, h, i, j);
    EdgesNonnegative(rp, i);
    PowIncreasing(rp[i], rp[i + 1], 2);
    PowTwo(rp[i]);
    PowTwo(rp[i + 1]);
    var a := rp[i + 1] * rp[i + 1] - rp[i] * rp[i];
    var c := h[j + 1] - h[j];
    Positive(pi, a);
    Positive(pi * a, c);
  }

  /** `N*(dv*(N/volume))`: the expected data-random counts of a sample of
      `n` points spread uniformly over the box (clustering.py:196-198). */
  function Expected(n: real, dv: seq<real>, volume: real): (r: seq<Value>)
    ensures |r| == |dv|
  {
    seq(|dv|, i requires 0 <= i < |dv| => Mul(Finite(n), Mul(Finite(dv[i]), Div(Finite(n), Finite(volume)))))
  }

  /** `dv*(N1*N2/volume)`: the expected random-random counts of the cross
      correlation (clustering.py:206-209). */
  function ExpectedCross(n1: real, n2: real, dv: seq<real>, volume: real): (r: seq<Value>)
    ensures |r| == |dv|
  {
    seq(|dv|, i requires 0 <= i < |dv| => Mul(Finite(dv[i]), Div(Finite(n1 * n2), Finite(volume))))
  }

  /** In a box of positive volume the expected counts are finite:
      N*dv*N/volume for data-random pairs and dv*N1*N2/volume for
      random-random pairs, and the cross form with N1 = N2 = N is the
      data-random form. */
  lemma ExpectedClosedForm(n1: real, n2: real, dv: seq<real>, volume: real, i: nat)
    requires volume > 0.0 && i < |dv|
    ensures Expected(n1, dv, volume)[i] == Finite(n1 * (dv[i] * (n1 / volume)))
    ensures ExpectedCross(n1, n2, dv, volume)[i] == Finite(dv[i] * (n1 * n2 / volume))
    ensures ExpectedCross(n1, n1, dv, volume)[i] == Expected(n1, dv, volume)[i]
  {
    assert n1 * (dv[i] * (n1 / volume)) == dv[i] * (n1 * n1 / volume);
  }

  /** The expected counts of a matrix of annuli, row by row. */
  function ExpectedRows(n: real, dv: seq<seq<real>>, volume: real): (r: seq<seq<Value>>)
    ensures |r| == |dv| && forall i :: 0 <= i < |dv| ==> r[i] == Expected(n, dv[i], volume)
  {
    seq(|dv|, i requires 0 <= i < |dv| => Expected(n, dv[i], volume))
  }

  function ExpectedCrossRows(n1: real, n2: real, dv: seq<seq<real>>, volume: real): (r: seq<seq<Value>>)
    ensures |r| == |dv| && forall i :: 0 <= i < |dv| ==> r[i] == ExpectedCross(n1, n2, dv[i], volume)
  {
    seq(|dv|, i requires 0 <= i < |dv| => ExpectedCross(n1, n2, dv[i], volume))
  }
}
