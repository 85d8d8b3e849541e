/** Jackknife subvolumes of tpcf_jackknife (clustering.py:458-490, 628-634):
    the box is cut into Nsub[0] x Nsub[1] x Nsub[2] cells, each point is
    labelled with its cell, and the labels are tallied. */
module Subvolumes {

  /** The cell index of coordinate `x` along an axis of length `l` cut into
      `n` slices: `floor(x/dL)` with `dL = l/n`. */
  function CellIndex(x: real, l: real, n: int): int
    requires n >= 1 && l > 0.0
  {
    (x / (l / n as real)).Floor
  }

  lemma CellIndexInRange(x: real, l: real, n: int)
    requires n >= 1 && 0.0 <= x < l
    ensures 0 <= CellIndex(x, l, n) < n
  {
    var dl := l / n as real;
    assert l == n as real * dl;
    QuotientBelow(x, n as real, dl);
  }

  lemma QuotientBelow(x: real, n: real, dl: real)
    requires dl > 0.0 && 0.0 <= x < n * dl
    ensures 0.0 <= x / dl < n
  {
  }

  /** The 1-based C-order position of cell (i0, i1, i2) in an
      n0 x n1 x n2 grid: `np.arange(1, N+1).reshape(n0, n1, n2)[i0, i1, i2]`. */
  function Raster(i0: int, i1: int, i2: int, n1: int, n2: int): int
  {
    1 + i0 * (n1 * n2) + i1 * n2 + i2
  }

  /** The cell of a raster label, the inverse of Raster. */
  function Unraster(tag: int, n1: int, n2: int): (int, int, int)
    requires n1 >= 1 && n2 >= 1
  {
    ((tag - 1) / (n1 * n2), ((tag - 1) / n2) % n1, (tag - 1) % n2)
  }

  /** Quotient and remainder are unique. */
  lemma Unique(q: int, r: int, q': int, r': int, d: int)
    requires d >= 1 && 0 <= r < d && 0 <= r' < d
    requires q * d + r == q' * d + r'
    ensures q == q' && r == r'
  {
    var k := q' - q;
    assert k * d == r - r' by {
      assert k * d == q' * d - q * d;
    }
  }

  lemma DivModUnique(q: int, r: int, d: int)
    requires d >= 1 && 0 <= r < d
    ensures (q * d + r) / d == q && (q * d + r) % d == r
  {
    var x := q * d + r;
    Unique(q, r, x / d, x % d, d);
  }

  lemma Multiply(a: int, b: int, c: int)
    ensures a * (b * c) == (a * b) * c
  {
  }

  lemma RasterForms(i0: int, i1: int, i2: int, n1: int, n2: int)
    requires 0 <= i1 < n1 && 0 <= i2 < n2
    ensures Raster(i0, i1, i2, n1, n2) - 1 == i0 * (n1 * n2) + (i1 * n2 + i2)
    ensures Raster(i0, i1, i2, n1, n2) - 1 == (i0 * n1 + i1) * n2 + i2
    ensures 0 <= i1 * n2 + i2 < n1 * n2
  {
    Multiply(i0, n1, n2);
    assert (i0 * n1 + i1) * n2 == (i0 * n1) * n2 + i1 * n2;
    assert i1 * n2 <= (n1 - 1) * n2;
  }

  /** Unraster undoes Raster on every cell of the grid. */
  lemma RasterRoundTrip(i0: int, i1: int, i2: int, n0: int, n1: int, n2: int)
    requires n1 >= 1 && n2 >= 1
    requires 0 <= i0 < n0 && 0 <= i1 < n1 && 0 <= i2 < n2
    ensures Unraster(Raster(i0, i1, i2, n1, n2), n1, n2) == (i0, i1, i2)
  {
    var m := Raster(i0, i1, i2, n1, n2) - 1;
    RasterForms(i0, i1, i2, n1, n2);
    DivModUnique(i0, i1 * n2 + i2, n1 * n2);
    assert m / (n1 * n2) == i0;
    DivModUnique(i0 * n1 + i1, i2, n2);
    assert m / n2 == i0 * n1 + i1 && m % n2 == i2;
    DivModUnique(i0, i1, n1);
    assert (m / n2) % n1 == i1;
  }

  /** Raster labels of the grid run from 1 to n0*n1*n2. */
  lemma RasterInRange(i0: int, i1: int, i2: int, n0: int, n1: int, n2: int)
    requires n1 >= 1 && n2 >= 1
    requires 0 <= i0 < n0 && 0 <= i1 < n1 && 0 <= i2 < n2
    ensures 1 <= Raster(i0, i1, i2, n1, n2) <= n0 * n1 * n2
  {
    RasterForms(i0, i1, i2, n1, n2);
    var m := n1 * n2;
    var rest := i1 * n2 + i2;
    assert i0 * m <= (n0 - 1) * m by { MulMonotone(i0, n0 - 1, m); }
    assert (n0 - 1) * m + m == n0 * m;
    Multiply(n0, n1, n2);
  }

  lemma MulMonotone(x: int, y: int, m: int)
    requires x <= y && m >= 0
    ensures x * m <= y * m
  {
  }

  /** Distinct cells carry distinct labels. */
  lemma RasterInjective(c: (int, int, int), d: (int, int, int), n0: int, n1: int, n2: int)
    requires n1 >= 1 && n2 >= 1
    requires 0 <= c.0 < n0 && 0 <= c.1 < n1 && 0 <= c.2 < n2
    requires 0 <= d.0 < n0 && 0 <= d.1 < n1 && 0 <= d.2 < n2
    requires Raster(c.0, c.1, c.2, n1, n2) == Raster(d.0, d.1, d.2, n1, n2)
    ensures c == d
  {
    RasterRoundTrip(c.0, c.1, c.2, n0, n1, n2);
    RasterRoundTrip(d.0, d.1, d.2, n0, n1, n2);
  }

  /** A point lies in the box [0, lbox[d]) along each of the three axes. */
  predicate InBox(p: seq<real>, lbox: seq<real>)
  {
    |lbox| == 3 && |p| >= 3 && forall d :: 0 <= d < 3 ==> 0.0 <= p[d] < lbox[d]
  }

  predicate ValidGrid(nsub: seq<int>)
  {
    |nsub| == 3 && nsub[0] >= 1 && nsub[1] >= 1 && nsub[2] >= 1
  }

  /** `N_sub_vol = np.prod(Nsub)`. */
  function CellCount(nsub: seq<int>): (n: nat)
    requires ValidGrid(nsub)
    ensures n >= 1
  {
    Multiply(nsub[0], nsub[1], nsub[2]);
    nsub[0] * nsub[1] * nsub[2]
  }

  /** The label of one point (clustering.py:467-474). */
  function Label(p: seq<real>, lbox: seq<real>, nsub: seq<int>): (tag: int)
    requires ValidGrid(nsub) && InBox(p, lbox)
    ensures 1 <= tag <= CellCount(nsub)
  {
    var i0, i1, i2 := CellIndex(p[0], lbox[0], nsub[0]), CellIndex(p[1], lbox[1], nsub[1]), CellIndex(p[2], lbox[2], nsub[2]);
    CellIndexInRange(p[0], lbox[0], nsub[0]);
    CellIndexInRange(p[1], lbox[1], nsub[1]);
    CellIndexInRange(p[2], lbox[2], nsub[2]);
    RasterInRange(i0, i1, i2, nsub[0], nsub[1], nsub[2]);
    Raster(i0, i1, i2, nsub[1], nsub[2])
  }

  /** Two points get the same label exactly when they fall in the same
      cell along every axis. */
  lemma SameLabelSameCell(p: seq<real>, q: seq<real>, lbox: seq<real>, nsub: seq<int>)
    requires ValidGrid(nsub) && InBox(p, lbox) && InBox(q, lbox)
    ensures Label(p, lbox, nsub) == Label(q, lbox, nsub) <==>
      forall d :: 0 <= d < 3 ==> CellIndex(p[d], lbox[d], nsub[d]) == CellIndex(q[d], lbox[d], nsub[d])
  {
    var c := (CellIndex(p[0], lbox[0], nsub[0]), CellIndex(p[1], lbox[1], nsub[1]), CellIndex(p[2], lbox[2], nsub[2]));
    var e := (CellIndex(q[0], lbox[0], nsub[0]), CellIndex(q[1], lbox[1], nsub[1]), CellIndex(q[2], lbox[2], nsub[2]));
    CellIndexInRange(p[0], lbox[0], nsub[0]);
    CellIndexInRange(p[1], lbox[1], nsub[1]);
    CellIndexInRange(p[2], lbox[2], nsub[2]);
    CellIndexInRange(q[0], lbox[0], nsub[0]);
    CellIndexInRange(q[1], lbox[1], nsub[1]);
    CellIndexInRange(q[2], lbox[2], nsub[2]);
    assert Label(p, lbox, nsub) == Raster(c.0, c.1, c.2, nsub[1], nsub[2]);
    assert Label(q, lbox, nsub) == Raster(e.0, e.1, e.2, nsub[1], nsub[2]);
    if Label(p, lbox, nsub) == Label(q, lbox, nsub) {
      RasterInjective(c, e, nsub[0], nsub[1], nsub[2]);
    }
  }

  /** The labels of a whole sample. */
  function Labels(points: seq<seq<real>>, lbox: seq<real>, nsub: seq<int>): (labels: seq<int>)
    requires ValidGrid(nsub) && forall i :: 0 <= i < |points| ==> InBox(points[i], lbox)
    ensures |labels| == |points|
    ensures forall i :: 0 <= i < |points| ==> labels[i] == Label(points[i], lbox, nsub)
    ensures forall i :: 0 <= i < |points| ==> 1 <= labels[i] <= CellCount(nsub)
  {
    seq(|points|, i requires 0 <= i < |points| => Label(points[i], lbox, nsub))
  }

  /** How many entries of `s` equal `x`. */
  function Count(s: seq<int>, x: int): (c: nat)
    ensures c <= |s|
  {
    if |s| == 0 then 0 else Count(s[..|s| - 1], x) + (if s[|s| - 1] == x then 1 else 0)
  }

  /** `get_subvolume_numbers` (clustering.py:486-490): the number of labels
      equal to each of 1..n, empty subvolumes included as zeros. */
  function Tally(labels: seq<int>, n: nat): (t: seq<nat>)
    ensures |t| == n
    ensures forall r :: 0 <= r < n ==> t[r] == Count(labels, r + 1)
  {
    seq(n, r requires 0 <= r < n => Count(labels, r + 1))
  }

  function NatSum(s: seq<nat>): nat
  {
    if |s| == 0 then 0 else NatSum(s[..|s| - 1]) + s[|s| - 1]
  }

  /** Adding one at position r adds one to the sum. */
  lemma {:induction false} NatSumBump(s: seq<nat>, t: seq<nat>, r: nat)
    requires |s| == |t| && r < |s|
    requires t[r] == s[r] + 1 && forall i :: 0 <= i < |s| && i != r ==> t[i] == s[i]
    ensures NatSum(t) == NatSum(s) + 1
  {
    var n := |s| - 1;
    if r < n {
      NatSumBump(s[..n], t[..n], r);
    } else {
      assert s[..n] == t[..n];
    }
  }

  /** With every label in 1..n, the tally accounts for every point. */
  lemma {:induction false} TallySum(labels: seq<int>, n: nat)
    requires forall i :: 0 <= i < |labels| ==> 1 <= labels[i] <= n
    ensures NatSum(Tally(labels, n)) == |labels|
  {
    if |labels| == 0 {
      ZeroSum(n);
    } else {
      var m := |labels| - 1;
      var init := labels[..m];
      TallySum(init, n);
      NatSumBump(Tally(init, n), Tally(labels, n), labels[m] - 1);
    }
  }

  lemma {:induction false} ZeroSum(n: nat)
    ensures NatSum(Tally([], n)) == 0
  {
    if n > 0 {
      assert Tally([], n)[..n - 1] == Tally([], n - 1);
      ZeroSum(n - 1);
    }
  }

  /** Delete-one sizes (clustering.py:632-634): the points left when
      subvolume r+1 is removed. */
  function DeleteOneSizes(labels: seq<int>, n: nat): (sizes: seq<nat>)
    ensures |sizes| == n
    ensures forall r :: 0 <= r < n ==> sizes[r] + Count(labels, r + 1) == |labels|
  {
    var t := Tally(labels, n);
    seq(n, r requires 0 <= r < n => |labels| - t[r])
  }

  lemma {:induction false} NatSumSplit(s: seq<nat>, c: nat)
    requires forall i :: 0 <= i < |s| ==> s[i] <= c
    ensures NatSum(seq(|s|, i requires 0 <= i < |s| => c - s[i])) + NatSum(s) == |s| * c
  {
    if |s| > 0 {
      var n := |s| - 1;
      assert seq(|s|, i requires 0 <= i < |s| => c - s[i])[..n] == seq(n, i requires 0 <= i < n => c - s[..n][i]);
      NatSumSplit(s[..n], c);
    }
  }

  /** Every point sits in exactly one subvolume, so it is left out of one
      delete-one sample and kept in the other n-1: the sizes add up to
      (n-1)*N. */
  lemma DeleteOneTotal(labels: seq<int>, n: nat)
    requires forall i :: 0 <= i < |labels| ==> 1 <= labels[i] <= n
    ensures NatSum(DeleteOneSizes(labels, n)) == (n - 1) * |labels|
  {
    var t := Tally(labels, n);
    assert DeleteOneSizes(labels, n) == seq(|t|, i requires 0 <= i < |t| => |labels| - t[i]);
    NatSumSplit(t, |labels|);
    TallySum(labels, n);
  }
}
