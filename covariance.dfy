/** `jackknife_errors` and `covariance_matrix` of tpcf_jackknife
    (clustering.py:590-616), over an N x Nr array of resampled estimates:
    row k is the estimate with subvolume k+1 left out. */
module Covariance {
  import opened Common
  import opened Values

  /** Every one of the `rows` rows has `cols` entries. */
  predicate Grid(m: seq<seq<Value>>, cols: nat)
  {
    forall k :: 0 <= k < |m| ==> |m[k]| == cols
  }

  /** Column i: bin i across the resamples. */
  function Column(m: seq<seq<Value>>, cols: nat, i: nat): (c: seq<Value>)
    requires Grid(m, cols) && i < cols
    ensures |c| == |m| && forall k :: 0 <= k < |m| ==> c[k] == m[k][i]
  {
    seq(|m|, k requires 0 <= k < |m| => m[k][i])
  }

  /** `np.mean(sub, axis=0)` for one bin. */
  function Mean(c: seq<Value>): Value
  {
    Div(Sum(c), Finite(|c| as real))
  }

  /** `sub - np.mean(sub, axis=0)`. */
  function Deviations(sub: seq<seq<Value>>, cols: nat): (d: seq<seq<Value>>)
    requires Grid(sub, cols)
    ensures |d| == |sub| && Grid(d, cols)
    ensures forall k, i :: 0 <= k < |sub| && 0 <= i < cols ==> d[k][i] == Sub(sub[k][i], Mean(Column(sub, cols, i)))
  {
    seq(|sub|, k requires 0 <= k < |sub| =>
      seq(cols, i requires 0 <= i < cols => Sub(sub[k][i], Mean(Column(sub, cols, i)))))
  }

  /** `(N_sub_vol-1)/N_sub_vol`. */
  function Shrink(n: nat): Value
    requires n >= 1
  {
    Div(Finite((n - 1) as real), Finite(n as real))
  }

  /** The squared jackknife error of every bin, `error**2` of
      `jackknife_errors`: (N-1)/N times the sum of squared deviations. */
  function ErrorSquared(sub: seq<seq<Value>>, cols: nat): (e: seq<Value>)
    requires |sub| >= 1 && Grid(sub, cols)
    ensures |e| == cols
  {
    var d := Deviations(sub, cols);
    seq(cols, i requires 0 <= i < cols =>
      Mul(Shrink(|sub|), Sum(seq(|d|, k requires 0 <= k < |d| => Square(d[k][i])))))
  }

  /** The summands of covariance entry (i, j). */
  function Products(d: seq<seq<Value>>, cols: nat, i: nat, j: nat): (p: seq<Value>)
    requires Grid(d, cols) && i < cols && j < cols
    ensures |p| == |d| && forall k :: 0 <= k < |d| ==> p[k] == Mul(d[k][i], d[k][j])
  {
    seq(|d|, k requires 0 <= k < |d| => Mul(d[k][i], d[k][j]))
  }

  /** Covariance entry (i, j): (N-1)/N times the sum over resamples of the
      product of the deviations in bins i and j. */
  function CovEntry(sub: seq<seq<Value>>, cols: nat, i: nat, j: nat): Value
    requires |sub| >= 1 && Grid(sub, cols) && i < cols && j < cols
  {
    Mul(Shrink(|sub|), Sum(Products(Deviations(sub, cols), cols, i, j)))
  }

  /** The whole covariance matrix as rows. */
  function CovMatrix(sub: seq<seq<Value>>, cols: nat): (c: seq<seq<Value>>)
    requires |sub| >= 1 && Grid(sub, cols)
    ensures |c| == cols && Grid(c, cols)
  {
    seq(cols, i requires 0 <= i < cols => seq(cols, j requires 0 <= j < cols => CovEntry(sub, cols, i, j)))
  }

  /** `covariance_matrix`: a zeroed Nr x Nr array filled entry by entry,
      each entry accumulated over the resamples in `tmp`. `full` is read
      only for its length. */
  method CovarianceMatrix(sub: seq<seq<Value>>, full: seq<Value>) returns (cov: array2<Value>)
    requires |sub| >= 1 && Grid(sub, |full|)
    ensures fresh(cov) && cov.Length0 == |full| && cov.Length1 == |full|
    ensures forall i, j :: 0 <= i < |full| && 0 <= j < |full| ==> cov[i, j] == CovEntry(sub, |full|, i, j)
  {
    var nr := |full|;
    cov := new Value[nr, nr]((_, _) => Finite(0.0));
    var after := Deviations(sub, nr);
    for i := 0 to nr
      invariant forall i', j :: 0 <= i' < i && 0 <= j < nr ==> cov[i', j] == CovEntry(sub, nr, i', j)
    {
      for j := 0 to nr
        invariant forall i', j' :: 0 <= i' < i && 0 <= j' < nr ==> cov[i', j'] == CovEntry(sub, nr, i', j')
        invariant forall j' :: 0 <= j' < j ==> cov[i, j'] == CovEntry(sub, nr, i, j')
      {
        var tmp := Accumulate(after, nr, i, j);
        cov[i, j] := Mul(Shrink(|sub|), tmp);
      }
    }
  }

  /** The innermost loop of `covariance_matrix`: the products of the
      deviations in bins i and j, added up resample by resample in `tmp`. */
  method Accumulate(after: seq<seq<Value>>, nr: nat, i: nat, j: nat) returns (tmp: Value)
    requires Grid(after, nr) && i < nr && j < nr
    ensures tmp == Sum(Products(after, nr, i, j))
  {
    tmp := Finite(0.0);
    ghost var terms := Products(after, nr, i, j);
    for k := 0 to |after|
      invariant tmp == Sum(terms[..k])
    {
      assert terms[..k + 1][..k] == terms[..k];
      tmp := Add(tmp, Mul(after[k][i], after[k][j]));
    }
    assert terms[..|after|] == terms;
  }

  /** `covariance_matrix(sub, full, N_sub_vol)` read literally on a matrix
      `sub` of any shape, `width` columns wide: Nr is the length of `full`,
      and entry (i, j) reads `after_subtraction[k, i]` and `[k, j]` for
      every k < N_sub_vol, so a row past the matrix or a column past its
      width raises IndexError as soon as there is an entry to fill. */
  function CovarianceIndexed(sub: seq<seq<Value>>, width: nat, n: nat, nr: nat): (r: Result<seq<seq<Value>>>)
    requires Grid(sub, width) && n >= 1
    ensures r.Err? <==> nr > 0 && (n > |sub| || nr > width)
    ensures r.Err? ==> r.error == IndexOutOfRange
    ensures r.Ok? ==> |r.value| == nr && Grid(r.value, nr)
  {
    if nr > 0 && (n > |sub| || nr > width) then Err(IndexOutOfRange)
    else
      var d := Deviations(sub, width);
      Ok(seq(nr, i requires 0 <= i < nr =>
        seq(nr, j requires 0 <= j < nr => Mul(Shrink(n), Sum(Products(d[..n], width, i, j))))))
  }

  /** On the layout the function expects, one row per resample and one
      column per bin, the literal reading is the covariance matrix. */
  lemma CovarianceIndexedAgrees(sub: seq<seq<Value>>, cols: nat)
    requires |sub| >= 1 && Grid(sub, cols)
    ensures CovarianceIndexed(sub, cols, |sub|, cols) == Ok(CovMatrix(sub, cols))
  {
    var d := Deviations(sub, cols);
    assert d[..|sub|] == d;
    var r := CovarianceIndexed(sub, cols, |sub|, cols);
    forall i | 0 <= i < cols
      ensures r.value[i] == CovMatrix(sub, cols)[i]
    {
      forall j | 0 <= j < cols
        ensures r.value[i][j] == CovMatrix(sub, cols)[i][j]
      {
        assert r.value[i][j] == Mul(Shrink(|sub|), Sum(Products(d, cols, i, j)));
      }
    }
    assert r.value == CovMatrix(sub, cols);
  }

  /** The rows of a filled matrix. */
  function Rows(m: array2<Value>): (r: seq<seq<Value>>)
    reads m
    ensures |r| == m.Length0 && Grid(r, m.Length1)
  {
    seq(m.Length0, i requires 0 <= i < m.Length0 reads m =>
      seq(m.Length1, j requires 0 <= j < m.Length1 reads m => m[i, j]))
  }

  /** The covariance matrix is symmetric. */
  lemma CovSymmetric(sub: seq<seq<Value>>, cols: nat, i: nat, j: nat)
    requires |sub| >= 1 && Grid(sub, cols) && i < cols && j < cols
    ensures CovEntry(sub, cols, i, j) == CovEntry(sub, cols, j, i)
  {
    var d := Deviations(sub, cols);
    assert Products(d, cols, i, j) == Products(d, cols, j, i);
  }

  /** Its diagonal holds the squared jackknife errors. */
  lemma CovDiagonal(sub: seq<seq<Value>>, cols: nat, i: nat)
    requires |sub| >= 1 && Grid(sub, cols) && i < cols
    ensures CovEntry(sub, cols, i, i) == ErrorSquared(sub, cols)[i]
  {
    var d := Deviations(sub, cols);
    assert Products(d, cols, i, i) == seq(|d|, k requires 0 <= k < |d| => Square(d[k][i]));
  }

  /** Finite and at least zero, or not finite at all. */
  predicate NonNegative(v: Value)
  {
    v.Finite? ==> v.v >= 0.0
  }

  /** A sum of non-negative terms is non-negative. */
  lemma {:induction false} SumNonnegative(s: seq<Value>)
    requires forall k :: 0 <= k < |s| ==> NonNegative(s[k])
    ensures NonNegative(Sum(s))
  {
    if |s| > 0 {
      SumNonnegative(s[..|s| - 1]);
    }
  }

  /** Squared jackknife errors are non-negative wherever they are finite. */
  lemma ErrorSquaredNonnegative(sub: seq<seq<Value>>, cols: nat, i: nat)
    requires |sub| >= 1 && Grid(sub, cols) && i < cols
    ensures NonNegative(ErrorSquared(sub, cols)[i])
  {
    var d := Deviations(sub, cols);
    var s := seq(|d|, k requires 0 <= k < |d| => Square(d[k][i]));
    SumNonnegative(s);
    assert Shrink(|sub|).Finite? && Shrink(|sub|).v >= 0.0;
  }

  /** Resamples that all agree in a bin give that bin zero error. */
  lemma {:induction false} ConstantColumnSum(c: seq<Value>, x: real)
    requires forall k :: 0 <= k < |c| ==> c[k] == Finite(x)
    ensures Sum(c) == Finite(|c| as real * x)
  {
    if |c| > 0 {
      ConstantColumnSum(c[..|c| - 1], x);
    }
  }

  lemma {:induction false} ZeroSum(s: seq<Value>)
    requires forall k :: 0 <= k < |s| ==> s[k] == Finite(0.0)
    ensures Sum(s) == Finite(0.0)
  {
    if |s| > 0 {
      ZeroSum(s[..|s| - 1]);
    }
  }

  /** A column whose entries all equal x has mean x. */
  lemma ConstantMean(c: seq<Value>, x: real)
    requires |c| >= 1
    requires forall k :: 0 <= k < |c| ==> c[k] == Finite(x)
    ensures Mean(c) == Finite(x)
  {
    ConstantColumnSum(c, x);
    DivCancel(|c| as real, x);
  }

  lemma DivCancel(n: real, x: real)
    requires n != 0.0
    ensures n * x / n == x
  {
  }

  lemma ConstantBinNoError(sub: seq<seq<Value>>, cols: nat, i: nat, x: real)
    requires |sub| >= 1 && Grid(sub, cols) && i < cols
    requires forall k :: 0 <= k < |sub| ==> sub[k][i] == Finite(x)
    ensures ErrorSquared(sub, cols)[i] == Finite(0.0)
  {
    var c := Column(sub, cols, i);
    ConstantMean(c, x);
    var d := Deviations(sub, cols);
    var squares := seq(|d|, k requires 0 <= k < |d| => Square(d[k][i]));
    forall k | 0 <= k < |d|
      ensures squares[k] == Finite(0.0)
    {
      assert d[k][i] == Sub(Finite(x), Finite(x)) == Finite(0.0);
    }
    ZeroSum(squares);
    assert ErrorSquared(sub, cols)[i] == Mul(Shrink(|sub|), Sum(squares));
  }

}
