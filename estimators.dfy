/** The five two-point estimators and the table of the counts each one needs
    (TP_estimator and TP_estimator_requirements, clustering.py:232-287; the
    copies at 538-588 and 935-990). */
module Estimators {
  import opened Common
  import opened Values

  datatype Estimator = Natural | DavisPeebles | Hewett | Hamilton | LandySzalay

  /** The name a caller passes to select an estimator (clustering.py:83). */
  function Name(e: Estimator): string
  {
    match e
    case Natural => "Natural"
    case DavisPeebles => "Davis-Peebles"
    case Hewett => "Hewett"
    case Hamilton => "Hamilton"
    case LandySzalay => "Landy-Szalay"
  }

  /** `estimator not in estimators`: a name is accepted exactly when it is
      the name of one of the five estimators. */
  function Parse(name: string): (r: Option<Estimator>)
    ensures r.Some? ==> Name(r.value) == name
    ensures r.None? <==> forall e :: Name(e) != name
  {
    if name == "Natural" then Some(Natural)
    else if name == "Davis-Peebles" then Some(DavisPeebles)
    else if name == "Hewett" then Some(Hewett)
    else if name == "Hamilton" then Some(Hamilton)
    else if name == "Landy-Szalay" then Some(LandySzalay)
    else None
  }

  lemma ParseName(e: Estimator)
    ensures Parse(Name(e)) == Some(e)
  {
  }

  /** The data and random sample sizes ND1, ND2, NR1, NR2. */
  datatype Sizes = Sizes(nd1: real, nd2: real, nr1: real, nr2: real)

  const One := Finite(1.0)

  // The per-bin formulas, parenthesised as in clustering.py:236-256:
  // `(1.0/factor)*DD/RR` is `((1.0/factor)*DD)/RR`.

  /** A product of two sample sizes, `ND1*ND2` and the like. */
  function Prod(x: real, y: real): real
  {
    x * y
  }

  /** `factor = (a)/(b)`, a ratio of sample-size products. */
  function Factor(a: real, b: real): Value
  {
    Div(Finite(a), Finite(b))
  }

  /** `(1.0/factor)*x/y` */
  function Term(factor: Value, x: Value, y: Value): Value
  {
    Div(Mul(Div(One, factor), x), y)
  }

  /** `(1.0/factor)*k*x/y`, the doubled cross term of Landy-Szalay. */
  function ScaledTerm(factor: Value, k: real, x: Value, y: Value): Value
  {
    Div(Mul(Mul(Div(One, factor), Finite(k)), x), y)
  }

  function NaturalXi(dd: Value, rr: Value, n: Sizes): Value
  {
    var factor := Factor(Prod(n.nd1, n.nd2), Prod(n.nr1, n.nr2));
    Sub(Term(factor, dd, rr), One)
  }

  function DavisPeeblesXi(dd: Value, dr: Value, n: Sizes): Value
  {
    var factor := Factor(Prod(n.nd1, n.nd2), Prod(n.nd1, n.nr2));
    Sub(Term(factor, dd, dr), One)
  }

  function HewettXi(dd: Value, dr: Value, rr: Value, n: Sizes): Value
  {
    var factor1 := Factor(Prod(n.nd1, n.nd2), Prod(n.nr1, n.nr2));
    var factor2 := Factor(Prod(n.nd1, n.nr2), Prod(n.nr1, n.nr2));
    Sub(Term(factor1, dd, rr), Term(factor2, dr, rr))
  }

  function HamiltonXi(dd: Value, dr: Value, rr: Value): Value
  {
    Sub(Div(Mul(dd, rr), Mul(dr, dr)), One)
  }

  function LandySzalayXi(dd: Value, dr: Value, rr: Value, n: Sizes): Value
  {
    var factor1 := Factor(Prod(n.nd1, n.nd2), Prod(n.nr1, n.nr2));
    var factor2 := Factor(Prod(n.nd1, n.nr2), Prod(n.nr1, n.nr2));
    Add(Sub(Term(factor1, dd, rr), ScaledTerm(factor2, 2.0, dr, rr)), One)
  }

  /** One bin of `TP_estimator`; arguments a formula does not read are ignored. */
  function Xi(e: Estimator, dd: Value, dr: Value, rr: Value, n: Sizes): Value
  {
    match e
    case Natural => NaturalXi(dd, rr, n)
    case DavisPeebles => DavisPeeblesXi(dd, dr, n)
    case Hewett => HewettXi(dd, dr, rr, n)
    case Hamilton => HamiltonXi(dd, dr, rr)
    case LandySzalay => LandySzalayXi(dd, dr, rr, n)
  }

  // The jackknife copy (clustering.py:542-557) divides the counts first, so
  // that per-resample sizes broadcast: `(1.0/factor)*(DD/RR)`.

  function JackknifeTerm(factor: Value, x: Value, y: Value): Value
  {
    Mul(Div(One, factor), Div(x, y))
  }

  function JackknifeScaledTerm(factor: Value, k: real, x: Value, y: Value): Value
  {
    Mul(Mul(Div(One, factor), Finite(k)), Div(x, y))
  }

  function XiJackknifeForm(e: Estimator, dd: Value, dr: Value, rr: Value, n: Sizes): Value
  {
    var factor1 := Factor(Prod(n.nd1, n.nd2), Prod(n.nr1, n.nr2));
    var factor2 := Factor(Prod(n.nd1, n.nr2), Prod(n.nr1, n.nr2));
    match e
    case Natural =>
      Sub(JackknifeTerm(factor1, dd, rr), One)
    case DavisPeebles =>
      Sub(JackknifeTerm(Factor(Prod(n.nd1, n.nd2), Prod(n.nd1, n.nr2)), dd, dr), One)
    case Hewett =>
      Sub(JackknifeTerm(factor1, dd, rr), JackknifeTerm(factor2, dr, rr))
    case Hamilton =>
      Sub(Div(Mul(dd, rr), Mul(dr, dr)), One)
    case LandySzalay =>
      Add(Sub(JackknifeTerm(factor1, dd, rr), JackknifeScaledTerm(factor2, 2.0, dr, rr)), One)
  }

  /** `(c*x)/y` and `c*(x/y)` agree, non-finite cases included. */
  lemma MulDivAssoc(c: Value, x: Value, y: Value)
    ensures Div(Mul(c, x), y) == Mul(c, Div(x, y))
  {
    if c.Finite? && x.Finite? && y.Finite? && y.v != 0.0 {
      assert (c.v * x.v) / y.v == c.v * (x.v / y.v);
    }
  }

  /** The jackknife copy of the estimator computes the same value as the
      tpcf copy, bin by bin, for every input. */
  lemma JackknifeFormAgrees(e: Estimator, dd: Value, dr: Value, rr: Value, n: Sizes)
    ensures XiJackknifeForm(e, dd, dr, rr, n) == Xi(e, dd, dr, rr, n)
  {
    var factor1 := Factor(Prod(n.nd1, n.nd2), Prod(n.nr1, n.nr2));
    var factor2 := Factor(Prod(n.nd1, n.nr2), Prod(n.nr1, n.nr2));
    match e
    case Natural =>
      MulDivAssoc(Div(One, factor1), dd, rr);
    case DavisPeebles =>
      MulDivAssoc(Div(One, Factor(Prod(n.nd1, n.nd2), Prod(n.nd1, n.nr2))), dd, dr);
    case Hewett =>
      MulDivAssoc(Div(One, factor1), dd, rr);
      MulDivAssoc(Div(One, factor2), dr, rr);
    case Hamilton =>
    case LandySzalay =>
      MulDivAssoc(Div(One, factor1), dd, rr);
      MulDivAssoc(Mul(Div(One, factor2), Finite(2.0)), dr, rr);
  }

  // Closed forms: each formula equals the textbook expression whenever no
  // denominator vanishes, and is non-finite otherwise.

  lemma ZeroProduct(a: real, b: real)
    ensures Prod(a, b) == 0.0 <==> a == 0.0 || b == 0.0
  {
  }

  lemma ZeroQuotient(a: real, b: real)
    requires b != 0.0
    ensures a / b == 0.0 <==> a == 0.0
  {
  }

  lemma Reciprocal(a: real, b: real)
    requires a != 0.0 && b != 0.0
    ensures 1.0 / (a / b) == b / a
  {
  }

  lemma Cancel(x: real, y: real, z: real)
    requires x != 0.0 && z != 0.0
    ensures Prod(x, y) / Prod(x, z) == y / z
  {
  }

  lemma TermClosedForm(a: real, b: real, x: real, y: real)
    ensures Term(Factor(a, b), Finite(x), Finite(y)) ==
      if a == 0.0 || b == 0.0 || y == 0.0 then NonFinite else Finite(b / a * x / y)
  {
    if b != 0.0 {
      ZeroQuotient(a, b);
      if a != 0.0 {
        Reciprocal(a, b);
      }
    }
  }

  lemma ScaledTermClosedForm(a: real, b: real, k: real, x: real, y: real)
    ensures ScaledTerm(Factor(a, b), k, Finite(x), Finite(y)) ==
      if a == 0.0 || b == 0.0 || y == 0.0 then NonFinite else Finite(b / a * k * x / y)
  {
    if b != 0.0 {
      ZeroQuotient(a, b);
      if a != 0.0 {
        Reciprocal(a, b);
      }
    }
  }

  lemma NaturalClosedForm(dd: real, rr: real, n: Sizes)
    ensures NaturalXi(Finite(dd), Finite(rr), n) ==
      if n.nd1 == 0.0 || n.nd2 == 0.0 || n.nr1 == 0.0 || n.nr2 == 0.0 || rr == 0.0 then NonFinite
      else Finite(Prod(n.nr1, n.nr2) / Prod(n.nd1, n.nd2) * dd / rr - 1.0)
  {
    var a, b := Prod(n.nd1, n.nd2), Prod(n.nr1, n.nr2);
    var t := Term(Factor(a, b), Finite(dd), Finite(rr));
    assert NaturalXi(Finite(dd), Finite(rr), n) == Sub(t, One);
    TermClosedForm(a, b, dd, rr);
    ZeroProduct(n.nd1, n.nd2);
    ZeroProduct(n.nr1, n.nr2);
  }

  /** ND1 cancels: Davis-Peebles is NR2/ND2 * DD/DR - 1. */
  lemma DavisPeeblesClosedForm(dd: real, dr: real, n: Sizes)
    ensures DavisPeeblesXi(Finite(dd), Finite(dr), n) ==
      if n.nd1 == 0.0 || n.nd2 == 0.0 || n.nr2 == 0.0 || dr == 0.0 then NonFinite
      else Finite(n.nr2 / n.nd2 * dd / dr - 1.0)
  {
    var a, c := Prod(n.nd1, n.nd2), Prod(n.nd1, n.nr2);
    var t := Term(Factor(a, c), Finite(dd), Finite(dr));
    assert DavisPeeblesXi(Finite(dd), Finite(dr), n) == Sub(t, One);
    TermClosedForm(a, c, dd, dr);
    ZeroProduct(n.nd1, n.nd2);
    ZeroProduct(n.nd1, n.nr2);
    if n.nd1 != 0.0 && n.nd2 != 0.0 {
      Cancel(n.nd1, n.nr2, n.nd2);
    }
  }

  lemma HewettClosedForm(dd: real, dr: real, rr: real, n: Sizes)
    ensures HewettXi(Finite(dd), Finite(dr), Finite(rr), n) ==
      if n.nd1 == 0.0 || n.nd2 == 0.0 || n.nr1 == 0.0 || n.nr2 == 0.0 || rr == 0.0 then NonFinite
      else Finite(Prod(n.nr1, n.nr2) / Prod(n.nd1, n.nd2) * dd / rr
                  - Prod(n.nr1, n.nr2) / Prod(n.nd1, n.nr2) * dr / rr)
  {
    var a, b, c := Prod(n.nd1, n.nd2), Prod(n.nr1, n.nr2), Prod(n.nd1, n.nr2);
    var t1, t2 := Term(Factor(a, b), Finite(dd), Finite(rr)), Term(Factor(c, b), Finite(dr), Finite(rr));
    assert HewettXi(Finite(dd), Finite(dr), Finite(rr), n) == Sub(t1, t2);
    TermClosedForm(a, b, dd, rr);
    TermClosedForm(c, b, dr, rr);
    ZeroProduct(n.nd1, n.nd2);
    ZeroProduct(n.nr1, n.nr2);
    ZeroProduct(n.nd1, n.nr2);
  }

  /** Hamilton does not depend on the sample sizes at all. */
  lemma HamiltonClosedForm(dd: real, dr: real, rr: real)
    ensures HamiltonXi(Finite(dd), Finite(dr), Finite(rr)) ==
      if dr == 0.0 then NonFinite else Finite(dd * rr / (dr * dr) - 1.0)
  {
    ZeroProduct(dr, dr);
  }

  lemma LandySzalayClosedForm(dd: real, dr: real, rr: real, n: Sizes)
    ensures LandySzalayXi(Finite(dd), Finite(dr), Finite(rr), n) ==
      if n.nd1 == 0.0 || n.nd2 == 0.0 || n.nr1 == 0.0 || n.nr2 == 0.0 || rr == 0.0 then NonFinite
      else Finite(Prod(n.nr1, n.nr2) / Prod(n.nd1, n.nd2) * dd / rr
                  - Prod(n.nr1, n.nr2) / Prod(n.nd1, n.nr2) * 2.0 * dr / rr + 1.0)
  {
    var a, b, c := Prod(n.nd1, n.nd2), Prod(n.nr1, n.nr2), Prod(n.nd1, n.nr2);
    var t1, t2 := Term(Factor(a, b), Finite(dd), Finite(rr)), ScaledTerm(Factor(c, b), 2.0, Finite(dr), Finite(rr));
    assert LandySzalayXi(Finite(dd), Finite(dr), Finite(rr), n) == Add(Sub(t1, t2), One);
    TermClosedForm(a, b, dd, rr);
    ScaledTermClosedForm(c, b, 2.0, dr, rr);
    ZeroProduct(n.nd1, n.nd2);
    ZeroProduct(n.nr1, n.nr2);
    ZeroProduct(n.nd1, n.nr2);
  }

  /** With every sample size 1.0 and DR = RR = D, all five estimators reduce
      to DD/D - 1 (the analytic auto-correlation case, clustering.py:295-298
      with RR = D1R at 201). */
  lemma UnitSizesReduce(e: Estimator, dd: Value, d: Value)
    ensures Xi(e, dd, d, d, Units) == Sub(Div(dd, d), One)
  {
    var n := Units;
    assert Prod(1.0, 1.0) == 1.0;
    if dd.Finite? && d.Finite? {
      var x, y := dd.v, d.v;
      match e
      case Natural => NaturalClosedForm(x, y, n);
      case DavisPeebles => DavisPeeblesClosedForm(x, y, n);
      case Hewett =>
        HewettClosedForm(x, y, y, n);
        if y != 0.0 { assert y / y == 1.0; }
      case Hamilton =>
        HamiltonClosedForm(x, y, y);
        if y != 0.0 {
          Cancel(y, x, y);
          assert Prod(x, y) == Prod(y, x);
        }
      case LandySzalay =>
        LandySzalayClosedForm(x, y, y, n);
        if y != 0.0 { assert y / y == 1.0; }
    }
  }

  /** Whether the size factors raise. The sizes of the tpcf and redshift-space
      calls, and the full-sample sizes of the jackknife, are Python numbers
      (`len(...)`, or 1.0 without randoms), so `ND1*ND2/(NR1*NR2)` with a
      zero denominator, or `1.0/factor` with a zero factor, raises
      ZeroDivisionError before any array is touched (clustering.py:236-256).
      Hamilton computes no factor. */
  predicate SizesRaise(e: Estimator, n: Sizes)
  {
    match e
    case Natural => Prod(n.nr1, n.nr2) == 0.0 || Prod(n.nd1, n.nd2) == 0.0
    case DavisPeebles => Prod(n.nd1, n.nr2) == 0.0 || Prod(n.nd1, n.nd2) == 0.0
    case Hewett => Prod(n.nr1, n.nr2) == 0.0 || Prod(n.nd1, n.nd2) == 0.0 || Prod(n.nd1, n.nr2) == 0.0
    case Hamilton => false
    case LandySzalay => Prod(n.nr1, n.nr2) == 0.0 || Prod(n.nd1, n.nd2) == 0.0 || Prod(n.nd1, n.nr2) == 0.0
  }

  /** The factors raise exactly when a size they divide by, or invert, is
      zero: every size but NR1 for Davis-Peebles, every size for the other
      three that compute factors. */
  lemma SizesRaiseExactly(e: Estimator, n: Sizes)
    ensures SizesRaise(e, n) <==>
      e != Hamilton && (n.nd1 == 0.0 || n.nd2 == 0.0 || n.nr2 == 0.0 || (e != DavisPeebles && n.nr1 == 0.0))
  {
    ZeroProduct(n.nd1, n.nd2);
    ZeroProduct(n.nr1, n.nr2);
    ZeroProduct(n.nd1, n.nr2);
  }

  /** `TP_estimator` called with Python-number sizes on whole arrays: the
      size factors are computed first, so their ZeroDivisionError comes
      before the failure of reading a count array that was never made. */
  function ScalarEstimate<T>(e: Estimator, n: Sizes, xi: Option<T>): (r: Result<T>)
    ensures r.Err? <==> SizesRaise(e, n) || xi.None?
    ensures r.Err? ==> r.error == (if SizesRaise(e, n) then ZeroDivision else MissingCounts)
    ensures r.Ok? ==> xi == Some(r.value)
  {
    if SizesRaise(e, n) then Err(ZeroDivision)
    else if xi.None? then Err(MissingCounts)
    else Ok(xi.value)
  }

  /** Which pair counts an estimator needs: DD, DR, RR. */
  datatype Requirements = Requirements(dd: bool, dr: bool, rr: bool)

  function RequirementsOf(e: Estimator): Requirements
  {
    match e
    case Natural => Requirements(true, false, true)
    case DavisPeebles => Requirements(true, true, false)
    case Hewett => Requirements(true, true, true)
    case Hamilton => Requirements(true, true, true)
    case LandySzalay => Requirements(true, true, true)
  }

  /** The table is sound: a formula never reads a count the table says it
      does not need. */
  lemma RequirementsSound(e: Estimator, dd: Value, dr: Value, dr': Value, rr: Value, rr': Value, n: Sizes)
    ensures !RequirementsOf(e).dr ==> Xi(e, dd, dr, rr, n) == Xi(e, dd, dr', rr, n)
    ensures !RequirementsOf(e).rr ==> Xi(e, dd, dr, rr, n) == Xi(e, dd, dr, rr', n)
  {
  }

  const Units := Sizes(1.0, 1.0, 1.0, 1.0)

  /** With unit sizes, a zero DR turns a finite estimate into a non-finite
      one, for every estimator that reads DR. */
  lemma DrMatters(e: Estimator)
    requires RequirementsOf(e).dr
    ensures Xi(e, Finite(1.0), Finite(1.0), Finite(1.0), Units) != Xi(e, Finite(1.0), Finite(0.0), Finite(1.0), Units)
  {
    assert Factor(Prod(1.0, 1.0), Prod(1.0, 1.0)) == One;
    assert Div(One, One) == One;
    assert Term(One, Finite(1.0), Finite(1.0)) == One;
    assert Term(One, Finite(0.0), Finite(1.0)) == Finite(0.0);
    match e
    case DavisPeebles =>
      assert Term(One, Finite(1.0), Finite(0.0)) == NonFinite;
    case Hamilton =>
      assert Mul(Finite(0.0), Finite(0.0)) == Finite(0.0);
    case Hewett =>
      assert Xi(e, Finite(1.0), Finite(1.0), Finite(1.0), Units) == Finite(0.0);
      assert Xi(e, Finite(1.0), Finite(0.0), Finite(1.0), Units) == Finite(1.0);
    case LandySzalay =>
      assert ScaledTerm(One, 2.0, Finite(1.0), Finite(1.0)) == Finite(2.0);
      assert ScaledTerm(One, 2.0, Finite(0.0), Finite(1.0)) == Finite(0.0);
      assert Xi(e, Finite(1.0), Finite(1.0), Finite(1.0), Units) == Finite(0.0);
      assert Xi(e, Finite(1.0), Finite(0.0), Finite(1.0), Units) == Finite(2.0);
  }

  /** With unit sizes, a zero RR turns a finite estimate into a non-finite
      one for the estimators that divide by RR; Hamilton, whose RR sits in
      the numerator, changes value. */
  lemma RrMatters(e: Estimator)
    requires RequirementsOf(e).rr
    ensures Xi(e, Finite(1.0), Finite(1.0), Finite(1.0), Units) != Xi(e, Finite(1.0), Finite(1.0), Finite(0.0), Units)
  {
    assert Factor(Prod(1.0, 1.0), Prod(1.0, 1.0)) == One;
    assert Div(One, One) == One;
    match e
    case Natural =>
    case Hamilton =>
      assert Mul(Finite(1.0), Finite(0.0)) == Finite(0.0);
    case Hewett =>
    case LandySzalay =>
  }

  /** The table is tight: every count it lists can change the result. */
  lemma RequirementsTight(e: Estimator)
    ensures RequirementsOf(e).dr ==>
      exists dd, dr, dr', rr, n :: Xi(e, dd, dr, rr, n) != Xi(e, dd, dr', rr, n)
    ensures RequirementsOf(e).rr ==>
      exists dd, dr, rr, rr', n :: Xi(e, dd, dr, rr, n) != Xi(e, dd, dr, rr', n)
  {
    if RequirementsOf(e).dr {
      DrMatters(e);
    }
    if RequirementsOf(e).rr {
      RrMatters(e);
    }
  }

  /** The counts that were computed cover what the table asks for. */
  predicate Supplied<T>(q: Requirements, dr: Option<T>, rr: Option<T>)
  {
    (q.dr ==> dr.Some?) && (q.rr ==> rr.Some?)
  }

  predicate Aligned<T, U>(dd: seq<T>, counts: Option<seq<U>>)
  {
    counts.Some? ==> |counts.value| == |dd|
  }

  /** Bin `i` of an optional count array; 0.0 where the array is absent, a
      value no formula reads (RequirementsSound). */
  function At(counts: Option<seq<Value>>, i: nat): Value
  {
    if counts.Some? && i < |counts.value| then counts.value[i] else Finite(0.0)
  }

  /** `TP_estimator` on whole count arrays. A formula that reads an array
      that was never computed (`None`) fails, as Python raises on `DD/None`;
      that happens exactly when the requirements table is not met. */
  function Estimate(e: Estimator, dd: seq<Value>, dr: Option<seq<Value>>, rr: Option<seq<Value>>, n: Sizes)
    : (r: Option<seq<Value>>)
    requires Aligned(dd, dr) && Aligned(dd, rr)
    ensures r.Some? <==> Supplied(RequirementsOf(e), dr, rr)
    ensures r.Some? ==> |r.value| == |dd|
    ensures r.Some? ==> forall i :: 0 <= i < |dd| ==> r.value[i] == Xi(e, dd[i], At(dr, i), At(rr, i), n)
  {
    match e
    case Natural =>
      if rr.None? then None
      else Some(seq(|dd|, i requires 0 <= i < |dd| => NaturalXi(dd[i], rr.value[i], n)))
    case DavisPeebles =>
      if dr.None? then None
      else Some(seq(|dd|, i requires 0 <= i < |dd| => DavisPeeblesXi(dd[i], dr.value[i], n)))
    case Hewett =>
      if dr.None? || rr.None? then None
      else Some(seq(|dd|, i requires 0 <= i < |dd| => HewettXi(dd[i], dr.value[i], rr.value[i], n)))
    case Hamilton =>
      if dr.None? || rr.None? then None
      else Some(seq(|dd|, i requires 0 <= i < |dd| => HamiltonXi(dd[i], dr.value[i], rr.value[i])))
    case LandySzalay =>
      if dr.None? || rr.None? then None
      else Some(seq(|dd|, i requires 0 <= i < |dd| => LandySzalayXi(dd[i], dr.value[i], rr.value[i], n)))
  }

  /** The jackknife copy applied to one row of counts with one set of sizes;
      it returns what the tpcf copy returns. */
  function EstimateJackknifeForm(e: Estimator, dd: seq<Value>, dr: Option<seq<Value>>, rr: Option<seq<Value>>, n: Sizes)
    : (r: Option<seq<Value>>)
    requires Aligned(dd, dr) && Aligned(dd, rr)
    ensures r == Estimate(e, dd, dr, rr, n)
  {
    if !Supplied(RequirementsOf(e), dr, rr) then None
    else
      var xi := seq(|dd|, i requires 0 <= i < |dd| => XiJackknifeForm(e, dd[i], At(dr, i), At(rr, i), n));
      assert forall i :: 0 <= i < |dd| ==> xi[i] == Xi(e, dd[i], At(dr, i), At(rr, i), n) by {
        forall i | 0 <= i < |dd| {
          JackknifeFormAgrees(e, dd[i], At(dr, i), At(rr, i), n);
        }
      }
      assert xi == Estimate(e, dd, dr, rr, n).value;
      Some(xi)
  }

  /** Row `r` of an optional matrix of counts. */
  function RowOf(counts: Option<seq<seq<Value>>>, r: nat): Option<seq<Value>>
  {
    if counts.Some? && r < |counts.value| then Some(counts.value[r]) else None
  }

  /** Every row of an optional matrix has the length of the matching DD row. */
  predicate RowsAligned(dd: seq<seq<Value>>, counts: Option<seq<seq<Value>>>)
  {
    counts.Some? ==>
      |counts.value| == |dd| && forall r :: 0 <= r < |dd| ==> |counts.value[r]| == |dd[r]|
  }

  /** The estimator on a matrix of counts, row `r` with sizes `n[r]`: the
      jackknife call with per-resample sizes (clustering.py:678-680), and,
      with one size for every row, the rp-pi surface (1010-1023). */
  function EstimateRows(e: Estimator, dd: seq<seq<Value>>, dr: Option<seq<seq<Value>>>, rr: Option<seq<seq<Value>>>, n: seq<Sizes>)
    : (r: Option<seq<seq<Value>>>)
    requires |n| == |dd| && RowsAligned(dd, dr) && RowsAligned(dd, rr)
    ensures r.Some? <==> Supplied(RequirementsOf(e), dr, rr)
    ensures r.Some? ==> |r.value| == |dd| && forall k :: 0 <= k < |dd| ==>
      Some(r.value[k]) == Estimate(e, dd[k], RowOf(dr, k), RowOf(rr, k), n[k])
  {
    if !Supplied(RequirementsOf(e), dr, rr) then None
    else
      Some(seq(|dd|, k requires 0 <= k < |dd| =>
        EstimateJackknifeForm(e, dd[k], RowOf(dr, k), RowOf(rr, k), n[k]).value))
  }
}
