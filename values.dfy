/** Floating-point results abstracted to exact reals: a finite double is its
    real value, and every infinity or NaN is the one absorbing NonFinite.
    A division by zero gives NonFinite, as numpy gives inf or nan. */
module Values {

  datatype Value = Finite(v: real) | NonFinite

  function Add(a: Value, b: Value): Value
  {
    if a.Finite? && b.Finite? then Finite(a.v + b.v) else NonFinite
  }

  function Sub(a: Value, b: Value): Value
  {
    if a.Finite? && b.Finite? then Finite(a.v - b.v) else NonFinite
  }

  function Mul(a: Value, b: Value): Value
  {
    if a.Finite? && b.Finite? then Finite(a.v * b.v) else NonFinite
  }

  function Div(a: Value, b: Value): Value
  {
    if a.Finite? && b.Finite? && b.v != 0.0 then Finite(a.v / b.v) else NonFinite
  }

  /** `x**2.0` */
  function Square(a: Value): Value
  {
    Mul(a, a)
  }

  /** Sum accumulated left to right, as a running total `tmp = tmp + x` does. */
  function Sum(s: seq<Value>): Value
  {
    if |s| == 0 then Finite(0.0) else Add(Sum(s[..|s| - 1]), s[|s| - 1])
  }

  /** Every entry is finite. */
  predicate AllFinite(s: seq<Value>)
  {
    forall i :: 0 <= i < |s| ==> s[i].Finite?
  }

  lemma {:induction false} SumFinite(s: seq<Value>)
    ensures Sum(s).Finite? <==> AllFinite(s)
  {
    if |s| > 0 {
      SumFinite(s[..|s| - 1]);
      assert forall i :: 0 <= i < |s| - 1 ==> s[..|s| - 1][i] == s[i];
    }
  }
}
