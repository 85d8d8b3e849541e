/** The closing branches shared by tpcf (clustering.py:306-321) and
    redshift_space_tpcf (1009-1024): which correlation functions come back,
    and in what order. */
module Dispatch {
  import opened Common

  /** What an entry point hands back: nothing when both flags are off (the
      function falls off its end), one array, or the auto, cross and second
      auto arrays in that order. */
  datatype XiOutput<T> = NoResult | Single(xi: T) | Triple(xi11: T, xi12: T, xi22: T)

  /** Every array of the output satisfies `P`. */
  predicate Each<T>(out: XiOutput<T>, P: T -> bool)
  {
    match out
    case NoResult => true
    case Single(xi) => P(xi)
    case Triple(a, b, c) => P(a) && P(b) && P(c)
  }

  /** Pick the result by the branch the source takes. The estimates are
      passed in as the calls of `TP_estimator` would end, each either an
      array or the error it raises; only the ones the taken branch
      evaluates can make it fail, and the first of those to fail decides
      the error. `xi11Auto` and `xi22Auto` are the auto-only branch's
      estimates, made with D1R (resp. D2R) in the RR slot; the second is
      evaluated and then dropped. */
  function Select<T>(same: bool, doAuto: bool, doCross: bool,
                     xi11: Result<T>, xi12: Result<T>, xi22: Result<T>,
                     xi11Auto: Result<T>, xi22Auto: Result<T>)
    : (r: Result<XiOutput<T>>)
    ensures r.Ok? ==> (r.value.NoResult? <==> !same && !doAuto && !doCross)
    ensures r.Ok? ==> (r.value.Triple? <==> !same && doAuto && doCross)
    ensures r.Err? <==>
      if same then xi11.Err?
      else if doAuto && doCross then xi11.Err? || xi12.Err? || xi22.Err?
      else if doCross then xi12.Err?
      else if doAuto then xi11Auto.Err? || xi22Auto.Err?
      else false
    ensures r.Err? ==>
      || (xi11.Err? && r.error == xi11.error)
      || (xi12.Err? && r.error == xi12.error)
      || (xi22.Err? && r.error == xi22.error)
      || (xi11Auto.Err? && r.error == xi11Auto.error)
      || (xi22Auto.Err? && r.error == xi22Auto.error)
    ensures !same && doAuto && doCross && xi11.Err? ==> r == Err(xi11.error)
    ensures !same && doAuto && !doCross && xi11Auto.Err? ==> r == Err(xi11Auto.error)
  {
    if same then
      if xi11.Err? then Err(xi11.error) else Ok(Single(xi11.value))
    else if doAuto && doCross then
      if xi11.Err? then Err(xi11.error)
      else if xi12.Err? then Err(xi12.error)
      else if xi22.Err? then Err(xi22.error)
      else Ok(Triple(xi11.value, xi12.value, xi22.value))
    else if doCross then
      if xi12.Err? then Err(xi12.error) else Ok(Single(xi12.value))
    else if doAuto then
      if xi11Auto.Err? then Err(xi11Auto.error)
      else if xi22Auto.Err? then Err(xi22Auto.error)
      else Ok(Single(xi11Auto.value))
    else
      Ok(NoResult)
  }
}
