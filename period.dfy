/** Periodic boundaries: normalising the `period` argument
    (clustering.py:94-103, repeated at 406-416 and 787-797). */
module Period {
  import opened Common

  /** One entry of a period vector: a finite box length, or numpy's inf. */
  datatype Extent = Bounded(size: real) | Unbounded

  /** The `period` argument as a caller passes it. */
  datatype PeriodArg = Absent | Scalar(length: Extent) | Vector(lengths: seq<Extent>)

  /** The period after normalisation, and whether periodic boundaries are on. */
  datatype Resolved = Resolved(period: seq<Extent>, pbcs: bool)

  /** `a <= b` with inf the largest value. */
  predicate AtMost(a: Extent, b: Extent)
  {
    b.Unbounded? || (a.Bounded? && a.size <= b.size)
  }

  /** `min(period)` */
  function Min(p: seq<Extent>): (m: Extent)
    requires |p| > 0
    ensures m in p
    ensures forall i :: 0 <= i < |p| ==> AtMost(m, p[i])
  {
    if |p| == 1 then p[0]
    else
      var rest := Min(p[1..]);
      if AtMost(p[0], rest) then p[0] else rest
  }

  /** `max(period)` */
  function Max(p: seq<Extent>): (m: Extent)
    requires |p| > 0
    ensures m in p
    ensures forall i :: 0 <= i < |p| ==> AtMost(p[i], m)
  {
    if |p| == 1 then p[0]
    else
      var rest := Max(p[1..]);
      if AtMost(rest, p[0]) then p[0] else rest
  }

  /** `x > e/2.0`; half of inf is inf, which no bin edge exceeds. */
  predicate ExceedsHalf(x: real, e: Extent)
  {
    e.Bounded? && x > e.size / 2.0
  }

  /** Comparing against half the smallest period is comparing against every entry. */
  lemma ExceedsHalfMin(x: real, p: seq<Extent>)
    requires |p| > 0
    ensures ExceedsHalf(x, Min(p)) <==> exists i :: 0 <= i < |p| && ExceedsHalf(x, p[i])
  {
    var m := Min(p);
    if ExceedsHalf(x, m) {
      var i :| 0 <= i < |p| && p[i] == m;
    }
  }

  /** `min(period) == inf` holds exactly when no entry is finite. */
  lemma MinUnbounded(p: seq<Extent>)
    requires |p| > 0
    ensures Min(p).Unbounded? <==> forall i :: 0 <= i < |p| ==> p[i].Unbounded?
  {
  }

  /** `max(period) == inf` holds exactly when some entry is infinite. */
  lemma MaxUnbounded(p: seq<Extent>)
    requires |p| > 0
    ensures Max(p).Unbounded? <==> exists i :: 0 <= i < |p| && p[i].Unbounded?
  {
  }

  /** Normalise `period` for k-dimensional samples: absent means k copies of
      inf with periodic boundaries off; a scalar is broadcast to k entries; a
      vector must have exactly k entries. */
  function ResolvePeriod(arg: PeriodArg, k: nat): (r: Result<Resolved>)
    ensures r.Err? <==> arg.Vector? && |arg.lengths| != k
    ensures r.Err? ==> r.error == PeriodShape
    ensures r.Ok? ==> |r.value.period| == k && (r.value.pbcs <==> !arg.Absent?)
    ensures r.Ok? && arg.Absent? ==> forall i :: 0 <= i < k ==> r.value.period[i] == Unbounded
    ensures r.Ok? && arg.Scalar? ==> forall i :: 0 <= i < k ==> r.value.period[i] == arg.length
    ensures r.Ok? && arg.Vector? ==> r.value.period == arg.lengths
  {
    match arg
    case Absent => Ok(Resolved(seq(k, _ => Unbounded), false))
    case Scalar(l) => Ok(Resolved(seq(k, _ => l), true))
    case Vector(v) => if |v| != k then Err(PeriodShape) else Ok(Resolved(v, true))
  }

  /** Every entry is a finite length. */
  predicate AllBounded(p: seq<Extent>)
  {
    forall i :: 0 <= i < |p| ==> p[i].Bounded?
  }

  /** `period.prod()`, the volume of a fully periodic box. */
  function Volume(p: seq<Extent>): (v: real)
    requires AllBounded(p)
    ensures (forall i :: 0 <= i < |p| ==> p[i].size > 0.0) ==> v > 0.0
  {
    if |p| == 0 then 1.0 else p[0].size * Volume(p[1..])
  }
}
