/** Samples and the downsampler (clustering.py:89-91 and 106-117, repeated at
    401-432 and 782-809). */
module Samples {
  import opened Common

  /** One row of an Npts x k array. */
  type Point = seq<real>

  /** An Npts x k array: its dimension k is known even when it has no rows. */
  datatype Sample = Sample(dim: nat, points: seq<Point>)
  {
    predicate WellShaped()
    {
      forall i :: 0 <= i < |points| ==> |points[i]| == dim
    }
  }

  /** `np.all(sample1 == sample2)` on two arrays of the same shape. */
  predicate Same(s1: Sample, s2: Sample)
  {
    s1 == s2
  }

  /** `sample2 = sample1` when no second sample is passed (clustering.py:89-90). */
  function DefaultSecond(s1: Sample, s2: Option<Sample>): Sample
  {
    if s2.Some? then s2.value else s1
  }

  /** `perm` is a rearrangement of 0..n-1, what `np.random.shuffle` leaves in
      `np.arange(0, n)`. */
  predicate IsPermutation(perm: seq<nat>, n: nat)
  {
    |perm| == n
    && (forall i :: 0 <= i < n ==> perm[i] < n)
    && (forall i, j :: 0 <= i < j < n ==> perm[i] != perm[j])
  }

  /** `sample[inds]` */
  function Gather(s: Sample, inds: seq<nat>): (r: Sample)
    requires forall i :: 0 <= i < |inds| ==> inds[i] < |s.points|
    ensures r.dim == s.dim && |r.points| == |inds|
    ensures forall i :: 0 <= i < |inds| ==> r.points[i] == s.points[inds[i]]
  {
    Sample(s.dim, seq(|inds|, i requires 0 <= i < |inds| => s.points[inds[i]]))
  }

  /** The rows at the first `maxSize` entries of the shuffled indices, when
      the sample is longer than `maxSize`; the sample itself otherwise. */
  function Cap(s: Sample, perm: seq<nat>, maxSize: nat): (r: Sample)
    requires IsPermutation(perm, |s.points|)
    ensures r.dim == s.dim
  {
    if |s.points| > maxSize then Gather(s, perm[..maxSize]) else s
  }

  /** A capped sample has min(len, maxSize) rows, each of them a row of the
      original taken at a distinct index. */
  lemma CapShape(s: Sample, perm: seq<nat>, maxSize: nat)
    requires IsPermutation(perm, |s.points|)
    ensures |Cap(s, perm, maxSize).points| == if |s.points| > maxSize then maxSize else |s.points|
    ensures |s.points| > maxSize ==>
      forall i :: 0 <= i < maxSize ==> Cap(s, perm, maxSize).points[i] == s.points[perm[i]]
    ensures s.WellShaped() ==> Cap(s, perm, maxSize).WellShaped()
  {
  }

  /** No row of the original is drawn twice: the capped sample is a
      sub-multiset of the original. */
  lemma {:induction false} GatherSubMultiset(s: Sample, inds: seq<nat>)
    requires forall i :: 0 <= i < |inds| ==> inds[i] < |s.points|
    requires forall i, j :: 0 <= i < j < |inds| ==> inds[i] != inds[j]
    ensures multiset(Gather(s, inds).points) <= multiset(s.points)
  {
    var idx := set i | 0 <= i < |inds| :: inds[i];
    GatherIndexSet(s, inds);
    IndexSetBound(s.points, idx);
  }

  /** Downsampling never duplicates a row. */
  lemma CapSubMultiset(s: Sample, perm: seq<nat>, maxSize: nat)
    requires IsPermutation(perm, |s.points|)
    ensures multiset(Cap(s, perm, maxSize).points) <= multiset(s.points)
  {
    if |s.points| > maxSize {
      GatherSubMultiset(s, perm[..maxSize]);
    }
  }

  /** The rows a set of distinct indices selects, as a multiset. */
  function Picked(p: seq<Point>, idx: set<nat>): multiset<Point>
    requires forall i :: i in idx ==> i < |p|
    decreases |p|
  {
    if |p| == 0 then multiset{}
    else
      var last := |p| - 1;
      Picked(p[..last], idx - {last}) + (if last in idx then multiset{p[last]} else multiset{})
  }

  lemma {:induction false} IndexSetBound(p: seq<Point>, idx: set<nat>)
    requires forall i :: i in idx ==> i < |p|
    ensures Picked(p, idx) <= multiset(p)
    decreases |p|
  {
    if |p| > 0 {
      var last := |p| - 1;
      IndexSetBound(p[..last], idx - {last});
      assert p == p[..last] + [p[last]];
    }
  }

  lemma {:induction false} GatherIndexSet(s: Sample, inds: seq<nat>)
    requires forall i :: 0 <= i < |inds| ==> inds[i] < |s.points|
    requires forall i, j :: 0 <= i < j < |inds| ==> inds[i] != inds[j]
    ensures multiset(Gather(s, inds).points) == Picked(s.points, set i | 0 <= i < |inds| :: inds[i])
    decreases |inds|
  {
    var idx := set i | 0 <= i < |inds| :: inds[i];
    if |inds| == 0 {
      assert idx == {};
      PickedNone(s.points);
    } else {
      var k := |inds| - 1;
      var front := inds[..k];
      var fidx := set i | 0 <= i < k :: front[i];
      GatherIndexSet(s, front);
      assert idx == fidx + {inds[k]};
      assert inds[k] !in fidx;
      PickedInsert(s.points, fidx, inds[k]);
      assert Gather(s, inds).points == Gather(s, front).points + [s.points[inds[k]]];
    }
  }

  lemma {:induction false} PickedNone(p: seq<Point>)
    ensures Picked(p, {}) == multiset{}
    decreases |p|
  {
    if |p| > 0 {
      var none: set<nat> := {};
      assert none - {|p| - 1} == none;
      PickedNone(p[..|p| - 1]);
    }
  }

  lemma {:induction false} PickedInsert(p: seq<Point>, idx: set<nat>, j: nat)
    requires forall i :: i in idx ==> i < |p|
    requires j < |p| && j !in idx
    ensures Picked(p, idx + {j}) == Picked(p, idx) + multiset{p[j]}
    decreases |p|
  {
    var last := |p| - 1;
    if j == last {
      assert (idx + {j}) - {last} == idx - {last};
    } else {
      assert (idx + {j}) - {last} == (idx - {last}) + {j};
      PickedInsert(p[..last], idx - {last}, j);
    }
  }

  /** The downsampling step exactly as written: sample2 is capped unless it
      equals sample1, then sample1 is capped on its own. */
  function PrepareSamplesAsWritten(s1: Sample, s2: Sample, perm1: seq<nat>, perm2: seq<nat>, maxSize: nat)
    : (r: (Sample, Sample))
    requires IsPermutation(perm1, |s1.points|) && IsPermutation(perm2, |s2.points|)
  {
    var s2' := if |s2.points| > maxSize && !Same(s1, s2) then Cap(s2, perm2, maxSize) else s2;
    (Cap(s1, perm1, maxSize), s2')
  }

  /** An auto-correlation request over a sample longer than the cap comes out
      of the as-written step as two different samples. */
  lemma AsWrittenSplitsAutoCorrelation()
    ensures
      var s := Sample(1, [[0.0], [1.0]]);
      var r := PrepareSamplesAsWritten(s, s, [0, 1], [0, 1], 1);
      !Same(r.0, r.1)
  {
    var s := Sample(1, [[0.0], [1.0]]);
    var r := PrepareSamplesAsWritten(s, s, [0, 1], [0, 1], 1);
    assert |r.0.points| == 1 && |r.1.points| == 2;
  }

  /** The downsampling step as intended: a second sample equal to the first
      is capped with it, so the two stay the same sample. */
  function PrepareSamples(s1: Sample, s2: Sample, perm1: seq<nat>, perm2: seq<nat>, maxSize: nat)
    : (r: (Sample, Sample))
    requires IsPermutation(perm1, |s1.points|) && IsPermutation(perm2, |s2.points|)
    ensures Same(r.0, r.1) <== Same(s1, s2)
    ensures |r.0.points| <= maxSize || r.0 == s1
    ensures |r.1.points| <= maxSize || r.1 == s2
    ensures r.0.dim == s1.dim && r.1.dim == s2.dim
    ensures !Same(s1, s2) ==> r == PrepareSamplesAsWritten(s1, s2, perm1, perm2, maxSize)
  {
    if Same(s1, s2) then
      var c := Cap(s1, perm1, maxSize);
      (c, c)
    else
      PrepareSamplesAsWritten(s1, s2, perm1, perm2, maxSize)
  }

  /** The two steps differ only on an auto-correlation longer than the cap. */
  lemma PrepareSamplesAgrees(s1: Sample, s2: Sample, perm1: seq<nat>, perm2: seq<nat>, maxSize: nat)
    requires IsPermutation(perm1, |s1.points|) && IsPermutation(perm2, |s2.points|)
    ensures PrepareSamples(s1, s2, perm1, perm2, maxSize) == PrepareSamplesAsWritten(s1, s2, perm1, perm2, maxSize)
      <== !Same(s1, s2) || |s1.points| <= maxSize
  {
  }

  /** Downsampling keeps only rows of the original samples. */
  lemma PrepareSamplesKeepsRows(s1: Sample, s2: Sample, perm1: seq<nat>, perm2: seq<nat>, maxSize: nat)
    requires IsPermutation(perm1, |s1.points|) && IsPermutation(perm2, |s2.points|)
    ensures var r := PrepareSamples(s1, s2, perm1, perm2, maxSize);
      (forall p :: p in r.0.points ==> p in s1.points) && (forall p :: p in r.1.points ==> p in s2.points)
  {
    var r := PrepareSamples(s1, s2, perm1, perm2, maxSize);
    CapSubMultiset(s1, perm1, maxSize);
    CapSubMultiset(s2, perm2, maxSize);
    forall p | p in r.0.points
      ensures p in s1.points
    {
      assert p in multiset(r.0.points);
    }
    forall p | p in r.1.points
      ensures p in s2.points
    {
      assert p in multiset(r.1.points);
    }
  }

  /** The downsampler, rebinding the two samples in place of each other as
      the entry points do. */
  method Downsample(s1: Sample, s2: Sample, perm1: seq<nat>, perm2: seq<nat>, maxSize: nat)
    returns (d1: Sample, d2: Sample)
    requires IsPermutation(perm1, |s1.points|) && IsPermutation(perm2, |s2.points|)
    ensures (d1, d2) == PrepareSamples(s1, s2, perm1, perm2, maxSize)
  {
    d1, d2 := s1, s2;
    var same := Same(d1, d2);
    if |d2.points| > maxSize && !same {
      d2 := Gather(d2, perm2[..maxSize]);
    }
    if |d1.points| > maxSize {
      d1 := Gather(d1, perm1[..maxSize]);
      if same {
        d2 := d1;
      }
    }
  }
}
