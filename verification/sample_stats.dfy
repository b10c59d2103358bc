/** Read-only statistics over a chain history: the arithmetic mean and
    percentiles under numpy's default ("linear") interpolation rule. */
module SampleStats {
  import opened RealArith

  /** The summary record reported for a chain history. */
  datatype Summary = Summary(mean: real, c025: real, c975: real)

  function Sum(xs: seq<real>): real
  {
    if xs == [] then 0.0 else xs[0] + Sum(xs[1..])
  }

  /** The smallest element of a non-empty sequence. */
  function Min(xs: seq<real>): (m: real)
    requires |xs| > 0
    ensures m in xs
    ensures forall i :: 0 <= i < |xs| ==> m <= xs[i]
  {
    if |xs| == 1 then xs[0]
    else
      var rest := Min(xs[1..]);
      if xs[0] <= rest then xs[0] else rest
  }

  /** The largest element of a non-empty sequence. */
  function Max(xs: seq<real>): (m: real)
    requires |xs| > 0
    ensures m in xs
    ensures forall i :: 0 <= i < |xs| ==> xs[i] <= m
  {
    if |xs| == 1 then xs[0]
    else
      var rest := Max(xs[1..]);
      if xs[0] >= rest then xs[0] else rest
  }

  /** Every element lies between the bounds, so the sum lies between
      |xs| copies of each bound. */
  lemma {:induction false} SumBounds(xs: seq<real>, lo: real, hi: real)
    requires forall i :: 0 <= i < |xs| ==> lo <= xs[i] <= hi
    ensures |xs| as real * lo <= Sum(xs) <= |xs| as real * hi
  {
    if xs != [] {
      SumBounds(xs[1..], lo, hi);
    }
  }

  /** The arithmetic mean of a non-empty history. */
  function Mean(xs: seq<real>): real
    requires |xs| > 0
  {
    Sum(xs) / |xs| as real
  }

  /** The mean times the length gives back the sum. */
  lemma MeanScaled(xs: seq<real>)
    requires |xs| > 0
    ensures Mean(xs) * |xs| as real == Sum(xs)
  {
  }

  /** The mean lies within any bounds that hold of every element. */
  lemma MeanBounds(xs: seq<real>, lo: real, hi: real)
    requires |xs| > 0
    requires forall i :: 0 <= i < |xs| ==> lo <= xs[i] <= hi
    ensures lo <= Mean(xs) <= hi
  {
    SumBounds(xs, lo, hi);
    DivBounds(Sum(xs), |xs| as real, lo, hi);
  }

  ghost predicate Sorted(s: seq<real>)
  {
    forall i, j :: 0 <= i <= j < |s| ==> s[i] <= s[j]
  }

  /** Places x into an ascending sequence. */
  function Insert(x: real, s: seq<real>): (r: seq<real>)
    requires Sorted(s)
    ensures Sorted(r)
    ensures multiset(r) == multiset(s) + multiset{x}
    ensures forall k :: 0 <= k < |r| ==> r[k] == x || r[k] in s
  {
    if s == [] then [x]
    else if x <= s[0] then [x] + s
    else
      var tail := Insert(x, s[1..]);
      assert s == [s[0]] + s[1..];
      [s[0]] + tail
  }

  /** The ascending rearrangement of a history (insertion sort). */
  function Sort(xs: seq<real>): (r: seq<real>)
    ensures Sorted(r)
    ensures multiset(r) == multiset(xs)
    ensures |r| == |xs|
  {
    if xs == [] then []
    else
      assert xs == [xs[0]] + xs[1..];
      var r := Insert(xs[0], Sort(xs[1..]));
      assert |r| == |multiset(r)|;
      r
  }

  /** The ends of the sorted rearrangement are the minimum and the maximum. */
  lemma SortEnds(xs: seq<real>)
    requires |xs| > 0
    ensures Sort(xs)[0] == Min(xs) && Sort(xs)[|xs| - 1] == Max(xs)
  {
    var s, n := Sort(xs), |xs|;
    assert Min(xs) in multiset(s) && Max(xs) in multiset(s);
    var lo :| 0 <= lo < n && s[lo] == Min(xs);
    var hi :| 0 <= hi < n && s[hi] == Max(xs);
    assert s[0] in multiset(xs) && s[n - 1] in multiset(xs);
    var first :| 0 <= first < n && xs[first] == s[0];
    var last :| 0 <= last < n && xs[last] == s[n - 1];
    assert s[0] <= s[lo] && s[hi] <= s[n - 1];
  }

  /** A value on the segment from a to b, a fraction g of the way. */
  lemma LerpBetween(a: real, b: real, g: real)
    requires a <= b && 0.0 <= g <= 1.0
    ensures a <= a + (b - a) * g <= b
  {
    MulNonNegative(b - a, g);
    MulNonNegative(b - a, 1.0 - g);
    assert (b - a) * (1.0 - g) == (b - a) - (b - a) * g;
  }

  /** numpy's virtual index (n - 1) * q / 100 of the q-th percentile
      among n order statistics. */
  function VirtualIndex(n: nat, q: real): (h: real)
    requires n > 0 && 0.0 <= q <= 100.0
    ensures 0.0 <= h <= (n - 1) as real
  {
    MulNonNegative((n - 1) as real, q);
    MulNonNegative((n - 1) as real, 100.0 - q);
    (n - 1) as real * q / 100.0
  }

  lemma VirtualIndexMonotone(n: nat, q1: real, q2: real)
    requires n > 0 && 0.0 <= q1 <= q2 <= 100.0
    ensures VirtualIndex(n, q1) <= VirtualIndex(n, q2)
  {
    MulNonNegative((n - 1) as real, q2 - q1);
  }

  /** Linear interpolation between the order statistics of an ascending
      sequence at virtual index h: with i the integer part of h and g its
      fraction, s[i] + (s[i + 1] - s[i]) * g (just s[i] at the last index). */
  function Interpolate(s: seq<real>, h: real): real
    requires |s| > 0 && 0.0 <= h <= (|s| - 1) as real
  {
    var i := h.Floor;
    var g := h - i as real;
    if i + 1 < |s| then s[i] + (s[i + 1] - s[i]) * g else s[i]
  }

  /** The interpolated value lies on the segment between the order
      statistics at the integer part of h and the next one. */
  lemma InterpolateWithin(s: seq<real>, h: real)
    requires |s| > 0 && 0.0 <= h <= (|s| - 1) as real
    requires Sorted(s)
    ensures s[h.Floor] <= Interpolate(s, h)
    ensures h.Floor + 1 < |s| ==> Interpolate(s, h) <= s[h.Floor + 1]
  {
    var i := h.Floor;
    if i + 1 < |s| {
      LerpBetween(s[i], s[i + 1], h - i as real);
    }
  }

  lemma InterpolateBounds(s: seq<real>, h: real)
    requires |s| > 0 && 0.0 <= h <= (|s| - 1) as real
    requires Sorted(s)
    ensures s[0] <= Interpolate(s, h) <= s[|s| - 1]
  {
    var i := h.Floor;
    InterpolateWithin(s, h);
    assert s[0] <= s[i];
    if i + 1 < |s| {
      assert s[i + 1] <= s[|s| - 1];
    } else {
      assert Interpolate(s, h) == s[i] && i == |s| - 1;
    }
  }

  /** Along one segment, a larger fraction gives a larger value. */
  lemma LerpMonotone(a: real, b: real, g1: real, g2: real)
    requires a <= b && g1 <= g2
    ensures a + (b - a) * g1 <= a + (b - a) * g2
  {
    MulNonNegative(b - a, g2 - g1);
    assert (b - a) * (g2 - g1) == (b - a) * g2 - (b - a) * g1;
  }

  lemma InterpolateMonotone(s: seq<real>, h1: real, h2: real)
    requires |s| > 0 && 0.0 <= h1 <= h2 <= (|s| - 1) as real
    requires Sorted(s)
    ensures Interpolate(s, h1) <= Interpolate(s, h2)
  {
    var i1, i2 := h1.Floor, h2.Floor;
    InterpolateWithin(s, h1);
    InterpolateWithin(s, h2);
    if i1 == i2 {
      if i1 + 1 < |s| {
        LerpMonotone(s[i1], s[i1 + 1], h1 - i1 as real, h2 - i2 as real);
      }
    } else {
      assert s[i1 + 1] <= s[i2];
    }
  }

  /** Interpolating at the first index gives the first element, at the last
      index the last. */
  lemma InterpolateEnds(s: seq<real>)
    requires |s| > 0
    ensures Interpolate(s, 0.0) == s[0]
    ensures Interpolate(s, (|s| - 1) as real) == s[|s| - 1]
  {
    assert (0.0).Floor == 0;
    assert ((|s| - 1) as real).Floor == |s| - 1;
  }

  /** The 0th percentile sits at virtual index 0, the 100th at the last. */
  lemma VirtualIndexEnds(n: nat)
    requires n > 0
    ensures VirtualIndex(n, 0.0) == 0.0
    ensures VirtualIndex(n, 100.0) == (n - 1) as real
  {
  }

  /** The q-th percentile (0 <= q <= 100) of a history, numpy's default
      rule: the sorted history interpolated at the virtual index. */
  function Percentile(xs: seq<real>, q: real): real
    requires |xs| > 0 && 0.0 <= q <= 100.0
  {
    Interpolate(Sort(xs), VirtualIndex(|xs|, q))
  }

  /** Every percentile lies between the minimum and the maximum. */
  lemma PercentileBounds(xs: seq<real>, q: real)
    requires |xs| > 0 && 0.0 <= q <= 100.0
    ensures Min(xs) <= Percentile(xs, q) <= Max(xs)
  {
    SortEnds(xs);
    InterpolateBounds(Sort(xs), VirtualIndex(|xs|, q));
  }

  /** The 0th percentile is the minimum and the 100th the maximum. */
  lemma PercentileEnds(xs: seq<real>)
    requires |xs| > 0
    ensures Percentile(xs, 0.0) == Min(xs)
    ensures Percentile(xs, 100.0) == Max(xs)
  {
    SortEnds(xs);
    VirtualIndexEnds(|xs|);
    InterpolateEnds(Sort(xs));
  }

  /** A higher percentile is never below a lower one. */
  lemma PercentileMonotone(xs: seq<real>, q1: real, q2: real)
    requires |xs| > 0 && 0.0 <= q1 <= q2 <= 100.0
    ensures Percentile(xs, q1) <= Percentile(xs, q2)
  {
    VirtualIndexMonotone(|xs|, q1, q2);
    InterpolateMonotone(Sort(xs), VirtualIndex(|xs|, q1), VirtualIndex(|xs|, q2));
  }

  /** The mean and the two-sided 95% interval of a non-empty history. */
  function Summarize(xs: seq<real>): (r: Summary)
    requires |xs| > 0
    ensures Min(xs) <= r.mean <= Max(xs)
    ensures Min(xs) <= r.c025 <= r.c975 <= Max(xs)
  {
    var mean, c025, c975 := Mean(xs), Percentile(xs, 2.5), Percentile(xs, 97.5);
    MeanBounds(xs, Min(xs), Max(xs));
    PercentileBounds(xs, 2.5);
    PercentileBounds(xs, 97.5);
    PercentileMonotone(xs, 2.5, 97.5);
    Summary(mean, c025, c975)
  }
}
