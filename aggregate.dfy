/**
 * The aggregation that the page applies to a phase's samples once its trials
 * are over (src/app/page.tsx): the `reduce` sum, the mean, `Math.max` and
 * `Math.min` over the samples, the ascending sort and the `slice(1, -1)` that
 * drops the first and last sorted sample. Everything is a pure function over
 * `seq<real>`, except the sort, which the page performs in place on its array.
 */
module Aggregate {
  import opened Rounding

  /** `samples.reduce((a, b) => a + b, 0)`. */
  function Sum(s: seq<real>): real
  {
    if |s| == 0 then 0.0 else s[0] + Sum(s[1..])
  }

  /** `Math.max(...s)` of a non-empty list. */
  function Max(s: seq<real>): (m: real)
    requires |s| > 0
    ensures m in s
    ensures forall i :: 0 <= i < |s| ==> s[i] <= m
  {
    if |s| == 1 then s[0]
    else
      var rest := Max(s[1..]);
      if s[0] >= rest then s[0] else rest
  }

  /** `Math.min(...s)` of a non-empty list. */
  function Min(s: seq<real>): (m: real)
    requires |s| > 0
    ensures m in s
    ensures forall i :: 0 <= i < |s| ==> m <= s[i]
  {
    if |s| == 1 then s[0]
    else
      var rest := Min(s[1..]);
      if s[0] <= rest then s[0] else rest
  }

  /** The arithmetic mean of a non-empty list. */
  function Average(s: seq<real>): (r: real)
    requires |s| > 0
    ensures r * |s| as real == Sum(s)
  {
    Sum(s) / |s| as real
  }

  /** `s.reduce((a, b) => a + b, 0) / s.length`: NaN (that is, 0 / 0) on an empty list. */
  function Mean(s: seq<real>): (r: Number)
    ensures r.NaN? <==> |s| == 0
    ensures |s| > 0 ==> r.value * |s| as real == Sum(s)
  {
    if |s| == 0 then NaN else Finite(Average(s))
  }

  /** Ascending order, as `sort((a, b) => a - b)` leaves the array. */
  ghost predicate IsSorted(s: seq<real>)
  {
    forall i, j :: 0 <= i < j < |s| ==> s[i] <= s[j]
  }

  /** A sorted list stays sorted with an element in front that is at most all of its elements. */
  lemma {:induction false} ConsSorted(h: real, t: seq<real>)
    requires IsSorted(t)
    requires forall k :: 0 <= k < |t| ==> h <= t[k]
    ensures IsSorted([h] + t)
  {
  }

  /** Every element of a multiset that only holds values above `h` is above `h`. */
  lemma {:induction false} AllAbove(h: real, t: seq<real>, s: seq<real>, x: real)
    requires IsSorted(s) && |s| > 0 && s[0] < x
    requires multiset(t) == multiset(s[1..]) + multiset{x}
    ensures forall k :: 0 <= k < |t| ==> s[0] <= t[k]
  {
    forall k | 0 <= k < |t| ensures s[0] <= t[k] {
      assert t[k] in multiset(t);
      if t[k] != x {
        assert t[k] in multiset(s[1..]);
        var i :| 0 <= i < |s[1..]| && s[1..][i] == t[k];
        assert s[0] <= s[i + 1];
      }
    }
  }

  /** Inserts `x` into a sorted list. */
  function Insert(x: real, s: seq<real>): (r: seq<real>)
    requires IsSorted(s)
    ensures IsSorted(r)
    ensures multiset(r) == multiset(s) + multiset{x}
  {
    if s == [] || x <= s[0] then
      ConsSorted(x, s);
      [x] + s
    else
      var tail := Insert(x, s[1..]);
      AllAbove(s[0], tail, s, x);
      ConsSorted(s[0], tail);
      assert s == [s[0]] + s[1..];
      [s[0]] + tail
  }

  /**
   * The ascending rearrangement of `s`: the reference meaning of the page's
   * in-place `sort((a, b) => a - b)`.
   */
  function Sort(s: seq<real>): (r: seq<real>)
    ensures IsSorted(r)
    ensures multiset(r) == multiset(s)
  {
    if s == [] then []
    else
      assert s == [s[0]] + s[1..];
      Insert(s[0], Sort(s[1..]))
  }

  /** `s.slice(1, -1)`: everything but the first and last element; empty below two. */
  function SliceInner(s: seq<real>): (r: seq<real>)
    ensures |r| == if |s| >= 2 then |s| - 2 else 0
    ensures forall i :: 0 <= i < |r| ==> r[i] == s[i + 1]
  {
    if |s| >= 2 then s[1..|s| - 1] else []
  }

  /**
   * The page's throughput aggregate: sort ascending, `slice(1, -1)`, mean.
   * With fewer than three samples the slice is empty and the result is NaN.
   */
  function TrimmedMean(samples: seq<real>): (r: Number)
    ensures r.NaN? <==> |samples| < 3
  {
    SortLength(samples);
    Mean(SliceInner(Sort(samples)))
  }

  // ---- sorting in place -----------------------------------------------------

  /** The first element of a sorted list is a least element of its multiset. */
  lemma {:induction false} SortedHeadIsLeast(a: seq<real>, x: real)
    requires IsSorted(a) && |a| > 0
    requires x in multiset(a)
    ensures a[0] <= x
  {
    var i :| 0 <= i < |a| && a[i] == x;
    assert i == 0 || a[0] <= a[i];
  }

  /** Dropping the first element of a sorted list leaves it sorted. */
  lemma {:induction false} SortedTail(a: seq<real>)
    requires IsSorted(a) && |a| > 0
    ensures IsSorted(a[1..])
  {
    forall i, j | 0 <= i < j < |a| - 1 ensures a[1..][i] <= a[1..][j] {
      assert a[1..][i] == a[i + 1] && a[1..][j] == a[j + 1];
    }
  }

  /** The multiset of a list's tail is its multiset less the first element. */
  lemma {:induction false} TailMultiset(a: seq<real>)
    requires |a| > 0
    ensures multiset(a[1..]) == multiset(a) - multiset{a[0]}
  {
    assert a == [a[0]] + a[1..];
  }

  /**
   * Two sorted arrangements of the same non-empty multiset start with the same
   * element, and what follows is again two sorted arrangements of one multiset.
   */
  lemma {:induction false} SortedHeadsAgree(a: seq<real>, b: seq<real>)
    requires IsSorted(a) && IsSorted(b)
    requires multiset(a) == multiset(b)
    requires |a| > 0
    ensures |b| > 0 && a[0] == b[0]
    ensures IsSorted(a[1..]) && IsSorted(b[1..])
    ensures multiset(a[1..]) == multiset(b[1..])
  {
    assert |a| == |multiset(a)| == |multiset(b)| == |b|;
    assert a[0] in multiset(a) && b[0] in multiset(b);
    SortedHeadIsLeast(a, b[0]);
    SortedHeadIsLeast(b, a[0]);
    TailMultiset(a);
    TailMultiset(b);
    SortedTail(a);
    SortedTail(b);
  }

  /** Two sorted arrangements of the same multiset are the same sequence. */
  lemma {:induction false} SortedUnique(a: seq<real>, b: seq<real>)
    requires IsSorted(a) && IsSorted(b)
    requires multiset(a) == multiset(b)
    ensures a == b
    decreases |a|
  {
    if |a| == 0 {
      assert |b| == |multiset(b)| == |multiset(a)| == 0;
    } else {
      SortedHeadsAgree(a, b);
      SortedUnique(a[1..], b[1..]);
      assert a == [a[0]] + a[1..] && b == [b[0]] + b[1..];
    }
  }

  /**
   * Sorts `a` ascending in place by insertion, the effect of the page's
   * `sort((a, b) => a - b)` on its sample array.
   */
  method SortInPlace(a: array<real>)
    modifies a
    ensures a[..] == Sort(old(a[..]))
  {
    var i := 0;
    while i < a.Length
      invariant 0 <= i <= a.Length
      invariant forall k, l :: 0 <= k < l < i ==> a[k] <= a[l]
      invariant multiset(a[..]) == multiset(old(a[..]))
    {
      SiftDown(a, i);
      i := i + 1;
    }
    SortedUnique(a[..], Sort(old(a[..])));
  }

  /** Moves `a[i]` left past every larger element, extending the sorted prefix `a[..i]` by one. */
  method SiftDown(a: array<real>, i: nat)
    requires i < a.Length
    requires forall k, l :: 0 <= k < l < i ==> a[k] <= a[l]
    modifies a
    ensures forall k, l :: 0 <= k < l <= i ==> a[k] <= a[l]
    ensures multiset(a[..]) == multiset(old(a[..]))
    ensures a[i + 1..] == old(a[i + 1..])
  {
    var j := i;
    while j > 0 && a[j - 1] > a[j]
      invariant 0 <= j <= i
      invariant Sifting(a[..], j, i)
      invariant multiset(a[..]) == multiset(old(a[..]))
      invariant a[i + 1..] == old(a[i + 1..])
    {
      ghost var before := a[..];
      a[j - 1], a[j] := a[j], a[j - 1];
      assert a[..] == before[j - 1 := before[j]][j := before[j - 1]];
      SiftStep(before, j, i);
      assert a[i + 1..] == a[..][i + 1..];
      j := j - 1;
    }
    SiftDone(a[..], j, i);
  }

  /**
   * While `SiftDown` moves the element now at `j` left: the prefix through
   * `i` without it is sorted, and it is at most everything after it.
   */
  ghost predicate Sifting(s: seq<real>, j: int, i: int)
  {
    0 <= j <= i < |s| &&
    (forall k, l :: 0 <= k < l <= i && k != j && l != j ==> s[k] <= s[l]) &&
    (forall l :: j < l <= i ==> s[j] <= s[l])
  }

  /** Swapping the moving element with a larger left neighbour keeps `Sifting` one place further left. */
  lemma {:induction false} SiftStep(s: seq<real>, j: int, i: int)
    requires Sifting(s, j, i) && 0 < j && s[j - 1] > s[j]
    ensures Sifting(s[j - 1 := s[j]][j := s[j - 1]], j - 1, i)
    ensures multiset(s[j - 1 := s[j]][j := s[j - 1]]) == multiset(s)
    ensures s[j - 1 := s[j]][j := s[j - 1]][i + 1..] == s[i + 1..]
  {
    var t := s[j - 1 := s[j]][j := s[j - 1]];
    forall k, l | 0 <= k < l <= i && k != j - 1 && l != j - 1 ensures t[k] <= t[l] {
      if l == j {
        assert t[l] == s[j - 1];
      } else if k == j {
        assert s[j - 1] <= s[l];
      }
    }
    forall l | j - 1 < l <= i ensures t[j - 1] <= t[l] {
    }
  }

  /** When the moving element has stopped, the whole prefix through `i` is sorted. */
  lemma {:induction false} SiftDone(s: seq<real>, j: int, i: int)
    requires Sifting(s, j, i) && (j == 0 || s[j - 1] <= s[j])
    ensures forall k, l :: 0 <= k < l <= i ==> s[k] <= s[l]
  {
    forall k, l | 0 <= k < l <= i ensures s[k] <= s[l] {
      if l == j && k < j - 1 {
        assert s[k] <= s[j - 1];
      }
    }
  }

  // ---- properties of the aggregates ------------------------------------------

  /** The sum distributes over concatenation. */
  lemma {:induction false} SumAppend(a: seq<real>, b: seq<real>)
    ensures Sum(a + b) == Sum(a) + Sum(b)
    decreases |a|
  {
    if |a| > 0 {
      assert (a + b)[1..] == a[1..] + b;
      SumAppend(a[1..], b);
    } else {
      assert a + b == b;
    }
  }

  /** Removing the element at `k` takes it out of the multiset and out of the sum. */
  lemma {:induction false} RemoveAt(b: seq<real>, k: nat)
    requires k < |b|
    ensures multiset(b[..k] + b[k + 1..]) == multiset(b) - multiset{b[k]}
    ensures Sum(b) == Sum(b[..k] + b[k + 1..]) + b[k]
  {
    assert b == b[..k] + [b[k]] + b[k + 1..];
    assert multiset(b) == multiset(b[..k]) + multiset{b[k]} + multiset(b[k + 1..]);
    SumAppend(b[..k] + [b[k]], b[k + 1..]);
    SumAppend(b[..k], [b[k]]);
    SumAppend(b[..k], b[k + 1..]);
    SumSingleton(b[k]);
  }

  /** Rearranging the samples does not change their sum. */
  lemma {:induction false} SumPermutation(a: seq<real>, b: seq<real>)
    requires multiset(a) == multiset(b)
    ensures Sum(a) == Sum(b)
    decreases |a|
  {
    assert |a| == |multiset(a)| == |multiset(b)| == |b|;
    if |a| > 0 {
      assert a[0] in multiset(b);
      var k :| 0 <= k < |b| && b[k] == a[0];
      RemoveAt(b, k);
      TailMultiset(a);
      SumPermutation(a[1..], b[..k] + b[k + 1..]);
    }
  }

  /** Every sample between `lo` and `hi` bounds the sum by `n * lo` and `n * hi`. */
  lemma {:induction false} SumBounds(s: seq<real>, lo: real, hi: real)
    requires forall i :: 0 <= i < |s| ==> lo <= s[i] <= hi
    ensures |s| as real * lo <= Sum(s) <= |s| as real * hi
    decreases |s|
  {
    if s != [] {
      SumBounds(s[1..], lo, hi);
      assert |s| as real * lo == lo + |s[1..]| as real * lo;
      assert |s| as real * hi == hi + |s[1..]| as real * hi;
    }
  }

  /** Dividing a bound on a total by a positive count bounds the quotient. */
  lemma {:induction false} QuotientBounds(total: real, n: real, lo: real, hi: real)
    requires n > 0.0
    requires n * lo <= total <= n * hi
    ensures lo <= total / n <= hi
  {
    var q := total / n;
    assert q * n == total;
    assert n * (q - lo) >= 0.0;
    assert n * (hi - q) >= 0.0;
  }

  /** The mean of the samples lies between their minimum and maximum. */
  lemma {:induction false} AverageBetween(s: seq<real>, lo: real, hi: real)
    requires |s| > 0
    requires forall i :: 0 <= i < |s| ==> lo <= s[i] <= hi
    ensures lo <= Average(s) <= hi
  {
    SumBounds(s, lo, hi);
    QuotientBounds(Sum(s), |s| as real, lo, hi);
  }

  lemma {:induction false} AverageBounds(s: seq<real>)
    requires |s| > 0
    ensures Min(s) <= Average(s) <= Max(s)
  {
    AverageBetween(s, Min(s), Max(s));
  }

  /**
   * `Math.max(...s) - Math.min(...s)`: the largest difference between two
   * samples, so never negative.
   */
  function Spread(s: seq<real>): (r: real)
    requires |s| > 0
    ensures r >= 0.0
    ensures forall i, j :: 0 <= i < |s| && 0 <= j < |s| ==> s[i] - s[j] <= r
    ensures exists i, j :: 0 <= i < |s| && 0 <= j < |s| && s[i] - s[j] == r
  {
    var hi, lo := Max(s), Min(s);
    var i :| 0 <= i < |s| && s[i] == hi;
    var j :| 0 <= j < |s| && s[j] == lo;
    hi - lo
  }

  /** Sorting keeps the length. */
  lemma {:induction false} SortLength(s: seq<real>)
    ensures |Sort(s)| == |s|
  {
    assert |Sort(s)| == |multiset(Sort(s))| == |multiset(s)| == |s|;
  }

  /** The first element of the sorted samples is their minimum. */
  lemma {:induction false} SortFirstIsMin(s: seq<real>)
    requires |s| > 0
    ensures |Sort(s)| == |s|
    ensures Sort(s)[0] == Min(s)
  {
    var t := Sort(s);
    SortLength(s);
    assert Min(s) in multiset(t);
    SortedHeadIsLeast(t, Min(s));
    assert t[0] in multiset(s);
    var p :| 0 <= p < |s| && s[p] == t[0];
  }

  /** The last element of the sorted samples is their maximum. */
  lemma {:induction false} SortLastIsMax(s: seq<real>)
    requires |s| > 0
    ensures |Sort(s)| == |s|
    ensures Sort(s)[|s| - 1] == Max(s)
  {
    var t := Sort(s);
    SortLength(s);
    assert Max(s) in multiset(t);
    var j :| 0 <= j < |t| && t[j] == Max(s);
    assert j == |t| - 1 || t[j] <= t[|t| - 1];
    assert t[|t| - 1] in multiset(s);
    var q :| 0 <= q < |s| && s[q] == t[|t| - 1];
  }

  /** The first and last elements of the sorted samples are their minimum and maximum. */
  lemma {:induction false} SortEnds(s: seq<real>)
    requires |s| > 0
    ensures |Sort(s)| == |s|
    ensures Sort(s)[0] == Min(s)
    ensures Sort(s)[|s| - 1] == Max(s)
  {
    SortFirstIsMin(s);
    SortLastIsMax(s);
  }

  /** The sum of a single sample is that sample. */
  lemma {:induction false} SumSingleton(x: real)
    ensures Sum([x]) == x
  {
    assert [x][1..] == [];
  }

  /** A list of two or more is its first element, its inner slice and its last. */
  lemma {:induction false} SplitEnds(t: seq<real>)
    requires |t| >= 2
    ensures multiset(t) == multiset(SliceInner(t)) + multiset{t[0], t[|t| - 1]}
    ensures Sum(t) == t[0] + Sum(SliceInner(t)) + t[|t| - 1]
  {
    var mid, last := SliceInner(t), t[|t| - 1];
    assert t[1..] == mid + [last];
    assert t == [t[0]] + t[1..];
    SumAppend(mid, [last]);
    SumSingleton(last);
  }

  /**
   * A rearrangement `t` of `s` that starts with `lo` and ends with `hi` keeps,
   * between its ends, exactly `s` less one `lo` and one `hi`.
   */
  lemma {:induction false} InnerOfArrangement(t: seq<real>, s: seq<real>, lo: real, hi: real)
    requires |t| >= 2 && multiset(t) == multiset(s)
    requires t[0] == lo && t[|t| - 1] == hi
    ensures multiset(SliceInner(t)) + multiset{lo, hi} == multiset(s)
    ensures Sum(SliceInner(t)) == Sum(s) - lo - hi
  {
    SplitEnds(t);
    SumPermutation(t, s);
  }

  /**
   * With three or more samples, the trimmed list is the samples with exactly
   * one minimum and one maximum taken out.
   */
  lemma {:induction false} TrimmedMeanDropsExtremes(s: seq<real>)
    requires |s| >= 3
    ensures multiset(SliceInner(Sort(s))) + multiset{Min(s), Max(s)} == multiset(s)
  {
    SortEnds(s);
    InnerOfArrangement(Sort(s), s, Min(s), Max(s));
  }

  /**
   * With three or more samples the trimmed mean is the mean of what is left
   * once one minimum and one maximum are dropped: (sum - min - max) / (n - 2).
   */
  lemma {:induction false} TrimmedMeanValue(s: seq<real>)
    requires |s| >= 3
    ensures TrimmedMean(s) == Finite((Sum(s) - Min(s) - Max(s)) / (|s| - 2) as real)
  {
    var mid := SliceInner(Sort(s));
    SortEnds(s);
    InnerOfArrangement(Sort(s), s, Min(s), Max(s));
    assert TrimmedMean(s) == Finite(Average(mid));
    assert |mid| as real == (|s| - 2) as real;
  }

  /** The trimmed mean, when it is defined, lies between the extreme samples. */
  lemma {:induction false} TrimmedMeanBounds(s: seq<real>)
    requires |s| >= 3
    ensures Min(s) <= TrimmedMean(s).value <= Max(s)
  {
    var t := Sort(s);
    SortEnds(s);
    var mid := SliceInner(t);
    assert |mid| > 0;
    forall k | 0 <= k < |mid| ensures Min(s) <= mid[k] <= Max(s) {
      assert mid[k] == t[k + 1];
      assert t[0] <= t[k + 1] <= t[|t| - 1];
    }
    AverageBounds(mid);
    assert Min(s) <= Min(mid) by {
      var i :| 0 <= i < |mid| && mid[i] == Min(mid);
    }
    assert Max(mid) <= Max(s) by {
      var i :| 0 <= i < |mid| && mid[i] == Max(mid);
    }
  }
}
