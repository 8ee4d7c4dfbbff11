/**
 * The benchmark's summary statistics over int64 samples: the average, whose
 * running sum wraps like Go's int64 addition and whose division truncates
 * toward zero, and the median, taken from a sorted copy of the samples.
 * The specification functions Average and Median describe the results;
 * the lemmas state what they mean when nothing overflows.
 */
module Stats {
  import opened GoInts

  // ---------------------------------------------------------------------
  // Average.

  /** The exact (unbounded) sum of the samples. */
  function Sum(s: seq<int>): int
  {
    if s == [] then 0 else Sum(s[..|s| - 1]) + s[|s| - 1]
  }

  /**
   * The average the Go code returns: 0 for no samples, otherwise the int64
   * sum (wrapped) divided by the count, truncated toward zero.
   */
  function Average(s: seq<Int64>): (r: Int64)
    ensures |s| == 0 ==> r == 0
  {
    if |s| == 0 then 0
    else
      QuotByCount(Wrap64(Sum(s)), |s|);
      Quot(Wrap64(Sum(s)), |s|)
  }

  method CalculateAverage(values: array<Int64>) returns (r: Int64)
    ensures r == Average(values[..])
  {
    if values.Length == 0 {
      return 0;
    }
    var sum: Int64 := 0;
    for i := 0 to values.Length
      invariant sum == Wrap64(Sum(values[..i]))
    {
      assert values[..i + 1][..i] == values[..i];
      Wrap64AddLeft(Sum(values[..i]), values[i]);
      sum := Wrap64(sum + values[i]);
    }
    assert values[..values.Length] == values[..];
    QuotByCount(sum, values.Length);
    r := Quot(sum, values.Length);
  }

  /** Dividing by a positive count never moves a value away from zero. */
  lemma QuotByCount(a: int, n: int)
    requires n >= 1
    ensures Abs(Quot(a, n)) <= Abs(a)
  {
    var q := Quot(a, n);
    // The remainder a - q * n lies strictly between -n and n and has the sign of a.
    if a >= 0 {
      assert (-1) * n < q * n <= a;
      ProductOrder(-1, q, n);
      if q > 0 {
        MulAtLeast(n, q);
      }
    } else {
      assert a <= q * n < 1 * n;
      ProductOrder(q, 1, n);
      if q < 0 {
        MulAtLeast(n, -q);
        assert n * (-q) == -(q * n);
      }
    }
  }

  /** The sum of samples that all lie in [lo, hi] lies in [lo * n, hi * n]. */
  lemma {:induction false} SumWithin(s: seq<int>, lo: int, hi: int)
    requires forall i | 0 <= i < |s| :: lo <= s[i] <= hi
    ensures lo * |s| <= Sum(s) <= hi * |s|
  {
    if s != [] {
      var init := s[..|s| - 1];
      SumWithin(init, lo, hi);
      assert lo * |s| == lo * |init| + lo;
      assert hi * |s| == hi * |init| + hi;
    }
  }

  /**
   * When the int64 sum does not overflow, the average of samples that all
   * lie in [lo, hi] lies in [lo, hi] as well.
   */
  lemma AverageWithin(s: seq<Int64>, lo: int, hi: int)
    requires |s| > 0 && InInt64(Sum(s))
    requires forall i | 0 <= i < |s| :: lo <= s[i] <= hi
    ensures lo <= Average(s) <= hi
  {
    var n, total := |s|, Sum(s);
    SumWithin(s, lo, hi);
    var q := Quot(total, n);
    assert Average(s) == q;
    // The remainder total - q * n lies strictly between -n and n.
    assert q * n < (hi + 1) * n;
    ProductOrder(q, hi + 1, n);
    assert (lo - 1) * n < q * n;
    ProductOrder(lo - 1, q, n);
  }

  /** Multiplying by a positive factor keeps the order of two integers. */
  lemma ProductOrder(a: int, b: int, n: int)
    requires n > 0 && a * n < b * n
    ensures a < b
  {
    assert (b - a) * n > 0;
  }

  // ---------------------------------------------------------------------
  // Sorting.

  predicate Sorted(s: seq<int>)
  {
    forall i, j | 0 <= i < j < |s| :: s[i] <= s[j]
  }

  /** `x` inserted before the first element of `t` that is not smaller. */
  function Insert(x: Int64, t: seq<Int64>): (r: seq<Int64>)
    ensures multiset(r) == multiset(t) + multiset{x} && |r| == |t| + 1
    ensures Sorted(t) ==> Sorted(r)
  {
    if t == [] || x <= t[0] then
      assert Sorted(t) ==> Sorted([x] + t) by {
        if Sorted(t) && t != [] {
          ConsSorted(x, t);
        }
      }
      [x] + t
    else
      var rest := Insert(x, t[1..]);
      assert t == [t[0]] + t[1..];
      assert Sorted(t) ==> Sorted([t[0]] + rest) by {
        if Sorted(t) {
          AllAtLeast(t[0], rest, t[1..], x);
          ConsSorted(t[0], rest);
        }
      }
      [t[0]] + rest
  }

  /** A sorted sequence stays sorted behind a head no larger than any of its elements. */
  lemma ConsSorted(h: Int64, t: seq<Int64>)
    requires Sorted(t) && forall i | 0 <= i < |t| :: h <= t[i]
    ensures Sorted([h] + t)
  {
    var r := [h] + t;
    forall i, j | 0 <= i < j < |r| ensures r[i] <= r[j] {
      assert r[j] == t[j - 1];
      if i > 0 {
        assert r[i] == t[i - 1];
      }
    }
  }

  /** Every element of `r` is at least `h` when `r` holds `x` and the elements of `t`, all at least `h`. */
  lemma AllAtLeast(h: int, r: seq<Int64>, t: seq<Int64>, x: Int64)
    requires multiset(r) == multiset(t) + multiset{x}
    requires h <= x && forall i | 0 <= i < |t| :: h <= t[i]
    ensures forall i | 0 <= i < |r| :: h <= r[i]
  {
    forall i | 0 <= i < |r| ensures h <= r[i] {
      assert r[i] in multiset(r);
      if r[i] != x {
        assert r[i] in multiset(t);
        var j :| 0 <= j < |t| && t[j] == r[i];
      }
    }
  }

  /** The samples in ascending order: the reference the in-place sort is held to. */
  function Sort(s: seq<Int64>): (t: seq<Int64>)
    ensures Sorted(t) && multiset(t) == multiset(s) && |t| == |s|
  {
    if s == [] then []
    else
      assert s == [s[0]] + s[1..];
      Insert(s[0], Sort(s[1..]))
  }

  /** The head of a sorted sequence is its least element. */
  lemma HeadIsLeast(t: seq<Int64>, x: Int64)
    requires Sorted(t) && x in multiset(t)
    ensures t[0] <= x
  {
    var i :| 0 <= i < |t| && t[i] == x;
  }

  /** Two ascending orders of the same samples are the same sequence. */
  lemma {:induction false} SortedUnique(t: seq<Int64>, u: seq<Int64>)
    requires Sorted(t) && Sorted(u) && multiset(t) == multiset(u)
    ensures t == u
  {
    if t != [] {
      SortedUniqueStep(t, u);
      SortedUnique(t[1..], u[1..]);
      assert t == [t[0]] + t[1..] && u == [u[0]] + u[1..];
    } else {
      assert |u| == |multiset(u)| == 0;
    }
  }

  /** Two sorted orders of the same nonempty samples start alike and continue with sorted orders of the rest. */
  lemma SortedUniqueStep(t: seq<Int64>, u: seq<Int64>)
    requires Sorted(t) && Sorted(u) && multiset(t) == multiset(u) && t != []
    ensures u != [] && t[0] == u[0]
    ensures Sorted(t[1..]) && Sorted(u[1..]) && multiset(t[1..]) == multiset(u[1..])
  {
    assert |u| == |multiset(u)| == |multiset(t)| == |t|;
    HeadIsLeast(t, u[0]);
    HeadIsLeast(u, t[0]);
    SortedTail(t);
    SortedTail(u);
  }

  /** Dropping the head keeps a sequence sorted and removes one copy of the head. */
  lemma SortedTail(t: seq<Int64>)
    requires Sorted(t) && t != []
    ensures Sorted(t[1..])
    ensures multiset(t[1..]) == multiset(t) - multiset{t[0]}
  {
    assert t == [t[0]] + t[1..];
  }

  /** Sorting the copy in place: insertion by adjacent swaps. */
  method InsertionSort(a: array<Int64>)
    modifies a
    ensures Sorted(a[..])
    ensures multiset(a[..]) == multiset(old(a[..]))
  {
    var i := 0;
    while i < a.Length
      invariant 0 <= i <= a.Length
      invariant forall p, q | 0 <= p < q < i :: a[p] <= a[q]
      invariant multiset(a[..]) == multiset(old(a[..]))
    {
      var j := i;
      while j > 0 && a[j - 1] > a[j]
        invariant 0 <= j <= i
        invariant forall p, q | 0 <= p < q <= i && q != j :: a[p] <= a[q]
        invariant multiset(a[..]) == multiset(old(a[..]))
      {
        a[j - 1], a[j] := a[j], a[j - 1];
        j := j - 1;
      }
      i := i + 1;
    }
  }

  // ---------------------------------------------------------------------
  // Median.

  /**
   * The middle of ascending samples: the middle element for an odd count,
   * otherwise the int64 sum (wrapped) of the two middle elements halved,
   * truncated toward zero.
   */
  function Middle(t: seq<Int64>): (r: Int64)
    requires |t| > 0
  {
    var n := |t|;
    if n % 2 == 0 then
      QuotByCount(Wrap64(t[n / 2 - 1] as int + t[n / 2]), 2);
      Quot(Wrap64(t[n / 2 - 1] as int + t[n / 2]), 2)
    else
      t[n / 2]
  }

  /** The median the Go code returns: 0 for no samples, else the middle of the sorted samples. */
  function Median(s: seq<Int64>): (r: Int64)
    ensures |s| == 0 ==> r == 0
  {
    if |s| == 0 then 0 else Middle(Sort(s))
  }

  /** The caller's samples are read, never reordered: the sort works on a fresh copy. */
  method CalculateMedian(values: array<Int64>) returns (r: Int64)
    ensures r == Median(values[..])
  {
    if values.Length == 0 {
      return 0;
    }
    var sorted := SortedCopy(values);
    ghost var t := sorted[..];
    var n := sorted.Length;
    if n % 2 == 0 {
      QuotByCount(Wrap64(sorted[n / 2 - 1] as int + sorted[n / 2]), 2);
      r := Quot(Wrap64(sorted[n / 2 - 1] as int + sorted[n / 2]), 2);
    } else {
      r := sorted[n / 2];
    }
    assert r == Middle(t);
  }

  /** A fresh array holding the samples in ascending order; the samples stay as they are. */
  method SortedCopy(values: array<Int64>) returns (sorted: array<Int64>)
    ensures fresh(sorted) && sorted[..] == Sort(values[..])
  {
    sorted := new Int64[values.Length];
    forall i | 0 <= i < values.Length {
      sorted[i] := values[i];
    }
    ghost var samples := values[..];
    assert sorted[..] == samples;
    InsertionSort(sorted);
    SortedUnique(sorted[..], Sort(samples));
  }

  /** The median depends only on the samples, not on their order. */
  lemma MedianPermutation(s: seq<Int64>, s': seq<Int64>)
    requires multiset(s) == multiset(s')
    ensures Median(s) == Median(s')
  {
    assert |s| == |multiset(s)| == |s'|;
    SortedUnique(Sort(s), Sort(s'));
  }

  /** Samples already in ascending order are their own sort. */
  lemma MedianOfSorted(s: seq<Int64>)
    requires Sorted(s) && |s| > 0
    ensures Median(s) == Middle(s)
  {
    SortedUnique(Sort(s), s);
  }

  /** For an odd count the median is one of the samples. */
  lemma MedianOddIsSample(s: seq<Int64>)
    requires |s| % 2 == 1
    ensures Median(s) in multiset(s)
  {
    var t := Sort(s);
    assert t[|t| / 2] in multiset(t);
  }

  /**
   * When the two middle samples do not overflow int64 when added, the
   * median of samples that all lie in [lo, hi] lies in [lo, hi]. An odd
   * count needs no such condition: the median is then a sample.
   */
  lemma MedianWithin(s: seq<Int64>, lo: int, hi: int)
    requires |s| > 0
    requires forall i | 0 <= i < |s| :: lo <= s[i] <= hi
    requires |s| % 2 == 0 ==> InInt64(Sort(s)[|s| / 2 - 1] as int + Sort(s)[|s| / 2])
    ensures lo <= Median(s) <= hi
  {
    SortWithin(s, lo, hi);
    MiddleWithin(Sort(s), lo, hi);
  }

  /** Sorting keeps every sample within the bounds the samples lie in. */
  lemma SortWithin(s: seq<Int64>, lo: int, hi: int)
    requires forall i | 0 <= i < |s| :: lo <= s[i] <= hi
    ensures forall k | 0 <= k < |Sort(s)| :: lo <= Sort(s)[k] <= hi
  {
    var t := Sort(s);
    forall k | 0 <= k < |t| ensures lo <= t[k] <= hi {
      assert t[k] in multiset(s);
    }
  }

  /** The middle of sorted samples in [lo, hi] lies in [lo, hi] when the middle pair sums within int64. */
  lemma MiddleWithin(t: seq<Int64>, lo: int, hi: int)
    requires |t| > 0
    requires forall k | 0 <= k < |t| :: lo <= t[k] <= hi
    requires |t| % 2 == 0 ==> InInt64(t[|t| / 2 - 1] as int + t[|t| / 2])
    ensures lo <= Middle(t) <= hi
  {
    var n := |t|;
    if n % 2 == 0 {
      var a, b := t[n / 2 - 1], t[n / 2];
      var q := Quot(a as int + b, 2);
      assert Middle(t) == q;
      // The remainder a + b - 2 * q lies strictly between -2 and 2.
      assert q * 2 < (hi + 1) * 2;
      ProductOrder(q, hi + 1, 2);
      assert (lo - 1) * 2 < q * 2;
      ProductOrder(lo - 1, q, 2);
    }
  }
}
