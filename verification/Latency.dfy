/** The latency tracker: a sliding window of samples, nearest-rank percentiles taken from a sorted
    copy, and the rule that skips a bet. Samples are reals. */
module Latency {
  import Sorting

  datatype LatencyStats = LatencyStats(
    count: nat, min: real, max: real, avg: real, p50: real, p95: real, p99: real,
    exceedsCritical: bool, exceedsWarning: bool)

  const NO_STATS := LatencyStats(0, 0.0, 0.0, 0.0, 0.0, 0.0, 0.0, false, false)

  /** The last `n` elements; none for a window size of zero or less. */
  function LastOf(s: seq<real>, n: int): (r: seq<real>)
    ensures |r| <= |s| && s[|s| - |r|..] == r
    ensures |r| == if n <= 0 then 0 else if |s| <= n then |s| else n
  {
    if n <= 0 then [] else if |s| <= n then s else s[|s| - n..]
  }

  /** One more element, and the oldest leaves a full window. */
  lemma LastOfSnoc(s: seq<real>, x: real, n: int)
    ensures var w := LastOf(s, n) + [x];
            LastOf(s + [x], n) == if |w| > n then w[1..] else w
  {
    if n > 0 && |s| >= n {
      assert (s + [x])[|s| + 1 - n..] == s[|s| + 1 - n..] + [x];
      assert (s[|s| - n..] + [x])[1..] == s[|s| - n..][1..] + [x];
      assert s[|s| - n..][1..] == s[|s| + 1 - n..];
    }
  }

  function Value(x: real): real {
    x
  }

  function Ascending(s: seq<real>): (r: seq<real>)
    ensures |r| == |s|
  {
    Sorting.Sort(s, Value)
  }

  /** The nearest rank of percentile `p`: ceil(p * n / 100). */
  function Rank(p: nat, n: nat): (r: nat)
    ensures 100 * (r - 1) < p * n <= 100 * r
  {
    (p * n + 99) / 100
  }

  function Percentile(sorted: seq<real>, p: nat): real
    requires sorted != []
  {
    var idx := Rank(p, |sorted|) - 1;
    var capped := if idx < |sorted| - 1 then idx else |sorted| - 1;
    sorted[if capped > 0 then capped else 0]
  }

  /** How many samples exceed `c`. */
  function CountAbove(s: seq<real>, c: real): nat {
    if s == [] then 0 else CountAbove(s[..|s| - 1], c) + if s[|s| - 1] > c then 1 else 0
  }

  function Sum(s: seq<real>): real {
    if s == [] then 0.0 else Sum(s[..|s| - 1]) + s[|s| - 1]
  }

  // ------------------------------------------------------------------ what sorting preserves

  lemma {:induction false} CountInsert(s: seq<real>, x: real, c: real)
    ensures CountAbove(Sorting.Insert(s, x, Value), c) == CountAbove(s, c) + if x > c then 1 else 0
  {
    if s == [] {
      assert [x][..0] == [];
    } else {
      var front, last := s[..|s| - 1], s[|s| - 1];
      var r := Sorting.Insert(s, x, Value);
      if Value(last) <= Value(x) {
        assert r[..|r| - 1] == s;
      } else {
        CountInsert(front, x, c);
        assert r[..|r| - 1] == Sorting.Insert(front, x, Value);
      }
    }
  }

  lemma {:induction false} CountSort(s: seq<real>, c: real)
    ensures CountAbove(Ascending(s), c) == CountAbove(s, c)
  {
    if s != [] {
      CountSort(s[..|s| - 1], c);
      CountInsert(Ascending(s[..|s| - 1]), s[|s| - 1], c);
    }
  }

  lemma {:induction false} SumInsert(s: seq<real>, x: real)
    ensures Sum(Sorting.Insert(s, x, Value)) == Sum(s) + x
  {
    if s == [] {
      assert [x][..0] == [];
    } else {
      var front, last := s[..|s| - 1], s[|s| - 1];
      var r := Sorting.Insert(s, x, Value);
      if Value(last) <= Value(x) {
        assert r[..|r| - 1] == s;
      } else {
        SumInsert(front, x);
        assert r[..|r| - 1] == Sorting.Insert(front, x, Value);
      }
    }
  }

  lemma {:induction false} SumSort(s: seq<real>)
    ensures Sum(Ascending(s)) == Sum(s)
  {
    if s != [] {
      SumSort(s[..|s| - 1]);
      SumInsert(Ascending(s[..|s| - 1]), s[|s| - 1]);
    }
  }

  /** In a sorted sequence, position `k` exceeds `c` exactly when at least n - k elements do. */
  lemma {:induction false} SortedPosition(s: seq<real>, k: nat, c: real)
    requires k < |s| && Sorting.Sorted(s, Value)
    ensures s[k] > c <==> CountAbove(s, c) >= |s| - k
  {
    var front, n := s[..|s| - 1], |s|;
    assert Value(s[k]) <= Value(s[n - 1]) || k == n - 1;
    assert Sorting.Sorted(front, Value);
    if k < n - 1 {
      SortedPosition(front, k, c);
    } else if n >= 2 {
      SortedPosition(front, n - 2, c);
      assert Value(s[n - 2]) <= Value(s[n - 1]);
    }
  }

  lemma RankBounds(p: nat, n: nat)
    requires 1 <= p <= 100 && n > 0
    ensures 1 <= Rank(p, n) <= n
  {
    assert p * n <= 100 * n;
    assert p * n >= 1;
  }

  lemma RankMonotone(p: nat, q: nat, n: nat)
    requires p <= q
    ensures Rank(p, n) <= Rank(q, n)
  {
    assert p * n <= q * n;
  }

  /** The percentile exceeds a threshold exactly when more than 100 - p percent of the samples in the
      window do; over all thresholds this fixes the percentile. */
  lemma PercentileExceeds(window: seq<real>, p: nat, c: real)
    requires window != [] && 1 <= p <= 100
    ensures Percentile(Ascending(window), p) > c <==> 100 * CountAbove(window, c) > (100 - p) * |window|
  {
    var sorted := Ascending(window);
    Sorting.SortSorts(window, Value);
    RankBounds(p, |window|);
    SortedPosition(sorted, Rank(p, |window|) - 1, c);
    CountSort(window, c);
  }

  lemma {:induction false} PositionsOrdered(sorted: seq<real>, i: nat, j: nat)
    requires Sorting.Sorted(sorted, Value) && i <= j < |sorted|
    ensures sorted[i] <= sorted[j]
  {
    if i < j {
      assert Value(sorted[i]) <= Value(sorted[j]);
    }
  }

  lemma PercentilesOrdered(sorted: seq<real>, p: nat, q: nat)
    requires sorted != [] && Sorting.Sorted(sorted, Value) && 1 <= p <= q <= 100
    ensures sorted[0] <= Percentile(sorted, p) <= Percentile(sorted, q) <= sorted[|sorted| - 1]
    ensures Percentile(sorted, p) in sorted && Percentile(sorted, q) in sorted
  {
    var n := |sorted|;
    RankBounds(p, n);
    RankBounds(q, n);
    RankMonotone(p, q, n);
    PositionsOrdered(sorted, 0, Rank(p, n) - 1);
    PositionsOrdered(sorted, Rank(p, n) - 1, Rank(q, n) - 1);
    PositionsOrdered(sorted, Rank(q, n) - 1, n - 1);
  }

  lemma SortedMembers(window: seq<real>, x: real)
    ensures x in Ascending(window) <==> x in window
  {
    Sorting.SortSorts(window, Value);
    assert x in multiset(Ascending(window)) <==> x in multiset(window);
  }

  /** Each percentile exceeds what more than the rest of the samples exceeds; they lie in order between
      the extremes, and are samples of the window. */
  ghost predicate PercentilesDescribe(stats: LatencyStats, window: seq<real>) {
    && (forall c :: stats.p50 > c <==> 100 * CountAbove(window, c) > 50 * |window|)
    && (forall c :: stats.p95 > c <==> 100 * CountAbove(window, c) > 5 * |window|)
    && (forall c :: stats.p99 > c <==> 100 * CountAbove(window, c) > |window|)
    && stats.min <= stats.p50 <= stats.p95 <= stats.p99 <= stats.max
    && stats.p50 in window && stats.p95 in window && stats.p99 in window
  }

  ghost predicate ExtremesDescribe(stats: LatencyStats, window: seq<real>) {
    forall x | x in window :: stats.min <= x <= stats.max
  }

  lemma PercentilesOfWindow(window: seq<real>, stats: LatencyStats)
    requires window != [] && stats.min == Ascending(window)[0] && stats.max == Ascending(window)[|window| - 1]
    requires stats.p50 == Percentile(Ascending(window), 50) && stats.p95 == Percentile(Ascending(window), 95)
    requires stats.p99 == Percentile(Ascending(window), 99)
    ensures PercentilesDescribe(stats, window)
  {
    var sorted := Ascending(window);
    Sorting.SortSorts(window, Value);
    PercentilesOrdered(sorted, 50, 95);
    PercentilesOrdered(sorted, 95, 99);
    SortedMembers(window, stats.p50);
    SortedMembers(window, stats.p95);
    SortedMembers(window, stats.p99);
    forall c ensures stats.p50 > c <==> 100 * CountAbove(window, c) > 50 * |window| {
      PercentileExceeds(window, 50, c);
    }
    forall c ensures stats.p95 > c <==> 100 * CountAbove(window, c) > 5 * |window| {
      PercentileExceeds(window, 95, c);
    }
    forall c ensures stats.p99 > c <==> 100 * CountAbove(window, c) > |window| {
      PercentileExceeds(window, 99, c);
    }
  }

  lemma ExtremesOfWindow(window: seq<real>, stats: LatencyStats)
    requires window != [] && stats.min == Ascending(window)[0] && stats.max == Ascending(window)[|window| - 1]
    ensures ExtremesDescribe(stats, window)
  {
    var sorted := Ascending(window);
    Sorting.SortSorts(window, Value);
    forall x | x in window ensures stats.min <= x <= stats.max {
      SortedMembers(window, x);
      var i :| 0 <= i < |sorted| && sorted[i] == x;
      PositionsOrdered(sorted, 0, i);
      PositionsOrdered(sorted, i, |sorted| - 1);
    }
  }

  predicate IsMean(avg: real, samples: seq<real>) {
    avg * |samples| as real == Sum(samples)
  }

  /** The order of the samples does not matter for their mean. */
  lemma MeanOfWindow(avg: real, window: seq<real>)
    requires IsMean(avg, Ascending(window))
    ensures IsMean(avg, window)
  {
    SumSort(window);
  }

  lemma OneMore(a: real, n: nat)
    ensures a * (n + 1) as real == a * n as real + a
  {
    assert (n + 1) as real == n as real + 1.0;
  }

  lemma {:induction false} SumBetween(s: seq<real>, lo: real, hi: real)
    requires forall i | 0 <= i < |s| :: lo <= s[i] <= hi
    ensures lo * |s| as real <= Sum(s) <= hi * |s| as real
  {
    if s != [] {
      SumBetween(s[..|s| - 1], lo, hi);
      OneMore(lo, |s| - 1);
      OneMore(hi, |s| - 1);
    }
  }

  lemma TimesKeepsOrder(a: real, b: real, n: real)
    requires a < b && n > 0.0
    ensures a * n < b * n
  {
  }

  /** A mean lies between the extremes. */
  lemma MeanBetween(avg: real, samples: seq<real>, lo: real, hi: real)
    requires samples != [] && IsMean(avg, samples) && forall x | x in samples :: lo <= x <= hi
    ensures lo <= avg <= hi
  {
    forall i | 0 <= i < |samples| ensures lo <= samples[i] <= hi {
      assert samples[i] in samples;
    }
    SumBetween(samples, lo, hi);
    if avg < lo {
      TimesKeepsOrder(avg, lo, |samples| as real);
    } else if hi < avg {
      TimesKeepsOrder(hi, avg, |samples| as real);
    }
  }

  lemma MeanTimesCount(total: real, n: real)
    requires n > 0.0
    ensures total / n * n == total
  {
  }

  class LatencyTracker {
    const warningThresholdMs: real
    const criticalThresholdMs: real
    const windowSize: int
    var latencies: seq<real>
    ghost var recorded: seq<real>

    /** The window is the last `windowSize` samples ever recorded. */
    ghost predicate Valid()
      reads this
    {
      latencies == LastOf(recorded, windowSize)
    }

    constructor (warningThresholdMs: real, criticalThresholdMs: real, windowSize: int)
      ensures Valid() && recorded == []
      ensures this.warningThresholdMs == warningThresholdMs && this.criticalThresholdMs == criticalThresholdMs
      ensures this.windowSize == windowSize
    {
      this.warningThresholdMs, this.criticalThresholdMs := warningThresholdMs, criticalThresholdMs;
      this.windowSize := windowSize;
      latencies, recorded := [], [];
    }

    method Record(latencyMs: real)
      requires Valid()
      modifies this
      ensures Valid() && recorded == old(recorded) + [latencyMs]
    {
      LastOfSnoc(recorded, latencyMs, windowSize);
      recorded := recorded + [latencyMs];
      latencies := latencies + [latencyMs];
      if |latencies| > windowSize {
        latencies := latencies[1..];
      }
    }

    static method Average(samples: seq<real>) returns (avg: real)
      requires samples != []
      ensures IsMean(avg, samples)
    {
      var total := 0.0;
      for k := 0 to |samples|
        invariant total == Sum(samples[..k])
      {
        assert samples[..k + 1][..k] == samples[..k];
        total := total + samples[k];
      }
      assert samples[..|samples|] == samples;
      MeanTimesCount(total, |samples| as real);
      avg := total / |samples| as real;
    }

    method GetStats() returns (stats: LatencyStats)
      ensures latencies == [] ==> stats == NO_STATS
      ensures latencies != [] ==> PercentilesDescribe(stats, latencies) && ExtremesDescribe(stats, latencies)
      ensures latencies != [] ==> stats.count == |latencies| && IsMean(stats.avg, latencies)
      ensures latencies != [] ==> stats.min <= stats.avg <= stats.max
      ensures stats.exceedsCritical <==> Exceeds(criticalThresholdMs)
      ensures stats.exceedsWarning <==> Exceeds(warningThresholdMs)
    {
      var sorted := Ascending(latencies);
      var n := |sorted|;
      if n == 0 {
        return NO_STATS;
      }
      var avg := Average(sorted);
      MeanOfWindow(avg, latencies);
      PercentileExceeds(latencies, 99, criticalThresholdMs);
      PercentileExceeds(latencies, 99, warningThresholdMs);
      var p99 := Percentile(sorted, 99);
      stats := LatencyStats(n, sorted[0], sorted[n - 1], avg, Percentile(sorted, 50), Percentile(sorted, 95),
                            p99, p99 > criticalThresholdMs, p99 > warningThresholdMs);
      PercentilesOfWindow(latencies, stats);
      ExtremesOfWindow(latencies, stats);
      MeanBetween(avg, latencies, stats.min, stats.max);
    }

    /** More than one percent of the samples in the window exceed the threshold. */
    ghost predicate Exceeds(threshold: real)
      reads this
    {
      latencies != [] && 100 * CountAbove(latencies, threshold) > |latencies|
    }

    method ShouldSkipBet() returns (skip: bool)
      ensures skip <==> Exceeds(criticalThresholdMs)
    {
      var stats := GetStats();
      return stats.exceedsCritical;
    }
  }
}
