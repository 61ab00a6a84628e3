/**
 * The timing monitor (utils/performance-monitor.ts): a window of the latest 50 durations
 * per operation name, with statistics over a sorted copy and the page-flip warm-up check.
 * Durations are reals; clocks and logging are not modelled.
 */
module Perf {
  import opened Wrappers
  import opened Sorting

  const WindowSize := 50

  /** The operation name the page-flip timing is recorded under. */
  const PageFlipOperation := "翻页总耗时"

  /** The latest `WindowSize` samples of a history, in arrival order. */
  function Window(history: seq<real>): (w: seq<real>)
    ensures |w| <= WindowSize
    ensures |history| <= WindowSize ==> w == history
    ensures |history| > WindowSize ==> |w| == WindowSize
    ensures w == history[|history| - |w|..]
  {
    if |history| <= WindowSize then history else history[|history| - WindowSize..]
  }

  /** One `push` followed by a `shift` when the series grew past the limit. */
  function PushBounded(times: seq<real>, duration: real): seq<real>
  {
    var pushed := times + [duration];
    if |pushed| > WindowSize then pushed[1..] else pushed
  }

  /** Pushing onto the window of a history gives the window of the longer history. */
  lemma PushBoundedWindow(history: seq<real>, duration: real)
    ensures PushBounded(Window(history), duration) == Window(history + [duration])
  {
    var h := history + [duration];
    if |history| > WindowSize {
      assert Window(history) + [duration] == h[|h| - WindowSize - 1..];
      assert (Window(history) + [duration])[1..] == h[|h| - WindowSize..];
    }
  }

  function Sum(s: seq<real>): real
  {
    if s == [] then 0.0 else Sum(s[..|s| - 1]) + s[|s| - 1]
  }

  /** `count` copies of a lower bound sum to at most the sum, and `count` copies of an upper bound to at least it. */
  lemma {:induction false} SumBounds(s: seq<real>, lo: real, hi: real)
    requires forall k :: 0 <= k < |s| ==> lo <= s[k] <= hi
    ensures |s| as real * lo <= Sum(s) <= |s| as real * hi
  {
    if s != [] {
      SumBounds(s[..|s| - 1], lo, hi);
    }
  }

  function Ascending(a: real, b: real): bool
  {
    a <= b
  }

  lemma AscendingIsTotalPreorder()
    ensures TotalPreorder(Ascending)
  {
  }

  datatype Stats = Stats(min: real, max: real, avg: real, median: real, count: nat)

  /** `getStats` on one series: `None` when it is empty. */
  function StatsOf(times: seq<real>): (r: Option<Stats>)
    ensures r.None? <==> times == []
    ensures r.Some? ==> r.value.count == |times|
  {
    if times == [] then None
    else
      var sorted := Sort(times, Ascending);
      Some(Stats(sorted[0], sorted[|sorted| - 1], Sum(times) / |times| as real, sorted[|sorted| / 2], |times|))
  }

  /**
   * The minimum and maximum are samples bounding all the others, the median is the sample at
   * position n/2 of the sorted copy, and the average lies between the extremes.
   */
  lemma StatsOfSpec(times: seq<real>)
    requires times != []
    ensures var s := StatsOf(times).value;
      && s.min in times && s.max in times && s.median in times
      && (forall k :: 0 <= k < |times| ==> s.min <= times[k] <= s.max)
      && s.min <= s.median <= s.max
      && s.min <= s.avg <= s.max
      && s.median == Sort(times, Ascending)[|times| / 2]
  {
    var sorted := Sort(times, Ascending);
    assert StatsOf(times).value
      == Stats(sorted[0], sorted[|sorted| - 1], Sum(times) / |times| as real, sorted[|sorted| / 2], |times|);
    SortedCopyBounds(times, sorted);
    AverageWithinBounds(times, sorted[0], sorted[|sorted| - 1]);
  }

  /** The average of samples lying between two bounds lies between them too. */
  lemma AverageWithinBounds(times: seq<real>, lo: real, hi: real)
    requires times != []
    requires forall k :: 0 <= k < |times| ==> lo <= times[k] <= hi
    ensures lo <= Sum(times) / |times| as real <= hi
  {
    SumBounds(times, lo, hi);
    AverageBetween(Sum(times), |times| as real, lo, hi);
  }

  /** The first and last elements of the sorted copy are samples that bound every sample. */
  lemma SortedCopyBounds(times: seq<real>, sorted: seq<real>)
    requires times != [] && sorted == Sort(times, Ascending)
    ensures |sorted| == |times|
    ensures sorted[0] in times && sorted[|sorted| - 1] in times && sorted[|sorted| / 2] in times
    ensures sorted[0] <= sorted[|sorted| / 2] <= sorted[|sorted| - 1]
    ensures forall k :: 0 <= k < |times| ==> sorted[0] <= times[k] <= sorted[|sorted| - 1]
  {
    AscendingIsTotalPreorder();
    SortSorted(times, Ascending);
    SortedEnds(sorted, |sorted| / 2);
    forall k | 0 <= k < |times|
      ensures sorted[0] <= times[k] <= sorted[|sorted| - 1]
    {
      assert times[k] in multiset(sorted);
      var j :| 0 <= j < |sorted| && sorted[j] == times[k];
      SortedEnds(sorted, j);
    }
    assert sorted[0] in multiset(times) && sorted[|sorted| - 1] in multiset(times);
    assert sorted[|sorted| / 2] in multiset(times);
  }

  /** In an ascending sequence every element lies between the first and the last. */
  lemma SortedEnds(sorted: seq<real>, j: nat)
    requires SortedBy(sorted, Ascending) && j < |sorted|
    ensures sorted[0] <= sorted[j] <= sorted[|sorted| - 1]
  {
    if j > 0 {
      assert Ascending(sorted[0], sorted[j]);
    }
    if j < |sorted| - 1 {
      assert Ascending(sorted[j], sorted[|sorted| - 1]);
    }
  }

  lemma AverageBetween(total: real, n: real, lo: real, hi: real)
    requires n > 0.0 && n * lo <= total <= n * hi
    ensures lo <= total / n <= hi
  {
    assert total / n * n == total;
  }

  datatype Optimization = Optimized | Stable

  /** `detectBrowserOptimization` on the page-flip series: nothing below 10 samples. */
  function OptimizationOf(times: seq<real>): (r: Option<Optimization>)
    ensures r.None? <==> |times| < 10
    ensures r == Some(Optimized) <==> |times| >= 10 && Sum(times[..5]) > Sum(times[|times| - 5..]) * 1.5
  {
    if |times| < 10 then None
    else
      var recentAvg := Sum(times[|times| - 5..]) / 5.0;
      var firstAvg := Sum(times[..5]) / 5.0;
      if firstAvg > recentAvg * 1.5 then Some(Optimized) else Some(Stable)
  }

  class PerformanceMonitor {
    var metrics: map<string, seq<real>>
    /** Every duration ever recorded, per operation. */
    ghost var history: map<string, seq<real>>

    /** Each stored series is the window of that operation's history. */
    ghost predicate Valid()
      reads this
    {
      && metrics.Keys == history.Keys
      && forall op :: op in metrics ==> metrics[op] == Window(history[op])
    }

    constructor()
      ensures Valid() && metrics == map[] && history == map[]
    {
      metrics := map[];
      history := map[];
    }

    /** `recordOperation`: only that operation's series changes, and it stays a window of at most 50. */
    method RecordOperation(operation: string, duration: real)
      requires Valid()
      modifies this
      ensures Valid()
      ensures history == old(history)[operation := (if operation in old(history) then old(history)[operation] else []) + [duration]]
      ensures metrics == old(metrics)[operation := Window(history[operation])]
      ensures |metrics[operation]| <= WindowSize
      ensures metrics[operation][|metrics[operation]| - 1] == duration
    {
      ghost var h := if operation in history then history[operation] else [];
      var times := if operation in metrics then metrics[operation] else [];
      PushBoundedWindow(h, duration);
      times := times + [duration];
      if |times| > WindowSize {
        times := times[1..];
      }
      metrics := metrics[operation := times];
      history := history[operation := h + [duration]];
    }

    function GetStats(operation: string): (r: Option<Stats>)
      reads this
      ensures r.None? <==> operation !in metrics || metrics[operation] == []
      ensures r.Some? ==> r == StatsOf(metrics[operation])
    {
      if operation in metrics then StatsOf(metrics[operation]) else None
    }

    function DetectBrowserOptimization(): (r: Option<Optimization>)
      reads this
      ensures r.None? <==> PageFlipOperation !in metrics || |metrics[PageFlipOperation]| < 10
    {
      if PageFlipOperation in metrics then OptimizationOf(metrics[PageFlipOperation]) else None
    }
  }
}
