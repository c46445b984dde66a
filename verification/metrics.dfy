/** The metrics kernel: what one finished flow does to an edge, and why that equals recomputing
    every figure from the edge's complete history. */
module Metrics {
  import opened Common
  import opened OrderStatistics

  const ROLLING_WINDOW: int := 30_000_000_000

  datatype FlowSample = FlowSample(timestamp: int, duration: int, failed: bool)

  /** What `UpdateEdgeMetrics` reads: the clock and the finished flow's derived facts. */
  datatype Completion = Completion(at: int, duration: int, failed: bool, shortLived: bool) {
    function Sample(): FlowSample { FlowSample(at, duration, failed) }
  }

  datatype EdgeMetrics = EdgeMetrics(
    totalDuration: int,
    averageDuration: int,
    failedConnections: nat,
    shortLivedConnections: nat,
    completedConnections: nat,
    recentFlows: seq<FlowSample>,
    requestsPerSecond: real,
    recentAverageLatency: int,
    p95Latency: int,
    failureRate: real)

  const NO_METRICS := EdgeMetrics(0, 0, 0, 0, 0, [], 0.0, 0, 0, 0.0)

  // ---------- samples ----------

  function SumDurations(s: seq<FlowSample>): int {
    if s == [] then 0 else SumDurations(s[..|s| - 1]) + s[|s| - 1].duration
  }

  function CountFailed(s: seq<FlowSample>): nat {
    if s == [] then 0 else CountFailed(s[..|s| - 1]) + Bit(s[|s| - 1].failed)
  }

  function Durations(s: seq<FlowSample>): (d: seq<int>)
    ensures |d| == |s|
  {
    seq(|s|, i requires 0 <= i < |s| => s[i].duration)
  }

  /** The samples later than `cutoff`, in order. */
  function Recent(s: seq<FlowSample>, cutoff: int): seq<FlowSample> {
    if s == [] then []
    else Recent(s[..|s| - 1], cutoff) + if s[|s| - 1].timestamp > cutoff then [s[|s| - 1]] else []
  }

  lemma RecentAppend(s: seq<FlowSample>, x: FlowSample, cutoff: int)
    ensures Recent(s + [x], cutoff) == Recent(s, cutoff) + if x.timestamp > cutoff then [x] else []
  {
    assert (s + [x])[..|s|] == s;
  }

  lemma {:induction false} RecentTwice(s: seq<FlowSample>, c1: int, c2: int)
    requires c1 <= c2
    ensures Recent(Recent(s, c1), c2) == Recent(s, c2)
  {
    if s == [] {
    } else {
      RecentTwice(s[..|s| - 1], c1, c2);
      var r, last := Recent(s[..|s| - 1], c1), s[|s| - 1];
      RecentAppend(r, last, c2);
      assert Recent(s, c1) == r + if last.timestamp > c1 then [last] else [];
      assert r + [] == r;
    }
  }

  predicate Chronological(s: seq<FlowSample>) {
    forall i, j :: 0 <= i < j < |s| ==> s[i].timestamp <= s[j].timestamp
  }

  /** From `from` on the samples are later than the cutoff, and before it they are not. */
  predicate SplitsAt(s: seq<FlowSample>, cutoff: int, from: nat) {
    from <= |s| && forall i :: 0 <= i < |s| ==> (i >= from <==> s[i].timestamp > cutoff)
  }

  lemma SplitsAppend(s: seq<FlowSample>, x: FlowSample, cutoff: int, from: nat)
    requires SplitsAt(s, cutoff, from) && x.timestamp > cutoff
    ensures SplitsAt(s + [x], cutoff, from)
  {
    forall i | 0 <= i < |s + [x]| ensures i >= from <==> (s + [x])[i].timestamp > cutoff {
      assert i < |s| ==> (s + [x])[i] == s[i];
    }
  }

  lemma SuffixAppend(s: seq<FlowSample>, x: FlowSample, from: nat)
    requires from <= |s|
    ensures (s + [x])[from..] == s[from..] + [x]
  {
  }

  lemma {:induction false} NoneRecent(s: seq<FlowSample>, cutoff: int)
    requires forall i :: 0 <= i < |s| ==> s[i].timestamp <= cutoff
    ensures Recent(s, cutoff) == []
  {
    if s == [] {
    } else {
      NoneRecent(s[..|s| - 1], cutoff);
    }
  }

  lemma AllOld(s: seq<FlowSample>, cutoff: int)
    requires Chronological(s) && s != [] && s[|s| - 1].timestamp <= cutoff
    ensures SplitsAt(s, cutoff, |s|) && Recent(s, cutoff) == s[|s|..]
  {
    forall i | 0 <= i < |s| ensures s[i].timestamp <= cutoff {
      assert i < |s| - 1 ==> s[i].timestamp <= s[|s| - 1].timestamp;
    }
    NoneRecent(s, cutoff);
  }

  lemma ChronologicalInit(s: seq<FlowSample>)
    requires Chronological(s) && s != []
    ensures Chronological(s[..|s| - 1])
  {
  }

  /** On a time-ordered list the window is a suffix: everything later than the cutoff and nothing else. */
  lemma {:induction false} RecentIsSuffix(s: seq<FlowSample>, cutoff: int) returns (from: nat)
    requires Chronological(s)
    ensures SplitsAt(s, cutoff, from) && Recent(s, cutoff) == s[from..]
  {
    if s == [] {
      from := 0;
    } else {
      var init, last := s[..|s| - 1], s[|s| - 1];
      if last.timestamp > cutoff {
        ChronologicalInit(s);
        hide Chronological, Recent;
        from := RecentIsSuffix(init, cutoff);
        SplitsAppend(init, last, cutoff, from);
        SuffixAppend(init, last, from);
        RecentAppend(init, last, cutoff);
        hide SplitsAt;
        assert init + [last] == s;
      } else {
        AllOld(s, cutoff);
        hide Chronological, Recent, SplitsAt;
        from := |s|;
      }
    }
  }

  // ---------- the incremental update ----------

  /** The rolling figures for a window, beside the given cumulative ones. */
  function Rolling(total: int, failed: nat, shortLived: nat, completed: nat, w: seq<FlowSample>): EdgeMetrics
    requires completed > 0 && w != []
  {
    EdgeMetrics(
      total, TruncDiv(total, completed), failed, shortLived, completed,
      w, |w| as real / 30.0, TruncDiv(SumDurations(w), |w|), P95(Durations(w)), CountFailed(w) as real / |w| as real)
  }

  /** One completion folded into the running figures. The sample just added is always inside the window. */
  function Updated(m: EdgeMetrics, c: Completion): EdgeMetrics {
    Rolling(
      m.totalDuration + c.duration,
      m.failedConnections + Bit(c.failed),
      m.shortLivedConnections + Bit(c.shortLived),
      m.completedConnections + 1,
      Recent(m.recentFlows + [c.Sample()], c.at - ROLLING_WINDOW))
  }

  // ---------- the specification: keep everything, compute on demand ----------

  function Samples(h: seq<Completion>): seq<FlowSample> { seq(|h|, i requires 0 <= i < |h| => h[i].Sample()) }

  function CountShortLived(h: seq<Completion>): nat {
    if h == [] then 0 else CountShortLived(h[..|h| - 1]) + Bit(h[|h| - 1].shortLived)
  }

  predicate Ordered(h: seq<Completion>) { forall i, j :: 0 <= i < j < |h| ==> h[i].at <= h[j].at }

  /** The samples of the last thirty seconds before the latest update. */
  function Window(h: seq<Completion>): (w: seq<FlowSample>)
    requires h != []
    ensures w != [] && w[|w| - 1] == h[|h| - 1].Sample()
  {
    Recent(Samples(h), h[|h| - 1].at - ROLLING_WINDOW)
  }

  function Summary(h: seq<Completion>): EdgeMetrics {
    if h == [] then NO_METRICS
    else Rolling(SumDurations(Samples(h)), CountFailed(Samples(h)), CountShortLived(h), |h|, Window(h))
  }

  lemma SamplesAppend(h: seq<Completion>, c: Completion)
    ensures Samples(h + [c]) == Samples(h) + [c.Sample()]
    ensures SumDurations(Samples(h + [c])) == SumDurations(Samples(h)) + c.duration
    ensures CountFailed(Samples(h + [c])) == CountFailed(Samples(h)) + Bit(c.failed)
    ensures CountShortLived(h + [c]) == CountShortLived(h) + Bit(c.shortLived)
  {
    var s := Samples(h);
    assert Samples(h + [c]) == s + [c.Sample()];
    assert (s + [c.Sample()])[..|s|] == s;
    assert (h + [c])[..|h|] == h;
  }

  lemma WindowStep(s: seq<FlowSample>, w: seq<FlowSample>, x: FlowSample, c1: int, c2: int)
    requires w == Recent(s, c1) && c1 <= c2
    ensures Recent(w + [x], c2) == Recent(s + [x], c2)
  {
    RecentAppend(s, x, c2);
    RecentAppend(w, x, c2);
    RecentTwice(s, c1, c2);
  }

  lemma SameWindow(h: seq<Completion>, c: Completion, w: seq<FlowSample>)
    requires Ordered(h + [c])
    requires w == if h == [] then [] else Window(h)
    ensures Recent(w + [c.Sample()], c.at - ROLLING_WINDOW) == Window(h + [c])
  {
    SamplesAppend(h, c);
    if h != [] {
      assert (h + [c])[|h| - 1].at <= (h + [c])[|h|].at;
      WindowStep(Samples(h), w, c.Sample(), h[|h| - 1].at - ROLLING_WINDOW, c.at - ROLLING_WINDOW);
    } else {
      assert Samples(h) + [c.Sample()] == w + [c.Sample()];
    }
  }

  /** What `Summary` keeps of a history is enough to carry on from. */
  lemma SummaryFields(h: seq<Completion>)
    ensures Summary(h).totalDuration == SumDurations(Samples(h))
    ensures Summary(h).failedConnections == CountFailed(Samples(h))
    ensures Summary(h).shortLivedConnections == CountShortLived(h)
    ensures Summary(h).completedConnections == |h|
    ensures Summary(h).recentFlows == if h == [] then [] else Window(h)
  {
  }

  lemma SummaryAverage(h: seq<Completion>)
    requires h != []
    ensures Summary(h).averageDuration == TruncDiv(Summary(h).totalDuration, |h|)
  {
    hide TruncDiv, Recent, P95;
  }

  lemma SummaryRolling(h: seq<Completion>)
    requires h != []
    ensures var m := Summary(h); var n := |m.recentFlows|;
      && n > 0 && m.requestsPerSecond * 30.0 == n as real
      && m.recentAverageLatency == TruncDiv(SumDurations(m.recentFlows), n)
      && m.failureRate == CountFailed(m.recentFlows) as real / n as real
  {
    hide TruncDiv, Recent, P95, SumDurations, CountFailed;
  }

  lemma SummaryP95(h: seq<Completion>)
    requires h != []
    ensures Summary(h).recentFlows != [] && Summary(h).p95Latency == P95(Durations(Summary(h).recentFlows))
  {
    hide P95, Recent;
  }

  lemma SummaryIs(h: seq<Completion>, total: int, failed: nat, shortLived: nat, w: seq<FlowSample>)
    requires h != [] && w == Window(h) && total == SumDurations(Samples(h))
    requires failed == CountFailed(Samples(h)) && shortLived == CountShortLived(h)
    ensures Summary(h) == Rolling(total, failed, shortLived, |h|, w)
  {
  }

  lemma UpdatedIs(m: EdgeMetrics, c: Completion, total: int, failed: nat, shortLived: nat, n: nat, w: seq<FlowSample>)
    requires total == m.totalDuration + c.duration && n == m.completedConnections + 1
    requires failed == m.failedConnections + Bit(c.failed) && shortLived == m.shortLivedConnections + Bit(c.shortLived)
    requires w == Recent(m.recentFlows + [c.Sample()], c.at - ROLLING_WINDOW) && w != []
    ensures Updated(m, c) == Rolling(total, failed, shortLived, n, w)
  {
    hide Rolling, Recent;
  }

  /** The update, field by field, as the program assigns it. */
  lemma AssignedIsUpdated(before: EdgeMetrics, c: Completion, after: EdgeMetrics)
    requires after.totalDuration == before.totalDuration + c.duration
    requires after.completedConnections == before.completedConnections + 1
    requires after.averageDuration == TruncDiv(after.totalDuration, after.completedConnections)
    requires after.failedConnections == before.failedConnections + Bit(c.failed)
    requires after.shortLivedConnections == before.shortLivedConnections + Bit(c.shortLived)
    requires after.recentFlows == Recent(before.recentFlows + [c.Sample()], c.at - ROLLING_WINDOW)
    requires after.recentFlows != [] && after.requestsPerSecond == |after.recentFlows| as real / 30.0
    requires after.recentAverageLatency == TruncDiv(SumDurations(after.recentFlows), |after.recentFlows|)
    requires after.p95Latency == P95(Durations(after.recentFlows))
    requires after.failureRate == CountFailed(after.recentFlows) as real / |after.recentFlows| as real
    ensures after == Updated(before, c)
  {
    hide TruncDiv, Recent, P95, SumDurations, CountFailed, Durations;
    UpdatedIs(before, c, after.totalDuration, after.failedConnections, after.shortLivedConnections,
              after.completedConnections, after.recentFlows);
  }

  /** Appending a completion to the history and recomputing gives what the running update gives:
      repeated trimming never loses a sample that is still in the window. */
  lemma UpdateRefinesHistory(h: seq<Completion>, c: Completion)
    requires Ordered(h + [c])
    ensures Updated(Summary(h), c) == Summary(h + [c])
  {
    var m, g := Summary(h), h + [c];
    var total, failed, shortLived := SumDurations(Samples(g)), CountFailed(Samples(g)), CountShortLived(g);
    SummaryFields(h);
    SamplesAppend(h, c);
    SameWindow(h, c, m.recentFlows);
    SummaryIs(g, total, failed, shortLived, Window(g));
    UpdatedIs(m, c, total, failed, shortLived, |g|, Window(g));
  }

  // ---------- what the figures mean ----------

  lemma {:induction false} SumBetween(s: seq<FlowSample>, lo: int, hi: int)
    requires forall i :: 0 <= i < |s| ==> lo <= s[i].duration <= hi
    ensures lo * |s| <= SumDurations(s) <= hi * |s|
  {
    if s == [] {
    } else {
      SumBetween(s[..|s| - 1], lo, hi);
      assert lo * |s| == lo * (|s| - 1) + lo && hi * |s| == hi * (|s| - 1) + hi;
    }
  }

  lemma {:induction false} Extremes(s: seq<FlowSample>) returns (lo: nat, hi: nat)
    requires s != []
    ensures lo < |s| && hi < |s|
    ensures forall i :: 0 <= i < |s| ==> s[lo].duration <= s[i].duration <= s[hi].duration
  {
    if |s| == 1 {
      lo, hi := 0, 0;
    } else {
      lo, hi := Extremes(s[..|s| - 1]);
      assert forall i :: 0 <= i < |s| - 1 ==> s[..|s| - 1][i] == s[i];
      if s[|s| - 1].duration < s[lo].duration { lo := |s| - 1; }
      if s[|s| - 1].duration > s[hi].duration { hi := |s| - 1; }
    }
  }

  lemma {:induction false} CountFailedAtMost(s: seq<FlowSample>)
    ensures CountFailed(s) <= |s|
  {
    if s == [] {
    } else {
      CountFailedAtMost(s[..|s| - 1]);
    }
  }

  lemma {:induction false} RecentFailed(s: seq<FlowSample>, cutoff: int)
    ensures CountFailed(Recent(s, cutoff)) <= CountFailed(s)
  {
    if s == [] {
    } else {
      var r := Recent(s[..|s| - 1], cutoff);
      RecentFailed(s[..|s| - 1], cutoff);
      assert (r + [s[|s| - 1]])[..|r|] == r;
      assert r + [] == r;
    }
  }

  lemma SamplesChronological(h: seq<Completion>)
    requires Ordered(h)
    ensures Chronological(Samples(h))
  {
  }

  lemma SplitsHistory(h: seq<Completion>, cutoff: int, from: nat)
    requires SplitsAt(Samples(h), cutoff, from)
    ensures from <= |h| && forall i :: 0 <= i < |h| ==> (i >= from <==> h[i].at > cutoff)
  {
    forall i | 0 <= i < |h| ensures i >= from <==> h[i].at > cutoff {
      assert Samples(h)[i].timestamp == h[i].at;
    }
  }

  /** The window is exactly the part of the history later than thirty seconds before the last update. */
  lemma WindowIsHistorySuffix(h: seq<Completion>) returns (from: nat)
    requires Ordered(h)
    ensures from <= |h| && Summary(h).recentFlows == Samples(h)[from..]
    ensures forall i :: 0 <= i < |h| ==> (i >= from <==> h[i].at > h[|h| - 1].at - ROLLING_WINDOW)
  {
    hide Summary, Recent, Ordered, Chronological, SplitsAt;
    SummaryFields(h);
    if h == [] {
      from := 0;
    } else {
      SamplesChronological(h);
      from := RecentIsSuffix(Samples(h), h[|h| - 1].at - ROLLING_WINDOW);
      SplitsHistory(h, h[|h| - 1].at - ROLLING_WINDOW, from);
    }
  }

  lemma RollingFacts(total: int, failed: nat, shortLived: nat, n: nat, w: seq<FlowSample>)
    requires n > 0 && w != []
    ensures var m := Rolling(total, failed, shortLived, n, w);
      && total - n < m.averageDuration * n < total + n
      && (exists lo, hi :: 0 <= lo < |w| && 0 <= hi < |w|
           && w[lo].duration <= m.recentAverageLatency <= w[hi].duration)
      && 0.0 <= m.failureRate <= 1.0
  {
    hide TruncDiv, SumDurations, CountFailed, P95;
    TruncDivFacts(total, n, 0, 0);
    var lo, hi := Extremes(w);
    SumBetween(w, w[lo].duration, w[hi].duration);
    TruncDivFacts(SumDurations(w), |w|, w[lo].duration, w[hi].duration);
    CountFailedAtMost(w);
    Fraction(CountFailed(w), |w|);
  }

  /** Averages are means up to truncation, rates are rates, and the window cannot report more failures
      than the edge has had. */
  lemma AggregatesMeanWhatTheySay(h: seq<Completion>)
    requires h != []
    ensures var m := Summary(h);
      && m.totalDuration - |h| < m.averageDuration * |h| < m.totalDuration + |h|
      && (exists lo, hi :: 0 <= lo < |m.recentFlows| && 0 <= hi < |m.recentFlows|
           && m.recentFlows[lo].duration <= m.recentAverageLatency <= m.recentFlows[hi].duration)
      && 0.0 <= m.failureRate <= 1.0
      && CountFailed(m.recentFlows) <= m.failedConnections <= m.completedConnections
  {
    hide TruncDiv, SumDurations, CountFailed, P95, Recent;
    var total, failed, shortLived := SumDurations(Samples(h)), CountFailed(Samples(h)), CountShortLived(h);
    var w := Window(h);
    SummaryIs(h, total, failed, shortLived, w);
    RollingFacts(total, failed, shortLived, |h|, w);
    CountFailedAtMost(Samples(h));
    RecentFailed(Samples(h), h[|h| - 1].at - ROLLING_WINDOW);
  }
}
