/** What an edge reports, counted directly over the flows that were applied to it. */
module Figures {
  import opened Common
  import opened Metrics
  import opened ServiceGraph
  import opened FlowState
  import opened Engine
  import opened Lifecycle
  import opened History
  import opened Runs

  /** The updates of one edge, oldest first. */
  function Own(us: seq<Update>, e: EdgeKey): seq<Update> {
    if us == [] then []
    else
      var init, u := Own(us[..|us| - 1], e), us[|us| - 1];
      if u.flow.edge == e then init + [u] else init
  }

  /** From CONNECT to the end. */
  function Lifetime(f: Flow): int { if f.closeTime.Some? then f.closeTime.value - f.connectTime else 0 }

  function CountUnaccepted(us: seq<Update>): nat {
    if us == [] then 0 else CountUnaccepted(us[..|us| - 1]) + Bit(!us[|us| - 1].flow.accepted)
  }

  /** Flows that lasted less than ten milliseconds. */
  function CountBrief(us: seq<Update>): nat {
    if us == [] then 0 else CountBrief(us[..|us| - 1]) + Bit(Lifetime(us[|us| - 1].flow) < 10_000_000)
  }

  function SumLifetimes(us: seq<Update>): int {
    if us == [] then 0 else SumLifetimes(us[..|us| - 1]) + Lifetime(us[|us| - 1].flow)
  }

  /** The sample an update leaves in the window. */
  predicate SampleOf(x: FlowSample, u: Update) {
    x.timestamp == u.at && x.duration == Lifetime(u.flow) && x.failed == !u.flow.accepted
  }

  predicate SamplesOf(w: seq<FlowSample>, us: seq<Update>) {
    |w| == |us| && forall i :: 0 <= i < |w| ==> SampleOf(w[i], us[i])
  }

  ghost predicate AllGood(cfg: Timeouts, us: seq<Update>) {
    forall i :: 0 <= i < |us| ==> GoodSnapshot(cfg, us[i].flow)
  }

  lemma {:induction false} OwnIsGood(cfg: Timeouts, us: seq<Update>, e: EdgeKey)
    requires AllGood(cfg, us)
    ensures AllGood(cfg, Own(us, e))
  {
    hide GoodSnapshot;
    if us == [] {
    } else {
      OwnIsGood(cfg, us[..|us| - 1], e);
    }
  }

  /** The history of the edge, entry by entry. */
  lemma {:induction false} HistoryIsOwn(us: seq<Update>, e: EdgeKey)
    ensures var h, own := HistoryOf(us, e), Own(us, e);
      |h| == |own| && forall i :: 0 <= i < |h| ==> h[i] == own[i].flow.Completed(own[i].at)
  {
    hide Flow.Completed;
    if us == [] {
    } else {
      HistoryIsOwn(us[..|us| - 1], e);
    }
  }

  lemma GoodSample(cfg: Timeouts, u: Update)
    requires GoodSnapshot(cfg, u.flow)
    ensures SampleOf(u.flow.Completed(u.at).Sample(), u) && Lifetime(u.flow) >= 0
    ensures cfg.incomplete >= 10_000_000 && cfg.open >= 10_000_000 ==>
      (u.flow.Completed(u.at).shortLived <==> Lifetime(u.flow) < 10_000_000)
  {
  }

  lemma HistorySamples(cfg: Timeouts, us: seq<Update>, h: seq<Completion>)
    requires AllGood(cfg, us) && |h| == |us| && forall i :: 0 <= i < |h| ==> h[i] == us[i].flow.Completed(us[i].at)
    ensures SamplesOf(Samples(h), us)
  {
    hide GoodSnapshot, SampleOf, Flow.Completed;
    forall i | 0 <= i < |h| ensures SampleOf(Samples(h)[i], us[i]) { GoodSample(cfg, us[i]); }
  }

  lemma {:induction false} SampleCounts(w: seq<FlowSample>, us: seq<Update>)
    requires SamplesOf(w, us)
    ensures CountFailed(w) == CountUnaccepted(us) && SumDurations(w) == SumLifetimes(us)
  {
    if w == [] {
    } else {
      SampleCounts(w[..|w| - 1], us[..|us| - 1]);
      assert SampleOf(w[|w| - 1], us[|us| - 1]);
    }
  }

  lemma {:induction false} BriefCounts(cfg: Timeouts, us: seq<Update>, h: seq<Completion>)
    requires AllGood(cfg, us) && |h| == |us| && forall i :: 0 <= i < |h| ==> h[i] == us[i].flow.Completed(us[i].at)
    requires cfg.incomplete >= 10_000_000 && cfg.open >= 10_000_000
    ensures CountShortLived(h) == CountBrief(us)
  {
    hide GoodSnapshot, Flow.Completed, Lifetime;
    if h == [] {
    } else {
      BriefCounts(cfg, us[..|us| - 1], h[..|h| - 1]);
      GoodSample(cfg, us[|us| - 1]);
    }
  }

  lemma {:induction false} LifetimesNonNegative(cfg: Timeouts, us: seq<Update>)
    requires AllGood(cfg, us)
    ensures SumLifetimes(us) >= 0
  {
    hide GoodSnapshot, Lifetime;
    if us == [] {
    } else {
      LifetimesNonNegative(cfg, us[..|us| - 1]);
      GoodSample(cfg, us[|us| - 1]);
    }
  }

  lemma TruncDivIsFloor(a: nat, b: nat)
    requires b > 0
    ensures TruncDiv(a, b) * b <= a < TruncDiv(a, b) * b + b
  {
    DivBounds(a, b);
  }

  // ---------- in every reachable state ----------

  lemma OwnSummary(cfg: Timeouts, s: State, e: EdgeKey) returns (h: seq<Completion>)
    requires Reachable(cfg, s) && e in s.graph
    ensures s.graph[e].metrics == Summary(h) && Ordered(h) && AllGood(cfg, Own(s.updates, e))
    ensures var own := Own(s.updates, e);
      |h| == |own| && forall i :: 0 <= i < |h| ==> h[i] == own[i].flow.Completed(own[i].at)
  {
    hide Reachable, HistoryOf, Summary, Ordered, Own, GoodSnapshot, Flow.Completed;
    ReachableInvariant(cfg, s);
    InvariantBalance(cfg, s, e);
    h := HistoryOf(s.updates, e);
    HistoryIsOwn(s.updates, e);
    OwnIsGood(cfg, s.updates, e);
  }

  /** The cumulative figures: how many flows were applied, how many of them had never been accepted, how many lasted
      less than ten milliseconds, and how long they lasted together and, rounded down, on average. */
  lemma CumulativeFigures(cfg: Timeouts, s: State, e: EdgeKey)
    requires Reachable(cfg, s) && e in s.graph
    ensures var m, own := s.graph[e].metrics, Own(s.updates, e);
      && m.completedConnections == |own| && m.failedConnections == CountUnaccepted(own)
      && (cfg.incomplete >= 10_000_000 && cfg.open >= 10_000_000 ==> m.shortLivedConnections == CountBrief(own))
      && m.totalDuration == SumLifetimes(own)
      && (own != [] ==> m.averageDuration * |own| <= SumLifetimes(own) < m.averageDuration * |own| + |own|)
  {
    hide Reachable, Summary, Ordered, AllGood, Own, CountUnaccepted, CountBrief, SumLifetimes, TruncDiv, Flow.Completed;
    var own := Own(s.updates, e);
    var h := OwnSummary(cfg, s, e);
    SummaryFields(h);
    if h != [] { SummaryAverage(h); }
    HistorySamples(cfg, own, h);
    SampleCounts(Samples(h), own);
    if cfg.incomplete >= 10_000_000 && cfg.open >= 10_000_000 { BriefCounts(cfg, own, h); }
    LifetimesNonNegative(cfg, own);
    if own != [] { TruncDivIsFloor(SumLifetimes(own), |own|); }
  }

  lemma CompletedAt(us: seq<Update>, h: seq<Completion>)
    requires |h| == |us| && forall i :: 0 <= i < |h| ==> h[i] == us[i].flow.Completed(us[i].at)
    ensures forall i :: 0 <= i < |h| ==> h[i].at == us[i].at
  {
  }

  /** The window: exactly the flows applied later than thirty seconds before the last one, in order, each with the time
      it was applied, how long it lasted, and whether it was never accepted. */
  lemma WindowIsOwn(cfg: Timeouts, s: State, e: EdgeKey) returns (from: nat)
    requires Reachable(cfg, s) && e in s.graph
    ensures var w, own := s.graph[e].metrics.recentFlows, Own(s.updates, e);
      && from <= |own| && SamplesOf(w, own[from..])
      && (forall i :: 0 <= i < |own| ==> (i >= from <==> own[i].at > own[|own| - 1].at - 30_000_000_000))
  {
    hide Reachable, Summary, Ordered, AllGood, Own, Flow.Completed;
    var own := Own(s.updates, e);
    var h := OwnSummary(cfg, s, e);
    from := WindowIsHistorySuffix(h);
    HistorySamples(cfg, own, h);
    hide SampleOf;
    assert forall i :: 0 <= i < |h| ==> h[i].at == own[i].at by { CompletedAt(own, h); }
  }

  lemma {:induction false} SuffixIsGood(cfg: Timeouts, us: seq<Update>, from: nat)
    requires AllGood(cfg, us) && from <= |us|
    ensures AllGood(cfg, us[from..])
  {
  }

  lemma {:induction false} RollingOf(cfg: Timeouts, m: EdgeMetrics, w: seq<Update>, n: nat)
    requires n == |m.recentFlows| > 0 && SamplesOf(m.recentFlows, w) && AllGood(cfg, w)
    requires m.recentAverageLatency == TruncDiv(SumDurations(m.recentFlows), n)
    requires m.failureRate == CountFailed(m.recentFlows) as real / n as real
    ensures m.failureRate == CountUnaccepted(w) as real / |w| as real
    ensures m.recentAverageLatency * |w| <= SumLifetimes(w) < m.recentAverageLatency * |w| + |w|
  {
    SampleCounts(m.recentFlows, w);
    LifetimesNonNegative(cfg, w);
    TruncDivIsFloor(SumLifetimes(w), n);
    hide TruncDiv, SumDurations, CountFailed, CountUnaccepted, SumLifetimes, AllGood;
  }

  /** The rolling figures over that window: flows per second of its thirty seconds, the share never accepted, and the
      mean lifetime rounded down. */
  lemma RollingFigures(cfg: Timeouts, s: State, e: EdgeKey) returns (from: nat)
    requires Reachable(cfg, s) && e in s.graph && Completed(s, e) > 0
    ensures var own := Own(s.updates, e);
      && from < |own|
      && (forall i :: 0 <= i < |own| ==> (i >= from <==> own[i].at > own[|own| - 1].at - 30_000_000_000))
    ensures var m, w := s.graph[e].metrics, Own(s.updates, e)[from..];
      && m.requestsPerSecond * 30.0 == |w| as real
      && m.failureRate == CountUnaccepted(w) as real / |w| as real
      && m.recentAverageLatency * |w| <= SumLifetimes(w) < m.recentAverageLatency * |w| + |w|
  {
    hide Reachable, Summary, Ordered, AllGood, Own, CountUnaccepted, SumLifetimes, TruncDiv, SampleOf, Flow.Completed,
         SumDurations, CountFailed;
    var own := Own(s.updates, e);
    from := WindowIsOwn(cfg, s, e);
    var h := OwnSummary(cfg, s, e);
    SummaryFields(h);
    SummaryRolling(h);
    SuffixIsGood(cfg, own, from);
    RollingOf(cfg, s.graph[e].metrics, own[from..], |s.graph[e].metrics.recentFlows|);
    hide SamplesOf;
  }
}
