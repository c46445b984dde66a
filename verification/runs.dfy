/** The main results: what holds in every state the engine can reach, over any run and any interleaving. */
module Runs {
  import opened FlowIdentity
  import opened Metrics
  import opened ServiceGraph
  import opened FlowState
  import opened Engine
  import opened Ledger
  import opened Accounting
  import opened Incarnations
  import opened Lifecycle
  import opened History

  ghost predicate Invariant(cfg: Timeouts, s: State) {
    && TrackerSound(s) && SnapshotsSound(cfg, s) && Numbered(s)
    && (forall e :: Balanced(s, e))
    && (forall e :: Faithful(s, e))
    && (forall id :: Conserved(s, ById(id)))
  }

  lemma ConservedInitially(p: Tag)
    ensures Conserved(INITIAL, p)
  {
    assert OpenKeys(INITIAL.tracker, p) == {};
  }

  lemma BalancedInitially(e: EdgeKey)
    ensures Balanced(INITIAL, e)
  {
    ConservedInitially(ByEdge(e));
    hide Conserved;
  }

  lemma FaithfulInitially(e: EdgeKey)
    ensures Faithful(INITIAL, e)
  {
    hide Summary;
  }

  lemma InvariantInitially(cfg: Timeouts)
    ensures Invariant(cfg, INITIAL)
  {
    hide Balanced, Faithful, Conserved;
    assert TrackerSound(INITIAL) && SnapshotsSound(cfg, INITIAL) && Numbered(INITIAL);
    forall e { BalancedInitially(e); }
    forall e { FaithfulInitially(e); }
    forall id { ConservedInitially(ById(id)); }
  }

  lemma InvariantBalance(cfg: Timeouts, s: State, e: EdgeKey)
    requires Invariant(cfg, s)
    ensures Balanced(s, e) && Faithful(s, e)
  {
  }

  lemma StepKeepsInvariant(cfg: Timeouts, s: State, l: Label)
    requires Enabled(cfg, s, l) && Invariant(cfg, s)
    ensures Invariant(cfg, Step(cfg, s, l))
  {
    hide Step, Enabled, Balanced, Faithful, Conserved, TrackerSound, SnapshotsSound, Numbered;
    StepKeepsTrackerSound(cfg, s, l);
    StepKeepsSnapshotsSound(cfg, s, l);
    StepKeepsNumbered(cfg, s, l);
    forall e { StepKeepsBalance(cfg, s, l, e); }
    forall e { StepKeepsFaithful(cfg, s, l, e); }
    forall id { StepConserves(cfg, s, l, ById(id)); }
  }

  lemma {:induction false} RunKeepsInvariant(cfg: Timeouts, s: State, ls: seq<Label>)
    requires IsRun(cfg, s, ls) && Invariant(cfg, s)
    ensures Invariant(cfg, After(cfg, s, ls))
    decreases ls
  {
    hide Invariant, Step, Enabled;
    if ls == [] {
    } else {
      StepKeepsInvariant(cfg, s, ls[0]);
      RunKeepsInvariant(cfg, Step(cfg, s, ls[0]), ls[1..]);
    }
  }

  /** Some run from the empty engine ends in `s`. */
  ghost predicate Reachable(cfg: Timeouts, s: State) {
    exists ls :: IsRun(cfg, INITIAL, ls) && After(cfg, INITIAL, ls) == s
  }

  lemma ReachableInvariant(cfg: Timeouts, s: State)
    requires Reachable(cfg, s)
    ensures Invariant(cfg, s)
  {
    hide Invariant, Step, Enabled;
    var ls :| IsRun(cfg, INITIAL, ls) && After(cfg, INITIAL, ls) == s;
    InvariantInitially(cfg);
    RunKeepsInvariant(cfg, INITIAL, ls);
  }

  lemma InitialReachable(cfg: Timeouts)
    ensures Reachable(cfg, INITIAL)
  {
    assert IsRun(cfg, INITIAL, []);
  }

  lemma {:induction false} RunConcat(cfg: Timeouts, s: State, a: seq<Label>, b: seq<Label>)
    requires IsRun(cfg, s, a) && IsRun(cfg, After(cfg, s, a), b)
    ensures IsRun(cfg, s, a + b) && After(cfg, s, a + b) == After(cfg, After(cfg, s, a), b)
    decreases a
  {
    hide Step, Enabled;
    if a == [] {
      assert a + b == b;
    } else {
      RunConcat(cfg, Step(cfg, s, a[0]), a[1..], b);
      assert (a + b)[1..] == a[1..] + b;
    }
  }

  lemma Extend(cfg: Timeouts, s: State, ls: seq<Label>, l: Label)
    requires IsRun(cfg, s, ls) && Enabled(cfg, After(cfg, s, ls), l)
    ensures IsRun(cfg, s, ls + [l]) && After(cfg, s, ls + [l]) == Step(cfg, After(cfg, s, ls), l)
  {
    hide Step, Enabled;
    assert [l][1..] == [];
    RunConcat(cfg, s, ls, [l]);
  }

  lemma {:induction false} RunSplit(cfg: Timeouts, s: State, ls: seq<Label>, l: Label)
    requires IsRun(cfg, s, ls + [l])
    ensures IsRun(cfg, s, ls) && Enabled(cfg, After(cfg, s, ls), l)
    ensures After(cfg, s, ls + [l]) == Step(cfg, After(cfg, s, ls), l)
    decreases ls
  {
    hide Step, Enabled;
    if ls == [] {
      assert ls + [l] == [l];
      assert [l][1..] == [];
    } else {
      assert (ls + [l])[1..] == ls[1..] + [l];
      RunSplit(cfg, Step(cfg, s, ls[0]), ls[1..], l);
    }
  }

  lemma ReachStep(cfg: Timeouts, s: State, l: Label)
    requires Reachable(cfg, s) && Enabled(cfg, s, l)
    ensures Reachable(cfg, Step(cfg, s, l))
  {
    hide Step, Enabled;
    var ls :| IsRun(cfg, INITIAL, ls) && After(cfg, INITIAL, ls) == s;
    Extend(cfg, INITIAL, ls, l);
  }

  // ---------- counters ----------

  /** How many flows the edge reports as completed. */
  function Completed(s: State, e: EdgeKey): int { if e in s.graph then s.graph[e].metrics.completedConnections else 0 }

  lemma CompletedCountsUpdates(cfg: Timeouts, s: State, e: EdgeKey)
    requires Reachable(cfg, s)
    ensures Completed(s, e) == CountUpdates(s.updates, ByEdge(e))
  {
    ReachableInvariant(cfg, s);
    InvariantBalance(cfg, s, e);
    HistoryLength(s.updates, e);
    SummaryFields(HistoryOf(s.updates, e));
  }

  /** Exact accounting, per edge, in every reachable state. */
  lemma ExactAccounting(cfg: Timeouts, s: State, e: EdgeKey)
    requires Reachable(cfg, s)
    ensures Active(s, e) + Connecting(s, e)
         == Open(s, ByEdge(e)) + Finishing(s, ByEdge(e)) + Count(s.lost, ByEdge(e))
          + Count(s.dropped, ByEdge(e)) + Guarded(s.updates, e)
    ensures Count(s.begun, ByEdge(e)) == Total(s, e) + Connecting(s, e)
  {
    ReachableInvariant(cfg, s);
    InvariantBalance(cfg, s, e);
  }

  /** The two-lock races cost an edge at most one unit over the whole run, and outside a connect the counter
      never under-reports. */
  lemma RaceDamageIsBounded(cfg: Timeouts, s: State, e: EdgeKey)
    requires Reachable(cfg, s)
    ensures Count(s.dropped, ByEdge(e)) + Guarded(s.updates, e) <= 1
    ensures s.connecting.None? ==> Active(s, e) >= Open(s, ByEdge(e))
    ensures 0 <= Active(s, e) <= Total(s, e) <= Active(s, e) + Completed(s, e)
  {
    ReachableInvariant(cfg, s);
    InvariantBalance(cfg, s, e);
    ActiveAccounting(s, e);
    GuardedAtMostUpdates(s.updates, e);
    CompletedCountsUpdates(cfg, s, e);
  }

  /** With nothing in flight, ActiveConnections exceeds the open flows by the flows lost to key reuse plus the
      damage done by races. `Leaks` says which steps those are. */
  lemma ActiveIsExactIff(cfg: Timeouts, s: State, e: EdgeKey)
    requires Reachable(cfg, s) && s.connecting.None? && s.closing.None? && s.stalePending == []
    ensures Active(s, e) == Open(s, ByEdge(e)) + Count(s.lost, ByEdge(e)) + Damage(s, e)
    ensures Active(s, e) == Open(s, ByEdge(e)) <==> Count(s.lost, ByEdge(e)) == 0 && Damage(s, e) == 0
  {
    ExactAccounting(cfg, s, e);
  }

  // ---------- incarnations ----------

  /** Over the whole run no incarnation reaches the metrics twice, and none that reached them is also open, in flight,
      lost or dropped. */
  lemma AtMostOneFinalisation(cfg: Timeouts, s: State)
    requires Reachable(cfg, s)
    ensures forall i, j :: 0 <= i < j < |s.updates| ==> s.updates[i].flow.id != s.updates[j].flow.id
    ensures forall id :: 0 <= id < |s.begun| ==>
      Open(s, ById(id)) + Finishing(s, ById(id)) + Count(s.lost, ById(id)) + Count(s.dropped, ById(id))
      + CountUpdates(s.updates, ById(id)) == 1
  {
    ReachableInvariant(cfg, s);
    forall i, j | 0 <= i < j < |s.updates| ensures s.updates[i].flow.id != s.updates[j].flow.id {
      assert Conserved(s, ById(s.updates[j].flow.id));
      NoTwoUpdates(s, i, j);
    }
    forall id | 0 <= id < |s.begun|
      ensures Open(s, ById(id)) + Finishing(s, ById(id)) + Count(s.lost, ById(id)) + Count(s.dropped, ById(id))
            + CountUpdates(s.updates, ById(id)) == 1
    {
      ExactlyOneFate(s, id);
    }
  }

  ghost predicate OpenSomewhere(s: State, id: nat) {
    exists k :: k in s.tracker && s.tracker[k].IsOpen() && s.tracker[k].id == id
  }

  /** Duplicate closes, late accepts, stale passes, cleanup and key reuse included: an incarnation that is no longer
      open is never open again. */
  lemma {:induction false} ClosedForGood(cfg: Timeouts, s: State, ls: seq<Label>, id: nat)
    requires IsRun(cfg, s, ls) && Numbered(s) && id < |s.begun| && !OpenSomewhere(s, id)
    ensures !OpenSomewhere(After(cfg, s, ls), id)
    decreases ls
  {
    if ls == [] {
    } else {
      var t := Step(cfg, s, ls[0]);
      StepKeepsNumbered(cfg, s, ls[0]);
      assert !OpenSomewhere(t, id) by {
        forall k | k in t.tracker && t.tracker[k].IsOpen() ensures t.tracker[k].id != id {
          OnlyConnectOpens(cfg, s, ls[0], k);
        }
      }
      ClosedForGood(cfg, t, ls[1..], id);
    }
  }

  // ---------- lifecycle and figures ----------

  lemma SnapshotsMeanWhatTheySay(cfg: Timeouts, s: State, i: nat)
    requires Reachable(cfg, s) && i < |s.updates|
    ensures var f := s.updates[i].flow;
      && f.closed && f.closeTime.Some? && f.connectTime <= f.closeTime.value <= f.lastUpdated
      && f.Duration(0) == f.closeTime.value - f.connectTime >= 0
      && (f.failed <==> !f.accepted)
      && (cfg.incomplete >= SHORT_LIVED && cfg.open >= SHORT_LIVED ==> (f.shortLived <==> f.Duration(0) < SHORT_LIVED))
  {
    ReachableInvariant(cfg, s);
    assert GoodSnapshot(cfg, s.updates[i].flow);
  }

  lemma TrackedFlowsAreSound(cfg: Timeouts, s: State, k: FlowKey)
    requires Reachable(cfg, s) && k in s.tracker
    ensures var f := s.tracker[k];
      && f.key == k && k.Canonical()
      && (f.closed <==> f.closeTime.Some?)
      && (f.closed ==> f.connectTime <= f.closeTime.value <= f.lastUpdated)
      && f.connectTime <= f.lastUpdated
  {
    ReachableInvariant(cfg, s);
    assert SoundAt(s.tracker, s.trackerClock, k);
  }

  /** An edge's figures are those of its complete history, and its window is exactly the last thirty seconds of it. */
  lemma FiguresRefineHistory(cfg: Timeouts, s: State, e: EdgeKey) returns (from: nat)
    requires Reachable(cfg, s) && e in s.graph
    ensures var h := HistoryOf(s.updates, e);
      && s.graph[e].metrics == Summary(h)
      && from <= |h| && s.graph[e].metrics.recentFlows == Samples(h)[from..]
      && (forall i :: 0 <= i < |h| ==> (i >= from <==> h[i].at > h[|h| - 1].at - ROLLING_WINDOW))
  {
    hide Reachable, Invariant, Balanced, HistoryOf, Summary, Samples, Ordered;
    ReachableInvariant(cfg, s);
    InvariantBalance(cfg, s, e);
    from := WindowIsHistorySuffix(HistoryOf(s.updates, e));
  }

  lemma MetricsSummarise(cfg: Timeouts, s: State, e: EdgeKey) returns (h: seq<Completion>)
    requires Reachable(cfg, s) && e in s.graph && Completed(s, e) > 0
    ensures h != [] && s.graph[e].metrics == Summary(h)
  {
    hide Reachable, Invariant, Balanced, HistoryOf, Summary, Ordered;
    ReachableInvariant(cfg, s);
    InvariantBalance(cfg, s, e);
    h := HistoryOf(s.updates, e);
    SummaryFields(h);
  }

  /** For any edge with completions, in any reachable state: the averages are means up to truncation, the rate is a
      rate, and the window reports no more failures than the edge has had. */
  lemma FiguresMeanWhatTheySay(cfg: Timeouts, s: State, e: EdgeKey)
    requires Reachable(cfg, s) && e in s.graph && Completed(s, e) > 0
    ensures var m := s.graph[e].metrics;
      && m.totalDuration - m.completedConnections < m.averageDuration * m.completedConnections
         < m.totalDuration + m.completedConnections
      && (exists lo, hi :: 0 <= lo < |m.recentFlows| && 0 <= hi < |m.recentFlows|
           && m.recentFlows[lo].duration <= m.recentAverageLatency <= m.recentFlows[hi].duration)
      && 0.0 <= m.failureRate <= 1.0
      && CountFailed(m.recentFlows) <= m.failedConnections <= m.completedConnections
  {
    hide Reachable, CountFailed;
    var h := MetricsSummarise(cfg, s, e);
    SummaryFields(h);
    hide Summary;
    AggregatesMeanWhatTheySay(h);
  }

  /** And the P95 it reports is a true order statistic of its window. */
  lemma ReportedP95IsOrderStatistic(cfg: Timeouts, s: State, e: EdgeKey)
    requires Reachable(cfg, s) && e in s.graph && Completed(s, e) > 0
    ensures var p, d := s.graph[e].metrics.p95Latency, Durations(s.graph[e].metrics.recentFlows);
      && d != [] && p in d
      && 100 * OrderStatistics.Count(d, OrderStatistics.AtMost(p)) > 95 * (|d| - 1)
      && 100 * OrderStatistics.Count(d, OrderStatistics.Below(p)) <= 95 * (|d| - 1)
  {
    hide Reachable, Summary, OrderStatistics.P95, OrderStatistics.Count;
    var h := MetricsSummarise(cfg, s, e);
    SummaryP95(h);
    OrderStatistics.P95IsOrderStatistic(Durations(Summary(h).recentFlows));
  }
}
