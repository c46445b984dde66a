/** What every tracked flow and every snapshot handed to the graph satisfies, in every reachable state. */
module Lifecycle {
  import opened Common
  import opened FlowIdentity
  import opened ServiceGraph
  import opened FlowState
  import opened Engine

  /** Closed exactly when it has a close time; times in order; nothing judged before it is closed. */
  predicate WellTimed(f: Flow) {
    && (f.closed <==> f.closeTime.Some?)
    && f.connectTime <= f.lastUpdated
    && (f.closed ==> f.connectTime <= f.closeTime.value <= f.lastUpdated)
    && (!f.closed ==> !f.failed && !f.shortLived)
  }

  /** A finished flow as the graph sees it. Failed means never accepted; short-lived means under 10ms
      provided the staleness limits are not themselves under 10ms. */
  predicate GoodSnapshot(cfg: Timeouts, f: Flow) {
    && f.closed && WellTimed(f) && f.Duration(0) >= 0
    && (f.failed <==> !f.accepted)
    && (f.shortLived ==> f.Duration(0) < SHORT_LIVED)
    && (cfg.incomplete >= SHORT_LIVED && cfg.open >= SHORT_LIVED ==> (f.shortLived <==> f.Duration(0) < SHORT_LIVED))
  }

  ghost predicate SnapshotsSound(cfg: Timeouts, s: State) {
    && (s.closing.Some? ==> GoodSnapshot(cfg, s.closing.value))
    && (forall i :: 0 <= i < |s.stalePending| ==> GoodSnapshot(cfg, s.stalePending[i]))
    && (forall i :: 0 <= i < |s.dropped| ==> GoodSnapshot(cfg, s.dropped[i]))
    && (forall i :: 0 <= i < |s.updates| ==> GoodSnapshot(cfg, s.updates[i].flow))
  }

  lemma CloseMakesSnapshot(cfg: Timeouts, f: Flow, t1: int, t2: int)
    requires f.IsOpen() && WellTimed(f) && f.lastUpdated <= t1 <= t2
    ensures GoodSnapshot(cfg, CloseFlow(f, t1, t2))
  {
  }

  /** The clock was read before the lock was taken; the staleness guards still put it after the flow's own times. */
  lemma StaleMakesSnapshot(cfg: Timeouts, f: Flow, now: int)
    requires IsStale(cfg, f, now) && WellTimed(f)
    ensures GoodSnapshot(cfg, MarkStale(cfg, f, now))
  {
  }

  ghost predicate SoundAt(tracker: TrackerState, clock: int, k: FlowKey) {
    k in tracker ==>
      tracker[k].key == k && k.Canonical() && WellTimed(tracker[k]) && tracker[k].lastUpdated <= clock
  }

  ghost predicate TrackerSound(s: State) { forall k :: SoundAt(s.tracker, s.trackerClock, k) }

  lemma StepKeepsSoundAt(cfg: Timeouts, s: State, l: Label, k: FlowKey)
    requires Enabled(cfg, s, l) && SoundAt(s.tracker, s.trackerClock, k)
    ensures SoundAt(Step(cfg, s, l).tracker, Step(cfg, s, l).trackerClock, k)
  {
    hide Finished, Connected, BuildFlowKey, FlowKey.Canonical;
    match l
    case ConnectTracker(ev, t1, t2) => BuildFlowKeyCanonical(ev);
    case CloseTracker(ev, t1, t2) =>
      var target := CloseTarget(s.tracker, ev);
      if target == Some(k) { CloseMakesSnapshot(cfg, s.tracker[k], t1, t2); }
    case StaleTracker(order) =>
      if k in order { StaleMakesSnapshot(cfg, s.tracker[k], s.staleNow.value); }
    case _ =>
  }

  lemma StepKeepsTrackerSound(cfg: Timeouts, s: State, l: Label)
    requires Enabled(cfg, s, l) && TrackerSound(s)
    ensures TrackerSound(Step(cfg, s, l))
  {
    forall k { StepKeepsSoundAt(cfg, s, l, k); }
  }

  lemma StepKeepsSnapshotsSound(cfg: Timeouts, s: State, l: Label)
    requires Enabled(cfg, s, l) && TrackerSound(s) && SnapshotsSound(cfg, s)
    ensures SnapshotsSound(cfg, Step(cfg, s, l))
  {
    hide GoodSnapshot, MarkStale, IsStale, CloseFlow, CloseStale, NewFlow, BuildFlowKey, Finished, Connected, Swept;
    match l
    case ConnectTracker(ev, t1, t2) =>
    case ConnectGraph(now) =>
    case Accept(ev, t1, t2) =>
    case CloseTracker(ev, t1, t2) =>
      var k := CloseTarget(s.tracker, ev);
      if k.Some? {
        assert SoundAt(s.tracker, s.trackerClock, k.value);
        CloseMakesSnapshot(cfg, s.tracker[k.value], t1, t2);
      }
    case CloseGraph(now) =>
    case StaleReadClock(now) =>
    case StaleTracker(order) =>
      forall i | 0 <= i < |order|
        ensures GoodSnapshot(cfg, StaleSnapshots(cfg, s.tracker, s.staleNow.value, order)[i])
      {
        assert order[i] in order;
        assert SoundAt(s.tracker, s.trackerClock, order[i]);
        StaleMakesSnapshot(cfg, s.tracker[order[i]], s.staleNow.value);
      }
    case StaleGraph(now) =>
    case Cleanup(now) =>
  }

  /** With canonical keys only, the reversed lookup of `HandleClose` never finds what the direct one missed. */
  lemma ReversedLookupIsRedundant(s: State, ev: Event)
    requires TrackerSound(s)
    ensures BuildFlowKey(ev) !in s.tracker ==> BuildFlowKey(ev).Reverse() !in s.tracker
    ensures CloseLookup(s.tracker, ev) == if BuildFlowKey(ev) in s.tracker then Some(BuildFlowKey(ev)) else None
  {
    BuildFlowKeyCanonical(ev);
    CanonicalBothWays(BuildFlowKey(ev));
    assert SoundAt(s.tracker, s.trackerClock, BuildFlowKey(ev).Reverse());
  }
}
