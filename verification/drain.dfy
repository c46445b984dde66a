/** Bounded lifetime: an untouched flow is closed by the stale loop and removed by the cleanup loop in bounded time. */
module Drain {
  import opened Common
  import opened FlowIdentity
  import opened ServiceGraph
  import opened FlowState
  import opened Engine
  import opened Ledger
  import opened Accounting
  import opened Lifecycle
  import opened Runs
  import opened Leaks
  import opened OpenFlows

  /** A step and the wall-clock time at which it took its lock. */
  datatype Timed = Timed(at: int, step: Label)

  /** The cleanup reads the clock under its lock; the stale pass read it no later than it got the lock. */
  predicate ReadsClock(s: State, t: Timed) {
    match t.step
    case Cleanup(now) => now == t.at
    case StaleTracker(_) => s.staleNow.Some? ==> s.staleNow.value <= t.at
    case _ => true
  }

  ghost predicate IsTimedRun(cfg: Timeouts, s: State, now: int, ts: seq<Timed>)
    decreases ts
  {
    ts == [] ||
    (now <= ts[0].at && Enabled(cfg, s, ts[0].step) && ReadsClock(s, ts[0])
     && IsTimedRun(cfg, Step(cfg, s, ts[0].step), ts[0].at, ts[1..]))
  }

  ghost function End(cfg: Timeouts, s: State, now: int, ts: seq<Timed>): State
    requires IsTimedRun(cfg, s, now, ts)
    decreases ts
  {
    if ts == [] then s else End(cfg, Step(cfg, s, ts[0].step), ts[0].at, ts[1..])
  }

  /** The clock reading in the hands of the stale goroutine when the run reaches index `i`. */
  ghost function Reading(cfg: Timeouts, s: State, now: int, ts: seq<Timed>, i: nat): Option<int>
    requires IsTimedRun(cfg, s, now, ts) && i < |ts|
    decreases ts
  {
    if i == 0 then s.staleNow else Reading(cfg, Step(cfg, s, ts[0].step), ts[0].at, ts[1..], i - 1)
  }

  /** No event is about this flow. */
  predicate Untouched(l: Label, k: FlowKey) {
    match l
    case ConnectTracker(ev, _, _) => BuildFlowKey(ev) != k
    case Accept(ev, _, _) => BuildFlowKey(ev) != k
    case CloseTracker(ev, _, _) => BuildFlowKey(ev) != k
    case _ => true
  }

  /** How long the stale pass leaves an open record alone: one never accepted until the incomplete limit after its
      CONNECT, an accepted one until the open limit after it was last touched. */
  function Due(cfg: Timeouts, f: Flow): int {
    if f.accepted then f.lastUpdated + cfg.open else f.connectTime + cfg.incomplete
  }

  /** The record at `k`, if any, is due by `due` if it is still open, and was last touched by `limit` in any case. */
  predicate QuietSince(cfg: Timeouts, s: State, k: FlowKey, due: int, limit: int) {
    k in s.tracker ==>
      s.tracker[k].lastUpdated <= limit && (s.tracker[k].IsOpen() ==> Due(cfg, s.tracker[k]) <= due)
  }

  predicate ClosedSince(s: State, k: FlowKey, limit: int) {
    k in s.tracker ==> s.tracker[k].closed && s.tracker[k].lastUpdated <= limit
  }

  lemma CloseMisses(tracker: TrackerState, ev: Event, k: FlowKey)
    requires k.Canonical() && BuildFlowKey(ev) != k
    ensures CloseTarget(tracker, ev) != Some(k)
  {
    var key := BuildFlowKey(ev);
    BuildFlowKeyCanonical(ev);
    CanonicalBothWays(key);
    assert key.Reverse().Reverse() == key;
  }

  /** An untouched record is unchanged, marked stale, or removed. */
  lemma UntouchedStep(cfg: Timeouts, s: State, l: Label, k: FlowKey)
    requires Enabled(cfg, s, l) && Untouched(l, k) && k.Canonical()
    ensures var s' := Step(cfg, s, l);
      k in s'.tracker ==>
        && k in s.tracker
        && (|| s'.tracker[k] == s.tracker[k]
            || (l.StaleTracker? && IsStale(cfg, s.tracker[k], s.staleNow.value)
                && s'.tracker[k] == MarkStale(cfg, s.tracker[k], s.staleNow.value)))
  {
    hide Connected, Finished, BuildFlowKey, InferFailure;
    if l.CloseTracker? { CloseMisses(s.tracker, l.ev, k); }
  }

  lemma QuietStep(cfg: Timeouts, s: State, t0: Timed, k: FlowKey, due: int, limit: int)
    requires Enabled(cfg, s, t0.step) && ReadsClock(s, t0) && Untouched(t0.step, k) && k.Canonical()
    requires QuietSince(cfg, s, k, due, limit) && t0.at <= limit
    ensures QuietSince(cfg, Step(cfg, s, t0.step), k, due, limit)
  {
    UntouchedStep(cfg, s, t0.step, k);
    hide Step;
  }

  lemma ClosedStep(cfg: Timeouts, s: State, t0: Timed, k: FlowKey, limit: int)
    requires Enabled(cfg, s, t0.step) && Untouched(t0.step, k) && k.Canonical()
    requires ClosedSince(s, k, limit)
    ensures ClosedSince(Step(cfg, s, t0.step), k, limit)
    ensures k !in s.tracker ==> k !in Step(cfg, s, t0.step).tracker
  {
    UntouchedStep(cfg, s, t0.step, k);
    hide Step;
  }

  /** A stale pass whose reading is beyond the limit that applies closes the flow if nothing did before. */
  lemma PassCloses(cfg: Timeouts, s: State, t0: Timed, k: FlowKey, due: int)
    requires Enabled(cfg, s, t0.step) && ReadsClock(s, t0) && k.Canonical()
    requires t0.step.StaleTracker? && s.staleNow.value > due
    requires QuietSince(cfg, s, k, due, t0.at)
    ensures ClosedSince(Step(cfg, s, t0.step), k, t0.at)
  {
    UntouchedStep(cfg, s, t0.step, k);
    if k in s.tracker && s.tracker[k].IsOpen() {
      assert IsStale(cfg, s.tracker[k], s.staleNow.value);
      assert k in t0.step.order;
    }
  }

  lemma {:induction false} AbsentStaysAbsent(cfg: Timeouts, s: State, now: int, ts: seq<Timed>, k: FlowKey)
    requires IsTimedRun(cfg, s, now, ts) && k.Canonical() && k !in s.tracker
    requires forall i :: 0 <= i < |ts| ==> Untouched(ts[i].step, k)
    ensures k !in End(cfg, s, now, ts).tracker
    decreases ts
  {
    hide Step, Enabled, Untouched;
    if ts == [] {
    } else {
      ClosedStep(cfg, s, ts[0], k, 0);
      AbsentStaysAbsent(cfg, Step(cfg, s, ts[0].step), ts[0].at, ts[1..], k);
    }
  }

  lemma {:induction false} SweptAway(cfg: Timeouts, s: State, now: int, ts: seq<Timed>, k: FlowKey, limit: int, j: nat)
    requires IsTimedRun(cfg, s, now, ts) && k.Canonical() && ClosedSince(s, k, limit)
    requires forall i :: 0 <= i < |ts| ==> Untouched(ts[i].step, k)
    requires j < |ts| && ts[j].step.Cleanup? && ts[j].at > limit + cfg.expiration
    ensures k !in End(cfg, s, now, ts).tracker
    decreases ts
  {
    hide Untouched;
    var s' := Step(cfg, s, ts[0].step);
    if j == 0 {
      assert k !in s'.tracker;
      AbsentStaysAbsent(cfg, s', ts[0].at, ts[1..], k);
    } else {
      ClosedStep(cfg, s, ts[0], k, limit);
      SweptAway(cfg, s', ts[0].at, ts[1..], k, limit, j - 1);
    }
  }

  lemma {:induction false} TimesIncrease(cfg: Timeouts, s: State, now: int, ts: seq<Timed>, i: nat)
    requires IsTimedRun(cfg, s, now, ts) && i < |ts|
    ensures now <= ts[i].at && forall j :: 0 <= j <= i ==> ts[j].at <= ts[i].at
    decreases ts
  {
    hide Step, Enabled;
    if i == 0 {
    } else {
      var rest := ts[1..];
      TimesIncrease(cfg, Step(cfg, s, ts[0].step), ts[0].at, rest, i - 1);
      forall j | 0 <= j <= i ensures ts[j].at <= ts[i].at {
        if j > 0 { assert rest[j - 1].at <= rest[i - 1].at; }
      }
    }
  }

  /** A flow is gone once a stale pass has read a clock beyond the limit that applies to it (the incomplete limit after
      its CONNECT if it was never accepted, the open limit after it was last touched if it was) and a cleanup has run
      more than the expiration after that pass, whatever else happens to other flows. */
  lemma {:induction false} FlowExpires(cfg: Timeouts, s: State, now: int, ts: seq<Timed>, k: FlowKey, due: int, i: nat,
                                       j: nat)
    requires IsTimedRun(cfg, s, now, ts) && k.Canonical()
    requires forall n :: 0 <= n < |ts| ==> Untouched(ts[n].step, k)
    requires i < |ts| && ts[i].step.StaleTracker?
    requires Reading(cfg, s, now, ts, i).Some? && Reading(cfg, s, now, ts, i).value > due
    requires QuietSince(cfg, s, k, due, ts[i].at)
    requires j < |ts| && ts[j].step.Cleanup? && ts[j].at > ts[i].at + cfg.expiration
    ensures k !in End(cfg, s, now, ts).tracker
    decreases ts
  {
    hide Step, Enabled, Untouched, QuietSince, ClosedSince;
    var s' := Step(cfg, s, ts[0].step);
    TimesIncrease(cfg, s, now, ts, i);
    TimesIncrease(cfg, s, now, ts, j);
    assert j > i;
    if i == 0 {
      PassCloses(cfg, s, ts[0], k, due);
      SweptAway(cfg, s', ts[0].at, ts[1..], k, ts[0].at, j - 1);
    } else {
      QuietStep(cfg, s, ts[0], k, due, ts[i].at);
      FlowExpires(cfg, s', ts[0].at, ts[1..], k, due, i - 1, j - 1);
    }
  }

  // ---------- and no sooner ----------

  /** One stale pass leaves an open flow open exactly when its reading is within the limit that applies, and ends it at
      that reading otherwise. */
  lemma PassClosesIff(cfg: Timeouts, s: State, order: seq<FlowKey>, k: FlowKey)
    requires Enabled(cfg, s, StaleTracker(order)) && TrackerSound(s) && k in s.tracker && s.tracker[k].IsOpen()
    ensures k in Step(cfg, s, StaleTracker(order)).tracker
    ensures var f, g, now := s.tracker[k], Step(cfg, s, StaleTracker(order)).tracker[k], s.staleNow.value;
      && (g.IsOpen() <==> if f.accepted then now - f.lastUpdated <= cfg.open else now - f.connectTime <= cfg.incomplete)
      && (g.IsOpen() ==> g == f)
      && (!g.IsOpen() ==> g.closeTime == Some(now) && (g.failed <==> !f.accepted))
  {
    assert SoundAt(s.tracker, s.trackerClock, k);
    assert k in order <==> IsStale(cfg, s.tracker[k], s.staleNow.value);
  }

  lemma RemovedOnlyByCleanup(cfg: Timeouts, s: State, l: Label, k: FlowKey)
    requires Enabled(cfg, s, l) && k in s.tracker
    ensures k in Step(cfg, s, l).tracker || (l.Cleanup? && Expired(cfg, s.tracker[k], l.now))
    ensures Step(cfg, s, l).staleNow.Some? && l.StaleReadClock? ==> Step(cfg, s, l).staleNow.value == l.now
    ensures Step(cfg, s, l).staleNow.Some? && !l.StaleReadClock? ==> Step(cfg, s, l).staleNow == s.staleNow
    ensures l.StaleTracker? ==> s.staleNow.Some?
  {
    hide Connected, Finished, BuildFlowKey, InferFailure, MarkStale, AcceptFlow, NewFlow;
  }

  /** The stale clock reading this step makes, if any, is not beyond `due`. */
  predicate ReadsBy(l: Label, due: int) { l.StaleReadClock? ==> l.now <= due }

  lemma OpenStep(cfg: Timeouts, s: State, l: Label, k: FlowKey)
    requires Enabled(cfg, s, l) && Untouched(l, k) && k.Canonical() && k in s.tracker && s.tracker[k].IsOpen()
    requires s.staleNow.Some? ==> s.staleNow.value <= Due(cfg, s.tracker[k])
    requires ReadsBy(l, Due(cfg, s.tracker[k]))
    ensures var t := Step(cfg, s, l);
      && k in t.tracker && t.tracker[k] == s.tracker[k]
      && (t.staleNow.Some? ==> t.staleNow.value <= Due(cfg, s.tracker[k]))
  {
    UntouchedStep(cfg, s, l, k);
    RemovedOnlyByCleanup(cfg, s, l, k);
    hide Step, Enabled;
  }

  /** An open flow stays open, and as it is, through any run without an event on its key in which no stale reading is
      beyond the limit that applies to it: its CONNECT plus the incomplete limit if it was never accepted, its last
      update plus the open limit if it was. */
  lemma {:induction false} StaysOpen(cfg: Timeouts, s: State, ls: seq<Label>, k: FlowKey)
    requires IsRun(cfg, s, ls) && k.Canonical() && k in s.tracker && s.tracker[k].IsOpen()
    requires var f := s.tracker[k];
      var due := if f.accepted then f.lastUpdated + cfg.open else f.connectTime + cfg.incomplete;
      && (s.staleNow.Some? ==> s.staleNow.value <= due)
      && (forall i :: 0 <= i < |ls| ==> Untouched(ls[i], k) && ReadsBy(ls[i], due))
    ensures k in After(cfg, s, ls).tracker && After(cfg, s, ls).tracker[k] == s.tracker[k]
    decreases ls
  {
    hide Step, Enabled, Untouched, ReadsBy;
    if ls == [] {
    } else {
      OpenStep(cfg, s, ls[0], k);
      StaysOpen(cfg, Step(cfg, s, ls[0]), ls[1..], k);
    }
  }

  /** A cleanup keeps exactly the open flows and the closed ones within the expiration. */
  lemma CleanupKeepsIff(cfg: Timeouts, s: State, now: int, k: FlowKey)
    requires Enabled(cfg, s, Cleanup(now)) && k in s.tracker
    ensures var t := Step(cfg, s, Cleanup(now)).tracker;
      && (k in t <==> s.tracker[k].IsOpen() || now - s.tracker[k].lastUpdated <= cfg.expiration)
      && (k in t ==> t[k] == s.tracker[k])
  {
  }

  predicate SweepsBy(l: Label, limit: int) { l.Cleanup? ==> l.now <= limit }

  lemma ClosedStays(cfg: Timeouts, s: State, l: Label, k: FlowKey)
    requires Enabled(cfg, s, l) && Untouched(l, k) && k.Canonical() && k in s.tracker && s.tracker[k].closed
    requires SweepsBy(l, s.tracker[k].lastUpdated + cfg.expiration)
    ensures k in Step(cfg, s, l).tracker && Step(cfg, s, l).tracker[k] == s.tracker[k]
  {
    UntouchedStep(cfg, s, l, k);
    RemovedOnlyByCleanup(cfg, s, l, k);
    hide Step, Enabled;
  }

  /** A closed flow without further events survives every cleanup up to the expiration after it was last touched. */
  lemma {:induction false} StaysTracked(cfg: Timeouts, s: State, ls: seq<Label>, k: FlowKey)
    requires IsRun(cfg, s, ls) && k.Canonical() && k in s.tracker && s.tracker[k].closed
    requires forall i :: 0 <= i < |ls| ==>
      Untouched(ls[i], k) && SweepsBy(ls[i], s.tracker[k].lastUpdated + cfg.expiration)
    ensures k in After(cfg, s, ls).tracker && After(cfg, s, ls).tracker[k] == s.tracker[k]
    decreases ls
  {
    hide Step, Enabled, Untouched, SweepsBy;
    if ls == [] {
    } else {
      ClosedStays(cfg, s, ls[0], k);
      StaysTracked(cfg, Step(cfg, s, ls[0]), ls[1..], k);
    }
  }

  /** The limits the program is started with, in numbers: five seconds, fifteen, thirty. */
  lemma ConfiguredLimits(f: Flow, now: int)
    ensures IsStale(CONFIGURED, f, now) <==>
      !f.closed && if f.accepted then now - f.lastUpdated > 15_000_000_000 else now - f.connectTime > 5_000_000_000
    ensures Expired(CONFIGURED, f, now) <==> f.closed && now - f.lastUpdated > 30_000_000_000
  {
  }

  // ---------- the two loops ----------

  predicate NoEvent(l: Label) { !l.ConnectTracker? && !l.Accept? && !l.CloseTracker? }

  ghost predicate StalePassWithin(cfg: Timeouts, s: State, now: int, ts: seq<Timed>, lo: int, period: nat)
    requires IsTimedRun(cfg, s, now, ts)
  {
    exists i :: 0 <= i < |ts| && ts[i].step.StaleTracker? && ts[i].at <= lo + period
      && Reading(cfg, s, now, ts, i).Some? && lo < Reading(cfg, s, now, ts, i).value
  }

  /** In every stretch of `period` up to `horizon` some stale pass both reads the clock and gets the lock. */
  ghost predicate StaleEvery(cfg: Timeouts, s: State, now: int, ts: seq<Timed>, from: int, period: nat, horizon: int)
    requires IsTimedRun(cfg, s, now, ts)
  {
    forall x :: from <= x && x + period <= horizon ==> StalePassWithin(cfg, s, now, ts, x, period)
  }

  ghost predicate SweepWithin(ts: seq<Timed>, lo: int, period: nat) {
    exists j :: 0 <= j < |ts| && ts[j].step.Cleanup? && lo < ts[j].at <= lo + period
  }

  /** In every stretch of `period` up to `horizon` some cleanup runs. */
  ghost predicate SweepEvery(ts: seq<Timed>, from: int, period: nat, horizon: int) {
    forall x :: from <= x && x + period <= horizon ==> SweepWithin(ts, x, period)
  }

  lemma {:induction false} KeyStaysAbsent(cfg: Timeouts, s: State, now: int, ts: seq<Timed>, k: FlowKey)
    requires IsTimedRun(cfg, s, now, ts) && k !in s.tracker
    requires forall n :: 0 <= n < |ts| ==> NoEvent(ts[n].step)
    ensures k !in End(cfg, s, now, ts).tracker
    decreases ts
  {
    if ts == [] {
    } else {
      assert k !in Step(cfg, s, ts[0].step).tracker;
      KeyStaysAbsent(cfg, Step(cfg, s, ts[0].step), ts[0].at, ts[1..], k);
    }
  }

  /** If events stop at time `t`, the tracker is empty after the longer staleness limit, one stale period, the
      expiration and one cleanup period. */
  lemma QuietEngineEmpties(cfg: Timeouts, s: State, t: int, ts: seq<Timed>, stalePeriod: nat, sweepPeriod: nat,
                           horizon: int)
    requires IsTimedRun(cfg, s, t, ts) && TrackerSound(s) && s.trackerClock <= t
    requires forall n :: 0 <= n < |ts| ==> NoEvent(ts[n].step)
    requires StaleEvery(cfg, s, t, ts, t, stalePeriod, horizon) && SweepEvery(ts, t, sweepPeriod, horizon)
    requires horizon >= t + cfg.Longest() + stalePeriod + cfg.expiration + sweepPeriod
    ensures End(cfg, s, t, ts).tracker == map[]
  {
    var x := t + cfg.Longest();
    assert StalePassWithin(cfg, s, t, ts, x, stalePeriod);
    var i :| 0 <= i < |ts| && ts[i].step.StaleTracker? && ts[i].at <= x + stalePeriod
      && Reading(cfg, s, t, ts, i).Some? && x < Reading(cfg, s, t, ts, i).value;
    TimesIncrease(cfg, s, t, ts, i);
    var y := ts[i].at + cfg.expiration;
    assert SweepWithin(ts, y, sweepPeriod);
    var j :| 0 <= j < |ts| && ts[j].step.Cleanup? && y < ts[j].at <= y + sweepPeriod;
    var s' := End(cfg, s, t, ts);
    forall k ensures k !in s'.tracker {
      if k in s.tracker {
        assert SoundAt(s.tracker, s.trackerClock, k);
        FlowExpires(cfg, s, t, ts, k, x, i, j);
      } else {
        KeyStaysAbsent(cfg, s, t, ts, k);
      }
    }
    assert s'.tracker.Keys == {};
  }

  /** With the program's own limits. The stale loop sleeps five seconds after each pass and the cleanup loop is
      woken every fifteen; `pass` and `late` bound what a pass and a late wake-up add. */
  lemma ConfiguredEngineEmpties(s: State, t: int, ts: seq<Timed>, pass: nat, late: nat)
    requires IsTimedRun(CONFIGURED, s, t, ts) && TrackerSound(s) && s.trackerClock <= t
    requires forall n :: 0 <= n < |ts| ==> NoEvent(ts[n].step)
    requires StaleEvery(CONFIGURED, s, t, ts, t, 5_000_000_000 + pass, t + 65_000_000_000 + pass + late)
    requires SweepEvery(ts, t, 15_000_000_000 + late, t + 65_000_000_000 + pass + late)
    ensures End(CONFIGURED, s, t, ts).tracker == map[]
  {
    QuietEngineEmpties(CONFIGURED, s, t, ts, 5_000_000_000 + pass, 15_000_000_000 + late,
                       t + 65_000_000_000 + pass + late);
  }

  // ---------- once the tracker is empty ----------

  /** With an empty tracker a step that is no event leaves it empty and finds no more stale flows. */
  lemma EmptyStep(cfg: Timeouts, s: State, l: Label)
    requires Enabled(cfg, s, l) && NoEvent(l) && s.tracker == map[]
    ensures Step(cfg, s, l).tracker == map[]
    ensures s.stalePending == [] || l.StaleReadClock? ==> Step(cfg, s, l).stalePending == []
  {
    hide Connected, Finished, IsStale;
    if l.StaleTracker? { HeadIsIn(l.order); }
  }

  lemma {:induction false} EmptyStaysIdle(cfg: Timeouts, s: State, now: int, ts: seq<Timed>)
    requires IsTimedRun(cfg, s, now, ts) && s.tracker == map[] && s.stalePending == []
    requires forall n :: 0 <= n < |ts| ==> NoEvent(ts[n].step)
    ensures End(cfg, s, now, ts).tracker == map[] && End(cfg, s, now, ts).stalePending == []
    decreases ts
  {
    if ts == [] {
    } else {
      EmptyStep(cfg, s, ts[0].step);
      hide Step, Enabled;
      EmptyStaysIdle(cfg, Step(cfg, s, ts[0].step), ts[0].at, ts[1..]);
    }
  }

  /** The stale goroutine starts a new pass only when it has applied every update of the last one. */
  lemma {:induction false} NextPassIsIdle(cfg: Timeouts, s: State, now: int, ts: seq<Timed>, i: nat)
    requires IsTimedRun(cfg, s, now, ts) && s.tracker == map[]
    requires forall n :: 0 <= n < |ts| ==> NoEvent(ts[n].step)
    requires i < |ts| && ts[i].step.StaleReadClock?
    ensures End(cfg, s, now, ts).tracker == map[] && End(cfg, s, now, ts).stalePending == []
    decreases ts
  {
    EmptyStep(cfg, s, ts[0].step);
    hide Step, Enabled;
    if i == 0 {
      EmptyStaysIdle(cfg, Step(cfg, s, ts[0].step), ts[0].at, ts[1..]);
    } else {
      NextPassIsIdle(cfg, Step(cfg, s, ts[0].step), ts[0].at, ts[1..], i - 1);
    }
  }

  // ---------- what is left in the graph ----------

  lemma NoneOpen(s: State, e: EdgeKey)
    requires s.tracker == map[]
    ensures Open(s, ByEdge(e)) == 0
  {
    assert OpenKeys(s.tracker, ByEdge(e)) == {};
  }

  /** Once the tracker is empty and nothing is in flight, what is left of ActiveConnections is exactly the leak: one for
      every open flow overwritten by key reuse and one if a finalisation ever found nothing to subtract from. */
  lemma DrainedActiveIsTheLeak(cfg: Timeouts, s: State, e: EdgeKey)
    requires Reachable(cfg, s) && s.tracker == map[]
    requires s.connecting.None? && s.closing.None? && s.stalePending == []
    ensures Active(s, e) == Count(s.lost, ByEdge(e)) + Damage(s, e)
  {
    ActiveIsExactIff(cfg, s, e);
    NoneOpen(s, e);
  }

  function Steps(ts: seq<Timed>): seq<Label> { seq(|ts|, i requires 0 <= i < |ts| => ts[i].step) }

  lemma {:induction false} TimedRunIsRun(cfg: Timeouts, s: State, now: int, ts: seq<Timed>)
    requires IsTimedRun(cfg, s, now, ts)
    ensures IsRun(cfg, s, Steps(ts)) && After(cfg, s, Steps(ts)) == End(cfg, s, now, ts)
    decreases ts
  {
    hide Step, Enabled;
    if ts == [] {
    } else {
      TimedRunIsRun(cfg, Step(cfg, s, ts[0].step), ts[0].at, ts[1..]);
      assert Steps(ts)[1..] == Steps(ts[1..]);
    }
  }

  lemma NoEventLeavesConnecting(cfg: Timeouts, s: State, l: Label)
    requires Enabled(cfg, s, l) && NoEvent(l) && s.connecting.None?
    ensures Step(cfg, s, l).connecting.None? && AtomicStep(s, l)
  {
    hide Swept, Finished, CloseStale, StaleSnapshots;
  }

  /** Once events stop, what the background loops do is atomic in the sense of `OpenFlows`. */
  lemma {:induction false} QuietRunIsAtomic(cfg: Timeouts, s: State, now: int, ts: seq<Timed>)
    requires IsTimedRun(cfg, s, now, ts) && s.connecting.None?
    requires forall n :: 0 <= n < |ts| ==> NoEvent(ts[n].step)
    ensures IsAtomicRun(cfg, s, Steps(ts)) && End(cfg, s, now, ts).connecting.None?
    decreases ts
  {
    hide Step, Enabled, AtomicStep;
    if ts == [] {
    } else {
      NoEventLeavesConnecting(cfg, s, ts[0].step);
      QuietRunIsAtomic(cfg, Step(cfg, s, ts[0].step), ts[0].at, ts[1..]);
      assert Steps(ts)[1..] == Steps(ts[1..]);
    }
  }

  /** How often the two background loops get to do their work. */
  datatype Periods = Periods(stale: nat, sweep: nat)

  /** Events stop at `t`. The loops go on: `ts` takes the bound from both limits and both periods, and `more` goes on
      until at least the next time the stale loop reads its clock. */
  ghost predicate GoesQuiet(cfg: Timeouts, s: State, t: int, ts: seq<Timed>, periods: Periods, horizon: int,
                            resumed: int, more: seq<Timed>)
  {
    && s.trackerClock <= t && IsTimedRun(cfg, s, t, ts) && IsTimedRun(cfg, End(cfg, s, t, ts), resumed, more)
    && (forall n :: 0 <= n < |ts| ==> NoEvent(ts[n].step))
    && (forall n :: 0 <= n < |more| ==> NoEvent(more[n].step))
    && StaleEvery(cfg, s, t, ts, t, periods.stale, horizon) && SweepEvery(ts, t, periods.sweep, horizon)
    && horizon >= t + cfg.Longest() + periods.stale + cfg.expiration + periods.sweep
    && (exists i :: 0 <= i < |more| && more[i].step.StaleReadClock?)
  }

  ghost function QuietEnd(cfg: Timeouts, s: State, t: int, ts: seq<Timed>, resumed: int, more: seq<Timed>): State
    requires IsTimedRun(cfg, s, t, ts) && IsTimedRun(cfg, End(cfg, s, t, ts), resumed, more)
  {
    End(cfg, End(cfg, s, t, ts), resumed, more)
  }

  /** Then the tracker is empty and the stale goroutine has nothing left to apply. */
  lemma QuietEngineSettles(cfg: Timeouts, s: State, t: int, ts: seq<Timed>, periods: Periods, horizon: int,
                           resumed: int, more: seq<Timed>)
    requires TrackerSound(s) && GoesQuiet(cfg, s, t, ts, periods, horizon, resumed, more)
    ensures var end := QuietEnd(cfg, s, t, ts, resumed, more); end.tracker == map[] && end.stalePending == []
  {
    hide IsTimedRun, End, TrackerSound;
    QuietEngineEmpties(cfg, s, t, ts, periods.stale, periods.sweep, horizon);
    var i :| 0 <= i < |more| && more[i].step.StaleReadClock?;
    NextPassIsIdle(cfg, End(cfg, s, t, ts), resumed, more, i);
  }

  lemma CleanInitially()
    ensures Clean(INITIAL)
  {
  }

  lemma InvariantParts(cfg: Timeouts, s: State)
    requires Invariant(cfg, s)
    ensures TrackerSound(s)
  {
  }

  lemma EmptyAndClean(cfg: Timeouts, s: State, e: EdgeKey)
    requires Invariant(cfg, s) && Clean(s) && s.tracker == map[]
    requires s.connecting.None? && s.closing.None? && s.stalePending == []
    ensures Active(s, e) == 0
  {
    InvariantBalance(cfg, s, e);
    FinishingFindsItsEdge(s, e);
    NoneOpen(s, e);
  }

  lemma QuietKeepsClean(cfg: Timeouts, s: State, now: int, ts: seq<Timed>)
    requires IsTimedRun(cfg, s, now, ts) && s.connecting.None? && Invariant(cfg, s) && Clean(s)
    requires forall n :: 0 <= n < |ts| ==> NoEvent(ts[n].step)
    ensures var end := End(cfg, s, now, ts); Invariant(cfg, end) && Clean(end) && end.connecting.None?
  {
    hide IsRun, After, IsAtomicRun, IsTimedRun, End, Invariant, Clean;
    TimedRunIsRun(cfg, s, now, ts);
    QuietRunIsAtomic(cfg, s, now, ts);
    AtomicRunRefines(cfg, s, Steps(ts));
  }

  /** The whole story of a well-behaved run: after any atomic run without key reuse, if events stop, then within the
      longer staleness limit, one stale period, the expiration, one cleanup period and the next start of a stale pass
      the tracker is empty, and every edge reports zero active connections once the last CLOSE has been applied. */
  lemma EventsStopThenZero(cfg: Timeouts, ls: seq<Label>, t: int, ts: seq<Timed>, periods: Periods, horizon: int,
                           resumed: int, more: seq<Timed>, e: EdgeKey)
    requires IsAtomicRun(cfg, INITIAL, ls) && IsRun(cfg, INITIAL, ls) && After(cfg, INITIAL, ls).connecting.None?
    requires GoesQuiet(cfg, After(cfg, INITIAL, ls), t, ts, periods, horizon, resumed, more)
    ensures var end := QuietEnd(cfg, After(cfg, INITIAL, ls), t, ts, resumed, more);
      end.tracker == map[] && end.stalePending == [] && (end.closing.None? ==> Active(end, e) == 0)
  {
    hide IsRun, After, IsAtomicRun, IsTimedRun, End, Invariant, Clean, StaleEvery, SweepEvery;
    InvariantInitially(cfg);
    CleanInitially();
    AtomicRunRefines(cfg, INITIAL, ls);
    var s := After(cfg, INITIAL, ls);
    InvariantParts(cfg, s);
    QuietEngineSettles(cfg, s, t, ts, periods, horizon, resumed, more);
    QuietKeepsClean(cfg, s, t, ts);
    QuietKeepsClean(cfg, End(cfg, s, t, ts), resumed, more);
    var end := QuietEnd(cfg, s, t, ts, resumed, more);
    if end.closing.None? { EmptyAndClean(cfg, end, e); }
  }

  /** And of any run at all: in the same time, once the last CONNECT and CLOSE have been applied, every edge reports
      exactly as many active connections as steps of the run leaked on it. */
  lemma EventsStopThenLeak(cfg: Timeouts, ls: seq<Label>, t: int, ts: seq<Timed>, periods: Periods, horizon: int,
                           resumed: int, more: seq<Timed>, e: EdgeKey)
    requires IsRun(cfg, INITIAL, ls)
    requires GoesQuiet(cfg, After(cfg, INITIAL, ls), t, ts, periods, horizon, resumed, more)
    ensures IsRun(cfg, INITIAL, ls + Steps(ts) + Steps(more))
    ensures var end := QuietEnd(cfg, After(cfg, INITIAL, ls), t, ts, resumed, more);
      && end == After(cfg, INITIAL, ls + Steps(ts) + Steps(more)) && end.tracker == map[]
      && (end.connecting.None? && end.closing.None?
          ==> Active(end, e) == LeakingSteps(cfg, INITIAL, ls + Steps(ts) + Steps(more), e))
  {
    hide IsRun, After, IsTimedRun, End, Invariant, StaleEvery, SweepEvery, LeakingSteps, Steps;
    InvariantInitially(cfg);
    RunKeepsInvariant(cfg, INITIAL, ls);
    var s := After(cfg, INITIAL, ls);
    InvariantParts(cfg, s);
    QuietEngineSettles(cfg, s, t, ts, periods, horizon, resumed, more);
    TimedRunIsRun(cfg, s, t, ts);
    RunConcat(cfg, INITIAL, ls, Steps(ts));
    TimedRunIsRun(cfg, End(cfg, s, t, ts), resumed, more);
    RunConcat(cfg, INITIAL, ls + Steps(ts), Steps(more));
    var end := QuietEnd(cfg, s, t, ts, resumed, more);
    if end.connecting.None? && end.closing.None? {
      ActiveIsExactIffNoStepLeaks(cfg, ls + Steps(ts) + Steps(more), e);
      NoneOpen(end, e);
    }
  }
}
