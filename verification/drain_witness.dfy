/** What the results about a quiet engine suppose of its two loops can be met: for any limits and any event, a run that
    leaves one flow open, and loops that close it, remove it and go on. */
module DrainWitness {
  import opened Common
  import opened FlowIdentity
  import opened ServiceGraph
  import opened FlowState
  import opened Engine
  import opened OpenFlows
  import opened Drain

  // ---------- the steps, one at a time ----------

  lemma ReadClockAt(cfg: Timeouts, s: State, c: int)
    requires s.staleNow.None? && s.stalePending == []
    ensures Enabled(cfg, s, StaleReadClock(c)) && Step(cfg, s, StaleReadClock(c)) == s.(staleNow := Some(c))
  {
  }

  lemma ScanFindsOne(cfg: Timeouts, s: State, k: FlowKey, f: Flow, c: int)
    requires s.staleNow == Some(c) && s.stalePending == [] && s.trackerClock <= c
    requires s.tracker == map[k := f] && IsStale(cfg, f, c)
    ensures Enabled(cfg, s, StaleTracker([k]))
    ensures var g := MarkStale(cfg, f, c);
      Step(cfg, s, StaleTracker([k]))
      == s.(tracker := map[k := g], staleNow := None, stalePending := [g], trackerClock := c)
  {
    hide IsStale, MarkStale;
    var t := Step(cfg, s, StaleTracker([k]));
    assert t.tracker == map[k := MarkStale(cfg, f, c)];
    assert t.stalePending == [MarkStale(cfg, f, c)];
  }

  lemma ScanFindsNone(cfg: Timeouts, s: State, k: FlowKey, f: Flow, c: int)
    requires s.staleNow == Some(c) && s.stalePending == [] && s.trackerClock <= c
    requires s.tracker == map[k := f] && f.closed
    ensures Enabled(cfg, s, StaleTracker([]))
    ensures Step(cfg, s, StaleTracker([])) == s.(staleNow := None, trackerClock := c)
  {
    hide MarkStale;
    var t := Step(cfg, s, StaleTracker([]));
    assert t.tracker == s.tracker && t.stalePending == [];
  }

  lemma ApplyOne(cfg: Timeouts, s: State, g: Flow, c: int)
    requires s.stalePending == [g] && g.edge in s.graph && s.graphClock <= c
    ensures Enabled(cfg, s, StaleGraph(c))
    ensures var t := Step(cfg, s, StaleGraph(c));
      t == s.(stalePending := [], graph := t.graph, graphClock := c, updates := t.updates)
  {
    hide Finished;
  }

  lemma SweepAt(cfg: Timeouts, s: State, k: FlowKey, f: Flow, c: int)
    requires s.tracker == map[k := f] && s.trackerClock <= c
    ensures Enabled(cfg, s, Cleanup(c))
    ensures Step(cfg, s, Cleanup(c))
         == s.(tracker := if Expired(cfg, f, c) then map[] else map[k := f], trackerClock := c)
  {
    hide Expired;
  }

  // ---------- timed runs, one step longer ----------

  lemma Prepend(cfg: Timeouts, s: State, now: int, x: Timed, rest: seq<Timed>)
    requires now <= x.at && Enabled(cfg, s, x.step) && ReadsClock(s, x)
    requires IsTimedRun(cfg, Step(cfg, s, x.step), x.at, rest)
    ensures IsTimedRun(cfg, s, now, [x] + rest)
    ensures End(cfg, s, now, [x] + rest) == End(cfg, Step(cfg, s, x.step), x.at, rest)
    ensures forall i :: 0 <= i < |rest| ==>
      Reading(cfg, s, now, [x] + rest, i + 1) == Reading(cfg, Step(cfg, s, x.step), x.at, rest, i)
  {
    hide Step, Enabled, ReadsClock;
    assert ([x] + rest)[1..] == rest;
  }

  /** The second round of the two loops, at `c`: the closed flow is removed. */
  lemma SecondRound(cfg: Timeouts, s: State, now: int, k: FlowKey, g: Flow, c: int) returns (ts: seq<Timed>)
    requires s.staleNow.None? && s.stalePending == [] && s.trackerClock <= c && now <= c
    requires s.tracker == map[k := g] && g.closed && c - g.lastUpdated > cfg.expiration
    ensures ts == [Timed(c, StaleReadClock(c)), Timed(c, StaleTracker([])), Timed(c, Cleanup(c))]
    ensures IsTimedRun(cfg, s, now, ts) && Reading(cfg, s, now, ts, 1) == Some(c)
    ensures End(cfg, s, now, ts) == s.(tracker := map[], trackerClock := c)
  {
    hide Step, Enabled;
    var x1, x2, x3 := Timed(c, StaleReadClock(c)), Timed(c, StaleTracker([])), Timed(c, Cleanup(c));
    ReadClockAt(cfg, s, c);
    var s1 := s.(staleNow := Some(c));
    ScanFindsNone(cfg, s1, k, g, c);
    var s2 := s1.(staleNow := None, trackerClock := c);
    SweepAt(cfg, s2, k, g, c);
    assert IsTimedRun(cfg, Step(cfg, s2, x3.step), c, []);
    Prepend(cfg, s2, c, x3, []);
    Prepend(cfg, s1, c, x2, [x3]);
    assert Reading(cfg, s1, c, [x2] + [x3], 0) == Some(c);
    Prepend(cfg, s, now, x1, [x2] + [x3]);
    ts := [x1] + ([x2] + [x3]);
  }

  /** The first round, at `p`: the open flow is closed and applied to the graph. */
  lemma FirstRound(cfg: Timeouts, s: State, k: FlowKey, f: Flow, p: int)
    returns (s1: State, s2: State, s3: State, s4: State, g: Flow)
    requires s.staleNow.None? && s.stalePending == [] && s.trackerClock == s.graphClock == 0
    requires s.tracker == map[k := f] && f.edge in s.graph && IsStale(cfg, f, p) && p > cfg.expiration
    ensures Enabled(cfg, s, StaleReadClock(p)) && s1 == Step(cfg, s, StaleReadClock(p)) && s1.staleNow == Some(p)
    ensures Enabled(cfg, s1, StaleTracker([k])) && s2 == Step(cfg, s1, StaleTracker([k]))
    ensures Enabled(cfg, s2, StaleGraph(p)) && s3 == Step(cfg, s2, StaleGraph(p))
    ensures Enabled(cfg, s3, Cleanup(p)) && s4 == Step(cfg, s3, Cleanup(p))
    ensures s4.staleNow.None? && s4.stalePending == [] && s4.trackerClock <= 2 * p
    ensures s4.tracker == map[k := g] && g.closed && g.lastUpdated == p
  {
    g := MarkStale(cfg, f, p);
    assert g.closed && g.lastUpdated == p && g.edge == f.edge && !Expired(cfg, g, p);
    hide Step, Enabled, MarkStale, IsStale, Expired;
    ReadClockAt(cfg, s, p);
    s1 := s.(staleNow := Some(p));
    ScanFindsOne(cfg, s1, k, f, p);
    s2 := s1.(tracker := map[k := g], staleNow := None, stalePending := [g], trackerClock := p);
    ApplyOne(cfg, s2, g, p);
    s3 := Step(cfg, s2, StaleGraph(p));
    SweepAt(cfg, s3, k, g, p);
    s4 := Step(cfg, s3, Cleanup(p));
  }

  /** Both rounds, at `p` and at twice `p`: the open flow is closed, applied to the graph, and removed. */
  lemma BothRounds(cfg: Timeouts, s: State, k: FlowKey, f: Flow, p: int) returns (ts: seq<Timed>)
    requires s.staleNow.None? && s.stalePending == [] && s.trackerClock == s.graphClock == 0
    requires s.tracker == map[k := f] && f.edge in s.graph && IsStale(cfg, f, p) && p > cfg.expiration
    ensures |ts| == 7 && IsTimedRun(cfg, s, 0, ts)
    ensures ts[1].at == p && ts[1].step.StaleTracker? && Reading(cfg, s, 0, ts, 1) == Some(p)
    ensures ts[5].at == 2 * p && ts[5].step.StaleTracker? && Reading(cfg, s, 0, ts, 5) == Some(2 * p)
    ensures ts[3] == Timed(p, Cleanup(p)) && ts[6] == Timed(2 * p, Cleanup(2 * p))
    ensures forall i :: 0 <= i < 7 ==> NoEvent(ts[i].step)
    ensures var end := End(cfg, s, 0, ts); end.staleNow.None? && end.stalePending == []
  {
    hide Step, Enabled, IsStale;
    var x1, x2 := Timed(p, StaleReadClock(p)), Timed(p, StaleTracker([k]));
    var x3, x4 := Timed(p, StaleGraph(p)), Timed(p, Cleanup(p));
    var s1, s2, s3, s4, g := FirstRound(cfg, s, k, f, p);
    var t4 := SecondRound(cfg, s4, p, k, g, 2 * p);
    Prepend(cfg, s3, p, x4, t4);
    var t3 := [x4] + t4;
    assert Reading(cfg, s3, p, t3, 2) == Some(2 * p);
    Prepend(cfg, s2, p, x3, t3);
    var t2 := [x3] + t3;
    assert Reading(cfg, s2, p, t2, 3) == Some(2 * p);
    Prepend(cfg, s1, p, x2, t2);
    var t1 := [x2] + t2;
    assert Reading(cfg, s1, p, t1, 4) == Some(2 * p) && Reading(cfg, s1, p, t1, 0) == Some(p);
    Prepend(cfg, s, 0, x1, t1);
    ts := [x1] + t1;
  }

  // ---------- the witness ----------

  lemma OneOpenFlow(cfg: Timeouts, ev: Event) returns (ls: seq<Label>)
    ensures IsAtomicRun(cfg, INITIAL, ls) && IsRun(cfg, INITIAL, ls)
    ensures var s, f := After(cfg, INITIAL, ls), NewFlow(0, ev, 0, 0);
      && s.tracker == map[f.key := f] && f.edge in s.graph && s.connecting.None? && s.closing.None?
      && s.staleNow.None? && s.stalePending == [] && s.trackerClock == s.graphClock == 0
  {
    hide BuildFlowKey;
    var l1, l2 := ConnectTracker(ev, 0, 0), ConnectGraph(0);
    ls := [l1, l2];
    var s1 := Step(cfg, INITIAL, l1);
    var s2 := Step(cfg, s1, l2);
    assert ls[1..] == [l2] && [l2][1..] == [];
    assert IsAtomicRun(cfg, s2, []) && IsRun(cfg, s2, []) && After(cfg, s2, []) == s2;
    assert IsAtomicRun(cfg, s1, [l2]) && IsRun(cfg, s1, [l2]) && After(cfg, s1, [l2]) == s2;
  }

  lemma LoopsKeepUp(cfg: Timeouts, s: State, ts: seq<Timed>, p: nat, horizon: int)
    requires IsTimedRun(cfg, s, 0, ts) && |ts| == 7 && horizon < 3 * p
    requires ts[1].at == p && ts[1].step.StaleTracker? && Reading(cfg, s, 0, ts, 1) == Some(p as int)
    requires ts[5].at == 2 * p && ts[5].step.StaleTracker? && Reading(cfg, s, 0, ts, 5) == Some(2 * p as int)
    requires ts[3] == Timed(p, Cleanup(p)) && ts[6] == Timed(2 * p, Cleanup(2 * p))
    ensures StaleEvery(cfg, s, 0, ts, 0, p, horizon) && SweepEvery(ts, 0, p, horizon)
  {
    hide IsTimedRun, Reading;
    forall x | 0 <= x && x + p <= horizon
      ensures StalePassWithin(cfg, s, 0, ts, x, p) && SweepWithin(ts, x, p)
    {
      var i, j := if x < p then 1 else 5, if x < p then 3 else 6;
      assert ts[i].step.StaleTracker? && ts[i].at <= x + p && Reading(cfg, s, 0, ts, i).Some?;
      assert x < Reading(cfg, s, 0, ts, i).value;
      assert ts[j].step.Cleanup? && x < ts[j].at <= x + p;
    }
  }

  /** For any limits and any event there are a run, a moment at which events stop, periods of the two loops and what the
      loops then do, such that everything `EventsStopThenZero` and `EventsStopThenLeak` suppose holds. */
  lemma QuietRunsExist(cfg: Timeouts, ev: Event)
    returns (ls: seq<Label>, ts: seq<Timed>, p: Periods, horizon: int, resumed: int, more: seq<Timed>)
    ensures IsAtomicRun(cfg, INITIAL, ls) && IsRun(cfg, INITIAL, ls)
    ensures var s := After(cfg, INITIAL, ls);
      s.connecting.None? && s.tracker != map[] && GoesQuiet(cfg, s, 0, ts, p, horizon, resumed, more)
  {
    ls := OneOpenFlow(cfg, ev);
    var s, f, n := After(cfg, INITIAL, ls), NewFlow(0, ev, 0, 0), cfg.Longest() + cfg.expiration + 1;
    assert f.key in s.tracker;
    assert IsStale(cfg, f, n);
    hide IsAtomicRun, IsRun, After, NewFlow, IsStale, Step, Enabled;
    ts := BothRounds(cfg, s, f.key, f, n);
    p, horizon, resumed := Periods(n, n), 3 * n - 1, 2 * n;
    LoopsKeepUp(cfg, s, ts, n, horizon);
    var end := End(cfg, s, 0, ts);
    ReadClockAt(cfg, end, 3 * n);
    more := [Timed(3 * n, StaleReadClock(3 * n))];
    assert more[1..] == [];
    assert more[0].step.StaleReadClock? && IsTimedRun(cfg, end, resumed, more) by {
      Prepend(cfg, end, resumed, more[0], []);
      assert [more[0]] + [] == more;
    }
  }
}
