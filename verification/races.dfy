/** Runs that reach the bounds of the main results: what the code as written really does. */
module Races {
  import opened Common
  import opened FlowIdentity
  import opened ServiceGraph
  import opened FlowState
  import opened Engine
  import opened Ledger
  import opened Accounting
  import opened Runs
  import opened Leaks

  /** The state after a CONNECT and a CLOSE of the same flow have both been through the tracker and neither has reached
      the graph. */
  lemma ClosedInTrackerOnly(cfg: Timeouts, ev: Event) returns (s: State, f: Flow)
    ensures Reachable(cfg, s)
    ensures f.closed && f.failed && f.edge == EdgeKey(ev.sourceService, ev.destinationService)
    ensures s.tracker == map[BuildFlowKey(ev) := f] && s.graph == map[] && s.dropped == []
    ensures s.connecting == Some(ConnectUpdate(f.edge, ev.destinationPort)) && s.closing == Some(f)
    ensures s.updates == [] && s.stalePending == [] && s.trackerClock == 0 && s.graphClock == 0
  {
    hide BuildFlowKey;
    InitialReachable(cfg);
    ReachStep(cfg, INITIAL, ConnectTracker(ev, 0, 0));
    var s1 := Step(cfg, INITIAL, ConnectTracker(ev, 0, 0));
    assert CloseTarget(s1.tracker, ev) == Some(BuildFlowKey(ev));
    ReachStep(cfg, s1, CloseTracker(ev, 0, 0));
    s := Step(cfg, s1, CloseTracker(ev, 0, 0));
    f := s.closing.value;
  }

  lemma DroppedWithoutEdge(cfg: Timeouts, s: State, f: Flow) returns (t: State)
    requires Reachable(cfg, s) && s.closing == Some(f) && s.graph == map[] && s.graphClock == 0
    ensures Reachable(cfg, t) && t == s.(closing := None, dropped := s.dropped + [f])
  {
    hide Reachable, Finished;
    ReachStep(cfg, s, CloseGraph(0));
    t := Step(cfg, s, CloseGraph(0));
  }

  lemma CompleteConnect(cfg: Timeouts, s: State) returns (t: State)
    requires Reachable(cfg, s) && s.connecting.Some? && s.graphClock == 0
    ensures Reachable(cfg, t) && t == s.(connecting := None, graph := t.graph)
    ensures Active(t, s.connecting.value.edge) == Active(s, s.connecting.value.edge) + 1
  {
    hide Reachable;
    ReachStep(cfg, s, ConnectGraph(0));
    t := Step(cfg, s, ConnectGraph(0));
  }

  lemma NoneOpenOneDropped(s: State, f: Flow, key: FlowKey)
    requires s.tracker == map[key := f] && f.closed && s.dropped == [f] && s.updates == []
    ensures Open(s, ByEdge(f.edge)) == 0 && Damage(s, f.edge) == 1
  {
    assert OpenKeys(s.tracker, ByEdge(f.edge)) == {};
    assert Count([f][..0], ByEdge(f.edge)) == 0;
  }

  /** For every event: if the CLOSE is processed between the two halves of its CONNECT, the edge is left reporting one
      active connection with no flow open and nothing in flight. */
  lemma CloseOvertakesConnect(cfg: Timeouts, ev: Event) returns (s: State)
    ensures Reachable(cfg, s) && s.connecting.None? && s.closing.None? && s.stalePending == []
    ensures var e := EdgeKey(ev.sourceService, ev.destinationService);
      Active(s, e) == 1 && Open(s, ByEdge(e)) == 0 && Damage(s, e) == 1
  {
    hide BuildFlowKey, Finished, Reachable, Open, Damage;
    var s2, f := ClosedInTrackerOnly(cfg, ev);
    var s3 := DroppedWithoutEdge(cfg, s2, f);
    s := CompleteConnect(cfg, s3);
    NoneOpenOneDropped(s, f, BuildFlowKey(ev));
  }

  /** For every event: a late ACCEPT on a flow closed without one leaves a tracked entry that is both failed and
      accepted. Only the snapshots handed to the graph keep the two apart. */
  lemma LateAcceptAfterClose(cfg: Timeouts, ev: Event) returns (s: State)
    ensures Reachable(cfg, s) && BuildFlowKey(ev) in s.tracker
    ensures var f := s.tracker[BuildFlowKey(ev)]; f.closed && f.failed && f.accepted
  {
    hide BuildFlowKey;
    var s2, f := ClosedInTrackerOnly(cfg, ev);
    ReachStep(cfg, s2, Accept(ev, 0, 0));
    s := Step(cfg, s2, Accept(ev, 0, 0));
  }

  /** For every event: a second CONNECT on the key of an open flow leaves one active connection too many, which no
      later step takes back (`Leaks.LeaksAreForGood`). */
  lemma ReusedKeyLeaks(cfg: Timeouts, ev: Event) returns (s: State)
    ensures Reachable(cfg, s) && s.connecting.None? && s.closing.None? && s.stalePending == []
    ensures var e := EdgeKey(ev.sourceService, ev.destinationService);
      Active(s, e) == 2 && Open(s, ByEdge(e)) == 1 && Count(s.lost, ByEdge(e)) == 1
  {
    hide BuildFlowKey, Finished;
    var e := EdgeKey(ev.sourceService, ev.destinationService);
    InitialReachable(cfg);
    ReachStep(cfg, INITIAL, ConnectTracker(ev, 0, 0));
    var s1 := Step(cfg, INITIAL, ConnectTracker(ev, 0, 0));
    ReachStep(cfg, s1, ConnectGraph(0));
    var s2 := Step(cfg, s1, ConnectGraph(0));
    ReachStep(cfg, s2, ConnectTracker(ev, 0, 0));
    var s3 := Step(cfg, s2, ConnectTracker(ev, 0, 0));
    ReachStep(cfg, s3, ConnectGraph(0));
    s := Step(cfg, s3, ConnectGraph(0));
    assert OpenKeys(s.tracker, ByEdge(e)) == {BuildFlowKey(ev)};
    assert Count(s.lost, ByEdge(e)) == 1;
  }

  // ---------- the flow that leaks need not be the one that overtook ----------

  /** The first flow is counted; the second has been through the tracker only. */
  lemma SecondConnectHalfDone(cfg: Timeouts, a: Event, b: Event) returns (s: State)
    requires BuildFlowKey(a) != BuildFlowKey(b)
    ensures Reachable(cfg, s) && s.trackerClock == 0 && s.graphClock == 0
    ensures s.tracker == map[BuildFlowKey(a) := NewFlow(0, a, 0, 0), BuildFlowKey(b) := NewFlow(1, b, 0, 0)]
    ensures Active(s, EdgeKey(a.sourceService, a.destinationService)) == 1
    ensures EdgeKey(a.sourceService, a.destinationService) in s.graph
    ensures s.connecting ==
      Some(ConnectUpdate(EdgeKey(b.sourceService, b.destinationService), b.destinationPort))
    ensures s.closing.None? && s.stalePending == [] && s.begun == [NewFlow(0, a, 0, 0), NewFlow(1, b, 0, 0)]
    ensures s.lost == [] && s.dropped == [] && s.updates == []
  {
    hide BuildFlowKey, Reachable;
    InitialReachable(cfg);
    ReachStep(cfg, INITIAL, ConnectTracker(a, 0, 0));
    var s1 := Step(cfg, INITIAL, ConnectTracker(a, 0, 0));
    ReachStep(cfg, s1, ConnectGraph(0));
    var s2 := Step(cfg, s1, ConnectGraph(0));
    ReachStep(cfg, s2, ConnectTracker(b, 0, 0));
    s := Step(cfg, s2, ConnectTracker(b, 0, 0));
  }

  lemma CloseInTracker(cfg: Timeouts, s: State, ev: Event) returns (t: State, f: Flow)
    requires Reachable(cfg, s) && s.closing.None? && s.trackerClock == 0
    requires BuildFlowKey(ev) in s.tracker && s.tracker[BuildFlowKey(ev)].IsOpen()
    ensures Reachable(cfg, t)
    ensures t == s.(tracker := s.tracker[BuildFlowKey(ev) := f], closing := Some(f))
    ensures f.closed && f.edge == s.tracker[BuildFlowKey(ev)].edge && f.id == s.tracker[BuildFlowKey(ev)].id
  {
    hide BuildFlowKey, Reachable;
    ReachStep(cfg, s, CloseTracker(ev, 0, 0));
    t := Step(cfg, s, CloseTracker(ev, 0, 0));
    f := t.closing.value;
  }

  lemma FinishOnEdge(cfg: Timeouts, s: State, f: Flow) returns (t: State)
    requires Reachable(cfg, s) && s.closing == Some(f) && f.edge in s.graph && s.graphClock == 0
    ensures Reachable(cfg, t)
    ensures t == s.(closing := None, graph := t.graph, updates := s.updates + [Update(f, 0, Active(s, f.edge) <= 0)])
    ensures f.edge in t.graph
    ensures Active(t, f.edge) == if Active(s, f.edge) > 0 then Active(s, f.edge) - 1 else Active(s, f.edge)
  {
    hide Reachable;
    ReachStep(cfg, s, CloseGraph(0));
    t := Step(cfg, s, CloseGraph(0));
  }

  lemma NoneOpenOneUpdated(s: State, ka: FlowKey, kb: FlowKey, fa: Flow, fb: Flow, e: EdgeKey)
    requires s.tracker.Keys == {ka, kb} && s.tracker[ka] == fa && s.tracker[kb] == fb && fa.closed && fb.closed
    requires s.dropped == [] && s.lost == [] && s.stalePending == [] && s.closing == Some(fa) && fa.edge == e
    requires s.updates == [Update(fb, 0, false)]
    ensures Open(s, ByEdge(e)) == 0 && Damage(s, e) == 0 && Finishing(s, ByEdge(e)) == 1
  {
    assert OpenKeys(s.tracker, ByEdge(e)) == {};
    GuardedAppend([], s.updates[0], e);
  }

  lemma SameGraphSameActive(s: State, t: State, e: EdgeKey)
    requires s.graph == t.graph
    ensures Active(s, e) == Active(t, e)
  {
  }

  lemma SameTrackerSameOpen(s: State, t: State, e: EdgeKey)
    requires s.tracker == t.tracker
    ensures Open(s, ByEdge(e)) == Open(t, ByEdge(e))
  {
  }

  /** For any two flows of one edge: the second is closed between the halves of its CONNECT and takes the first one's
      count; when the first is closed, long after its own CONNECT was counted, there is nothing left for it. `mid` is
      the state in which that happens, and the edge ends reporting one active connection with none open. */
  lemma OvertakenByAnother(cfg: Timeouts, a: Event, b: Event) returns (mid: State, s: State)
    requires BuildFlowKey(a) != BuildFlowKey(b)
    requires EdgeKey(a.sourceService, a.destinationService) == EdgeKey(b.sourceService, b.destinationService)
    ensures Reachable(cfg, mid) && Reachable(cfg, s)
    ensures var e := EdgeKey(a.sourceService, a.destinationService);
      && FindsNothing(mid, CloseGraph(0), e) && mid.closing.value.id == 0
      && |mid.begun| == 2 && |mid.updates| == 1 && mid.updates[0].flow.id == 1 && !mid.updates[0].guarded
      && s.connecting.None? && s.closing.None? && s.stalePending == []
      && Active(s, e) == 1 && Open(s, ByEdge(e)) == 0
  {
    hide BuildFlowKey, Reachable, Open, Damage, Finishing, Active, Step, Enabled;
    var e, ka, kb := EdgeKey(a.sourceService, a.destinationService), BuildFlowKey(a), BuildFlowKey(b);
    var s3 := SecondConnectHalfDone(cfg, a, b);
    var s4, fb := CloseInTracker(cfg, s3, b);
    SameGraphSameActive(s3, s4, e);
    var s5 := FinishOnEdge(cfg, s4, fb);
    var s6, fa := CloseInTracker(cfg, s5, a);
    SameGraphSameActive(s5, s6, e);
    mid := s6;
    NoneOpenOneUpdated(mid, ka, kb, fa, fb, e);
    var s7 := FinishOnEdge(cfg, mid, fa);
    s := CompleteConnect(cfg, s7);
    SameTrackerSameOpen(mid, s, e);
  }
}
