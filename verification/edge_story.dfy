/** What the graph records of an edge beside its counters, against the events of the run alone. */
module EdgeStory {
  import opened Common
  import opened FlowIdentity
  import opened ServiceGraph
  import opened FlowState
  import opened Engine
  import opened Runs
  import opened LateAccepts

  predicate ConnectsEdge(l: Label, e: EdgeKey) {
    l.ConnectTracker? && EdgeKey(l.ev.sourceService, l.ev.destinationService) == e
  }

  /** Step `c` is the first CONNECT of the run on this edge. */
  predicate FirstOn(ls: seq<Label>, e: EdgeKey, c: nat) {
    c < |ls| && ConnectsEdge(ls[c], e) && forall i :: 0 <= i < c ==> !ConnectsEdge(ls[i], e)
  }

  /** Step `c` is a CONNECT whose graph half is still to come. */
  predicate PendingAt(ls: seq<Label>, c: nat) {
    c < |ls| && ls[c].ConnectTracker? && forall i :: c < i < |ls| ==> !ls[i].ConnectTracker? && !ls[i].ConnectGraph?
  }

  ghost predicate PendingTold(ls: seq<Label>, u: ConnectUpdate) {
    exists c: nat :: PendingAt(ls, c) && ConnectsEdge(ls[c], u.edge) && u.port == ls[c].ev.destinationPort
  }

  ghost predicate PortTold(ls: seq<Label>, e: EdgeKey, port: Port) {
    exists c: nat :: FirstOn(ls, e, c) && port == ls[c].ev.destinationPort
  }

  /** Every CONNECT of the run on this edge is still to reach the graph. */
  predicate AllPending(ls: seq<Label>, e: EdgeKey) {
    forall i :: 0 <= i < |ls| && ConnectsEdge(ls[i], e) ==> PendingAt(ls, i)
  }

  ghost predicate EdgeTold(ls: seq<Label>, s: State, e: EdgeKey) {
    && (s.connecting.Some? ==> PendingTold(ls, s.connecting.value))
    && (if e in s.graph then PortTold(ls, e, s.graph[e].port) else AllPending(ls, e))
    && (s.connecting.None? && e !in s.graph ==> forall i :: 0 <= i < |ls| ==> !ConnectsEdge(ls[i], e))
  }

  lemma PortStaysTold(ls: seq<Label>, l: Label, e: EdgeKey, port: Port)
    requires PortTold(ls, e, port)
    ensures PortTold(ls + [l], e, port)
  {
    var c: nat :| FirstOn(ls, e, c) && port == ls[c].ev.destinationPort;
    assert forall i :: 0 <= i < |ls| ==> (ls + [l])[i] == ls[i];
    assert FirstOn(ls + [l], e, c);
  }

  lemma PendingStaysTold(ls: seq<Label>, l: Label, u: ConnectUpdate)
    requires PendingTold(ls, u) && !l.ConnectTracker? && !l.ConnectGraph?
    ensures PendingTold(ls + [l], u)
  {
    hide ConnectsEdge;
    var c: nat :| PendingAt(ls, c) && ConnectsEdge(ls[c], u.edge) && u.port == ls[c].ev.destinationPort;
    assert forall i :: 0 <= i < |ls| ==> (ls + [l])[i] == ls[i];
    assert PendingAt(ls + [l], c);
  }

  lemma NotTwoPending(ls: seq<Label>, e: EdgeKey, i: nat, c: nat)
    requires AllPending(ls, e) && PendingAt(ls, c) && i < |ls| && i != c
    ensures !ConnectsEdge(ls[i], e)
  {
    hide ConnectsEdge;
  }

  /** The pending CONNECT is the only one on an edge that is not in the graph yet. */
  lemma PendingIsFirst(ls: seq<Label>, u: ConnectUpdate)
    requires PendingTold(ls, u) && AllPending(ls, u.edge)
    ensures PortTold(ls, u.edge, u.port)
  {
    hide ConnectsEdge;
    var c: nat :| PendingAt(ls, c) && ConnectsEdge(ls[c], u.edge) && u.port == ls[c].ev.destinationPort;
    forall i | 0 <= i < c ensures !ConnectsEdge(ls[i], u.edge) {
      NotTwoPending(ls, u.edge, i, c);
    }
    assert FirstOn(ls, u.edge, c);
  }

  lemma NothingConnects(ls: seq<Label>, u: ConnectUpdate, e: EdgeKey)
    requires PendingTold(ls, u) && AllPending(ls, e) && u.edge != e
    ensures forall i :: 0 <= i < |ls| ==> !ConnectsEdge(ls[i], e)
  {
    var c: nat :| PendingAt(ls, c) && ConnectsEdge(ls[c], u.edge) && u.port == ls[c].ev.destinationPort;
    forall i | 0 <= i < |ls| ensures !ConnectsEdge(ls[i], e) {
      if i != c { NotTwoPending(ls, e, i, c); }
    }
  }

  lemma EdgeAfterConnect(ls: seq<Label>, s: State, ev: Event, t1: int, t2: int, e: EdgeKey)
    requires EdgeTold(ls, s, e) && s.connecting.None?
    ensures EdgeTold(ls + [ConnectTracker(ev, t1, t2)], AfterConnect(s, ev, t1, t2), e)
  {
    var l, t := ConnectTracker(ev, t1, t2), AfterConnect(s, ev, t1, t2);
    var ls' := ls + [l];
    assert ls'[|ls|] == l && forall i :: 0 <= i < |ls| ==> ls'[i] == ls[i];
    assert PendingAt(ls', |ls|) && ConnectsEdge(ls'[|ls|], t.connecting.value.edge);
    if e in s.graph { PortStaysTold(ls, l, e, s.graph[e].port); }
  }

  lemma NoneOnEdge(ls: seq<Label>, l: Label, e: EdgeKey)
    requires (forall i :: 0 <= i < |ls| ==> !ConnectsEdge(ls[i], e)) && !ConnectsEdge(l, e)
    ensures forall i :: 0 <= i < |ls + [l]| ==> !ConnectsEdge((ls + [l])[i], e)
  {
    hide ConnectsEdge;
  }

  lemma EdgeAfterConnectGraph(ls: seq<Label>, s: State, now: int, e: EdgeKey)
    requires EdgeTold(ls, s, e) && s.connecting.Some?
    ensures var u := s.connecting.value;
      EdgeTold(ls + [ConnectGraph(now)],
               s.(graph := Connected(s.graph, u.edge, u.port, now), connecting := None, graphClock := now), e)
  {
    var l, u := ConnectGraph(now), s.connecting.value;
    assert !ConnectsEdge(l, e);
    hide PendingTold, PortTold, PendingAt, ConnectsEdge;
    if e in s.graph {
      PortStaysTold(ls, l, e, s.graph[e].port);
    } else if u.edge == e {
      PendingIsFirst(ls, u);
      PortStaysTold(ls, l, e, u.port);
    } else {
      NothingConnects(ls, u, e);
      NoneOnEdge(ls, l, e);
    }
  }

  /** Steps that are no part of a connect keep the port and the pending CONNECT. */
  lemma EdgeAfterOther(ls: seq<Label>, l: Label, s: State, t: State, e: EdgeKey)
    requires EdgeTold(ls, s, e) && !l.ConnectTracker? && !l.ConnectGraph?
    requires t.connecting == s.connecting && (e in t.graph <==> e in s.graph)
    requires e in s.graph ==> t.graph[e].port == s.graph[e].port
    ensures EdgeTold(ls + [l], t, e)
  {
    var ls' := ls + [l];
    assert ls'[|ls|] == l && forall i :: 0 <= i < |ls| ==> ls'[i] == ls[i];
    if s.connecting.Some? { PendingStaysTold(ls, l, s.connecting.value); }
    if e in s.graph { PortStaysTold(ls, l, e, s.graph[e].port); }
    forall i | 0 <= i < |ls| && PendingAt(ls, i) ensures PendingAt(ls', i) {}
  }

  lemma EdgeStep(cfg: Timeouts, ls: seq<Label>, s: State, l: Label, e: EdgeKey)
    requires Enabled(cfg, s, l) && EdgeTold(ls, s, e)
    ensures EdgeTold(ls + [l], Step(cfg, s, l), e)
  {
    hide EdgeTold, AfterConnect, Connected;
    match l
    case ConnectTracker(ev, t1, t2) => EdgeAfterConnect(ls, s, ev, t1, t2, e);
    case ConnectGraph(now) => EdgeAfterConnectGraph(ls, s, now, e);
    case _ => EdgeAfterOther(ls, l, s, Step(cfg, s, l), e);
  }

  lemma {:induction false} RunTellsEdge(cfg: Timeouts, ls: seq<Label>, e: EdgeKey)
    requires IsRun(cfg, INITIAL, ls)
    ensures EdgeTold(ls, After(cfg, INITIAL, ls), e)
  {
    if ls == [] {
    } else {
      hide Step, Enabled, EdgeTold;
      var init, l := ls[..|ls| - 1], ls[|ls| - 1];
      assert ls == init + [l];
      RunSplit(cfg, INITIAL, init, l);
      RunTellsEdge(cfg, init, e);
      EdgeStep(cfg, init, After(cfg, INITIAL, init), l, e);
    }
  }

  /** Over any run an edge of the graph carries the port of the first CONNECT on it. */
  lemma PortIsFirst(cfg: Timeouts, ls: seq<Label>, e: EdgeKey) returns (c: nat)
    requires IsRun(cfg, INITIAL, ls) && e in After(cfg, INITIAL, ls).graph
    ensures FirstOn(ls, e, c) && After(cfg, INITIAL, ls).graph[e].port == ls[c].ev.destinationPort
  {
    hide IsRun, After;
    RunTellsEdge(cfg, ls, e);
    c :| FirstOn(ls, e, c) && After(cfg, INITIAL, ls).graph[e].port == ls[c].ev.destinationPort;
  }

  // ---------- first and last seen ----------

  /** The step is a graph section that works on this edge. */
  predicate Touches(s: State, l: Label, e: EdgeKey) {
    || (l.ConnectGraph? && s.connecting.Some? && s.connecting.value.edge == e)
    || (l.CloseGraph? && s.closing.Some? && s.closing.value.edge == e && e in s.graph)
    || (l.StaleGraph? && s.stalePending != [] && s.stalePending[0].edge == e && e in s.graph)
  }

  function GraphReading(l: Label): int { if l.ConnectGraph? || l.CloseGraph? || l.StaleGraph? then l.now else 0 }

  lemma StepSees(cfg: Timeouts, s: State, l: Label, e: EdgeKey)
    requires Enabled(cfg, s, l) && e in Step(cfg, s, l).graph
    ensures var t := Step(cfg, s, l).graph[e];
      && t.lastSeen == (if Touches(s, l, e) then GraphReading(l) else if e in s.graph then s.graph[e].lastSeen else 0)
      && t.firstSeen == (if e in s.graph then s.graph[e].firstSeen else GraphReading(l))
    ensures e in s.graph || Touches(s, l, e)
  {
    hide Metrics.Updated, BuildFlowKey, CloseStale, Swept, StaleSnapshots, CloseTarget;
  }

  lemma {:induction false} StateAtLonger(cfg: Timeouts, s: State, ls: seq<Label>, l: Label, i: nat)
    requires IsRun(cfg, s, ls + [l]) && IsRun(cfg, s, ls) && i <= |ls|
    ensures StateAt(cfg, s, ls + [l], i) == StateAt(cfg, s, ls, i)
    ensures i == |ls| ==> StateAt(cfg, s, ls, i) == After(cfg, s, ls)
    decreases ls
  {
    hide Step, Enabled;
    if ls == [] {
    } else {
      assert (ls + [l])[1..] == ls[1..] + [l];
      if i > 0 { StateAtLonger(cfg, Step(cfg, s, ls[0]), ls[1..], l, i - 1); }
    }
  }

  ghost predicate TouchedAt(cfg: Timeouts, ls: seq<Label>, e: EdgeKey, g: nat)
    requires IsRun(cfg, INITIAL, ls)
  {
    g < |ls| && Touches(StateAt(cfg, INITIAL, ls, g), ls[g], e)
  }

  lemma TouchedLonger(cfg: Timeouts, ls: seq<Label>, l: Label, e: EdgeKey, g: nat)
    requires IsRun(cfg, INITIAL, ls + [l]) && IsRun(cfg, INITIAL, ls)
    ensures g < |ls| ==> (TouchedAt(cfg, ls + [l], e, g) <==> TouchedAt(cfg, ls, e, g))
    ensures TouchedAt(cfg, ls + [l], e, |ls|) <==> Touches(After(cfg, INITIAL, ls), l, e)
  {
    hide Step, Enabled, Touches;
    if g < |ls| { StateAtLonger(cfg, INITIAL, ls, l, g); }
    StateAtLonger(cfg, INITIAL, ls, l, |ls|);
  }

  lemma UnseenStep(cfg: Timeouts, s: State, l: Label, e: EdgeKey)
    requires Enabled(cfg, s, l) && e !in Step(cfg, s, l).graph
    ensures e !in s.graph && !Touches(s, l, e)
  {
    hide Metrics.Updated, BuildFlowKey, CloseStale, Swept, StaleSnapshots, CloseTarget;
  }

  lemma {:induction false} UnseenUntouched(cfg: Timeouts, ls: seq<Label>, e: EdgeKey)
    requires IsRun(cfg, INITIAL, ls) && e !in After(cfg, INITIAL, ls).graph
    ensures forall i :: 0 <= i < |ls| ==> !TouchedAt(cfg, ls, e, i)
  {
    if ls == [] {
    } else {
      var init, l := ls[..|ls| - 1], ls[|ls| - 1];
      assert ls == init + [l];
      RunSplit(cfg, INITIAL, init, l);
      UnseenStep(cfg, After(cfg, INITIAL, init), l, e);
      hide Step, Enabled, Touches, TouchedAt, IsRun, After;
      UnseenUntouched(cfg, init, e);
      forall i | 0 <= i < |ls| ensures !TouchedAt(cfg, ls, e, i) { TouchedLonger(cfg, init, l, e, i); }
    }
  }

  /** Over any run an edge was first seen by the first graph section on it and last seen by the last one, at the clock
      reading made there. */
  lemma {:induction false} SeenFirstAndLast(cfg: Timeouts, ls: seq<Label>, e: EdgeKey) returns (f: nat, g: nat)
    requires IsRun(cfg, INITIAL, ls) && e in After(cfg, INITIAL, ls).graph
    ensures f <= g < |ls| && TouchedAt(cfg, ls, e, f) && TouchedAt(cfg, ls, e, g)
    ensures forall i :: 0 <= i < f || g < i < |ls| ==> !TouchedAt(cfg, ls, e, i)
    ensures After(cfg, INITIAL, ls).graph[e].firstSeen == GraphReading(ls[f])
    ensures After(cfg, INITIAL, ls).graph[e].lastSeen == GraphReading(ls[g])
  {
    var init, l := ls[..|ls| - 1], ls[|ls| - 1];
    assert ls == init + [l];
    RunSplit(cfg, INITIAL, init, l);
    var s := After(cfg, INITIAL, init);
    StepSees(cfg, s, l, e);
    hide Step, Enabled, Touches, TouchedAt, IsRun, After;
    forall i | 0 <= i < |init| ensures TouchedAt(cfg, ls, e, i) <==> TouchedAt(cfg, init, e, i) {
      TouchedLonger(cfg, init, l, e, i);
    }
    TouchedLonger(cfg, init, l, e, 0);
    if e in s.graph {
      f, g := SeenFirstAndLast(cfg, init, e);
      if Touches(s, l, e) { g := |init|; }
    } else {
      UnseenUntouched(cfg, init, e);
      f, g := |init|, |init|;
    }
  }
}
