/** When the two halves of a CONNECT are not separated and no CONNECT reuses an open key, the engine is nothing more
    than a table of open flows. */
module OpenFlows {
  import opened FlowIdentity
  import opened ServiceGraph
  import opened FlowState
  import opened Engine
  import opened Ledger
  import opened Accounting
  import opened Runs

  // ---------- the specification ----------

  type Table = map<FlowKey, EdgeKey>

  datatype Action = Begin(key: FlowKey, edge: EdgeKey) | Finish(key: FlowKey)

  /** A flow begins only on a free key and only an open flow finishes. */
  predicate Allowed(t: Table, a: Action) {
    match a
    case Begin(k, _) => k !in t
    case Finish(k) => k in t
  }

  function Apply(t: Table, a: Action): Table {
    match a
    case Begin(k, e) => t[k := e]
    case Finish(k) => t - {k}
  }

  predicate AllAllowed(t: Table, actions: seq<Action>)
    decreases actions
  {
    actions == [] || (Allowed(t, actions[0]) && AllAllowed(Apply(t, actions[0]), actions[1..]))
  }

  function ApplyAll(t: Table, actions: seq<Action>): Table
    decreases actions
  {
    if actions == [] then t else ApplyAll(Apply(t, actions[0]), actions[1..])
  }

  lemma {:induction false} ApplyConcat(t: Table, a: seq<Action>, b: seq<Action>)
    ensures ApplyAll(t, a + b) == ApplyAll(ApplyAll(t, a), b)
    ensures AllAllowed(t, a + b) <==> AllAllowed(t, a) && AllAllowed(ApplyAll(t, a), b)
    decreases a
  {
    if a == [] {
      assert a + b == b;
    } else {
      assert (a + b)[1..] == a[1..] + b;
      ApplyConcat(Apply(t, a[0]), a[1..], b);
    }
  }

  /** Open flows of an edge, read off the table. */
  function OpenCount(t: Table, e: EdgeKey): nat { |set k | k in t && t[k] == e| }

  // ---------- the discipline ----------

  predicate AtomicStep(s: State, l: Label) {
    && (s.connecting.Some? ==> l.ConnectGraph?)
    && (l.ConnectTracker? ==> BuildFlowKey(l.ev) in s.tracker ==> s.tracker[BuildFlowKey(l.ev)].closed)
  }

  ghost predicate IsAtomicRun(cfg: Timeouts, s: State, ls: seq<Label>)
    decreases ls
  {
    ls == [] || (Enabled(cfg, s, ls[0]) && AtomicStep(s, ls[0]) && IsAtomicRun(cfg, Step(cfg, s, ls[0]), ls[1..]))
  }

  lemma {:induction false} AtomicRunIsRun(cfg: Timeouts, s: State, ls: seq<Label>)
    requires IsAtomicRun(cfg, s, ls)
    ensures IsRun(cfg, s, ls)
    decreases ls
  {
    if ls == [] {
    } else {
      AtomicRunIsRun(cfg, Step(cfg, s, ls[0]), ls[1..]);
    }
  }

  // ---------- the refinement ----------

  function OpenTable(tracker: TrackerState): Table {
    map k | k in tracker && tracker[k].IsOpen() :: tracker[k].edge
  }

  function Finishes(order: seq<FlowKey>): seq<Action> { seq(|order|, i requires 0 <= i < |order| => Finish(order[i])) }

  /** What a step of the engine does to the table. Graph halves, accepts, clock readings and cleanup do nothing. */
  function Actions(s: State, l: Label): seq<Action> {
    match l
    case ConnectTracker(ev, t1, t2) => [Begin(BuildFlowKey(ev), EdgeKey(ev.sourceService, ev.destinationService))]
    case CloseTracker(ev, t1, t2) =>
      (match CloseTarget(s.tracker, ev) case None => [] case Some(k) => [Finish(k)])
    case StaleTracker(order) => Finishes(order)
    case _ => []
  }

  ghost function Trace(cfg: Timeouts, s: State, ls: seq<Label>): seq<Action>
    requires IsAtomicRun(cfg, s, ls)
    decreases ls
  {
    if ls == [] then [] else Actions(s, ls[0]) + Trace(cfg, Step(cfg, s, ls[0]), ls[1..])
  }

  lemma {:induction false} FinishesApply(t: Table, order: seq<FlowKey>)
    requires forall i, j :: 0 <= i < j < |order| ==> order[i] != order[j]
    requires forall k :: k in order ==> k in t
    ensures AllAllowed(t, Finishes(order)) && ApplyAll(t, Finishes(order)) == t - KeySet(order)
  {
    if order == [] {
      assert t - KeySet(order) == t;
    } else {
      var rest := order[1..];
      assert order[0] !in rest;
      FinishesApply(t - {order[0]}, rest);
      assert Finishes(order)[1..] == Finishes(rest);
      assert order == [order[0]] + rest;
      assert t - {order[0]} - KeySet(rest) == t - KeySet(order);
    }
  }

  lemma TableCountsOpen(s: State, e: EdgeKey)
    ensures Open(s, ByEdge(e)) == OpenCount(OpenTable(s.tracker), e)
  {
    var t := OpenTable(s.tracker);
    assert OpenKeys(s.tracker, ByEdge(e)) == set k | k in t && t[k] == e;
  }

  lemma OneAction(t: Table, a: Action)
    requires Allowed(t, a)
    ensures AllAllowed(t, [a]) && ApplyAll(t, [a]) == Apply(t, a)
  {
  }

  lemma ConnectBegins(tracker: TrackerState, f: Flow)
    requires f.key in tracker ==> tracker[f.key].closed
    requires f.IsOpen()
    ensures AllAllowed(OpenTable(tracker), [Begin(f.key, f.edge)])
    ensures ApplyAll(OpenTable(tracker), [Begin(f.key, f.edge)]) == OpenTable(tracker[f.key := f])
  {
    OneAction(OpenTable(tracker), Begin(f.key, f.edge));
    assert OpenTable(tracker)[f.key := f.edge] == OpenTable(tracker[f.key := f]);
  }

  lemma AcceptLeavesTable(s: State, ev: Event, t1: int, t2: int)
    ensures OpenTable(AfterAccept(s, ev, t1, t2).tracker) == OpenTable(s.tracker)
  {
  }

  lemma CloseFinishes(tracker: TrackerState, k: FlowKey, t1: int, t2: int)
    requires k in tracker && tracker[k].IsOpen()
    ensures AllAllowed(OpenTable(tracker), [Finish(k)])
    ensures ApplyAll(OpenTable(tracker), [Finish(k)]) == OpenTable(tracker[k := CloseFlow(tracker[k], t1, t2)])
  {
    OneAction(OpenTable(tracker), Finish(k));
    assert OpenTable(tracker) - {k} == OpenTable(tracker[k := CloseFlow(tracker[k], t1, t2)]);
  }

  lemma StaleFinishes(cfg: Timeouts, tracker: TrackerState, now: int, order: seq<FlowKey>)
    requires ListsStale(cfg, tracker, now, order)
    ensures AllAllowed(OpenTable(tracker), Finishes(order))
    ensures ApplyAll(OpenTable(tracker), Finishes(order)) == OpenTable(CloseStale(cfg, tracker, now, KeySet(order)))
  {
    FinishesApply(OpenTable(tracker), order);
    assert OpenTable(tracker) - KeySet(order) == OpenTable(CloseStale(cfg, tracker, now, KeySet(order)));
  }

  lemma SweepLeavesTable(cfg: Timeouts, tracker: TrackerState, now: int)
    ensures OpenTable(Swept(cfg, tracker, now)) == OpenTable(tracker)
  {
  }

  lemma StepRefines(cfg: Timeouts, s: State, l: Label)
    requires Enabled(cfg, s, l) && AtomicStep(s, l)
    ensures AllAllowed(OpenTable(s.tracker), Actions(s, l))
    ensures ApplyAll(OpenTable(s.tracker), Actions(s, l)) == OpenTable(Step(cfg, s, l).tracker)
  {
    hide Connected, Finished, BuildFlowKey, InferFailure, OpenTable, CloseStale, Swept, AcceptFlow, CloseFlow, IsStale;
    match l
    case ConnectTracker(ev, t1, t2) => ConnectBegins(s.tracker, NewFlow(|s.begun|, ev, t1, t2));
    case Accept(ev, t1, t2) => AcceptLeavesTable(s, ev, t1, t2);
    case CloseTracker(ev, t1, t2) =>
      var target := CloseTarget(s.tracker, ev);
      if target.Some? { CloseFinishes(s.tracker, target.value, t1, t2); }
    case StaleTracker(order) => StaleFinishes(cfg, s.tracker, s.staleNow.value, order);
    case Cleanup(now) => SweepLeavesTable(cfg, s.tracker, now);
    case _ =>
  }

  /** Nothing lost, nothing dropped, no guard fired. */
  ghost predicate Clean(s: State) {
    && s.lost == [] && s.dropped == []
    && (forall i :: 0 <= i < |s.updates| ==> !s.updates[i].guarded)
  }

  lemma {:induction false} NoneGuarded(us: seq<Update>, e: EdgeKey)
    requires forall i :: 0 <= i < |us| ==> !us[i].guarded
    ensures Guarded(us, e) == 0
  {
    if us == [] {
    } else {
      NoneGuarded(us[..|us| - 1], e);
    }
  }

  /** With no connect in flight a finishing flow always finds its edge, with something left to subtract. */
  lemma FinishingFindsItsEdge(s: State, e: EdgeKey)
    requires Clean(s) && Balanced(s, e) && s.connecting.None?
    ensures Active(s, e) == Open(s, ByEdge(e)) + Finishing(s, ByEdge(e))
    ensures Total(s, e) == Active(s, e) + CountUpdates(s.updates, ByEdge(e))
  {
    NoneGuarded(s.updates, e);
    ActiveAccounting(s, e);
  }

  lemma AtomicStepKeepsClean(cfg: Timeouts, s: State, l: Label)
    requires Enabled(cfg, s, l) && AtomicStep(s, l) && Invariant(cfg, s) && Clean(s)
    ensures Clean(Step(cfg, s, l))
  {
    hide Invariant, Finished, Connected;
    if l.CloseGraph? || l.StaleGraph? {
      var f := if l.CloseGraph? then s.closing.value else s.stalePending[0];
      InvariantBalance(cfg, s, f.edge);
      FinishingFindsItsEdge(s, f.edge);
      if l.StaleGraph? { TakeStale(s, ByEdge(f.edge)); }
      assert Active(s, f.edge) >= 1;
    }
  }

  /** Along every atomic run without key reuse, the engine's open flows are the table's, the counters are read off the
      table, and every lookup succeeds. */
  lemma {:induction false} AtomicRunRefines(cfg: Timeouts, s: State, ls: seq<Label>)
    requires IsAtomicRun(cfg, s, ls) && Invariant(cfg, s) && Clean(s)
    ensures IsRun(cfg, s, ls) && Clean(After(cfg, s, ls)) && Invariant(cfg, After(cfg, s, ls))
    ensures AllAllowed(OpenTable(s.tracker), Trace(cfg, s, ls))
    ensures ApplyAll(OpenTable(s.tracker), Trace(cfg, s, ls)) == OpenTable(After(cfg, s, ls).tracker)
    decreases ls
  {
    hide Invariant, Clean, Step, Enabled, AtomicStep, OpenTable, Actions;
    if ls == [] {
    } else {
      var t := Step(cfg, s, ls[0]);
      StepKeepsInvariant(cfg, s, ls[0]);
      AtomicStepKeepsClean(cfg, s, ls[0]);
      StepRefines(cfg, s, ls[0]);
      AtomicRunRefines(cfg, t, ls[1..]);
      ApplyConcat(OpenTable(s.tracker), Actions(s, ls[0]), Trace(cfg, t, ls[1..]));
    }
  }

  lemma CountersReadOffTable(cfg: Timeouts, s: State, e: EdgeKey)
    requires Reachable(cfg, s) && Clean(s) && s.connecting.None?
    ensures Active(s, e) == OpenCount(OpenTable(s.tracker), e) + Finishing(s, ByEdge(e))
    ensures Total(s, e) == Active(s, e) + Runs.Completed(s, e)
  {
    ReachableInvariant(cfg, s);
    InvariantBalance(cfg, s, e);
    FinishingFindsItsEdge(s, e);
    TableCountsOpen(s, e);
    CompletedCountsUpdates(cfg, s, e);
  }

  /** From the empty engine: `t` is the table the run's actions build. */
  lemma AtomicRunsAreOpenFlowTables(cfg: Timeouts, ls: seq<Label>)
    requires IsAtomicRun(cfg, INITIAL, ls)
    ensures IsRun(cfg, INITIAL, ls)
    ensures AllAllowed(map[], Trace(cfg, INITIAL, ls))
    ensures var s, t := After(cfg, INITIAL, ls), ApplyAll(map[], Trace(cfg, INITIAL, ls));
      && OpenTable(s.tracker) == t
      && s.dropped == [] && (forall i :: 0 <= i < |s.updates| ==> !s.updates[i].guarded)
      && (s.connecting.None? ==> forall e ::
            && Active(s, e) == OpenCount(t, e) + Finishing(s, ByEdge(e))
            && Total(s, e) == Active(s, e) + Runs.Completed(s, e))
  {
    InvariantInitially(cfg);
    assert OpenTable(INITIAL.tracker) == map[];
    AtomicRunRefines(cfg, INITIAL, ls);
    var s := After(cfg, INITIAL, ls);
    hide Trace, IsAtomicRun, Invariant;
    assert Reachable(cfg, s);
    if s.connecting.None? {
      forall e
        ensures Active(s, e) == OpenCount(OpenTable(s.tracker), e) + Finishing(s, ByEdge(e))
        ensures Total(s, e) == Active(s, e) + Runs.Completed(s, e)
      {
        CountersReadOffTable(cfg, s, e);
      }
    }
  }
}
