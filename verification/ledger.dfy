/** Conservation of connections: whatever is begun is, at every moment of every interleaving, in exactly one of five
    places: open in the tracker, on its way to the graph, lost, dropped, or applied to the graph. Stated for any choice
    of flows by number and edge, so that it yields both per-edge accounting and per-connection fates. */
module Ledger {
  import opened Common
  import opened FlowIdentity
  import opened ServiceGraph
  import opened FlowState
  import opened Engine

  /** A choice of flows by the facts that never change after CONNECT. */
  type Tag = (nat, EdgeKey) -> bool

  function ByEdge(e: EdgeKey): Tag { (id: nat, edge: EdgeKey) => edge == e }

  function ById(i: nat): Tag { (id: nat, edge: EdgeKey) => id == i }

  predicate Tagged(f: Flow, p: Tag) { p(f.id, f.edge) }

  function Count(fs: seq<Flow>, p: Tag): nat {
    if fs == [] then 0 else Count(fs[..|fs| - 1], p) + Bit(Tagged(fs[|fs| - 1], p))
  }

  function CountUpdates(us: seq<Update>, p: Tag): nat {
    if us == [] then 0 else CountUpdates(us[..|us| - 1], p) + Bit(Tagged(us[|us| - 1].flow, p))
  }

  function OpenKeys(tracker: TrackerState, p: Tag): set<FlowKey> {
    set k | k in tracker && tracker[k].IsOpen() && Tagged(tracker[k], p)
  }

  /** Open flows in the tracker. */
  function Open(s: State, p: Tag): nat { |OpenKeys(s.tracker, p)| }

  /** Flows finished in the tracker whose graph half is still to come. */
  function Finishing(s: State, p: Tag): nat {
    Bit(s.closing.Some? && Tagged(s.closing.value, p)) + Count(s.stalePending, p)
  }

  ghost predicate Conserved(s: State, p: Tag) {
    Count(s.begun, p)
    == Open(s, p) + Finishing(s, p) + Count(s.lost, p) + Count(s.dropped, p) + CountUpdates(s.updates, p)
  }

  // ---------- counting ----------

  lemma Without(s: set<FlowKey>, k: FlowKey)
    ensures |s| == |s - {k}| + Bit(k in s)
  {
    if k in s { assert s == (s - {k}) + {k}; } else { assert s == s - {k}; }
  }

  lemma IsOpenKey(tracker: TrackerState, k: FlowKey, p: Tag)
    ensures k in OpenKeys(tracker, p) <==> k in tracker && tracker[k].IsOpen() && Tagged(tracker[k], p)
  {
    hide Tagged, Flow.IsOpen;
  }

  lemma OpenAfterWrite(tracker: TrackerState, k: FlowKey, f: Flow, p: Tag)
    ensures |OpenKeys(tracker[k := f], p)| + Bit(k in tracker && tracker[k].IsOpen() && Tagged(tracker[k], p))
         == |OpenKeys(tracker, p)| + Bit(f.IsOpen() && Tagged(f, p))
  {
    hide OpenKeys, Tagged, Flow.IsOpen, Bit;
    var after := tracker[k := f];
    forall other ensures other in OpenKeys(after, p) - {k} <==> other in OpenKeys(tracker, p) - {k} {
      IsOpenKey(tracker, other, p);
      IsOpenKey(after, other, p);
    }
    assert OpenKeys(after, p) - {k} == OpenKeys(tracker, p) - {k};
    IsOpenKey(tracker, k, p);
    IsOpenKey(after, k, p);
    Without(OpenKeys(tracker, p), k);
    Without(OpenKeys(after, p), k);
  }

  lemma CountAppend(fs: seq<Flow>, f: Flow, p: Tag)
    ensures Count(fs + [f], p) == Count(fs, p) + Bit(Tagged(f, p))
  {
    assert (fs + [f])[..|fs|] == fs;
  }

  lemma {:induction false} CountHead(fs: seq<Flow>, p: Tag)
    requires fs != []
    ensures Count(fs, p) == Bit(Tagged(fs[0], p)) + Count(fs[1..], p)
  {
    if |fs| == 1 {
    } else {
      CountHead(fs[..|fs| - 1], p);
      assert fs[1..][..|fs| - 2] == fs[..|fs| - 1][1..];
    }
  }

  lemma CountUpdatesAppend(us: seq<Update>, u: Update, p: Tag)
    ensures CountUpdates(us + [u], p) == CountUpdates(us, p) + Bit(Tagged(u.flow, p))
  {
    assert (us + [u])[..|us|] == us;
  }

  /** Marking one more flow takes it out of the open ones. */
  lemma MarkMoves(cfg: Timeouts, tracker: TrackerState, now: int, keys: set<FlowKey>, k: FlowKey, p: Tag)
    requires k in tracker && k !in keys && tracker[k].IsOpen()
    ensures |OpenKeys(CloseStale(cfg, tracker, now, keys + {k}), p)| + Bit(Tagged(MarkStale(cfg, tracker[k], now), p))
         == |OpenKeys(CloseStale(cfg, tracker, now, keys), p)|
  {
    var t, marked := CloseStale(cfg, tracker, now, keys), MarkStale(cfg, tracker[k], now);
    CloseStaleOneMore(cfg, tracker, now, keys, k);
    OpenAfterWrite(t, k, marked, p);
  }

  /** A stale pass moves flows from open to pending one for one, in whatever order it visits them. */
  lemma {:induction false} StalePassMoves(cfg: Timeouts, tracker: TrackerState, now: int, order: seq<FlowKey>, p: Tag)
    requires forall i, j :: 0 <= i < j < |order| ==> order[i] != order[j]
    requires forall k :: k in order ==> k in tracker && tracker[k].IsOpen()
    ensures |OpenKeys(CloseStale(cfg, tracker, now, KeySet(order)), p)|
          + Count(StaleSnapshots(cfg, tracker, now, order), p) == |OpenKeys(tracker, p)|
  {
    if order == [] {
      assert CloseStale(cfg, tracker, now, KeySet(order)) == tracker;
    } else {
      var init, k := order[..|order| - 1], order[|order| - 1];
      assert order == init + [k] && k !in init;
      assert KeySet(order) == KeySet(init) + {k};
      hide MarkStale, OpenKeys, Tagged, CloseStale;
      StalePassMoves(cfg, tracker, now, init, p);
      MarkMoves(cfg, tracker, now, KeySet(init), k, p);
      var snapshots, marked := StaleSnapshots(cfg, tracker, now, init), MarkStale(cfg, tracker[k], now);
      assert StaleSnapshots(cfg, tracker, now, order) == snapshots + [marked];
      CountAppend(snapshots, marked, p);
    }
  }

  // ---------- every step conserves ----------

  lemma ConnectConserves(s: State, ev: Event, t1: int, t2: int, p: Tag)
    requires Conserved(s, p)
    ensures Conserved(AfterConnect(s, ev, t1, t2), p)
  {
    hide BuildFlowKey, OpenKeys, Count, CountUpdates, Tagged;
    var f := NewFlow(|s.begun|, ev, t1, t2);
    OpenAfterWrite(s.tracker, f.key, f, p);
    CountAppend(s.begun, f, p);
    if f.key in s.tracker { CountAppend(s.lost, s.tracker[f.key], p); }
  }

  lemma AcceptConserves(s: State, ev: Event, t1: int, t2: int, p: Tag)
    requires Conserved(s, p)
    ensures Conserved(AfterAccept(s, ev, t1, t2), p)
  {
    var key := BuildFlowKey(ev);
    if key in s.tracker { OpenAfterWrite(s.tracker, key, AcceptFlow(s.tracker[key], t1, t2), p); }
  }

  lemma CloseConserves(s: State, ev: Event, t1: int, t2: int, p: Tag)
    requires s.closing.None? && Conserved(s, p)
    ensures Conserved(AfterClose(s, ev, t1, t2), p)
  {
    var k := CloseTarget(s.tracker, ev);
    if k.Some? { OpenAfterWrite(s.tracker, k.value, CloseFlow(s.tracker[k.value], t1, t2), p); }
  }

  /** `s` is the state with the flow already taken out of flight. */
  lemma FinishConserves(before: State, s: State, f: Flow, now: int, p: Tag)
    requires Conserved(before, p)
    requires before == s.(closing := before.closing, stalePending := before.stalePending)
    requires Finishing(before, p) == Finishing(s, p) + Bit(Tagged(f, p))
    ensures Conserved(FinishOnGraph(s, f, now), p)
  {
    hide Finished;
    var s' := FinishOnGraph(s, f, now);
    assert Finishing(s', p) == Finishing(s, p) && Open(s', p) == Open(before, p);
    if f.edge in s.graph {
      CountUpdatesAppend(s.updates, Update(f, now, s.graph[f.edge].activeConnections <= 0), p);
    } else {
      CountAppend(s.dropped, f, p);
    }
  }

  lemma StaleConserves(cfg: Timeouts, s: State, order: seq<FlowKey>, p: Tag)
    requires s.staleNow.Some? && s.stalePending == [] && ListsStale(cfg, s.tracker, s.staleNow.value, order)
    requires Conserved(s, p)
    ensures Conserved(AfterStale(cfg, s, order), p)
  {
    StalePassMoves(cfg, s.tracker, s.staleNow.value, order, p);
  }

  lemma SweepConserves(cfg: Timeouts, s: State, now: int, p: Tag)
    requires Conserved(s, p)
    ensures Conserved(s.(tracker := Swept(cfg, s.tracker, now), trackerClock := now), p)
  {
    assert OpenKeys(Swept(cfg, s.tracker, now), p) == OpenKeys(s.tracker, p);
  }

  /** Steps that touch none of the five places. */
  lemma OthersConserve(s: State, graph: GraphState, connecting: Option<ConnectUpdate>, staleNow: Option<int>,
                       graphClock: int, p: Tag)
    requires Conserved(s, p)
    ensures Conserved(s.(graph := graph, connecting := connecting, graphClock := graphClock), p)
    ensures Conserved(s.(staleNow := staleNow), p)
  {
  }

  lemma TakeStale(s: State, p: Tag)
    requires s.stalePending != []
    ensures Finishing(s, p) == Finishing(s.(stalePending := s.stalePending[1..]), p) + Bit(Tagged(s.stalePending[0], p))
  {
    CountHead(s.stalePending, p);
  }

  lemma StepConserves(cfg: Timeouts, s: State, l: Label, p: Tag)
    requires Enabled(cfg, s, l) && Conserved(s, p)
    ensures Conserved(Step(cfg, s, l), p)
  {
    hide Conserved, AfterConnect, AfterAccept, AfterClose, AfterStale, FinishOnGraph, Connected, Swept;
    match l
    case ConnectTracker(ev, t1, t2) => ConnectConserves(s, ev, t1, t2, p);
    case ConnectGraph(now) =>
      OthersConserve(s, Connected(s.graph, s.connecting.value.edge, s.connecting.value.port, now), None, None, now, p);
    case Accept(ev, t1, t2) => AcceptConserves(s, ev, t1, t2, p);
    case CloseTracker(ev, t1, t2) => CloseConserves(s, ev, t1, t2, p);
    case CloseGraph(now) => FinishConserves(s, s.(closing := None), s.closing.value, now, p);
    case StaleReadClock(now) => OthersConserve(s, s.graph, s.connecting, Some(now), s.graphClock, p);
    case StaleTracker(order) => StaleConserves(cfg, s, order, p);
    case StaleGraph(now) =>
      TakeStale(s, p);
      FinishConserves(s, s.(stalePending := s.stalePending[1..]), s.stalePending[0], now, p);
    case Cleanup(now) => SweepConserves(cfg, s, now, p);
  }
}
