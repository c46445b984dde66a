/** What the graph's counters say about the ledger, edge by edge. */
module Accounting {
  import opened Common
  import opened FlowIdentity
  import opened Metrics
  import opened ServiceGraph
  import opened FlowState
  import opened Engine
  import opened Ledger

  function Active(s: State, e: EdgeKey): int { if e in s.graph then s.graph[e].activeConnections else 0 }

  function Total(s: State, e: EdgeKey): int { if e in s.graph then s.graph[e].connectionCount else 0 }

  /** Connects between their tracker half and their graph half. */
  function Connecting(s: State, e: EdgeKey): nat { Bit(s.connecting.Some? && s.connecting.value.edge == e) }

  /** Updates that found ActiveConnections already zero. */
  function Guarded(us: seq<Update>, e: EdgeKey): nat {
    if us == [] then 0 else Guarded(us[..|us| - 1], e) + Bit(us[|us| - 1].flow.edge == e && us[|us| - 1].guarded)
  }

  /** Finalisations the graph could not account for: no edge yet, or nothing left to subtract. */
  function Damage(s: State, e: EdgeKey): nat { Count(s.dropped, ByEdge(e)) + Guarded(s.updates, e) }

  /** The counters against the ledger. */
  ghost predicate Balanced(s: State, e: EdgeKey) {
    && Conserved(s, ByEdge(e))
    && Total(s, e) + Connecting(s, e) == Count(s.begun, ByEdge(e))
    && Total(s, e) + Guarded(s.updates, e) == Active(s, e) + CountUpdates(s.updates, ByEdge(e))
    && 0 <= Active(s, e) && Damage(s, e) <= 1
  }

  lemma GuardedAppend(us: seq<Update>, u: Update, e: EdgeKey)
    ensures Guarded(us + [u], e) == Guarded(us, e) + Bit(u.flow.edge == e && u.guarded)
  {
    assert (us + [u])[..|us|] == us;
  }

  lemma {:induction false} GuardedAtMostUpdates(us: seq<Update>, e: EdgeKey)
    ensures Guarded(us, e) <= CountUpdates(us, ByEdge(e))
  {
    if us == [] {
    } else {
      GuardedAtMostUpdates(us[..|us| - 1], e);
    }
  }

  /** The accounting equation, in the terms an operator would use. */
  lemma ActiveAccounting(s: State, e: EdgeKey)
    requires Balanced(s, e)
    ensures Active(s, e) + Connecting(s, e)
         == Open(s, ByEdge(e)) + Finishing(s, ByEdge(e)) + Count(s.lost, ByEdge(e)) + Damage(s, e)
  {
  }

  /** A CONNECT of the edge is between its halves, `f` is all that is open or on its way there, and nothing was lost or
      damaged before: then ActiveConnections is zero when `f` reaches the graph. `f` need not be the flow of that
      CONNECT; it may be one whose count another finalisation took, which itself overtook its CONNECT. */
  predicate NothingToSubtract(s: State, f: Flow, e: EdgeKey) {
    && f.edge == e && Connecting(s, e) == 1
    && Open(s, ByEdge(e)) == 0 && Finishing(s, ByEdge(e)) == 1
    && Count(s.lost, ByEdge(e)) == 0 && Damage(s, e) == 0
  }

  /** The graph fails to account for a finalisation exactly when there is nothing to subtract it from. */
  lemma FinishDamagesIff(before: State, s: State, f: Flow, now: int, e: EdgeKey)
    requires Balanced(before, e)
    requires before == s.(closing := before.closing, stalePending := before.stalePending)
    requires Finishing(before, ByEdge(e)) == Finishing(s, ByEdge(e)) + Bit(f.edge == e)
    ensures Damage(FinishOnGraph(s, f, now), e) == Damage(before, e) + Bit(NothingToSubtract(before, f, e))
  {
    hide Updated, Finishing, Open, Count, CountUpdates;
    ActiveAccounting(before, e);
    if f.edge in s.graph {
      GuardedAppend(s.updates, Update(f, now, s.graph[f.edge].activeConnections <= 0), e);
    } else {
      CountAppend(s.dropped, f, ByEdge(e));
    }
  }

  lemma FinishKeepsBalance(before: State, s: State, f: Flow, now: int, e: EdgeKey)
    requires Balanced(before, e)
    requires before == s.(closing := before.closing, stalePending := before.stalePending)
    requires Finishing(before, ByEdge(e)) == Finishing(s, ByEdge(e)) + Bit(f.edge == e)
    ensures Balanced(FinishOnGraph(s, f, now), e)
  {
    hide Updated, Finishing, Open, Count, CountUpdates;
    var s' := FinishOnGraph(s, f, now);
    FinishConserves(before, s, f, now, ByEdge(e));
    FinishDamagesIff(before, s, f, now, e);
    if f.edge in s.graph {
      var u := Update(f, now, s.graph[f.edge].activeConnections <= 0);
      CountUpdatesAppend(s.updates, u, ByEdge(e));
      GuardedAppend(s.updates, u, e);
    }
    assert Connecting(s', e) == Connecting(before, e) <= 1;
  }

  lemma ConnectKeepsBalance(s: State, ev: Event, t1: int, t2: int, e: EdgeKey)
    requires s.connecting.None? && Balanced(s, e)
    ensures Balanced(AfterConnect(s, ev, t1, t2), e)
  {
    ConnectConserves(s, ev, t1, t2, ByEdge(e));
    CountAppend(s.begun, NewFlow(|s.begun|, ev, t1, t2), ByEdge(e));
  }

  lemma ConnectGraphKeepsBalance(s: State, now: int, e: EdgeKey)
    requires s.connecting.Some? && Balanced(s, e)
    ensures var u := s.connecting.value;
      Balanced(s.(graph := Connected(s.graph, u.edge, u.port, now), connecting := None, graphClock := now), e)
  {
    var u := s.connecting.value;
    var s' := s.(graph := Connected(s.graph, u.edge, u.port, now), connecting := None, graphClock := now);
    OthersConserve(s, s'.graph, None, None, now, ByEdge(e));
    assert Active(s', e) == Active(s, e) + Connecting(s, e) && Total(s', e) == Total(s, e) + Connecting(s, e);
  }

  /** Steps that leave the graph, the connect goroutine and the record of updates alone. */
  lemma OthersKeepBalance(s: State, s': State, e: EdgeKey)
    requires Balanced(s, e) && Conserved(s', ByEdge(e))
    requires s'.graph == s.graph && s'.connecting == s.connecting
    requires s'.begun == s.begun && s'.dropped == s.dropped && s'.updates == s.updates
    ensures Balanced(s', e)
  {
  }

  /** `f` is the next flow a goroutine has for the graph, and `s` the state once it has been taken up. */
  predicate Takes(before: State, s: State, f: Flow) {
    || (before.closing == Some(f) && s == before.(closing := None))
    || (before.stalePending != [] && f == before.stalePending[0]
        && s == before.(stalePending := before.stalePending[1..]))
  }

  lemma TakingMovesOne(before: State, s: State, f: Flow, e: EdgeKey)
    requires Takes(before, s, f)
    ensures before == s.(closing := before.closing, stalePending := before.stalePending)
    ensures Finishing(before, ByEdge(e)) == Finishing(s, ByEdge(e)) + Bit(f.edge == e)
  {
    if before.stalePending != [] { TakeStale(before, ByEdge(e)); }
  }

  lemma FinishAfterTaking(before: State, s: State, f: Flow, now: int, e: EdgeKey)
    requires Balanced(before, e) && Takes(before, s, f)
    ensures Balanced(FinishOnGraph(s, f, now), e)
  {
    TakingMovesOne(before, s, f, e);
    FinishKeepsBalance(before, s, f, now, e);
  }

  lemma StepKeepsBalance(cfg: Timeouts, s: State, l: Label, e: EdgeKey)
    requires Enabled(cfg, s, l) && Balanced(s, e)
    ensures Balanced(Step(cfg, s, l), e)
  {
    hide AfterConnect, FinishOnGraph, Connected, Swept, Finishing, Count;
    StepConserves(cfg, s, l, ByEdge(e));
    match l
    case ConnectTracker(ev, t1, t2) => ConnectKeepsBalance(s, ev, t1, t2, e);
    case ConnectGraph(now) => ConnectGraphKeepsBalance(s, now, e);
    case CloseGraph(now) => FinishAfterTaking(s, s.(closing := None), s.closing.value, now, e);
    case StaleGraph(now) => FinishAfterTaking(s, s.(stalePending := s.stalePending[1..]), s.stalePending[0], now, e);
    case _ => OthersKeepBalance(s, Step(cfg, s, l), e);
  }
}
