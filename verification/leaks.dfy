/** Which steps make ActiveConnections too high, and that it stays so. */
module Leaks {
  import opened Common
  import opened FlowIdentity
  import opened ServiceGraph
  import opened FlowState
  import opened Engine
  import opened Ledger
  import opened Accounting
  import opened Runs

  /** What ActiveConnections has too many of for good. */
  function Leak(s: State, e: EdgeKey): nat { Count(s.lost, ByEdge(e)) + Damage(s, e) }

  /** A CONNECT on the key of a flow of this edge that is still open. */
  predicate Overwrites(s: State, l: Label, e: EdgeKey) {
    && l.ConnectTracker?
    && var k := BuildFlowKey(l.ev);
      k in s.tracker && s.tracker[k].IsOpen() && s.tracker[k].edge == e
  }

  /** A finalisation that finds nothing to subtract from, because a CONNECT of the edge is between its halves. */
  predicate FindsNothing(s: State, l: Label, e: EdgeKey) {
    || (l.CloseGraph? && s.closing.Some? && NothingToSubtract(s, s.closing.value, e))
    || (l.StaleGraph? && s.stalePending != [] && NothingToSubtract(s, s.stalePending[0], e))
  }

  predicate Leaking(s: State, l: Label, e: EdgeKey) { Overwrites(s, l, e) || FindsNothing(s, l, e) }

  lemma FinishLeaksIff(before: State, s: State, f: Flow, now: int, e: EdgeKey)
    requires Balanced(before, e) && Takes(before, s, f)
    ensures Leak(FinishOnGraph(s, f, now), e) == Leak(before, e) + Bit(NothingToSubtract(before, f, e))
  {
    hide Finished, Balanced, Finishing, Damage, NothingToSubtract;
    TakingMovesOne(before, s, f, e);
    FinishDamagesIff(before, s, f, now, e);
  }

  lemma ConnectLeaksIff(s: State, ev: Event, t1: int, t2: int, e: EdgeKey)
    ensures Leak(AfterConnect(s, ev, t1, t2), e) == Leak(s, e) + Bit(Overwrites(s, ConnectTracker(ev, t1, t2), e))
  {
    hide BuildFlowKey;
    var k := BuildFlowKey(ev);
    if k in s.tracker { CountAppend(s.lost, s.tracker[k], ByEdge(e)); }
  }

  /** The leak grows by one on exactly those steps, and no step ever reduces it. */
  lemma StepLeaksIff(cfg: Timeouts, s: State, l: Label, e: EdgeKey)
    requires Enabled(cfg, s, l) && Balanced(s, e)
    ensures Leak(Step(cfg, s, l), e) == Leak(s, e) + Bit(Leaking(s, l, e))
  {
    hide AfterConnect, FinishOnGraph, Connected, Swept, Balanced, NothingToSubtract;
    match l
    case ConnectTracker(ev, t1, t2) => ConnectLeaksIff(s, ev, t1, t2, e);
    case CloseGraph(now) => FinishLeaksIff(s, s.(closing := None), s.closing.value, now, e);
    case StaleGraph(now) => FinishLeaksIff(s, s.(stalePending := s.stalePending[1..]), s.stalePending[0], now, e);
    case _ =>
  }

  /** How many steps of a run leak on this edge. */
  ghost function LeakingSteps(cfg: Timeouts, s: State, ls: seq<Label>, e: EdgeKey): nat
    requires IsRun(cfg, s, ls)
    decreases ls
  {
    if ls == [] then 0 else Bit(Leaking(s, ls[0], e)) + LeakingSteps(cfg, Step(cfg, s, ls[0]), ls[1..], e)
  }

  lemma {:induction false} RunLeaksExactly(cfg: Timeouts, s: State, ls: seq<Label>, e: EdgeKey)
    requires IsRun(cfg, s, ls) && Balanced(s, e)
    ensures Leak(After(cfg, s, ls), e) == Leak(s, e) + LeakingSteps(cfg, s, ls, e)
    decreases ls
  {
    hide Balanced, Leak, Leaking, Step, Enabled;
    if ls == [] {
    } else {
      StepLeaksIff(cfg, s, ls[0], e);
      StepKeepsBalance(cfg, s, ls[0], e);
      RunLeaksExactly(cfg, Step(cfg, s, ls[0]), ls[1..], e);
    }
  }

  /** With nothing in flight after a run, ActiveConnections is the number of open flows exactly when no CONNECT of the
      run overwrote an open flow of the edge and no finalisation found nothing to subtract from. Otherwise it is too
      high by the number of those steps. */
  lemma ActiveIsExactIffNoStepLeaks(cfg: Timeouts, ls: seq<Label>, e: EdgeKey)
    requires IsRun(cfg, INITIAL, ls)
    requires var s := After(cfg, INITIAL, ls); s.connecting.None? && s.closing.None? && s.stalePending == []
    ensures var s := After(cfg, INITIAL, ls);
      && Active(s, e) == Open(s, ByEdge(e)) + LeakingSteps(cfg, INITIAL, ls, e)
      && (Active(s, e) == Open(s, ByEdge(e)) <==> LeakingSteps(cfg, INITIAL, ls, e) == 0)
  {
    hide Step, Enabled, Balanced, Leaking, Open;
    var s := After(cfg, INITIAL, ls);
    assert Reachable(cfg, s);
    BalancedInitially(e);
    RunLeaksExactly(cfg, INITIAL, ls, e);
    ActiveIsExactIff(cfg, s, e);
  }

  /** A leak is for good: after any continuation that ends outside a connect, ActiveConnections still exceeds the open
      flows by at least the leak there was before. */
  lemma LeaksAreForGood(cfg: Timeouts, s: State, ls: seq<Label>, e: EdgeKey)
    requires Reachable(cfg, s) && IsRun(cfg, s, ls)
    ensures Leak(After(cfg, s, ls), e) >= Leak(s, e)
    ensures var end := After(cfg, s, ls);
      end.connecting.None? ==> Active(end, e) >= Open(end, ByEdge(e)) + Leak(s, e)
  {
    hide Step, Enabled, Reachable, Invariant, IsRun, After, Open;
    ReachableInvariant(cfg, s);
    InvariantBalance(cfg, s, e);
    RunLeaksExactly(cfg, s, ls, e);
    RunKeepsInvariant(cfg, s, ls);
    InvariantBalance(cfg, After(cfg, s, ls), e);
    ActiveAccounting(After(cfg, s, ls), e);
  }
}
