/** In every reachable state an edge's figures are those its complete history would give. */
module History {
  import opened Common
  import opened Metrics
  import opened ServiceGraph
  import opened FlowState
  import opened Engine
  import opened Ledger

  /** Every completion the edge has seen, oldest first. */
  function HistoryOf(us: seq<Update>, e: EdgeKey): seq<Completion> {
    if us == [] then []
    else
      var init, u := HistoryOf(us[..|us| - 1], e), us[|us| - 1];
      if u.flow.edge == e then init + [u.flow.Completed(u.at)] else init
  }

  ghost predicate Faithful(s: State, e: EdgeKey) {
    var h := HistoryOf(s.updates, e);
    && Ordered(h) && (forall i :: 0 <= i < |h| ==> h[i].at <= s.graphClock)
    && if e in s.graph then s.graph[e].metrics == Summary(h) else h == []
  }

  lemma HistoryAppend(us: seq<Update>, u: Update, e: EdgeKey)
    ensures HistoryOf(us + [u], e)
         == if u.flow.edge == e then HistoryOf(us, e) + [u.flow.Completed(u.at)] else HistoryOf(us, e)
  {
    assert (us + [u])[..|us|] == us;
  }

  lemma {:induction false} HistoryLength(us: seq<Update>, e: EdgeKey)
    ensures |HistoryOf(us, e)| == CountUpdates(us, ByEdge(e))
  {
    if us == [] {
    } else {
      HistoryLength(us[..|us| - 1], e);
    }
  }

  lemma FinishKeepsFaithful(s: State, f: Flow, now: int, e: EdgeKey)
    requires Faithful(s, e) && s.graphClock <= now
    ensures Faithful(FinishOnGraph(s, f, now), e)
  {
    hide Updated, Summary, HistoryOf;
    if f.edge in s.graph {
      HistoryAppend(s.updates, Update(f, now, s.graph[f.edge].activeConnections <= 0), e);
      if f.edge == e {
        var h, c := HistoryOf(s.updates, e), f.Completed(now);
        assert Ordered(h + [c]);
        UpdateRefinesHistory(h, c);
      }
    }
  }

  /** Steps that record no completion and leave existing edges' metrics alone. */
  lemma OthersKeepFaithful(s: State, s': State, e: EdgeKey)
    requires Faithful(s, e) && s'.updates == s.updates && s.graphClock <= s'.graphClock
    requires e in s.graph ==> e in s'.graph && s'.graph[e].metrics == s.graph[e].metrics
    requires e !in s.graph && e in s'.graph ==> s'.graph[e].metrics == NO_METRICS
    ensures Faithful(s', e)
  {
  }

  lemma StepKeepsFaithful(cfg: Timeouts, s: State, l: Label, e: EdgeKey)
    requires Enabled(cfg, s, l) && Faithful(s, e)
    ensures Faithful(Step(cfg, s, l), e)
  {
    hide FinishOnGraph, Faithful;
    match l
    case CloseGraph(now) =>
      OthersKeepFaithful(s, s.(closing := None), e);
      FinishKeepsFaithful(s.(closing := None), s.closing.value, now, e);
    case StaleGraph(now) =>
      OthersKeepFaithful(s, s.(stalePending := s.stalePending[1..]), e);
      FinishKeepsFaithful(s.(stalePending := s.stalePending[1..]), s.stalePending[0], now, e);
    case _ => OthersKeepFaithful(s, Step(cfg, s, l), e);
  }
}
