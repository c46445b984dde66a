/** The tracker as the program keeps it: a map of mutable records, each handler section a method. */
module FlowTrackerHeap {
  import opened Common
  import opened FlowIdentity
  import opened ServiceGraph
  import opened FlowState
  import opened Engine

  class ConnectionState {
    const Id: nat  // the number of its CONNECT, kept for the proofs
    const Key: FlowKey
    const SourceService: string
    const DestinationService: string
    const ConnectTime: int
    var AcceptTime: Option<int>
    var CloseTime: Option<int>
    var Accepted: bool
    var Closed: bool
    var LastUpdated: int
    var Failed: bool
    var FailureReason: string
    var ShortLived: bool

    /** The record's value, which is also what `*flow` copies. */
    function State(): Flow
      reads this
    {
      Flow(Id, Key, EdgeKey(SourceService, DestinationService), ConnectTime, AcceptTime, CloseTime,
           Accepted, Closed, LastUpdated, Failed, FailureReason, ShortLived)
    }

    constructor (id: nat, ev: Event, t1: int, t2: int)
      ensures State() == NewFlow(id, ev, t1, t2)
    {
      Id, Key := id, BuildFlowKey(ev);
      SourceService, DestinationService := ev.sourceService, ev.destinationService;
      ConnectTime, AcceptTime, CloseTime, LastUpdated := t1, None, None, t2;
      Accepted, Closed, Failed, FailureReason, ShortLived := false, false, false, "", false;
    }

    method InferFailure(now: int)
      modifies this
      ensures State() == FlowState.InferFailure(old(State()), now)
    {
      if Closed && !Accepted {
        Failed := true;
        FailureReason := "closed_without_accept";
      }
      if State().Duration(now) < SHORT_LIVED {
        ShortLived := true;
      }
    }

    method Close(t1: int, t2: int)
      modifies this
      ensures State() == CloseFlow(old(State()), t1, t2)
    {
      Closed := true;
      CloseTime := Some(t1);
      LastUpdated := t2;
      InferFailure(t2);
    }

    /** The body of the stale scan for one record. */
    method InferStale(cfg: Timeouts, now: int) returns (stale: bool)
      modifies this
      ensures stale == IsStale(cfg, old(State()), now)
      ensures State() == if stale then MarkStale(cfg, old(State()), now) else old(State())
    {
      if Closed {
        return false;
      }
      var ageSinceConnect := now - ConnectTime;
      var ageSinceUpdate := now - LastUpdated;
      var staleIncomplete := !Accepted && ageSinceConnect > cfg.incomplete;
      var staleOpen := Accepted && ageSinceUpdate > cfg.open;
      if !staleIncomplete && !staleOpen {
        return false;
      }
      if staleIncomplete {
        Failed := true;
        FailureReason := "stale_incomplete_flow";
      } else {
        FailureReason := "stale_open_flow";
      }
      Closed := true;
      CloseTime := Some(now);
      LastUpdated := now;
      return true;
    }
  }

  // ---------- the stale scan, one key at a time ----------

  /** After the keys outside `todo` have been visited. */
  ghost predicate Scanned(cfg: Timeouts, start: TrackerState, now: int, todo: set<FlowKey>, order: seq<FlowKey>,
                          pending: seq<Flow>, current: TrackerState)
  {
    && (forall i, j :: 0 <= i < j < |order| ==> order[i] != order[j])
    && (forall k :: k in order <==> k in start && k !in todo && IsStale(cfg, start[k], now))
    && pending == StaleSnapshots(cfg, start, now, order)
    && current == CloseStale(cfg, start, now, KeySet(order))
  }

  lemma ScanBegins(cfg: Timeouts, start: TrackerState, now: int)
    ensures Scanned(cfg, start, now, start.Keys, [], [], start)
  {
    assert CloseStale(cfg, start, now, KeySet([])) == start;
  }

  lemma ScanUnseen(cfg: Timeouts, start: TrackerState, now: int, todo: set<FlowKey>, order: seq<FlowKey>,
                   pending: seq<Flow>, current: TrackerState, key: FlowKey)
    requires Scanned(cfg, start, now, todo, order, pending, current) && key in todo && key in start
    ensures key in current && current[key] == start[key]
  {
  }

  lemma ScanHit(cfg: Timeouts, start: TrackerState, now: int, todo: set<FlowKey>, order: seq<FlowKey>,
                pending: seq<Flow>, current: TrackerState, key: FlowKey)
    requires Scanned(cfg, start, now, todo, order, pending, current) && key in todo && key in start
    requires IsStale(cfg, start[key], now)
    ensures var marked := MarkStale(cfg, start[key], now);
      Scanned(cfg, start, now, todo - {key}, order + [key], pending + [marked], current[key := marked])
  {
    hide MarkStale, IsStale;
    CloseStaleOneMore(cfg, start, now, KeySet(order), key);
    assert KeySet(order + [key]) == KeySet(order) + {key};
    assert StaleSnapshots(cfg, start, now, order + [key])
        == StaleSnapshots(cfg, start, now, order) + [MarkStale(cfg, start[key], now)];
    hide CloseStale, StaleSnapshots;
  }

  lemma ScanMiss(cfg: Timeouts, start: TrackerState, now: int, todo: set<FlowKey>, order: seq<FlowKey>,
                 pending: seq<Flow>, current: TrackerState, key: FlowKey)
    requires Scanned(cfg, start, now, todo, order, pending, current) && key in todo && key in start
    requires !IsStale(cfg, start[key], now)
    ensures Scanned(cfg, start, now, todo - {key}, order, pending, current)
  {
    hide CloseStale, StaleSnapshots, IsStale;
  }

  lemma ScanEnds(cfg: Timeouts, start: TrackerState, now: int, order: seq<FlowKey>, pending: seq<Flow>,
                 current: TrackerState)
    requires Scanned(cfg, start, now, {}, order, pending, current)
    ensures ListsStale(cfg, start, now, order) && pending == StaleSnapshots(cfg, start, now, order)
    ensures current == CloseStale(cfg, start, now, KeySet(order))
  {
    hide CloseStale, StaleSnapshots, IsStale;
  }

  // ---------- the sweep, one key at a time ----------

  function PartlySwept(cfg: Timeouts, start: TrackerState, now: int, todo: set<FlowKey>): TrackerState {
    map k | k in start && (k in todo || !Expired(cfg, start[k], now)) :: start[k]
  }

  lemma SweepOne(cfg: Timeouts, start: TrackerState, now: int, todo: set<FlowKey>, key: FlowKey)
    requires key in todo && key in start
    ensures var current := PartlySwept(cfg, start, now, todo);
      && PartlySwept(cfg, start, now, todo - {key})
         == (if Expired(cfg, start[key], now) then current - {key} else current)
      && current[key] == start[key] && |current - {key}| == |current| - 1
  {
    var current := PartlySwept(cfg, start, now, todo);
    assert current == (current - {key})[key := start[key]];
  }

  // ---------- the tracker ----------

  class FlowTracker {
    var Flows: map<FlowKey, ConnectionState>

    /** Every record is stored under its own key, so no two keys share one. */
    ghost predicate Valid()
      reads this
    {
      forall k :: k in Flows ==> Flows[k].Key == k
    }

    ghost function State(): TrackerState
      reads this, Flows.Values
    {
      map k | k in Flows :: Flows[k].State()
    }

    constructor ()
      ensures Valid() && State() == map[] && fresh(Flows.Values)
    {
      Flows := map[];
    }

    method HandleConnect(id: nat, ev: Event, t1: int, t2: int)
      requires Valid()
      modifies this
      ensures Valid() && fresh(Flows.Values - old(Flows.Values))
      ensures State() == old(State())[BuildFlowKey(ev) := NewFlow(id, ev, t1, t2)]
    {
      hide BuildFlowKey;
      var key := BuildFlowKey(ev);
      var flow := new ConnectionState(id, ev, t1, t2);
      Flows := Flows[key := flow];
    }

    method HandleAccept(ev: Event, t1: int, t2: int)
      requires Valid()
      modifies Flows.Values
      ensures Valid()
      ensures var key := BuildFlowKey(ev);
        State() ==
          if key in old(State()) then old(State())[key := AcceptFlow(old(State())[key], t1, t2)] else old(State())
    {
      hide BuildFlowKey;
      var key := BuildFlowKey(ev);
      if key !in Flows {
        return;
      }
      var flow := Flows[key];
      flow.Accepted := true;
      flow.AcceptTime := Some(t1);
      flow.LastUpdated := t2;
      assert State() == old(State())[key := flow.State()];
    }

    /** The part of `HandleClose` under the tracker lock; the result is the snapshot for the graph half. */
    method CloseFlowFor(ev: Event, t1: int, t2: int) returns (snapshot: Option<Flow>)
      requires Valid()
      modifies Flows.Values
      ensures Valid()
      ensures var target := CloseTarget(old(State()), ev);
        && (target.None? ==> snapshot.None? && State() == old(State()))
        && (target.Some? ==> snapshot == Some(CloseFlow(old(State())[target.value], t1, t2))
                             && State() == old(State())[target.value := snapshot.value])
    {
      hide BuildFlowKey, CloseFlow;
      var key := BuildFlowKey(ev);
      if key !in Flows {
        key := key.Reverse();
        if key !in Flows {
          return None;
        }
      }
      var flow := Flows[key];
      if flow.Closed {
        return None;
      }
      flow.Close(t1, t2);
      assert State() == old(State())[key := flow.State()];
      return Some(flow.State());
    }

    method InferStaleAt(cfg: Timeouts, now: int, key: FlowKey) returns (stale: bool)
      requires Valid() && key in Flows
      modifies Flows[key]
      ensures stale == IsStale(cfg, old(State())[key], now)
      ensures State() == if stale then old(State())[key := MarkStale(cfg, old(State())[key], now)] else old(State())
      ensures stale ==> Flows[key].State() == MarkStale(cfg, old(State())[key], now)
    {
      hide MarkStale, IsStale;
      var flow := Flows[key];
      stale := flow.InferStale(cfg, now);
      assert State() == old(State())[key := flow.State()];
    }

    method Delete(key: FlowKey)
      requires Valid()
      modifies this
      ensures Valid() && Flows == old(Flows) - {key} && Flows.Values <= old(Flows.Values)
      ensures State() == old(State()) - {key}
    {
      Flows := Flows - {key};
    }

    /** The part of `InferStaleFlows` under the tracker lock. The map is visited in an arbitrary order. */
    method CloseStaleFlows(cfg: Timeouts, now: int) returns (pending: seq<Flow>, ghost order: seq<FlowKey>)
      requires Valid()
      modifies Flows.Values
      ensures Valid() && Flows == old(Flows)
      ensures ListsStale(cfg, old(State()), now, order)
      ensures pending == StaleSnapshots(cfg, old(State()), now, order)
      ensures State() == CloseStale(cfg, old(State()), now, KeySet(order))
    {
      hide MarkStale, IsStale, CloseStale, StaleSnapshots, ListsStale;
      pending, order := [], [];
      var todo := Flows.Keys;
      ghost var start := State();
      ScanBegins(cfg, start, now);
      while todo != {}
        invariant todo <= Flows.Keys && Flows == old(Flows) && Valid()
        invariant Scanned(cfg, start, now, todo, order, pending, State())
        decreases todo
      {
        var key :| key in todo;
        ghost var before := State();
        ScanUnseen(cfg, start, now, todo, order, pending, before, key);
        var stale := InferStaleAt(cfg, now, key);
        if stale {
          ScanHit(cfg, start, now, todo, order, pending, before, key);
          pending := pending + [Flows[key].State()];
          order := order + [key];
        } else {
          ScanMiss(cfg, start, now, todo, order, pending, before, key);
        }
        todo := todo - {key};
      }
      ScanEnds(cfg, start, now, order, pending, State());
    }

    method CleanupExpiredFlows(cfg: Timeouts, now: int) returns (removed: nat)
      requires Valid()
      modifies this
      ensures Valid() && Flows.Values <= old(Flows.Values)
      ensures State() == Swept(cfg, old(State()), now)
      ensures removed == |old(State())| - |State()|
    {
      removed := 0;
      var todo := Flows.Keys;
      ghost var start := State();
      assert PartlySwept(cfg, start, now, todo) == start;
      while todo != {}
        invariant todo <= Flows.Keys && Valid() && Flows.Values <= old(Flows.Values)
        invariant State() == PartlySwept(cfg, start, now, todo)
        invariant removed == |start| - |State()|
        decreases todo
      {
        var key :| key in todo;
        var flow := Flows[key];
        SweepOne(cfg, start, now, todo, key);
        assert flow.State() == start[key];
        if flow.Closed && now - flow.LastUpdated > cfg.expiration {
          Delete(key);
          removed := removed + 1;
        }
        todo := todo - {key};
      }
      assert PartlySwept(cfg, start, now, {}) == Swept(cfg, start, now);
    }
  }
}
