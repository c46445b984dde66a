/** The correlation engine as a step machine: every critical section is one atomic step, and what a
    goroutine carries from its tracker section to its graph section is explicit state. */
module Engine {
  import opened Common
  import opened FlowIdentity
  import opened ServiceGraph
  import opened FlowState

  type TrackerState = map<FlowKey, Flow>

  /** The graph half of a CONNECT still to be done. */
  datatype ConnectUpdate = ConnectUpdate(edge: EdgeKey, port: Port)

  /** One call of `UpdateEdgeMetrics`: for which flow, when, and whether ActiveConnections was already zero. */
  datatype Update = Update(flow: Flow, at: int, guarded: bool)

  /** `connecting`, `closing`, `staleNow` and `stalePending` are what the connect, close and stale goroutines
      hold between critical sections. The clocks are the latest readings made under each lock.
      The last four fields are history: every flow begun, every open flow overwritten by a CONNECT on its key,
      every finished flow whose edge was missing, and every metrics update, in order. */
  datatype State = State(
    tracker: TrackerState,
    graph: GraphState,
    connecting: Option<ConnectUpdate>,
    closing: Option<Flow>,
    staleNow: Option<int>,
    stalePending: seq<Flow>,
    trackerClock: int,
    graphClock: int,
    begun: seq<Flow>,
    lost: seq<Flow>,
    dropped: seq<Flow>,
    updates: seq<Update>)

  const INITIAL := State(map[], map[], None, None, None, [], 0, 0, [], [], [], [])

  datatype Label =
    | ConnectTracker(ev: Event, t1: int, t2: int)
    | ConnectGraph(now: int)
    | Accept(ev: Event, t1: int, t2: int)
    | CloseTracker(ev: Event, t1: int, t2: int)
    | CloseGraph(now: int)
    | StaleReadClock(now: int)
    | StaleTracker(order: seq<FlowKey>)
    | StaleGraph(now: int)
    | Cleanup(now: int)

  // ---------- tracker sections ----------

  /** `HandleClose` looks the key up as built, then reversed. */
  function CloseLookup(tracker: TrackerState, ev: Event): Option<FlowKey> {
    var key := BuildFlowKey(ev);
    if key in tracker then Some(key)
    else if key.Reverse() in tracker then Some(key.Reverse())
    else None
  }

  /** The open flow a CLOSE event finishes, if any. */
  function CloseTarget(tracker: TrackerState, ev: Event): Option<FlowKey> {
    var k := CloseLookup(tracker, ev);
    if k.Some? && !tracker[k.value].closed then k else None
  }

  /** `order` is one traversal of the map, listing each stale flow once. */
  ghost predicate ListsStale(cfg: Timeouts, tracker: TrackerState, now: int, order: seq<FlowKey>) {
    && (forall i, j :: 0 <= i < j < |order| ==> order[i] != order[j])
    && (forall k :: k in order <==> k in tracker && IsStale(cfg, tracker[k], now))
  }

  function KeySet(order: seq<FlowKey>): set<FlowKey> { set k | k in order }

  function CloseStale(cfg: Timeouts, tracker: TrackerState, now: int, keys: set<FlowKey>): TrackerState {
    map k | k in tracker :: if k in keys then MarkStale(cfg, tracker[k], now) else tracker[k]
  }

  lemma CloseStaleOneMore(cfg: Timeouts, tracker: TrackerState, now: int, keys: set<FlowKey>, k: FlowKey)
    requires k in tracker && k !in keys
    ensures CloseStale(cfg, tracker, now, keys + {k})
         == CloseStale(cfg, tracker, now, keys)[k := MarkStale(cfg, tracker[k], now)]
  {
  }

  function StaleSnapshots(cfg: Timeouts, tracker: TrackerState, now: int, order: seq<FlowKey>): (snapshots: seq<Flow>)
    requires forall k :: k in order ==> k in tracker
    ensures |snapshots| == |order|
  {
    seq(|order|, i requires 0 <= i < |order| => MarkStale(cfg, tracker[order[i]], now))
  }

  function Swept(cfg: Timeouts, tracker: TrackerState, now: int): TrackerState {
    map k | k in tracker && !Expired(cfg, tracker[k], now) :: tracker[k]
  }

  // ---------- graph section of a finished flow ----------

  function FinishOnGraph(s: State, f: Flow, now: int): State {
    if f.edge in s.graph then
      var e := s.graph[f.edge];
      s.(graph := s.graph[f.edge := Finished(e, f.Completed(now))],
         graphClock := now,
         updates := s.updates + [Update(f, now, e.activeConnections <= 0)])
    else
      s.(graphClock := now, dropped := s.dropped + [f])
  }

  // ---------- the machine ----------

  ghost predicate Enabled(cfg: Timeouts, s: State, l: Label) {
    match l
    case ConnectTracker(ev, t1, t2) => s.connecting.None? && s.trackerClock <= t1 <= t2
    case ConnectGraph(now) => s.connecting.Some? && s.graphClock <= now
    case Accept(ev, t1, t2) => s.trackerClock <= t1 <= t2
    case CloseTracker(ev, t1, t2) => s.closing.None? && s.trackerClock <= t1 <= t2
    case CloseGraph(now) => s.closing.Some? && s.graphClock <= now
    case StaleReadClock(now) => s.staleNow.None? && s.stalePending == []
    case StaleTracker(order) =>
      s.staleNow.Some? && s.stalePending == [] && ListsStale(cfg, s.tracker, s.staleNow.value, order)
    case StaleGraph(now) => s.stalePending != [] && s.graphClock <= now
    case Cleanup(now) => s.trackerClock <= now
  }

  function AfterConnect(s: State, ev: Event, t1: int, t2: int): State {
    var f := NewFlow(|s.begun|, ev, t1, t2);
    s.(tracker := s.tracker[f.key := f],
       connecting := Some(ConnectUpdate(f.edge, ev.destinationPort)),
       trackerClock := t2,
       begun := s.begun + [f],
       lost := if f.key in s.tracker && !s.tracker[f.key].closed then s.lost + [s.tracker[f.key]] else s.lost)
  }

  function AfterAccept(s: State, ev: Event, t1: int, t2: int): State {
    var key := BuildFlowKey(ev);
    if key in s.tracker
    then s.(tracker := s.tracker[key := AcceptFlow(s.tracker[key], t1, t2)], trackerClock := t2)
    else s.(trackerClock := t2)
  }

  function AfterClose(s: State, ev: Event, t1: int, t2: int): State {
    match CloseTarget(s.tracker, ev)
    case None => s.(trackerClock := t2)
    case Some(key) =>
      var f := CloseFlow(s.tracker[key], t1, t2);
      s.(tracker := s.tracker[key := f], trackerClock := t2, closing := Some(f))
  }

  function AfterStale(cfg: Timeouts, s: State, order: seq<FlowKey>): State
    requires s.staleNow.Some? && forall k :: k in order ==> k in s.tracker
  {
    var now := s.staleNow.value;
    s.(tracker := CloseStale(cfg, s.tracker, now, KeySet(order)),
       staleNow := None,
       stalePending := StaleSnapshots(cfg, s.tracker, now, order),
       trackerClock := if s.trackerClock < now then now else s.trackerClock)
  }

  function Step(cfg: Timeouts, s: State, l: Label): State
    requires Enabled(cfg, s, l)
  {
    match l
    case ConnectTracker(ev, t1, t2) => AfterConnect(s, ev, t1, t2)
    case ConnectGraph(now) =>
      var u := s.connecting.value;
      s.(graph := Connected(s.graph, u.edge, u.port, now), connecting := None, graphClock := now)
    case Accept(ev, t1, t2) => AfterAccept(s, ev, t1, t2)
    case CloseTracker(ev, t1, t2) => AfterClose(s, ev, t1, t2)
    case CloseGraph(now) => FinishOnGraph(s.(closing := None), s.closing.value, now)
    case StaleReadClock(now) => s.(staleNow := Some(now))
    case StaleTracker(order) => AfterStale(cfg, s, order)
    case StaleGraph(now) => FinishOnGraph(s.(stalePending := s.stalePending[1..]), s.stalePending[0], now)
    case Cleanup(now) => s.(tracker := Swept(cfg, s.tracker, now), trackerClock := now)
  }

  /** `ls` is a run from `s`: every step is enabled when it is taken. */
  ghost predicate IsRun(cfg: Timeouts, s: State, ls: seq<Label>)
    decreases ls
  {
    ls == [] || (Enabled(cfg, s, ls[0]) && IsRun(cfg, Step(cfg, s, ls[0]), ls[1..]))
  }

  ghost function After(cfg: Timeouts, s: State, ls: seq<Label>): State
    requires IsRun(cfg, s, ls)
    decreases ls
  {
    if ls == [] then s else After(cfg, Step(cfg, s, ls[0]), ls[1..])
  }
}
