/** The running program: shared tracker, graph and registry, the state each goroutine carries between its critical
    sections, and a method per section. Each method takes exactly one step of the engine. */
module Runtime {
  import opened Common
  import opened FlowIdentity
  import opened ServiceGraph
  import opened FlowState
  import opened Engine
  import opened FlowTrackerHeap
  import opened Registry
  import opened Ledger
  import opened Accounting
  import opened Runs
  import opened Strings

  // ---------- entry points ----------

  /** Unresolved traffic into an entry service is relabelled "client". */
  predicate IsClientTraffic(ev: Event, entryServices: seq<string>) {
    ev.destinationService in entryServices && (ev.sourceService == "unknown" || ev.sourceService == "external")
  }

  predicate IsClientFlow(f: Flow, entryServices: seq<string>) {
    f.edge.source == "client" && f.edge.destination in entryServices
  }

  /** The registry after a finished flow, if any, has been credited to the canonical source end of its key. */
  function Credited(r: Entries, finished: Option<Flow>, entryServices: seq<string>, now: int): Entries {
    if finished.Some? && IsClientFlow(finished.value, entryServices)
    then Registry.Close(r, finished.value.key.sourceIP, now) else r
  }

  function Labelled(ev: Event, entryServices: seq<string>): Event {
    if IsClientTraffic(ev, entryServices) then ev.(sourceService := "client") else ev
  }

  /** The registry after an event has come in. */
  function Entered(r: Entries, ev: Event, entryServices: seq<string>, now: int): Entries {
    if IsClientTraffic(ev, entryServices) then Connect(r, ev.sourceIP, ev.destinationService, now) else r
  }

  /** After the rules no event is bound for an entry service from an unresolved source, a resolved source is left alone,
      and so is everything bound elsewhere. */
  lemma EntryPointRules(ev: Event, entryServices: seq<string>)
    ensures var l := Labelled(ev, entryServices);
      && (l.destinationService in entryServices ==> l.sourceService != "unknown" && l.sourceService != "external")
      && (ev.sourceService != "unknown" && ev.sourceService != "external" ==> l == ev)
      && (ev.destinationService !in entryServices ==> l == ev)
      && l.(sourceService := ev.sourceService) == ev
      && (l != ev ==> l.sourceService == "client")
  {
  }

  /** Only the end of a flow from "client" to an entry service is credited, and it is. */
  lemma CreditRules(r: Entries, f: Flow, entryServices: seq<string>, now: int)
    ensures f.edge.source != "client" || f.edge.destination !in entryServices ==>
      Credited(r, Some(f), entryServices, now) == r
    ensures f.edge.source == "client" && f.edge.destination in entryServices ==>
      Credited(r, Some(f), entryServices, now) == Registry.Close(r, f.key.sourceIP, now)
    ensures Credited(r, None, entryServices, now) == r
  {
  }

  method ApplyEntryPointRules(ev: Event, entryServices: seq<string>, unknown: UnknownIPRegistry, now: int)
    returns (labelled: Event)
    requires unknown.Valid()
    modifies unknown, unknown.Entries.Values
    ensures unknown.Valid() && fresh(unknown.Entries.Values - old(unknown.Entries.Values))
    ensures labelled == Labelled(ev, entryServices)
    ensures unknown.State() == Entered(old(unknown.State()), ev, entryServices, now)
  {
    hide Counted;
    if ev.destinationService !in entryServices {
      return ev;
    }
    if ev.sourceService != "unknown" && ev.sourceService != "external" {
      return ev;
    }
    if !IsLoopbackIP(ev.sourceIP) {
      unknown.RecordConnect(ev.sourceIP, ev.destinationService, now);
    }
    labelled := ev.(sourceService := "client");
  }

  method TrackClientIPClose(f: Flow, entryServices: seq<string>, unknown: UnknownIPRegistry, now: int)
    requires unknown.Valid()
    modifies unknown.Entries.Values
    ensures unknown.Valid()
    ensures unknown.State() == Credited(old(unknown.State()), Some(f), entryServices, now)
  {
    if f.edge.source != "client" {
      return;
    }
    if f.edge.destination !in entryServices {
      return;
    }
    unknown.RecordClose(f.key.sourceIP, f.edge.destination, now);
  }

  /** The steps of a stale pass, in order: read the clock, scan, then one update for each flow found but `left` of
      them. */
  predicate IsStalePass(ls: seq<Label>, now: int, left: nat) {
    && |ls| >= 2 && ls[0] == StaleReadClock(now) && ls[1].StaleTracker?
    && |ls| + left == 2 + |ls[1].order|
    && (forall i :: 2 <= i < |ls| ==> ls[i].StaleGraph?)
  }

  /** A close that nothing interrupts: the graph half follows only when the tracker half finished a flow. */
  ghost function AfterWholeClose(cfg: Timeouts, s: Engine.State, ev: Event, t1: int, t2: int, now: int): Engine.State
    requires Enabled(cfg, s, Label.CloseTracker(ev, t1, t2)) && s.graphClock <= now
  {
    var half := Step(cfg, s, Label.CloseTracker(ev, t1, t2));
    if half.closing.Some? then Step(cfg, half, Label.CloseGraph(now)) else half
  }

  lemma TwoStaleSteps(cfg: Timeouts, s: Engine.State, now: int, order: seq<FlowKey>) returns (ls: seq<Label>)
    requires Enabled(cfg, s, Label.StaleReadClock(now))
    requires Enabled(cfg, Step(cfg, s, Label.StaleReadClock(now)), Label.StaleTracker(order))
    ensures IsRun(cfg, s, ls) && ls == [Label.StaleReadClock(now), Label.StaleTracker(order)]
    ensures After(cfg, s, ls) == Step(cfg, Step(cfg, s, Label.StaleReadClock(now)), Label.StaleTracker(order))
  {
    hide Step, Enabled;
    ls := [Label.StaleReadClock(now)];
    assert [] + ls == ls;
    Extend(cfg, s, [], Label.StaleReadClock(now));
    Extend(cfg, s, ls, Label.StaleTracker(order));
    ls := ls + [Label.StaleTracker(order)];
  }

  lemma FinishTouchesOnlyGraph(s: Engine.State, f: Flow, now: int)
    ensures var s' := Engine.FinishOnGraph(s, f, now);
      && s'.tracker == s.tracker && s'.closing == s.closing
      && s'.staleNow == s.staleNow && s'.stalePending == s.stalePending
  {
    hide Finished;
  }

  /** One pending update can always be applied, and leaves one fewer. */
  lemma StaleGraphEnabled(cfg: Timeouts, s: Engine.State, now: int)
    requires s.stalePending != [] && s.graphClock <= now
    ensures Enabled(cfg, s, Label.StaleGraph(now))
    ensures var s' := Step(cfg, s, Label.StaleGraph(now));
      s'.staleNow == s.staleNow && s'.stalePending == s.stalePending[1..]
  {
    FinishTouchesOnlyGraph(s.(stalePending := s.stalePending[1..]), s.stalePending[0], now);
    hide Engine.FinishOnGraph;
  }

  lemma CloseTouchesNoGraph(s: Engine.State, ev: Event, t1: int, t2: int)
    ensures AfterClose(s, ev, t1, t2).graphClock == s.graphClock
  {
  }

  lemma StaleClearsClock(cfg: Timeouts, s: Engine.State)
    requires s.staleNow.Some?
    ensures forall order :: (forall k :: k in order ==> k in s.tracker) ==> AfterStale(cfg, s, order).staleNow.None?
  {
  }

  lemma CreditKeepsSound(r: Entries, finished: Option<Flow>, entryServices: seq<string>, now: int)
    requires SoundEntries(r)
    ensures SoundEntries(Credited(r, finished, entryServices, now))
  {
    hide SoundEntries;
    if finished.Some? { CloseKeepsSound(r, finished.value.key.sourceIP, now); }
  }

  lemma EntryKeepsSound(r: Entries, ev: Event, entryServices: seq<string>, now: int)
    requires SoundEntries(r)
    ensures SoundEntries(Entered(r, ev, entryServices, now))
  {
    hide SoundEntries;
    ConnectKeepsSound(r, ev.sourceIP, ev.destinationService, now);
  }

  lemma LabelledKeepsKey(ev: Event, entryServices: seq<string>)
    ensures BuildFlowKey(Labelled(ev, entryServices)) == BuildFlowKey(ev)
  {
  }

  /** A CLOSE of the flow just begun finishes it, whatever was at its key before. */
  lemma CloseFindsIt(cfg: Timeouts, s: Engine.State, ev: Event, closeEv: Event, t1: int, t2: int, now: int,
                     u1: int, u2: int)
    requires s.connecting.None? && s.closing.None? && s.trackerClock <= t1 <= t2 <= u1 <= u2 && s.graphClock <= now
    requires BuildFlowKey(closeEv) == BuildFlowKey(ev)
    ensures var s' := Step(cfg, Step(cfg, s, Label.ConnectTracker(ev, t1, t2)), Label.ConnectGraph(now));
      && Enabled(cfg, s', Label.CloseTracker(closeEv, u1, u2))
      && var c := Step(cfg, s', Label.CloseTracker(closeEv, u1, u2)).closing;
        c.Some? && c.value.key == BuildFlowKey(ev) && c.value.edge == EdgeKey(ev.sourceService, ev.destinationService)
  {
    hide BuildFlowKey, Connected;
  }

  /** The condition of `ConnectThenCloseRestoresIff`, for what the handlers do with a client's connection. */
  lemma ClientIsCreditedIff(r: Entries, ev: Event, c: Option<Flow>, entryServices: seq<string>, r1: int, r2: int)
    requires SoundEntries(r) && IsClientTraffic(ev, entryServices) && Tracked(ev.sourceIP)
    requires c.Some? && c.value.key == BuildFlowKey(ev) && IsClientFlow(c.value, entryServices)
    ensures var r' := Credited(Entered(r, ev, entryServices, r1), c, entryServices, r2);
      ActiveOf(r', ev.sourceIP) == ActiveOf(r, ev.sourceIP) <==> !Less(ev.destinationIP, ev.sourceIP)
  {
    hide IsLoopbackIP, BuildFlowKey, Sum;
    assert forall ip :: ip in r ==> SoundEntry(ip, r[ip]);
    ConnectThenCloseRestoresIff(r, ev, r1, r2);
  }

  // ---------- the program ----------

  class Program {
    const cfg: Timeouts
    const entryServices: seq<string>
    const tracker: FlowTracker
    const graph: Graph
    const unknown: UnknownIPRegistry

    var connects: nat
    var connecting: Option<ConnectUpdate>
    var closing: Option<Flow>
    var staleNow: Option<int>
    var stalePending: seq<Flow>

    var trackerClock: int  // latest readings under each lock, kept for the model
    var graphClock: int
    ghost var begun: seq<Flow>
    ghost var lost: seq<Flow>
    ghost var dropped: seq<Flow>
    ghost var updates: seq<Update>

    ghost predicate Linked()
      reads this, tracker, graph, unknown, unknown.Entries.Values
    {
      tracker.Valid() && graph.Valid() && unknown.Valid() && connects == |begun|
    }

    ghost function State(): Engine.State
      reads this, tracker, tracker.Flows.Values, graph, graph.Edges.Values
    {
      Engine.State(tracker.State(), graph.State(), connecting, closing, staleNow, stalePending,
                   trackerClock, graphClock, begun, lost, dropped, updates)
    }

    /** The program is always in a state that some run of the engine reaches, with a sound registry. */
    ghost predicate Valid()
      reads this, tracker, tracker.Flows.Values, graph, graph.Edges.Values, unknown, unknown.Entries.Values
    {
      Linked() && Reachable(cfg, State()) && SoundEntries(unknown.State())
    }

    /** So the results about reachable states hold of the running program: exact accounting, and one fate per
        connect. */
    lemma KeepsAccounts(e: EdgeKey)
      requires Valid()
      ensures Active(State(), e) + Connecting(State(), e)
           == Open(State(), ByEdge(e)) + Finishing(State(), ByEdge(e)) + Count(lost, ByEdge(e))
            + Count(dropped, ByEdge(e)) + Guarded(updates, e)
      ensures Count(begun, ByEdge(e)) == Total(State(), e) + Connecting(State(), e)
      ensures forall i, j :: 0 <= i < j < |updates| ==> updates[i].flow.id != updates[j].flow.id
    {
      hide Reachable, FlowTracker.State, Graph.State;
      ExactAccounting(cfg, State(), e);
      AtMostOneFinalisation(cfg, State());
    }

    constructor (cfg: Timeouts, entryServices: seq<string>)
      ensures Valid() && State() == INITIAL && unknown.State() == map[]
      ensures this.cfg == cfg && this.entryServices == entryServices
    {
      this.cfg, this.entryServices := cfg, entryServices;
      tracker := new FlowTracker();
      graph := new Graph();
      unknown := new UnknownIPRegistry();
      connects, connecting, closing, staleNow, stalePending := 0, None, None, None, [];
      trackerClock, graphClock, begun, lost, dropped, updates := 0, 0, [], [], [], [];
      InitialReachable(cfg);
    }

    /** What the connect goroutine carries to its graph half, and the history. */
    method NoteConnect(ev: Event, t1: int, t2: int, ghost overwritten: seq<Flow>)
      modifies this`connects, this`connecting, this`trackerClock, this`begun, this`lost
      ensures connects == old(connects) + 1 && trackerClock == t2
      ensures connecting ==
        Some(ConnectUpdate(EdgeKey(ev.sourceService, ev.destinationService), ev.destinationPort))
      ensures begun == old(begun) + [NewFlow(old(connects), ev, t1, t2)] && lost == old(lost) + overwritten
    {
      begun := begun + [NewFlow(connects, ev, t1, t2)];
      lost := lost + overwritten;
      connects := connects + 1;
      connecting := Some(ConnectUpdate(EdgeKey(ev.sourceService, ev.destinationService), ev.destinationPort));
      trackerClock := t2;
    }

    method BeginFlow(ev: Event, t1: int, t2: int)
      requires Linked()
      modifies this, tracker
      ensures Linked() && fresh(tracker.Flows.Values - old(tracker.Flows.Values))
      ensures State() == AfterConnect(old(State()), ev, t1, t2)
    {
      hide BuildFlowKey, FlowTracker.State, Graph.State, UnknownIPRegistry.State,
           FlowTracker.Valid, Graph.Valid, UnknownIPRegistry.Valid;
      ghost var key := BuildFlowKey(ev);
      ghost var before := tracker.State();
      tracker.HandleConnect(connects, ev, t1, t2);
      NoteConnect(ev, t1, t2, if key in before && !before[key].closed then [before[key]] else []);
    }

    /** `HandleConnect`. */
    method ConnectTracker(ev: Event, t1: int, t2: int)
      requires Valid() && Enabled(cfg, State(), Label.ConnectTracker(ev, t1, t2))
      modifies this, tracker
      ensures Valid() && fresh(tracker.Flows.Values - old(tracker.Flows.Values))
      ensures State() == Step(cfg, old(State()), Label.ConnectTracker(ev, t1, t2))
      ensures unknown.State() == old(unknown.State())
    {
      hide AfterConnect, Reachable, SoundEntries, State, Linked;
      ReachStep(cfg, State(), Label.ConnectTracker(ev, t1, t2));
      BeginFlow(ev, t1, t2);
    }

    method CompleteOnGraph(now: int)
      requires Linked() && State().connecting.Some?
      modifies this, graph, graph.Edges.Values
      ensures Linked() && fresh(graph.Edges.Values - old(graph.Edges.Values))
      ensures var s := old(State());
        State() == s.(graph := Connected(s.graph, s.connecting.value.edge, s.connecting.value.port, now),
                      connecting := None, graphClock := now)
    {
      hide Connected, FlowTracker.State, Graph.State, UnknownIPRegistry.State,
           FlowTracker.Valid, Graph.Valid, UnknownIPRegistry.Valid;
      var u := connecting.value;
      connecting := None;
      graphClock := now;
      graph.RecordConnect(u.edge.source, u.edge.destination, u.port, now);
    }

    /** `Graph.RecordConnect`. */
    method ConnectGraph(now: int)
      requires Valid() && Enabled(cfg, State(), Label.ConnectGraph(now))
      modifies this, graph, graph.Edges.Values
      ensures Valid() && fresh(graph.Edges.Values - old(graph.Edges.Values))
      ensures State() == Step(cfg, old(State()), Label.ConnectGraph(now))
    {
      hide Connected, Reachable, SoundEntries, Linked, State;
      ReachStep(cfg, State(), Label.ConnectGraph(now));
      CompleteOnGraph(now);
    }

    method AcceptInTracker(ev: Event, t1: int, t2: int)
      requires Linked()
      modifies this, tracker.Flows.Values
      ensures Linked() && State() == AfterAccept(old(State()), ev, t1, t2)
    {
      hide BuildFlowKey, AcceptFlow, FlowTracker.State, Graph.State, UnknownIPRegistry.State,
           FlowTracker.Valid, Graph.Valid, UnknownIPRegistry.Valid;
      trackerClock := t2;
      tracker.HandleAccept(ev, t1, t2);
    }

    /** `HandleAccept`. */
    method Accept(ev: Event, t1: int, t2: int)
      requires Valid() && Enabled(cfg, State(), Label.Accept(ev, t1, t2))
      modifies this, tracker.Flows.Values
      ensures Valid()
      ensures State() == Step(cfg, old(State()), Label.Accept(ev, t1, t2))
    {
      hide AfterAccept, Reachable, SoundEntries, Linked, State;
      ReachStep(cfg, State(), Label.Accept(ev, t1, t2));
      AcceptInTracker(ev, t1, t2);
    }

    /** `HandleClose` on the tracker: mark the flow and take its snapshot. */
    method FinishInTracker(ev: Event, t1: int, t2: int)
      requires Linked() && State().closing.None?
      modifies this, tracker.Flows.Values
      ensures Linked() && State() == AfterClose(old(State()), ev, t1, t2)
      ensures unknown.State() == old(unknown.State())
    {
      hide CloseTarget, CloseFlow, Reachable, SoundEntries, FlowTracker.State, Graph.State, UnknownIPRegistry.State,
           FlowTracker.Valid, Graph.Valid, UnknownIPRegistry.Valid;
      trackerClock := t2;
      closing := tracker.CloseFlowFor(ev, t1, t2);
    }

    /** The registry section nested in `HandleClose`. */
    method CreditClose(registryNow: int)
      requires Linked() && SoundEntries(unknown.State())
      modifies unknown.Entries.Values
      ensures Linked() && SoundEntries(unknown.State()) && State() == old(State())
      ensures unknown.State() == Credited(old(unknown.State()), State().closing, entryServices, registryNow)
    {
      hide IsClientFlow, Registry.Close, SoundEntries, FlowTracker.State, Graph.State, UnknownIPRegistry.State,
           FlowTracker.Valid, Graph.Valid, UnknownIPRegistry.Valid;
      CreditKeepsSound(unknown.State(), closing, entryServices, registryNow);
      if closing.Some? {
        TrackClientIPClose(closing.value, entryServices, unknown, registryNow);
      }
    }

    /** `HandleClose` up to releasing the tracker lock. */
    method CloseTracker(ev: Event, t1: int, t2: int, registryNow: int)
      requires Valid() && Enabled(cfg, State(), Label.CloseTracker(ev, t1, t2))
      modifies this, tracker.Flows.Values, unknown.Entries.Values
      ensures Valid()
      ensures State() == Step(cfg, old(State()), Label.CloseTracker(ev, t1, t2))
      ensures unknown.State() == Credited(old(unknown.State()), State().closing, entryServices, registryNow)
    {
      hide AfterClose, Credited, Reachable, SoundEntries, Linked, State, UnknownIPRegistry.State;
      ReachStep(cfg, State(), Label.CloseTracker(ev, t1, t2));
      FinishInTracker(ev, t1, t2);
      CreditClose(registryNow);
    }

    method FinishOnGraph(flow: Flow, now: int)
      requires Linked()
      modifies this, graph.Edges.Values
      ensures Linked()
      ensures State() == Engine.FinishOnGraph(old(State()), flow, now)
    {
      hide Finished, Reachable, SoundEntries, FlowTracker.State, Graph.State, UnknownIPRegistry.State,
           FlowTracker.Valid, Graph.Valid, UnknownIPRegistry.Valid;
      ghost var before := graph.State();
      graphClock := now;
      var found := graph.FinishFlow(flow.edge, flow.Completed(now));
      if found {
        updates := updates + [Update(flow, now, before[flow.edge].activeConnections <= 0)];
      } else {
        dropped := dropped + [flow];
      }
    }

    /** The rest of `HandleClose`. */
    method CloseGraph(now: int)
      requires Valid() && Enabled(cfg, State(), Label.CloseGraph(now))
      modifies this, graph.Edges.Values
      ensures Valid()
      ensures State() == Step(cfg, old(State()), Label.CloseGraph(now))
    {
      hide Reachable, SoundEntries, FlowTracker.State, Graph.State, UnknownIPRegistry.State,
           FlowTracker.Valid, Graph.Valid, UnknownIPRegistry.Valid;
      ReachStep(cfg, State(), Label.CloseGraph(now));
      var flow := closing.value;
      closing := None;
      FinishOnGraph(flow, now);
    }

    method StaleReadClock(now: int)
      requires Valid() && Enabled(cfg, State(), Label.StaleReadClock(now))
      modifies this
      ensures Valid()
      ensures State() == Step(cfg, old(State()), Label.StaleReadClock(now))
    {
      hide Reachable, SoundEntries, FlowTracker.State, Graph.State, UnknownIPRegistry.State,
           FlowTracker.Valid, Graph.Valid, UnknownIPRegistry.Valid;
      ReachStep(cfg, State(), Label.StaleReadClock(now));
      staleNow := Some(now);
    }

    method Scan() returns (ghost order: seq<FlowKey>)
      requires Linked() && staleNow.Some?
      modifies this, tracker.Flows.Values
      ensures Linked() && ListsStale(cfg, old(tracker.State()), old(staleNow).value, order)
      ensures State() == AfterStale(cfg, old(State()), order)
    {
      hide CloseStale, StaleSnapshots, IsStale, FlowTracker.State, Graph.State, UnknownIPRegistry.State,
           FlowTracker.Valid, Graph.Valid, UnknownIPRegistry.Valid;
      var now := staleNow.value;
      stalePending, order := tracker.CloseStaleFlows(cfg, now);
      staleNow := None;
      trackerClock := if trackerClock < now then now else trackerClock;
    }

    /** `InferStaleFlows` under the tracker lock: some order of visiting the map makes it a step of the engine. */
    method StaleTracker() returns (ghost order: seq<FlowKey>)
      requires Valid() && staleNow.Some? && stalePending == []
      modifies this, tracker.Flows.Values
      ensures Valid() && Enabled(cfg, old(State()), Label.StaleTracker(order))
      ensures State() == Step(cfg, old(State()), Label.StaleTracker(order))
      ensures |stalePending| == |order|
      ensures unknown.State() == old(unknown.State())
    {
      hide Reachable, SoundEntries, Linked, ListsStale, CloseStale, StaleSnapshots;
      ghost var start := State();
      order := Scan();
      ReachStep(cfg, start, Label.StaleTracker(order));
    }

    /** One pending update of `InferStaleFlows`. */
    method StaleGraph(now: int)
      requires Valid() && Enabled(cfg, State(), Label.StaleGraph(now))
      modifies this, graph.Edges.Values
      ensures Valid()
      ensures State() == Step(cfg, old(State()), Label.StaleGraph(now))
      ensures unknown.State() == old(unknown.State())
    {
      hide Reachable, SoundEntries, FlowTracker.State, Graph.State, UnknownIPRegistry.State,
           FlowTracker.Valid, Graph.Valid, UnknownIPRegistry.Valid;
      ReachStep(cfg, State(), Label.StaleGraph(now));
      var flow := stalePending[0];
      stalePending := stalePending[1..];
      FinishOnGraph(flow, now);
    }

    /** `cleanupExpiredFlows`. */
    method Cleanup(now: int) returns (removed: nat)
      requires Valid() && Enabled(cfg, State(), Label.Cleanup(now))
      modifies this, tracker
      ensures Valid()
      ensures State() == Step(cfg, old(State()), Label.Cleanup(now))
      ensures removed == |old(State()).tracker| - |State().tracker|
    {
      hide Swept, Reachable, SoundEntries, FlowTracker.State, Graph.State, UnknownIPRegistry.State,
           FlowTracker.Valid, Graph.Valid, UnknownIPRegistry.Valid;
      ReachStep(cfg, State(), Label.Cleanup(now));
      removed := tracker.CleanupExpiredFlows(cfg, now);
      trackerClock := now;
    }

    // ---------- handlers run without interruption ----------

    /** `RecordNewConnection`: both halves back to back. */
    method RecordNewConnection(ev: Event, t1: int, t2: int, now: int)
      requires Valid() && connecting.None? && trackerClock <= t1 <= t2 && graphClock <= now
      modifies this, tracker, graph, graph.Edges.Values
      ensures Valid()
      ensures fresh(tracker.Flows.Values - old(tracker.Flows.Values))
      ensures fresh(graph.Edges.Values - old(graph.Edges.Values))
      ensures State() == Step(cfg, Step(cfg, old(State()), Label.ConnectTracker(ev, t1, t2)), Label.ConnectGraph(now))
      ensures unknown.State() == old(unknown.State())
    {
      hide NewFlow, BuildFlowKey, Reachable, SoundEntries, FlowTracker.State, Graph.State, UnknownIPRegistry.State,
           FlowTracker.Valid, Graph.Valid, UnknownIPRegistry.Valid;
      ConnectTracker(ev, t1, t2);
      ConnectGraph(now);
    }

    /** `HandleClose`. */
    method HandleClose(ev: Event, t1: int, t2: int, registryNow: int, now: int)
      requires Valid() && closing.None? && trackerClock <= t1 <= t2 && graphClock <= now
      modifies this, tracker.Flows.Values, unknown.Entries.Values, graph.Edges.Values
      ensures Valid() && closing.None?
      ensures State() == AfterWholeClose(cfg, old(State()), ev, t1, t2, now)
      ensures unknown.State() ==
        Credited(old(unknown.State()), Step(cfg, old(State()), Label.CloseTracker(ev, t1, t2)).closing,
                 entryServices, registryNow)
    {
      hide AfterClose, Engine.FinishOnGraph, Reachable, SoundEntries,
           FlowTracker.State, Graph.State, UnknownIPRegistry.State,
           FlowTracker.Valid, Graph.Valid, UnknownIPRegistry.Valid;
      ghost var start := State();
      CloseTracker(ev, t1, t2, registryNow);
      CloseTouchesNoGraph(start, ev, t1, t2);
      if closing.Some? {
        FinishTouchesOnlyGraph(State().(closing := None), closing.value, now);
        CloseGraph(now);
      }
    }

    /** What the connect pipeline does with an event: relabel it, count its address, record the connection. */
    method HandleConnectEvent(ev: Event, registryNow: int, t1: int, t2: int, now: int)
      requires Valid() && connecting.None? && trackerClock <= t1 <= t2 && graphClock <= now
      modifies this, tracker, graph, graph.Edges.Values, unknown, unknown.Entries.Values
      ensures Valid()
      ensures fresh(tracker.Flows.Values - old(tracker.Flows.Values))
      ensures fresh(graph.Edges.Values - old(graph.Edges.Values))
      ensures fresh(unknown.Entries.Values - old(unknown.Entries.Values))
      ensures State() == Step(cfg, Step(cfg, old(State()), Label.ConnectTracker(Labelled(ev, entryServices), t1, t2)),
                              Label.ConnectGraph(now))
      ensures unknown.State() == Entered(old(unknown.State()), ev, entryServices, registryNow)
    {
      hide Step, Labelled, Entered, Reachable, SoundEntries, FlowTracker.State, Graph.State, UnknownIPRegistry.State,
           FlowTracker.Valid, Graph.Valid, UnknownIPRegistry.Valid;
      EntryKeepsSound(unknown.State(), ev, entryServices, registryNow);
      var labelled := ApplyEntryPointRules(ev, entryServices, unknown, registryNow);
      RecordNewConnection(labelled, t1, t2, now);
    }

    /** A client's connection from CONNECT to CLOSE leaves the client's active count where it was if and only if the
        server's address does not sort before the client's as a string. */
    method ClientSession(ev: Event, closeEv: Event, r1: int, t1: int, t2: int, now: int,
                         u1: int, u2: int, r2: int, end: int)
      requires Valid() && connecting.None? && closing.None?
      requires trackerClock <= t1 <= t2 <= u1 <= u2 && graphClock <= now <= end
      requires IsClientTraffic(ev, entryServices) && Tracked(ev.sourceIP) && BuildFlowKey(closeEv) == BuildFlowKey(ev)
      modifies this, tracker, tracker.Flows.Values, graph, graph.Edges.Values, unknown, unknown.Entries.Values
      ensures Valid()
      ensures (ActiveOf(unknown.State(), ev.sourceIP) == old(ActiveOf(unknown.State(), ev.sourceIP)))
         <==> !Less(ev.destinationIP, ev.sourceIP)
    {
      hide Tracked, BuildFlowKey, Reachable, SoundEntries, FlowTracker.State, Graph.State, UnknownIPRegistry.State,
           FlowTracker.Valid, Graph.Valid, UnknownIPRegistry.Valid, Credited, Entered, ActiveOf, Less;
      ghost var start, before := State(), unknown.State();
      LabelledKeepsKey(ev, entryServices);
      CloseFindsIt(cfg, start, Labelled(ev, entryServices), closeEv, t1, t2, now, u1, u2);
      hide Step, Enabled, AfterWholeClose;
      HandleConnectEvent(ev, r1, t1, t2, now);
      ghost var c := Step(cfg, State(), Label.CloseTracker(closeEv, u1, u2)).closing;
      HandleClose(closeEv, u1, u2, r2, end);
      ClientIsCreditedIff(before, ev, c, entryServices, r1, r2);
    }

    /** The first half of `InferStaleFlows`: read the clock, then scan under the tracker lock. */
    method ScanForStale(now: int) returns (ghost ls: seq<Label>)
      requires Valid() && staleNow.None? && stalePending == []
      modifies this, tracker.Flows.Values
      ensures Valid() && staleNow.None? && tracker.Flows == old(tracker.Flows)
      ensures IsRun(cfg, old(State()), ls) && State() == After(cfg, old(State()), ls)
      ensures IsStalePass(ls, now, |stalePending|)
      ensures unknown.State() == old(unknown.State())
    {
      hide AfterStale, Reachable, SoundEntries, FlowTracker.State, Graph.State, UnknownIPRegistry.State,
           FlowTracker.Valid, Graph.Valid, UnknownIPRegistry.Valid;
      ghost var start := State();
      StaleReadClock(now);
      StaleClearsClock(cfg, State());
      ghost var order := StaleTracker();
      ls := TwoStaleSteps(cfg, start, now, order);
    }

    /** One pass of `InferStaleFlows` with nothing in between is a run of the engine that leaves nothing pending. */
    method InferStaleFlows(now: int) returns (ghost ls: seq<Label>)
      requires Valid() && staleNow.None? && stalePending == []
      modifies this, tracker.Flows.Values, graph.Edges.Values
      ensures Valid() && stalePending == [] && staleNow.None?
      ensures IsRun(cfg, old(State()), ls) && State() == After(cfg, old(State()), ls)
      ensures IsStalePass(ls, now, 0)
      ensures unknown.State() == old(unknown.State())
    {
      hide Step, Enabled, IsRun, After, Reachable, SoundEntries,
           FlowTracker.State, Graph.State, UnknownIPRegistry.State,
           FlowTracker.Valid, Graph.Valid, UnknownIPRegistry.Valid;
      ghost var start := State();
      ls := ScanForStale(now);
      while stalePending != []
        invariant Valid() && staleNow.None?
        invariant tracker.Flows == old(tracker.Flows) && graph.Edges == old(graph.Edges)
        invariant IsRun(cfg, start, ls) && State() == After(cfg, start, ls)
        invariant IsStalePass(ls, now, |stalePending|) && unknown.State() == old(unknown.State())
        decreases |stalePending|
      {
        var reading: int := *;
        if reading < graphClock { reading := graphClock; }
        StaleGraphEnabled(cfg, State(), reading);
        Extend(cfg, start, ls, Label.StaleGraph(reading));
        StaleGraph(reading);
        ls := ls + [Label.StaleGraph(reading)];
      }
    }
  }
}
