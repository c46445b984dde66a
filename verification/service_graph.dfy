/** The dependency graph: edges as values, and the mutable edges the program keeps. */
module ServiceGraph {
  import opened Common
  import opened FlowIdentity
  import opened OrderStatistics
  import opened Metrics

  datatype EdgeKey = EdgeKey(source: string, destination: string)

  datatype EdgeState = EdgeState(
    port: Port,
    connectionCount: int,
    activeConnections: int,
    firstSeen: int,
    lastSeen: int,
    metrics: EdgeMetrics)

  type GraphState = map<EdgeKey, EdgeState>

  /** The effect of one CONNECT on the graph: create the edge, or count once more on it. */
  function Connected(g: GraphState, key: EdgeKey, port: Port, now: int): GraphState {
    if key in g then
      var e := g[key];
      g[key := e.(connectionCount := e.connectionCount + 1,
                  activeConnections := e.activeConnections + 1,
                  lastSeen := now)]
    else
      g[key := EdgeState(port, 1, 1, now, now, NO_METRICS)]
  }

  /** One finished flow on an existing edge: the guarded decrement, then the metrics. */
  function Finished(e: EdgeState, c: Completion): EdgeState {
    e.(activeConnections := if e.activeConnections > 0 then e.activeConnections - 1 else e.activeConnections,
       lastSeen := c.at,
       metrics := Updated(e.metrics, c))
  }

  /** The loop that drops samples that have left the window. */
  method Trim(samples: seq<FlowSample>, windowStart: int) returns (filtered: seq<FlowSample>)
    ensures filtered == Recent(samples, windowStart)
  {
    filtered := [];
    for i := 0 to |samples|
      invariant filtered == Recent(samples[..i], windowStart)
    {
      assert samples[..i + 1] == samples[..i] + [samples[i]];
      RecentAppend(samples[..i], samples[i], windowStart);
      if samples[i].timestamp > windowStart {
        filtered := filtered + [samples[i]];
      }
    }
    assert samples[..|samples|] == samples;
  }

  /** The loop over the window that accumulates latency, failures and the list to sort. */
  method Tally(samples: seq<FlowSample>) returns (totalLatency: int, failedCount: nat, latencies: seq<int>)
    ensures totalLatency == SumDurations(samples) && failedCount == CountFailed(samples)
    ensures latencies == Durations(samples)
  {
    totalLatency, failedCount, latencies := 0, 0, [];
    for i := 0 to |samples|
      invariant totalLatency == SumDurations(samples[..i]) && failedCount == CountFailed(samples[..i])
      invariant latencies == Durations(samples[..i])
    {
      assert samples[..i + 1][..i] == samples[..i];
      totalLatency := totalLatency + samples[i].duration;
      latencies := latencies + [samples[i].duration];
      if samples[i].failed {
        failedCount := failedCount + 1;
      }
    }
    assert samples[..|samples|] == samples;
  }

  class Edge {
    const Source: string
    const Destination: string
    const Port: Port
    var ConnectionCount: int
    var ActiveConnections: int
    const FirstSeen: int
    var LastSeen: int
    var TotalDuration: int
    var AverageDuration: int
    var FailedConnections: nat
    var ShortLivedConnections: nat
    var CompletedConnections: nat
    var RecentFlows: seq<FlowSample>
    var RequestsPerSecond: real
    var RecentAverageLatency: int
    var P95Latency: int
    var FailureRate: real

    ghost function Metrics(): EdgeMetrics
      reads this
    {
      EdgeMetrics(TotalDuration, AverageDuration, FailedConnections, ShortLivedConnections, CompletedConnections,
                  RecentFlows, RequestsPerSecond, RecentAverageLatency, P95Latency, FailureRate)
    }

    ghost function State(): EdgeState
      reads this
    {
      EdgeState(Port, ConnectionCount, ActiveConnections, FirstSeen, LastSeen, Metrics())
    }

    constructor (source: string, destination: string, port: Port, now: int)
      ensures Source == source && Destination == destination
      ensures State() == EdgeState(port, 1, 1, now, now, NO_METRICS)
    {
      Source, Destination, Port := source, destination, port;
      ConnectionCount, ActiveConnections := 1, 1;
      FirstSeen, LastSeen := now, now;
      TotalDuration, AverageDuration := 0, 0;
      FailedConnections, ShortLivedConnections, CompletedConnections := 0, 0, 0;
      RecentFlows := [];
      RequestsPerSecond, FailureRate := 0.0, 0.0;
      RecentAverageLatency, P95Latency := 0, 0;
    }

    /** The live figures, derived from the window. An empty window leaves them alone. */
    method DeriveRolling()
      modifies this
      ensures State() == old(State()) .(metrics := old(Metrics()).(
        requestsPerSecond := RequestsPerSecond, recentAverageLatency := RecentAverageLatency,
        p95Latency := P95Latency, failureRate := FailureRate))
      ensures RecentFlows != [] ==>
        && RequestsPerSecond == |RecentFlows| as real / 30.0
        && RecentAverageLatency == TruncDiv(SumDurations(RecentFlows), |RecentFlows|)
        && P95Latency == P95(Durations(RecentFlows))
        && FailureRate == CountFailed(RecentFlows) as real / |RecentFlows| as real
      ensures RecentFlows == [] ==> Metrics() == old(Metrics())
    {
      hide TruncDiv, P95, SumDurations, CountFailed, Durations;
      var recentCount := |RecentFlows|;
      if recentCount == 0 {
        return;
      }
      RequestsPerSecond := recentCount as real / 30.0;
      var totalLatency, failedCount, latencies := Tally(RecentFlows);
      RecentAverageLatency := TruncDiv(totalLatency, recentCount);
      FailureRate := failedCount as real / recentCount as real;
      var sorted := SortDurations(latencies);
      P95OfAnySort(latencies, sorted);
      P95Latency := sorted[P95Index(|latencies|)];
    }

    /** Folds one finished flow into the edge. */
    method UpdateEdgeMetrics(c: Completion)
      modifies this
      ensures State() == old(State()).(lastSeen := c.at, metrics := Updated(old(Metrics()), c))
    {
      hide TruncDiv, Recent, P95, SumDurations, CountFailed, Durations, Updated;
      LastSeen := c.at;
      TotalDuration := TotalDuration + c.duration;
      CompletedConnections := CompletedConnections + 1;
      if CompletedConnections > 0 {
        AverageDuration := TruncDiv(TotalDuration, CompletedConnections);
      }
      if c.failed {
        FailedConnections := FailedConnections + 1;
      }
      if c.shortLived {
        ShortLivedConnections := ShortLivedConnections + 1;
      }

      RecentFlows := RecentFlows + [c.Sample()];
      RecentFlows := Trim(RecentFlows, c.at - ROLLING_WINDOW);
      RecentAppend(old(RecentFlows), c.Sample(), c.at - ROLLING_WINDOW);
      DeriveRolling();
      AssignedIsUpdated(old(Metrics()), c, Metrics());
    }
  }

  class Graph {
    var Edges: map<EdgeKey, Edge>

    /** Every edge is stored under its own endpoints, so no two keys share an edge. */
    ghost predicate Valid()
      reads this
    {
      forall k :: k in Edges ==> Edges[k].Source == k.source && Edges[k].Destination == k.destination
    }

    ghost function State(): GraphState
      reads this, Edges.Values
    {
      map k | k in Edges :: Edges[k].State()
    }

    constructor ()
      ensures Valid() && State() == map[] && fresh(Edges.Values)
    {
      Edges := map[];
    }

    /** One more connection on an existing edge. */
    method CountOn(key: EdgeKey, now: int)
      requires Valid() && key in Edges
      modifies Edges[key]
      ensures Valid() && State() == Connected(old(State()), key, Edges[key].Port, now)
    {
      var edge := Edges[key];
      edge.ConnectionCount := edge.ConnectionCount + 1;
      edge.ActiveConnections := edge.ActiveConnections + 1;
      edge.LastSeen := now;
      assert edge.Metrics() == old(edge.Metrics());
      assert State() == old(State())[key := edge.State()];
    }

    method RecordConnect(source: string, destination: string, port: Port, now: int)
      requires Valid()
      modifies this, Edges.Values
      ensures Valid() && fresh(Edges.Values - old(Edges.Values))
      ensures State() == Connected(old(State()), EdgeKey(source, destination), port, now)
    {
      var key := EdgeKey(source, destination);
      if key in Edges {
        CountOn(key, now);
        return;
      }
      var edge := new Edge(source, destination, port, now);
      Edges := Edges[key := edge];
      assert State() == old(State())[key := edge.State()];
    }

    /** The graph half of a close or of one stale update. */
    method FinishFlow(key: EdgeKey, c: Completion) returns (exists_: bool)
      requires Valid()
      modifies Edges.Values
      ensures Valid() && exists_ == (key in old(State()))
      ensures State() == if exists_ then old(State())[key := Finished(old(State())[key], c)] else old(State())
    {
      hide Updated;
      exists_ := key in Edges;
      if exists_ {
        var edge := Edges[key];
        if edge.ActiveConnections > 0 {
          edge.ActiveConnections := edge.ActiveConnections - 1;
        }
        edge.UpdateEdgeMetrics(c);
      }
    }
  }
}
