/** Per-service figures from the edges of one graph response. */
module Services {
  import opened Common

  datatype EdgeResponse = EdgeResponse(source: string, target: string, requestsPerSecond: real, failureRate: real,
                                       p95LatencyMs: int, activeConnections: int)

  datatype Totals = Totals(outboundRPS: real, inboundRPS: real, outboundFailed: real, outboundSamples: real,
                           maxOutboundP95: int, activeConnections: int)

  const NO_TOTALS := Totals(0.0, 0.0, 0.0, 0.0, 0, 0)

  // ---------- the specification: sums over the edges ----------

  datatype Side = Outbound | Inbound

  datatype Figure = Rate | Failures | Actives

  function EndOf(e: EdgeResponse, side: Side): string { if side.Outbound? then e.source else e.target }

  function FigureOf(e: EdgeResponse, fig: Figure): real {
    match fig
    case Rate => e.requestsPerSecond
    case Failures => e.failureRate * e.requestsPerSecond
    case Actives => e.activeConnections as real
  }

  function Share(e: EdgeResponse, service: string, side: Side, fig: Figure): real {
    if EndOf(e, side) == service then FigureOf(e, fig) else 0.0
  }

  /** The figure summed over a service's edges on one side. */
  function Sum(edges: seq<EdgeResponse>, service: string, side: Side, fig: Figure): real {
    if edges == [] then 0.0
    else Sum(edges[..|edges| - 1], service, side, fig) + Share(edges[|edges| - 1], service, side, fig)
  }

  /** The figure summed over all edges. */
  function Total(edges: seq<EdgeResponse>, fig: Figure): real {
    if edges == [] then 0.0 else Total(edges[..|edges| - 1], fig) + FigureOf(edges[|edges| - 1], fig)
  }

  function WorseP95(e: EdgeResponse, service: string, sofar: int): int {
    if e.source == service && e.p95LatencyMs > sofar then e.p95LatencyMs else sofar
  }

  function MaxP95(edges: seq<EdgeResponse>, service: string): int {
    if edges == [] then 0 else WorseP95(edges[|edges| - 1], service, MaxP95(edges[..|edges| - 1], service))
  }

  function SumActive(edges: seq<EdgeResponse>, service: string): int {
    if edges == [] then 0
    else
      var e := edges[|edges| - 1];
      SumActive(edges[..|edges| - 1], service) + Bit(e.source == service) * e.activeConnections
  }

  predicate Mentions(edges: seq<EdgeResponse>, service: string) {
    exists i :: 0 <= i < |edges| && (edges[i].source == service || edges[i].target == service)
  }

  function TotalsOf(edges: seq<EdgeResponse>, service: string): Totals {
    Totals(Sum(edges, service, Outbound, Rate), Sum(edges, service, Inbound, Rate),
           Sum(edges, service, Outbound, Failures), Sum(edges, service, Outbound, Rate),
           MaxP95(edges, service), SumActive(edges, service))
  }

  // ---------- the program ----------

  function Accumulated(t: Totals, e: EdgeResponse, outbound: bool): Totals {
    if outbound then
      t.(outboundRPS := t.outboundRPS + e.requestsPerSecond,
         outboundFailed := t.outboundFailed + e.failureRate * e.requestsPerSecond,
         outboundSamples := t.outboundSamples + e.requestsPerSecond,
         maxOutboundP95 := if e.p95LatencyMs > t.maxOutboundP95 then e.p95LatencyMs else t.maxOutboundP95,
         activeConnections := t.activeConnections + e.activeConnections)
    else
      t.(inboundRPS := t.inboundRPS + e.requestsPerSecond)
  }

  class ServiceMetrics {
    const Service: string  // the key it is stored under
    var OutboundRPS: real
    var InboundRPS: real
    var OutboundFailed: real
    var OutboundSamples: real
    var MaxOutboundP95: int
    var ActiveConnections: int

    ghost function State(): Totals
      reads this
    {
      Totals(OutboundRPS, InboundRPS, OutboundFailed, OutboundSamples, MaxOutboundP95, ActiveConnections)
    }

    constructor (service: string)
      ensures Service == service && State() == NO_TOTALS
    {
      Service := service;
      OutboundRPS, InboundRPS, OutboundFailed, OutboundSamples := 0.0, 0.0, 0.0, 0.0;
      MaxOutboundP95, ActiveConnections := 0, 0;
    }

    method Add(e: EdgeResponse, outbound: bool)
      modifies this
      ensures State() == Accumulated(old(State()), e, outbound)
    {
      if outbound {
        OutboundRPS := OutboundRPS + e.requestsPerSecond;
        OutboundFailed := OutboundFailed + e.failureRate * e.requestsPerSecond;
        OutboundSamples := OutboundSamples + e.requestsPerSecond;
        if e.p95LatencyMs > MaxOutboundP95 {
          MaxOutboundP95 := e.p95LatencyMs;
        }
        ActiveConnections := ActiveConnections + e.activeConnections;
      } else {
        InboundRPS := InboundRPS + e.requestsPerSecond;
      }
    }
  }

  function Merged(agg: map<string, Totals>, service: string, e: EdgeResponse, outbound: bool): map<string, Totals> {
    agg[service := Accumulated(if service in agg then agg[service] else NO_TOTALS, e, outbound)]
  }

  class ServiceAggregate {
    var Services: map<string, ServiceMetrics>

    ghost predicate Valid()
      reads this
    {
      forall s :: s in Services ==> Services[s].Service == s
    }

    ghost function State(): map<string, Totals>
      reads this, Services.Values
    {
      map s | s in Services :: Services[s].State()
    }

    constructor ()
      ensures Valid() && State() == map[] && fresh(Services.Values)
    {
      Services := map[];
    }

    method FindOrCreate(service: string) returns (m: ServiceMetrics)
      requires Valid()
      modifies this
      ensures Valid() && fresh(Services.Values - old(Services.Values)) && old(Services.Values) <= Services.Values
      ensures service in Services && m == Services[service]
      ensures State() == if service in old(State()) then old(State()) else old(State())[service := NO_TOTALS]
    {
      if service !in Services {
        var created := new ServiceMetrics(service);
        Services := Services[service := created];
        assert forall s :: s in old(Services) ==> s in Services && Services[s] == old(Services)[s];
      }
      m := Services[service];
    }

    method AccumulateService(service: string, e: EdgeResponse, outbound: bool)
      requires Valid()
      modifies this, Services.Values
      ensures Valid() && fresh(Services.Values - old(Services.Values))
      ensures State() == Merged(old(State()), service, e, outbound)
    {
      hide Accumulated;
      var m := FindOrCreate(service);
      ghost var before := State();
      m.Add(e, outbound);
      assert State() == before[service := m.State()];
    }
  }

  /** What the aggregate should be after `edges`. */
  ghost predicate Aggregates(agg: map<string, Totals>, edges: seq<EdgeResponse>) {
    forall s :: (s in agg <==> Mentions(edges, s)) && (s in agg ==> agg[s] == TotalsOf(edges, s))
  }

  lemma MentionsAppend(edges: seq<EdgeResponse>, e: EdgeResponse, s: string)
    ensures Mentions(edges + [e], s) <==> Mentions(edges, s) || e.source == s || e.target == s
  {
    if Mentions(edges, s) {
      var i :| 0 <= i < |edges| && (edges[i].source == s || edges[i].target == s);
      assert (edges + [e])[i] == edges[i];
    }
    assert (edges + [e])[|edges|] == e;
  }

  lemma {:induction false} NotMentioned(edges: seq<EdgeResponse>, s: string)
    requires !Mentions(edges, s)
    ensures TotalsOf(edges, s) == NO_TOTALS
  {
    if edges == [] {
    } else {
      var init, e := edges[..|edges| - 1], edges[|edges| - 1];
      assert edges == init + [e];
      MentionsAppend(init, e, s);
      NotMentioned(init, s);
    }
  }

  /** What one edge does to the totals of one service: first as its source, then as its target. */
  function WithEdge(t: Totals, e: EdgeResponse, s: string): Totals {
    var asSource := if e.source == s then Accumulated(t, e, true) else t;
    if e.target == s then Accumulated(asSource, e, false) else asSource
  }

  lemma TotalsAppend(edges: seq<EdgeResponse>, e: EdgeResponse, s: string)
    ensures TotalsOf(edges + [e], s) == WithEdge(TotalsOf(edges, s), e, s)
  {
    assert (edges + [e])[..|edges|] == edges;
  }

  lemma OneMoreFor(agg: map<string, Totals>, edges: seq<EdgeResponse>, e: EdgeResponse, s: string)
    requires Aggregates(agg, edges)
    ensures var out := Merged(Merged(agg, e.source, e, true), e.target, e, false);
      (s in out <==> Mentions(edges + [e], s)) && (s in out ==> out[s] == TotalsOf(edges + [e], s))
  {
    hide Accumulated, TotalsOf, Mentions;
    MentionsAppend(edges, e, s);
    TotalsAppend(edges, e, s);
    if s !in agg { NotMentioned(edges, s); }
  }

  lemma OneMoreEdge(agg: map<string, Totals>, edges: seq<EdgeResponse>, e: EdgeResponse)
    requires Aggregates(agg, edges)
    ensures Aggregates(Merged(Merged(agg, e.source, e, true), e.target, e, false), edges + [e])
  {
    var out := Merged(Merged(agg, e.source, e, true), e.target, e, false);
    forall s ensures (s in out <==> Mentions(edges + [e], s)) && (s in out ==> out[s] == TotalsOf(edges + [e], s)) {
      OneMoreFor(agg, edges, e, s);
    }
  }

  /** The loop of `sample` over the edges of a response. */
  method Aggregate(edges: seq<EdgeResponse>) returns (agg: ServiceAggregate)
    ensures agg.Valid() && Aggregates(agg.State(), edges)
  {
    hide Merged, TotalsOf;
    agg := new ServiceAggregate();
    assert Aggregates(map[], edges[..0]) by { assert edges[..0] == []; }
    for i := 0 to |edges|
      invariant agg.Valid() && fresh(agg) && fresh(agg.Services.Values)
      invariant Aggregates(agg.State(), edges[..i])
    {
      var edge := edges[i];
      ghost var before := agg.State();
      agg.AccumulateService(edge.source, edge, true);
      agg.AccumulateService(edge.target, edge, false);
      OneMoreEdge(before, edges[..i], edge);
      assert edges[..i + 1] == edges[..i] + [edge];
    }
    assert edges[..|edges|] == edges;
  }

  // ---------- conservation ----------

  /** A figure summed over services. */
  ghost function SumOver(services: set<string>, edges: seq<EdgeResponse>, side: Side, fig: Figure): real {
    if services == {} then 0.0 else
      var s :| s in services;
      Sum(edges, s, side, fig) + SumOver(services - {s}, edges, side, fig)
  }

  lemma {:induction false} SumOverTakeOut(services: set<string>, edges: seq<EdgeResponse>, side: Side, fig: Figure,
                                          s: string)
    requires s in services
    ensures SumOver(services, edges, side, fig) == Sum(edges, s, side, fig) + SumOver(services - {s}, edges, side, fig)
    decreases services
  {
    var t :| t in services
      && SumOver(services, edges, side, fig) == Sum(edges, t, side, fig) + SumOver(services - {t}, edges, side, fig);
    if t == s {
    } else {
      SumOverTakeOut(services - {t}, edges, side, fig, s);
      SumOverTakeOut(services - {s}, edges, side, fig, t);
      assert services - {t} - {s} == services - {s} - {t};
    }
  }

  lemma {:induction false} SumOverNone(services: set<string>, side: Side, fig: Figure)
    ensures SumOver(services, [], side, fig) == 0.0
    decreases services
  {
    if services == {} {
    } else {
      var s :| s in services;
      SumOverTakeOut(services, [], side, fig, s);
      SumOverNone(services - {s}, side, fig);
    }
  }

  /** What an edge adds to the sum over a set of services. */
  function Added(services: set<string>, e: EdgeResponse, side: Side, fig: Figure): real {
    if EndOf(e, side) in services then FigureOf(e, fig) else 0.0
  }

  /** One more edge adds its figure once, at the service at that end. */
  lemma {:induction false} SumOverAppend(services: set<string>, edges: seq<EdgeResponse>, e: EdgeResponse, side: Side,
                                         fig: Figure)
    ensures SumOver(services, edges + [e], side, fig)
         == SumOver(services, edges, side, fig) + Added(services, e, side, fig)
    decreases services
  {
    if services == {} {
    } else {
      var s :| s in services;
      SumOverTakeOut(services, edges + [e], side, fig, s);
      SumOverTakeOut(services, edges, side, fig, s);
      SumOverAppend(services - {s}, edges, e, side, fig);
      assert (edges + [e])[..|edges|] == edges;
      assert Sum(edges + [e], s, side, fig) == Sum(edges, s, side, fig) + Share(e, s, side, fig);
    }
  }

  /** Summed over all services, outbound and inbound rates, failures and active connections are those of the edges. */
  lemma {:induction false} TotalsConserved(services: set<string>, edges: seq<EdgeResponse>, side: Side, fig: Figure)
    requires forall i :: 0 <= i < |edges| ==> EndOf(edges[i], side) in services
    ensures SumOver(services, edges, side, fig) == Total(edges, fig)
  {
    if edges == [] {
      SumOverNone(services, side, fig);
    } else {
      var init, e := edges[..|edges| - 1], edges[|edges| - 1];
      assert edges == init + [e];
      TotalsConserved(services, init, side, fig);
      SumOverAppend(services, init, e, side, fig);
    }
  }

  /** Failures and active connections are only reported on the outbound side. */
  predicate IsReported(side: Side, fig: Figure) { fig.Rate? || side.Outbound? }

  function Reported(t: Totals, side: Side, fig: Figure): real
    requires IsReported(side, fig)
  {
    match fig
    case Rate => if side.Outbound? then t.outboundRPS else t.inboundRPS
    case Failures => t.outboundFailed
    case Actives => t.activeConnections as real
  }

  /** A reported figure summed over an aggregate. */
  ghost function SumReported(agg: map<string, Totals>, side: Side, fig: Figure): real
    requires IsReported(side, fig)
  {
    if agg == map[] then 0.0 else
      var s :| s in agg;
      Reported(agg[s], side, fig) + SumReported(agg - {s}, side, fig)
  }

  lemma {:induction false} ActiveIsSum(edges: seq<EdgeResponse>, service: string)
    ensures SumActive(edges, service) as real == Sum(edges, service, Outbound, Actives)
  {
    if edges == [] {
    } else {
      ActiveIsSum(edges[..|edges| - 1], service);
    }
  }

  lemma ReportedIsSum(edges: seq<EdgeResponse>, s: string, side: Side, fig: Figure)
    requires IsReported(side, fig)
    ensures Reported(TotalsOf(edges, s), side, fig) == Sum(edges, s, side, fig)
  {
    if fig.Actives? { ActiveIsSum(edges, s); }
  }

  lemma {:induction false} SumReportedIs(agg: map<string, Totals>, edges: seq<EdgeResponse>, side: Side, fig: Figure)
    requires IsReported(side, fig) && forall s :: s in agg ==> agg[s] == TotalsOf(edges, s)
    ensures SumReported(agg, side, fig) == SumOver(agg.Keys, edges, side, fig)
    decreases |agg|
  {
    hide Reported, TotalsOf, Sum;
    if agg == map[] {
    } else {
      var s :| s in agg
        && SumReported(agg, side, fig) == Reported(agg[s], side, fig) + SumReported(agg - {s}, side, fig);
      ReportedIsSum(edges, s, side, fig);
      SumReportedIs(agg - {s}, edges, side, fig);
      SumOverTakeOut(agg.Keys, edges, side, fig, s);
      assert (agg - {s}).Keys == agg.Keys - {s};
    }
  }

  /** What is written for all services together is what the edges carry: outbound and inbound rates each sum to the
      rate of all edges, and active connections to those of all edges. */
  lemma AggregateConserves(agg: map<string, Totals>, edges: seq<EdgeResponse>, side: Side, fig: Figure)
    requires Aggregates(agg, edges) && IsReported(side, fig)
    ensures SumReported(agg, side, fig) == Total(edges, fig)
  {
    hide Reported, TotalsOf, Sum;
    forall i | 0 <= i < |edges| ensures EndOf(edges[i], side) in agg.Keys {
      assert Mentions(edges, EndOf(edges[i], side));
    }
    SumReportedIs(agg, edges, side, fig);
    TotalsConserved(agg.Keys, edges, side, fig);
  }

  // ---------- order does not matter ----------

  lemma {:induction false} SumWithout(edges: seq<EdgeResponse>, i: nat, service: string, side: Side, fig: Figure)
    requires i < |edges|
    ensures Sum(edges, service, side, fig)
         == Sum(edges[..i] + edges[i + 1..], service, side, fig) + Share(edges[i], service, side, fig)
  {
    hide Share;
    var last := |edges| - 1;
    if i == last {
      assert edges[..i] + edges[i + 1..] == edges[..last];
    } else {
      var init := edges[..last];
      SumWithout(init, i, service, side, fig);
      var w := edges[..i] + edges[i + 1..];
      assert w[..|w| - 1] == init[..i] + init[i + 1..] && w[|w| - 1] == edges[last];
    }
  }

  /** MaxP95 is the largest outbound P95, or zero. */
  lemma {:induction false} MaxP95Is(edges: seq<EdgeResponse>, service: string)
    ensures MaxP95(edges, service) >= 0
    ensures forall i :: 0 <= i < |edges| && edges[i].source == service ==>
      edges[i].p95LatencyMs <= MaxP95(edges, service)
    ensures MaxP95(edges, service) == 0
      || exists i :: 0 <= i < |edges| && edges[i].source == service && edges[i].p95LatencyMs == MaxP95(edges, service)
  {
    if edges == [] {
    } else {
      var init := edges[..|edges| - 1];
      MaxP95Is(init, service);
      assert forall i :: 0 <= i < |init| ==> init[i] == edges[i];
    }
  }

  lemma SameElements(a: seq<EdgeResponse>, b: seq<EdgeResponse>)
    requires multiset(a) == multiset(b)
    ensures |a| == |b| && forall i :: 0 <= i < |a| ==> a[i] in b
  {
    assert |a| == |multiset(a)| && |b| == |multiset(b)|;
    forall i | 0 <= i < |a| ensures a[i] in b { assert a[i] in multiset(a); }
  }

  lemma RemoveOne(a: seq<EdgeResponse>, b: seq<EdgeResponse>, j: nat)
    requires a != [] && multiset(a) == multiset(b) && j < |b| && b[j] == a[|a| - 1]
    ensures multiset(a[..|a| - 1]) == multiset(b[..j] + b[j + 1..])
  {
    assert a == a[..|a| - 1] + [a[|a| - 1]];
    assert b == b[..j] + [b[j]] + b[j + 1..];
    var p, q, x := b[..j], b[j + 1..], b[j];
    assert multiset(b) == multiset(p) + multiset{x} + multiset(q);
    assert multiset(p + q) == multiset(p) + multiset(q);
    assert multiset(a[..|a| - 1]) == multiset(a) - multiset{x};
  }

  lemma {:induction false} SumIgnoresOrder(a: seq<EdgeResponse>, b: seq<EdgeResponse>, service: string, side: Side,
                                           fig: Figure)
    requires multiset(a) == multiset(b)
    ensures Sum(a, service, side, fig) == Sum(b, service, side, fig)
    decreases |a|
  {
    SameElements(a, b);
    if a == [] {
    } else {
      var init, last := a[..|a| - 1], a[|a| - 1];
      var j :| 0 <= j < |b| && b[j] == last;
      SumWithout(b, j, service, side, fig);
      RemoveOne(a, b, j);
      SumIgnoresOrder(init, b[..j] + b[j + 1..], service, side, fig);
    }
  }

  lemma MaxIgnoresOrder(a: seq<EdgeResponse>, b: seq<EdgeResponse>, service: string)
    requires multiset(a) == multiset(b)
    ensures MaxP95(a, service) <= MaxP95(b, service)
  {
    MaxP95Is(a, service);
    MaxP95Is(b, service);
    SameElements(a, b);
  }

  /** Any permutation of the edges gives every service the same figures. */
  lemma OrderIrrelevant(a: seq<EdgeResponse>, b: seq<EdgeResponse>, service: string)
    requires multiset(a) == multiset(b)
    ensures TotalsOf(a, service) == TotalsOf(b, service)
  {
    SumIgnoresOrder(a, b, service, Outbound, Rate);
    SumIgnoresOrder(a, b, service, Inbound, Rate);
    SumIgnoresOrder(a, b, service, Outbound, Failures);
    SumIgnoresOrder(a, b, service, Outbound, Actives);
    ActiveIsSum(a, service);
    ActiveIsSum(b, service);
    MaxIgnoresOrder(a, b, service);
    MaxIgnoresOrder(b, a, service);
  }

  // ---------- failure rate ----------

  /** The rate written for a service. */
  function ServiceFailureRate(t: Totals): real {
    if t.outboundSamples > 0.0 then t.outboundFailed / t.outboundSamples else 0.0
  }

  /** An outbound edge that carries traffic. */
  predicate Carries(e: EdgeResponse, service: string) { e.source == service && e.requestsPerSecond > 0.0 }

  predicate RatesNonNegative(edges: seq<EdgeResponse>) {
    forall i :: 0 <= i < |edges| ==> edges[i].requestsPerSecond >= 0.0
  }

  /** `f / w` between `lo` and `hi`, without the division. */
  predicate Within(lo: real, hi: real, w: real, f: real) { lo * w <= f <= hi * w }

  lemma Distribute(x: real, a: real, b: real)
    ensures x * (a + b) == x * a + x * b
  {
  }

  lemma Scale(x: real, y: real, w: real)
    requires w >= 0.0
    ensures x <= y || w == 0.0 ==> x * w <= y * w
  {
  }

  /** Bounds on a weighted sum kept when one more term is added. */
  lemma AddTerm(lo: real, hi: real, w: real, f: real, weight: real, rate: real, w': real, f': real)
    requires weight >= 0.0 && (weight > 0.0 ==> lo <= rate <= hi)
    requires w' == w + weight && f' == f + rate * weight
    requires Within(lo, hi, w, f)
    ensures Within(lo, hi, w', f')
  {
    Distribute(lo, w, weight);
    Distribute(hi, w, weight);
    Scale(lo, rate, weight);
    Scale(rate, hi, weight);
  }

  lemma SumLast(edges: seq<EdgeResponse>, service: string, fig: Figure)
    requires edges != []
    ensures Sum(edges, service, Outbound, fig)
         == Sum(edges[..|edges| - 1], service, Outbound, fig) + Share(edges[|edges| - 1], service, Outbound, fig)
  {
  }

  /** An edge weighs in with its rate, and with its failure rate in proportion. */
  lemma ShareIsWeight(e: EdgeResponse, service: string)
    requires e.requestsPerSecond >= 0.0
    ensures Share(e, service, Outbound, Rate) >= 0.0
    ensures Share(e, service, Outbound, Rate) > 0.0 <==> Carries(e, service)
    ensures Share(e, service, Outbound, Failures) == e.failureRate * Share(e, service, Outbound, Rate)
  {
  }

  lemma WithinAppend(edges: seq<EdgeResponse>, e: EdgeResponse, service: string, lo: real, hi: real)
    requires e.requestsPerSecond >= 0.0 && (Carries(e, service) ==> lo <= e.failureRate <= hi)
    requires Within(lo, hi, Sum(edges, service, Outbound, Rate), Sum(edges, service, Outbound, Failures))
    ensures Within(lo, hi, Sum(edges + [e], service, Outbound, Rate), Sum(edges + [e], service, Outbound, Failures))
  {
    hide Share, Sum, Carries, Within;
    assert (edges + [e])[..|edges|] == edges;
    ShareIsWeight(e, service);
    SumLast(edges + [e], service, Rate);
    SumLast(edges + [e], service, Failures);
    AddTerm(lo, hi, Sum(edges, service, Outbound, Rate), Sum(edges, service, Outbound, Failures),
            Share(e, service, Outbound, Rate), e.failureRate,
            Sum(edges + [e], service, Outbound, Rate), Sum(edges + [e], service, Outbound, Failures));
  }

  lemma {:induction false} WeightedBetween(edges: seq<EdgeResponse>, service: string, lo: real, hi: real)
    requires RatesNonNegative(edges)
    requires forall i :: 0 <= i < |edges| && Carries(edges[i], service) ==> lo <= edges[i].failureRate <= hi
    ensures Within(lo, hi, Sum(edges, service, Outbound, Rate), Sum(edges, service, Outbound, Failures))
  {
    if edges == [] {
    } else {
      hide Within, Sum;
      var init, e := edges[..|edges| - 1], edges[|edges| - 1];
      assert edges == init + [e];
      assert forall i :: 0 <= i < |init| ==> init[i] == edges[i];
      WeightedBetween(init, service, lo, hi);
      WithinAppend(init, e, service, lo, hi);
    }
  }

  lemma DivideBetween(f: real, n: real, lo: real, hi: real)
    requires n > 0.0 && Within(lo, hi, n, f)
    ensures lo <= f / n <= hi
  {
  }

  lemma {:induction false} RateExtremes(edges: seq<EdgeResponse>, service: string) returns (lo: nat, hi: nat)
    requires exists i :: 0 <= i < |edges| && Carries(edges[i], service)
    ensures lo < |edges| && hi < |edges| && Carries(edges[lo], service) && Carries(edges[hi], service)
    ensures forall i :: 0 <= i < |edges| && Carries(edges[i], service) ==>
      edges[lo].failureRate <= edges[i].failureRate <= edges[hi].failureRate
  {
    var init, last := edges[..|edges| - 1], |edges| - 1;
    assert forall i :: 0 <= i < |init| ==> init[i] == edges[i];
    if i :| 0 <= i < |init| && Carries(init[i], service) {
      lo, hi := RateExtremes(init, service);
      if Carries(edges[last], service) {
        if edges[last].failureRate < edges[lo].failureRate { lo := last; }
        if edges[last].failureRate > edges[hi].failureRate { hi := last; }
      }
    } else {
      lo, hi := last, last;
    }
  }

  lemma {:induction false} SomeEdgeCarries(edges: seq<EdgeResponse>, service: string)
    requires Sum(edges, service, Outbound, Rate) > 0.0
    ensures exists i :: 0 <= i < |edges| && Carries(edges[i], service)
  {
    var last := |edges| - 1;
    if Carries(edges[last], service) {
    } else {
      SomeEdgeCarries(edges[..last], service);
      var i :| 0 <= i < last && Carries(edges[..last][i], service);
      assert edges[i] == edges[..last][i];
    }
  }

  lemma {:induction false} RateSumNonNegative(edges: seq<EdgeResponse>, service: string)
    requires RatesNonNegative(edges)
    ensures Sum(edges, service, Outbound, Rate) >= 0.0
  {
    if edges == [] {
    } else {
      RateSumNonNegative(edges[..|edges| - 1], service);
    }
  }

  lemma {:induction false} CarriedIsPositive(edges: seq<EdgeResponse>, service: string, i: nat)
    requires RatesNonNegative(edges) && i < |edges| && Carries(edges[i], service)
    ensures Sum(edges, service, Outbound, Rate) > 0.0
  {
    var init := edges[..|edges| - 1];
    RateSumNonNegative(init, service);
    if i == |edges| - 1 {
    } else {
      CarriedIsPositive(init, service, i);
    }
  }

  /** A service's failure rate lies between the lowest and highest rate of its outbound edges that carry traffic, and is
      zero when none does. */
  lemma FailureRateIsAMean(edges: seq<EdgeResponse>, service: string)
    requires RatesNonNegative(edges)
    ensures var r := ServiceFailureRate(TotalsOf(edges, service));
      if exists i :: 0 <= i < |edges| && Carries(edges[i], service) then
        exists lo, hi :: 0 <= lo < |edges| && 0 <= hi < |edges|
          && Carries(edges[lo], service) && Carries(edges[hi], service)
          && edges[lo].failureRate <= r <= edges[hi].failureRate
      else r == 0.0
  {
    hide Sum, Within, Carries, MaxP95, SumActive;
    if exists i :: 0 <= i < |edges| && Carries(edges[i], service) {
      var lo, hi := RateExtremes(edges, service);
      var a, b := edges[lo].failureRate, edges[hi].failureRate;
      WeightedBetween(edges, service, a, b);
      CarriedIsPositive(edges, service, lo);
      DivideBetween(Sum(edges, service, Outbound, Failures), Sum(edges, service, Outbound, Rate), a, b);
      assert a <= ServiceFailureRate(TotalsOf(edges, service)) <= b;
    } else if Sum(edges, service, Outbound, Rate) > 0.0 {
      SomeEdgeCarries(edges, service);
    }
  }
}
