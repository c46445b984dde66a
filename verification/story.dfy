/** What the engine records of a flow, against the events of the run alone: who began it, which ACCEPTs reached it, what
    ended it, and the clock readings made then. */
module Story {
  import opened Common
  import opened FlowIdentity
  import opened ServiceGraph
  import opened FlowState
  import opened Engine
  import opened Lifecycle
  import opened Runs
  import opened LateAccepts

  // ---------- reading a run ----------

  /** A CLOSE on the key, or a stale pass that lists it. */
  predicate FinishesOn(l: Label, k: FlowKey) {
    (l.CloseTracker? && BuildFlowKey(l.ev) == k) || (l.StaleTracker? && k in l.order)
  }

  function ConnectsIn(ls: seq<Label>): nat {
    if ls == [] then 0 else ConnectsIn(ls[..|ls| - 1]) + Bit(ls[|ls| - 1].ConnectTracker?)
  }

  /** The two readings an event makes under the tracker lock. */
  function First(l: Label): int { if l.ConnectTracker? || l.Accept? || l.CloseTracker? then l.t1 else 0 }

  function Second(l: Label): int { if l.ConnectTracker? || l.Accept? || l.CloseTracker? then l.t2 else 0 }

  predicate NoConnect(ls: seq<Label>, k: FlowKey, from: nat, to: nat) {
    forall i :: from <= i < to && i < |ls| ==> !ConnectsOn(ls[i], k)
  }

  predicate NoAccept(ls: seq<Label>, k: FlowKey, from: nat, to: nat) {
    forall i :: from <= i < to && i < |ls| ==> !AcceptsOn(ls[i], k)
  }

  predicate NoFinish(ls: seq<Label>, k: FlowKey, from: nat, to: nat) {
    forall i :: from <= i < to && i < |ls| ==> !FinishesOn(ls[i], k)
  }

  /** Step `r` is the clock reading a stale pass at step `d` works with. */
  predicate ReadFor(ls: seq<Label>, d: nat, r: nat) {
    && r < d <= |ls| && ls[r].StaleReadClock?
    && (forall i :: r < i < d ==> !ls[i].StaleReadClock? && !ls[i].StaleTracker?)
  }

  /** The reading that ends a flow finished at step `d`: the first made at the CLOSE, or the stale pass's. */
  ghost predicate EndsAt(ls: seq<Label>, d: nat, t: int)
    requires d < |ls|
  {
    if ls[d].CloseTracker? then t == ls[d].t1 else exists r: nat :: ReadFor(ls, d, r) && t == ls[r].now
  }

  // ---------- a flow as the run tells it ----------

  /** Step `c` is the CONNECT of the flow, the `id`-th of the run. */
  predicate Begins(ls: seq<Label>, f: Flow, c: nat) {
    && c < |ls| && ConnectsOn(ls[c], f.key) && f.id == ConnectsIn(ls[..c])
    && f.connectTime == ls[c].t1
    && f.edge == EdgeKey(ls[c].ev.sourceService, ls[c].ev.destinationService)
  }

  /** Before step `b`, step `u` is the last ACCEPT since the CONNECT at `c`, or `c` itself if there was none; and the
      flow says so. */
  predicate AcceptedAsOf(ls: seq<Label>, f: Flow, c: nat, u: nat, b: nat) {
    && c <= u < b <= |ls| && (u == c || AcceptsOn(ls[u], f.key)) && NoAccept(ls, f.key, u + 1, b)
    && (f.accepted <==> u > c) && f.acceptTime == (if u > c then Some(First(ls[u])) else None)
  }

  predicate FirstFinish(ls: seq<Label>, k: FlowKey, c: nat, d: nat) {
    c < d < |ls| && FinishesOn(ls[d], k) && NoFinish(ls, k, c + 1, d)
  }

  /** A tracked record. Open, it was last updated by its last CONNECT or ACCEPT and nothing has finished it since its
      CONNECT; closed, the first such step did. */
  ghost predicate TrackedAs(ls: seq<Label>, f: Flow, c: nat, u: nat) {
    && Begins(ls, f, c) && NoConnect(ls, f.key, c + 1, |ls|) && AcceptedAsOf(ls, f, c, u, |ls|)
    && (f.closed <==> !NoFinish(ls, f.key, c + 1, |ls|))
    && (!f.closed ==> f.lastUpdated == Second(ls[u]) && f.failureReason == "")
    && (f.closed ==>
          f.closeTime.Some? && exists d: nat :: FirstFinish(ls, f.key, c, d) && EndsAt(ls, d, f.closeTime.value))
  }

  function Reason(l: Label, accepted: bool): string {
    if l.CloseTracker? then (if accepted then "" else "closed_without_accept")
    else if accepted then "stale_open_flow" else "stale_incomplete_flow"
  }

  /** A finished flow: begun at `c`, last accepted at `u` if after `c`, finished at `d`. */
  ghost predicate FinishedAs(ls: seq<Label>, f: Flow, c: nat, u: nat, d: nat) {
    && Begins(ls, f, c) && NoConnect(ls, f.key, c + 1, d) && AcceptedAsOf(ls, f, c, u, d)
    && FirstFinish(ls, f.key, c, d)
    && f.closed && f.closeTime.Some? && EndsAt(ls, d, f.closeTime.value)
    && f.lastUpdated == (if ls[d].CloseTracker? then ls[d].t2 else f.closeTime.value)
    && (f.failed <==> u == c) && f.failureReason == Reason(ls[d], u > c)
  }

  ghost predicate TrackedTold(ls: seq<Label>, f: Flow) { exists c: nat, u: nat :: TrackedAs(ls, f, c, u) }

  ghost predicate FinishedTold(ls: seq<Label>, f: Flow) { exists c: nat, u: nat, d: nat :: FinishedAs(ls, f, c, u, d) }

  /** A finished flow applied to the graph by a later step, at that step's reading. */
  ghost predicate AppliedAs(ls: seq<Label>, us: Update, c: nat, u: nat, d: nat, g: nat) {
    && FinishedAs(ls, us.flow, c, u, d) && d < g < |ls|
    && (ls[g].CloseGraph? || ls[g].StaleGraph?) && us.at == ls[g].now
  }

  ghost predicate AppliedTold(ls: seq<Label>, us: Update) {
    exists c: nat, u: nat, d: nat, g: nat :: AppliedAs(ls, us, c, u, d, g)
  }

  ghost predicate ReadingTold(ls: seq<Label>, now: int) { exists r: nat :: ReadFor(ls, |ls|, r) && ls[r].now == now }

  // ---------- one step longer ----------

  lemma NoneLonger(ls: seq<Label>, l: Label, k: FlowKey, from: nat, to: nat)
    requires to <= |ls|
    ensures NoConnect(ls + [l], k, from, to) <==> NoConnect(ls, k, from, to)
    ensures NoAccept(ls + [l], k, from, to) <==> NoAccept(ls, k, from, to)
    ensures NoFinish(ls + [l], k, from, to) <==> NoFinish(ls, k, from, to)
  {
    hide ConnectsOn, AcceptsOn, FinishesOn;
    assert forall i :: 0 <= i < |ls| ==> (ls + [l])[i] == ls[i];
  }

  lemma NoneToTheEnd(ls: seq<Label>, l: Label, k: FlowKey, from: nat)
    requires from <= |ls|
    ensures NoConnect(ls + [l], k, from, |ls| + 1) <==> NoConnect(ls, k, from, |ls|) && !ConnectsOn(l, k)
    ensures NoAccept(ls + [l], k, from, |ls| + 1) <==> NoAccept(ls, k, from, |ls|) && !AcceptsOn(l, k)
    ensures NoFinish(ls + [l], k, from, |ls| + 1) <==> NoFinish(ls, k, from, |ls|) && !FinishesOn(l, k)
  {
    hide ConnectsOn, AcceptsOn, FinishesOn;
    assert forall i :: 0 <= i < |ls| ==> (ls + [l])[i] == ls[i];
    assert (ls + [l])[|ls|] == l;
  }

  lemma ReadLonger(ls: seq<Label>, l: Label, d: nat, r: nat)
    requires ReadFor(ls, d, r)
    ensures ReadFor(ls + [l], d, r)
  {
    assert forall i :: 0 <= i < |ls| ==> (ls + [l])[i] == ls[i];
  }

  lemma EndsLonger(ls: seq<Label>, l: Label, d: nat, t: int)
    requires d < |ls| && EndsAt(ls, d, t)
    ensures EndsAt(ls + [l], d, t)
  {
    if !ls[d].CloseTracker? {
      var r: nat :| ReadFor(ls, d, r) && t == ls[r].now;
      ReadLonger(ls, l, d, r);
      assert (ls + [l])[r] == ls[r];
    }
  }

  lemma BeginsLonger(ls: seq<Label>, l: Label, f: Flow, c: nat)
    requires Begins(ls, f, c)
    ensures Begins(ls + [l], f, c)
  {
    assert (ls + [l])[..c] == ls[..c];
  }

  lemma FinishLonger(ls: seq<Label>, l: Label, k: FlowKey, c: nat, d: nat)
    requires FirstFinish(ls, k, c, d)
    ensures FirstFinish(ls + [l], k, c, d)
  {
    NoneLonger(ls, l, k, c + 1, d);
  }

  lemma AcceptedLonger(ls: seq<Label>, l: Label, f: Flow, c: nat, u: nat, b: nat)
    requires AcceptedAsOf(ls, f, c, u, b)
    ensures AcceptedAsOf(ls + [l], f, c, u, b)
  {
    NoneLonger(ls, l, f.key, u + 1, b);
  }

  lemma FinishedLonger(ls: seq<Label>, l: Label, f: Flow, c: nat, u: nat, d: nat)
    requires FinishedAs(ls, f, c, u, d)
    ensures FinishedAs(ls + [l], f, c, u, d)
  {
    BeginsLonger(ls, l, f, c);
    NoneLonger(ls, l, f.key, c + 1, d);
    AcceptedLonger(ls, l, f, c, u, d);
    FinishLonger(ls, l, f.key, c, d);
    EndsLonger(ls, l, d, f.closeTime.value);
    hide Begins, NoConnect, AcceptedAsOf, FirstFinish, EndsAt;
  }

  lemma FinishedStaysTold(ls: seq<Label>, l: Label, f: Flow)
    requires FinishedTold(ls, f)
    ensures FinishedTold(ls + [l], f)
  {
    hide FinishedAs;
    var c: nat, u: nat, d: nat :| FinishedAs(ls, f, c, u, d);
    FinishedLonger(ls, l, f, c, u, d);
  }

  lemma AppliedStaysTold(ls: seq<Label>, l: Label, us: Update)
    requires AppliedTold(ls, us)
    ensures AppliedTold(ls + [l], us)
  {
    hide FinishedAs;
    var c: nat, u: nat, d: nat, g: nat :| AppliedAs(ls, us, c, u, d, g);
    FinishedLonger(ls, l, us.flow, c, u, d);
    assert AppliedAs(ls + [l], us, c, u, d, g);
  }

  // ---------- what each kind of step does to a record ----------

  lemma ToldAfterOther(ls: seq<Label>, l: Label, f: Flow)
    requires TrackedTold(ls, f)
    requires !ConnectsOn(l, f.key) && !AcceptsOn(l, f.key) && (FinishesOn(l, f.key) ==> f.closed)
    ensures TrackedTold(ls + [l], f)
  {
    hide ConnectsOn, AcceptsOn, FinishesOn;
    var c: nat, u: nat :| TrackedAs(ls, f, c, u);
    BeginsLonger(ls, l, f, c);
    NoneToTheEnd(ls, l, f.key, c + 1);
    NoneToTheEnd(ls, l, f.key, u + 1);
    assert AcceptedAsOf(ls + [l], f, c, u, |ls| + 1);
    if f.closed {
      var d: nat :| FirstFinish(ls, f.key, c, d) && EndsAt(ls, d, f.closeTime.value);
      FinishLonger(ls, l, f.key, c, d);
      EndsLonger(ls, l, d, f.closeTime.value);
    }
    hide Begins, NoConnect, NoAccept, NoFinish, AcceptedAsOf, EndsAt, FirstFinish;
    assert (ls + [l])[u] == ls[u];
    assert TrackedAs(ls + [l], f, c, u);
  }

  lemma ToldAfterConnect(ls: seq<Label>, ev: Event, t1: int, t2: int)
    ensures TrackedTold(ls + [ConnectTracker(ev, t1, t2)], NewFlow(ConnectsIn(ls), ev, t1, t2))
  {
    hide BuildFlowKey, ConnectsIn;
    var ls', f := ls + [ConnectTracker(ev, t1, t2)], NewFlow(ConnectsIn(ls), ev, t1, t2);
    assert ls'[..|ls|] == ls;
    assert TrackedAs(ls', f, |ls|, |ls|);
  }

  lemma ToldAfterAccept(ls: seq<Label>, ev: Event, t1: int, t2: int, f: Flow)
    requires TrackedTold(ls, f) && BuildFlowKey(ev) == f.key
    ensures TrackedTold(ls + [Accept(ev, t1, t2)], AcceptFlow(f, t1, t2))
  {
    hide BuildFlowKey, ConnectsIn;
    var l, g := Accept(ev, t1, t2), AcceptFlow(f, t1, t2);
    var c: nat, u: nat :| TrackedAs(ls, f, c, u);
    BeginsLonger(ls, l, f, c);
    NoneToTheEnd(ls, l, f.key, c + 1);
    if f.closed {
      var d: nat :| FirstFinish(ls, f.key, c, d) && EndsAt(ls, d, f.closeTime.value);
      FinishLonger(ls, l, f.key, c, d);
      EndsLonger(ls, l, d, f.closeTime.value);
    }
    assert AcceptedAsOf(ls + [l], g, c, |ls|, |ls| + 1);
    assert Begins(ls + [l], g, c);
    hide Begins, NoConnect, NoAccept, NoFinish, AcceptedAsOf, EndsAt, FirstFinish;
    assert TrackedAs(ls + [l], g, c, |ls|);
  }

  /** `g` is the open record `f`, finished by the step `l`. */
  predicate FinishedVersion(f: Flow, g: Flow, l: Label) {
    && g.id == f.id && g.key == f.key && g.edge == f.edge && g.connectTime == f.connectTime
    && g.accepted == f.accepted && g.acceptTime == f.acceptTime
    && g.closed && g.closeTime.Some? && (g.failed <==> !f.accepted) && g.failureReason == Reason(l, f.accepted)
    && g.lastUpdated == (if l.CloseTracker? then l.t2 else g.closeTime.value)
  }

  lemma ToldAfterFinish(ls: seq<Label>, l: Label, f: Flow, g: Flow)
    requires TrackedTold(ls, f) && !f.closed && FinishesOn(l, f.key) && FinishedVersion(f, g, l)
    requires EndsAt(ls + [l], |ls|, g.closeTime.value)
    ensures TrackedTold(ls + [l], g) && FinishedTold(ls + [l], g)
  {
    var c: nat, u: nat :| TrackedAs(ls, f, c, u);
    var ls', n := ls + [l], |ls|;
    assert !ConnectsOn(l, f.key) && !AcceptsOn(l, f.key);
    hide ConnectsOn, AcceptsOn, FinishesOn, ConnectsIn, EndsAt;
    BeginsLonger(ls, l, f, c);
    NoneLonger(ls, l, f.key, c + 1, n);
    NoneToTheEnd(ls, l, f.key, c + 1);
    NoneToTheEnd(ls, l, f.key, u + 1);
    AcceptedLonger(ls, l, f, c, u, n);
    assert Begins(ls', g, c) && FirstFinish(ls', g.key, c, n);
    assert AcceptedAsOf(ls', g, c, u, n) && AcceptedAsOf(ls', g, c, u, n + 1);
    hide Begins, NoConnect, NoAccept, NoFinish, AcceptedAsOf, FirstFinish;
    assert ls'[n] == l;
    assert FinishedAs(ls', g, c, u, n);
    assert TrackedAs(ls', g, c, u);
  }

  // ---------- the engine follows the story ----------

  lemma OpenReason(ls: seq<Label>, f: Flow)
    requires TrackedTold(ls, f) && !f.closed
    ensures f.failureReason == ""
  {
  }

  lemma CloseFollows(ls: seq<Label>, ev: Event, t1: int, t2: int, f: Flow)
    requires TrackedTold(ls, f) && !f.closed && WellTimed(f) && BuildFlowKey(ev) == f.key
    ensures var ls' := ls + [CloseTracker(ev, t1, t2)];
      TrackedTold(ls', CloseFlow(f, t1, t2)) && FinishedTold(ls', CloseFlow(f, t1, t2))
  {
    OpenReason(ls, f);
    var l, g := CloseTracker(ev, t1, t2), CloseFlow(f, t1, t2);
    assert FinishedVersion(f, g, l);
    assert EndsAt(ls + [l], |ls|, g.closeTime.value);
    hide TrackedTold, FinishedTold, BuildFlowKey;
    ToldAfterFinish(ls, l, f, g);
  }

  lemma StaleFollows(cfg: Timeouts, ls: seq<Label>, order: seq<FlowKey>, now: int, f: Flow)
    requires TrackedTold(ls, f) && IsStale(cfg, f, now) && WellTimed(f) && f.key in order && ReadingTold(ls, now)
    ensures var ls' := ls + [StaleTracker(order)];
      TrackedTold(ls', MarkStale(cfg, f, now)) && FinishedTold(ls', MarkStale(cfg, f, now))
  {
    var l, g := StaleTracker(order), MarkStale(cfg, f, now);
    assert FinishedVersion(f, g, l);
    var r: nat :| ReadFor(ls, |ls|, r) && ls[r].now == now;
    ReadLonger(ls, l, |ls|, r);
    assert EndsAt(ls + [l], |ls|, now);
    hide TrackedTold, FinishedTold, MarkStale, IsStale, EndsAt;
    ToldAfterFinish(ls, l, f, g);
  }

  ghost predicate TrackerTold(ls: seq<Label>, tracker: TrackerState) {
    forall k :: k in tracker ==> TrackedTold(ls, tracker[k])
  }

  lemma TrackedStep(cfg: Timeouts, ls: seq<Label>, s: State, l: Label, k: FlowKey)
    requires Enabled(cfg, s, l) && TrackerSound(s) && TrackerTold(ls, s.tracker) && |s.begun| == ConnectsIn(ls)
    requires s.staleNow.Some? ==> ReadingTold(ls, s.staleNow.value)
    requires k in Step(cfg, s, l).tracker
    ensures TrackedTold(ls + [l], Step(cfg, s, l).tracker[k])
  {
    hide BuildFlowKey, TrackedTold, FinishedTold, ReadingTold, ConnectsIn, FlowKey.Canonical, Connected, Finished,
         IsStale, MarkStale, CloseFlow, AcceptFlow, TrackerSound;
    TrackedIsSound(s, k);
    match l
    case ConnectTracker(ev, t1, t2) =>
      if BuildFlowKey(ev) == k { ToldAfterConnect(ls, ev, t1, t2); } else { ToldAfterOther(ls, l, s.tracker[k]); }
    case Accept(ev, t1, t2) =>
      if BuildFlowKey(ev) == k {
        ToldAfterAccept(ls, ev, t1, t2, s.tracker[k]);
      } else {
        ToldAfterOther(ls, l, s.tracker[k]);
      }
    case CloseTracker(ev, t1, t2) =>
      ReversedLookupIsRedundant(s, ev);
      if CloseTarget(s.tracker, ev) == Some(k) {
        CloseFollows(ls, ev, t1, t2, s.tracker[k]);
      } else {
        ToldAfterOther(ls, l, s.tracker[k]);
      }
    case StaleTracker(order) =>
      if k in order {
        StaleFollows(cfg, ls, order, s.staleNow.value, s.tracker[k]);
      } else {
        ToldAfterOther(ls, l, s.tracker[k]);
      }
    case _ => ToldAfterOther(ls, l, s.tracker[k]);
  }

  /** Finished flows on their way to the graph or turned away, and those applied. */
  ghost predicate FinishedOnesTold(ls: seq<Label>, s: State) {
    && (s.closing.Some? ==> FinishedTold(ls, s.closing.value))
    && (forall i :: 0 <= i < |s.stalePending| ==> FinishedTold(ls, s.stalePending[i]))
    && (forall i :: 0 <= i < |s.dropped| ==> FinishedTold(ls, s.dropped[i]))
    && (forall i :: 0 <= i < |s.updates| ==> AppliedTold(ls, s.updates[i]))
  }

  lemma FinishedOnesStayTold(ls: seq<Label>, l: Label, s: State)
    requires FinishedOnesTold(ls, s)
    ensures FinishedOnesTold(ls + [l], s)
  {
    hide FinishedTold, AppliedTold;
    if s.closing.Some? { FinishedStaysTold(ls, l, s.closing.value); }
    forall i | 0 <= i < |s.stalePending| ensures FinishedTold(ls + [l], s.stalePending[i]) {
      FinishedStaysTold(ls, l, s.stalePending[i]);
    }
    forall i | 0 <= i < |s.dropped| ensures FinishedTold(ls + [l], s.dropped[i]) {
      FinishedStaysTold(ls, l, s.dropped[i]);
    }
    forall i | 0 <= i < |s.updates| ensures AppliedTold(ls + [l], s.updates[i]) {
      AppliedStaysTold(ls, l, s.updates[i]);
    }
  }

  lemma FinishIsInRun(ls: seq<Label>, f: Flow, c: nat, u: nat, d: nat)
    requires FinishedAs(ls, f, c, u, d)
    ensures d < |ls|
  {
  }

  lemma ApplyingIsTold(ls: seq<Label>, l: Label, f: Flow, now: int, guarded: bool)
    requires FinishedTold(ls, f) && (l == CloseGraph(now) || l == StaleGraph(now))
    ensures AppliedTold(ls + [l], Update(f, now, guarded))
  {
    hide FinishedAs;
    var c: nat, u: nat, d: nat :| FinishedAs(ls, f, c, u, d);
    FinishedLonger(ls, l, f, c, u, d);
    assert d < |ls| by { FinishIsInRun(ls, f, c, u, d); }
    assert (ls + [l])[|ls|] == l;
    assert AppliedAs(ls + [l], Update(f, now, guarded), c, u, d, |ls|);
  }

  lemma OneMoreApplied(ls: seq<Label>, s: State, t: State, u: Update)
    requires FinishedOnesTold(ls, s) && AppliedTold(ls, u) && t.updates == s.updates + [u]
    requires t.closing == s.closing && t.stalePending == s.stalePending && t.dropped == s.dropped
    ensures FinishedOnesTold(ls, t)
  {
    hide FinishedTold, AppliedTold;
  }

  lemma OneMoreDropped(ls: seq<Label>, s: State, t: State, f: Flow)
    requires FinishedOnesTold(ls, s) && FinishedTold(ls, f) && t.dropped == s.dropped + [f]
    requires t.closing == s.closing && t.stalePending == s.stalePending && t.updates == s.updates
    ensures FinishedOnesTold(ls, t)
  {
    hide FinishedTold, AppliedTold;
  }

  lemma OnGraphIsTold(ls: seq<Label>, l: Label, s: State, f: Flow, now: int)
    requires FinishedOnesTold(ls, s) && FinishedTold(ls, f) && (l == CloseGraph(now) || l == StaleGraph(now))
    ensures FinishedOnesTold(ls + [l], FinishOnGraph(s, f, now))
  {
    hide FinishedOnesTold, FinishedTold, AppliedTold, Finished;
    FinishedOnesStayTold(ls, l, s);
    FinishedStaysTold(ls, l, f);
    if f.edge in s.graph {
      var u := Update(f, now, s.graph[f.edge].activeConnections <= 0);
      ApplyingIsTold(ls, l, f, now, u.guarded);
      OneMoreApplied(ls + [l], s, FinishOnGraph(s, f, now), u);
    } else {
      OneMoreDropped(ls + [l], s, FinishOnGraph(s, f, now), f);
    }
  }

  lemma StaleOnesAreTold(cfg: Timeouts, ls: seq<Label>, s: State, order: seq<FlowKey>)
    requires Enabled(cfg, s, StaleTracker(order)) && TrackerSound(s) && TrackerTold(ls, s.tracker)
    requires ReadingTold(ls, s.staleNow.value) && FinishedOnesTold(ls, s)
    ensures FinishedOnesTold(ls + [StaleTracker(order)], AfterStale(cfg, s, order))
  {
    hide FinishedTold, AppliedTold, TrackedTold, ReadingTold, IsStale, MarkStale, TrackerSound;
    var l, now := StaleTracker(order), s.staleNow.value;
    FinishedOnesStayTold(ls, l, s);
    forall i | 0 <= i < |order|
      ensures FinishedTold(ls + [l], StaleSnapshots(cfg, s.tracker, now, order)[i])
    {
      assert order[i] in order;
      TrackedIsSound(s, order[i]);
      StaleFollows(cfg, ls, order, now, s.tracker[order[i]]);
    }
  }

  lemma CloseIsTold(ls: seq<Label>, s: State, ev: Event, t1: int, t2: int)
    requires TrackerSound(s) && TrackerTold(ls, s.tracker) && s.closing.None? && FinishedOnesTold(ls, s)
    ensures FinishedOnesTold(ls + [CloseTracker(ev, t1, t2)], AfterClose(s, ev, t1, t2))
  {
    hide FinishedTold, AppliedTold, TrackedTold, CloseFlow, TrackerSound, BuildFlowKey, FlowKey.Canonical;
    FinishedOnesStayTold(ls, CloseTracker(ev, t1, t2), s);
    ReversedLookupIsRedundant(s, ev);
    var k := CloseTarget(s.tracker, ev);
    if k.Some? {
      TrackedIsSound(s, k.value);
      CloseFollows(ls, ev, t1, t2, s.tracker[k.value]);
    }
  }

  lemma FinishedOnesStep(cfg: Timeouts, ls: seq<Label>, s: State, l: Label)
    requires Enabled(cfg, s, l) && TrackerSound(s) && TrackerTold(ls, s.tracker) && FinishedOnesTold(ls, s)
    requires s.staleNow.Some? ==> ReadingTold(ls, s.staleNow.value)
    ensures FinishedOnesTold(ls + [l], Step(cfg, s, l))
  {
    hide FinishedTold, AppliedTold, TrackerTold, ReadingTold, TrackerSound, FinishOnGraph, Connected, Swept, NewFlow,
         AfterStale, AfterClose;
    match l
    case CloseTracker(ev, t1, t2) => CloseIsTold(ls, s, ev, t1, t2);
    case StaleTracker(order) => StaleOnesAreTold(cfg, ls, s, order);
    case CloseGraph(now) => OnGraphIsTold(ls, l, s.(closing := None), s.closing.value, now);
    case StaleGraph(now) => OnGraphIsTold(ls, l, s.(stalePending := s.stalePending[1..]), s.stalePending[0], now);
    case _ => FinishedOnesStayTold(ls, l, s);
  }

  lemma ReadingStep(cfg: Timeouts, ls: seq<Label>, s: State, l: Label)
    requires Enabled(cfg, s, l) && Step(cfg, s, l).staleNow.Some?
    requires s.staleNow.Some? ==> ReadingTold(ls, s.staleNow.value)
    ensures ReadingTold(ls + [l], Step(cfg, s, l).staleNow.value)
  {
    hide Finished, Connected, Swept, NewFlow, AcceptFlow, CloseTarget;
    var ls', now := ls + [l], Step(cfg, s, l).staleNow.value;
    assert ls'[|ls|] == l && forall i :: 0 <= i < |ls| ==> ls'[i] == ls[i];
    if l.StaleReadClock? {
      assert ReadFor(ls', |ls'|, |ls|);
    } else {
      assert s.staleNow == Some(now) && !l.StaleTracker?;
      var r: nat :| ReadFor(ls, |ls|, r) && ls[r].now == now;
      assert ReadFor(ls', |ls'|, r);
    }
  }

  lemma ConnectsStep(cfg: Timeouts, ls: seq<Label>, s: State, l: Label)
    requires Enabled(cfg, s, l) && |s.begun| == ConnectsIn(ls)
    ensures |Step(cfg, s, l).begun| == ConnectsIn(ls + [l])
  {
    hide Finished, Connected, Swept, NewFlow, AcceptFlow, CloseTarget;
    assert (ls + [l])[..|ls|] == ls;
  }

  /** Everything the engine has on record is what the run tells. */
  ghost predicate Told(ls: seq<Label>, s: State) {
    && TrackerTold(ls, s.tracker) && FinishedOnesTold(ls, s) && |s.begun| == ConnectsIn(ls)
    && (s.staleNow.Some? ==> ReadingTold(ls, s.staleNow.value))
  }

  lemma StepTells(cfg: Timeouts, ls: seq<Label>, s: State, l: Label)
    requires Enabled(cfg, s, l) && TrackerSound(s) && Told(ls, s)
    ensures Told(ls + [l], Step(cfg, s, l))
  {
    hide Step, Enabled, TrackerSound, TrackedTold, FinishedOnesTold, ReadingTold, ConnectsIn;
    var t := Step(cfg, s, l);
    forall k | k in t.tracker ensures TrackedTold(ls + [l], t.tracker[k]) { TrackedStep(cfg, ls, s, l, k); }
    FinishedOnesStep(cfg, ls, s, l);
    ConnectsStep(cfg, ls, s, l);
    if t.staleNow.Some? { ReadingStep(cfg, ls, s, l); }
  }

  lemma ToldInitially()
    ensures TrackerSound(INITIAL) && Told([], INITIAL)
  {
  }

  lemma {:induction false} RunTells(cfg: Timeouts, ls: seq<Label>)
    requires IsRun(cfg, INITIAL, ls)
    ensures TrackerSound(After(cfg, INITIAL, ls)) && Told(ls, After(cfg, INITIAL, ls))
  {
    hide Step, Enabled, TrackerSound, Told;
    if ls == [] {
      ToldInitially();
    } else {
      var init, l := ls[..|ls| - 1], ls[|ls| - 1];
      assert ls == init + [l];
      RunSplit(cfg, INITIAL, init, l);
      RunTells(cfg, init);
      StepTells(cfg, init, After(cfg, INITIAL, init), l);
      StepKeepsTrackerSound(cfg, After(cfg, INITIAL, init), l);
    }
  }

  // ---------- the main results ----------

  /** Over any run: the record at a key was begun by the last CONNECT on it, at that CONNECT's first reading; it is
      accepted if and only if some ACCEPT on the key came since; it is open if and only if no CLOSE on the key and no
      stale pass listing it did; and while it is open it was last updated by the latest of those CONNECT and ACCEPTs. */
  lemma TrackedFlowIsTold(cfg: Timeouts, ls: seq<Label>, k: FlowKey) returns (c: nat, u: nat)
    requires IsRun(cfg, INITIAL, ls) && k in After(cfg, INITIAL, ls).tracker
    ensures var f := After(cfg, INITIAL, ls).tracker[k];
      && c <= u < |ls| && ConnectsOn(ls[c], k) && NoConnect(ls, k, c + 1, |ls|)
      && f.connectTime == ls[c].t1
      && f.edge == EdgeKey(ls[c].ev.sourceService, ls[c].ev.destinationService)
      && (f.accepted <==> exists i :: c < i < |ls| && AcceptsOn(ls[i], k))
      && (f.closed <==> exists i :: c < i < |ls| && FinishesOn(ls[i], k))
      && (u == c || AcceptsOn(ls[u], k)) && NoAccept(ls, k, u + 1, |ls|)
      && (!f.closed ==> f.lastUpdated == Second(ls[u]))
      && f.acceptTime == (if u > c then Some(First(ls[u])) else None)
  {
    hide IsRun, After, TrackerSound, FinishedOnesTold, ReadingTold, ConnectsIn, ConnectsOn, AcceptsOn, FinishesOn;
    RunTells(cfg, ls);
    var s := After(cfg, INITIAL, ls);
    TrackedIsSound(s, k);
    c, u :| TrackedAs(ls, s.tracker[k], c, u);
    hide EndsAt;
  }

  /** Over any run, every flow applied to the graph: begun by its CONNECT, finished by the first CLOSE on its key or
      stale pass listing it since, and lasting exactly from the first reading of the one to the reading of the other.
      It failed if and only if no ACCEPT on its key came in between. */
  lemma AppliedFlowIsTold(cfg: Timeouts, ls: seq<Label>, i: nat) returns (c: nat, d: nat, g: nat)
    requires IsRun(cfg, INITIAL, ls) && i < |After(cfg, INITIAL, ls).updates|
    ensures var us := After(cfg, INITIAL, ls).updates[i]; var f := us.flow;
      && c < d < g < |ls| && ConnectsOn(ls[c], f.key) && f.id == ConnectsIn(ls[..c])
      && f.edge == EdgeKey(ls[c].ev.sourceService, ls[c].ev.destinationService)
      && FirstFinish(ls, f.key, c, d) && NoConnect(ls, f.key, c + 1, d)
      && (f.failed <==> !exists j :: c < j < d && AcceptsOn(ls[j], f.key))
      && f.connectTime == ls[c].t1 && f.closeTime.Some? && EndsAt(ls, d, f.closeTime.value)
      && (ls[d].CloseTracker? ==> f.Duration(0) == ls[d].t1 - ls[c].t1)
      && f.failureReason == Reason(ls[d], !f.failed)
      && (ls[g].CloseGraph? || ls[g].StaleGraph?) && us.at == ls[g].now
  {
    hide IsRun, After, TrackerSound, TrackerTold, ReadingTold, ConnectsIn, ConnectsOn, AcceptsOn;
    RunTells(cfg, ls);
    var us := After(cfg, INITIAL, ls).updates[i];
    var u: nat;
    c, u, d, g :| AppliedAs(ls, us, c, u, d, g);
  }
}
