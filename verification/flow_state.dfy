/** The lifecycle record of one connection and the transitions the handlers make on it. */
module FlowState {
  import opened Common
  import opened FlowIdentity
  import opened Metrics
  import opened ServiceGraph

  const SHORT_LIVED: int := 10_000_000

  /** The two staleness limits and the expiry of closed flows. */
  datatype Timeouts = Timeouts(incomplete: nat, open: nat, expiration: nat) {
    function Longest(): nat { if incomplete > open then incomplete else open }
  }

  /** The values the program starts its loops with: 5, 15 and 30 seconds. */
  const CONFIGURED := Timeouts(5_000_000_000, 15_000_000_000, 30_000_000_000)

  /** `id` numbers the CONNECT that created the record; the program does not store it. An unset time is `None`. */
  datatype Flow = Flow(
    id: nat,
    key: FlowKey,
    edge: EdgeKey,
    connectTime: int,
    acceptTime: Option<int>,
    closeTime: Option<int>,
    accepted: bool,
    closed: bool,
    lastUpdated: int,
    failed: bool,
    failureReason: string,
    shortLived: bool)
  {
    function Duration(now: int): int {
      match closeTime
      case None => now - connectTime
      case Some(t) => t - connectTime
    }

    predicate IsOpen() { !closed }

    /** What the graph is told about a finished flow. */
    function Completed(now: int): Completion { Completion(now, Duration(now), failed, shortLived) }
  }

  function NewFlow(id: nat, ev: Event, t1: int, t2: int): Flow {
    Flow(id, BuildFlowKey(ev), EdgeKey(ev.sourceService, ev.destinationService),
         t1, None, None, false, false, t2, false, "", false)
  }

  function InferFailure(f: Flow, now: int): Flow {
    var f' := if f.closed && !f.accepted then f.(failed := true, failureReason := "closed_without_accept") else f;
    if f'.Duration(now) < SHORT_LIVED then f'.(shortLived := true) else f'
  }

  function AcceptFlow(f: Flow, t1: int, t2: int): Flow {
    f.(accepted := true, acceptTime := Some(t1), lastUpdated := t2)
  }

  function CloseFlow(f: Flow, t1: int, t2: int): Flow {
    InferFailure(f.(closed := true, closeTime := Some(t1), lastUpdated := t2), t2)
  }

  predicate StaleIncomplete(cfg: Timeouts, f: Flow, now: int) {
    !f.accepted && now - f.connectTime > cfg.incomplete
  }

  predicate StaleOpen(cfg: Timeouts, f: Flow, now: int) {
    f.accepted && now - f.lastUpdated > cfg.open
  }

  predicate IsStale(cfg: Timeouts, f: Flow, now: int) {
    !f.closed && (StaleIncomplete(cfg, f, now) || StaleOpen(cfg, f, now))
  }

  function MarkStale(cfg: Timeouts, f: Flow, now: int): Flow {
    var f' := if StaleIncomplete(cfg, f, now)
              then f.(failed := true, failureReason := "stale_incomplete_flow")
              else f.(failureReason := "stale_open_flow");
    f'.(closed := true, closeTime := Some(now), lastUpdated := now)
  }

  predicate Expired(cfg: Timeouts, f: Flow, now: int) {
    f.closed && now - f.lastUpdated > cfg.expiration
  }
}
