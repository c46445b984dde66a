# Dhrishti: the flow correlation engine, verified

Dhrishti watches TCP connections through kernel probes and turns CONNECT, ACCEPT and CLOSE events into a live graph of
service dependencies. This project models that engine in Dafny and proves what it keeps over every run: the step system
its goroutines form, the metrics an edge reports, the identity of a flow, the locks, and the smaller parts around them
(client registry, address ordering, service aggregation, container ids, playback).

`dafny verify dfyconfig.toml` checks everything.

## How the model is laid out

| files | what they hold |
|---|---|
| `address.dfy`, `flow.dfy` | kernel tuple to printed address to canonical flow key |
| `order_statistics.dfy`, `metrics.dfy` | the percentile, the rolling window, and the keep-everything specification they refine |
| `service_graph.dfy`, `flow_state.dfy`, `flow_tracker.dfy` | edges, lifecycle records, and the mutable classes of the program |
| `engine.dfy` | the step machine: one step per critical section, with what each goroutine carries in between |
| `ledger.dfy`, `accounting.dfy`, `incarnations.dfy`, `lifecycle.dfy`, `history.dfy` | the invariants of every step |
| `runs.dfy`, `leaks.dfy`, `late_accepts.dfy`, `open_flows.dfy`, `drain.dfy` | the main results over whole runs |
| `story.dfy`, `edge_story.dfy`, `figures.dfy` | what is recorded of flows and edges, and what edges report, against the run's own events and clock readings |
| `races.dfy`, `drain_witness.dfy` | runs that show what the code really does, and that hypotheses can be met |
| `runtime.dfy` | the program: a method per critical section, each proved to take exactly one step of the engine |
| `locks.dfy` | the three read-write locks and deadlock freedom |
| `registry.dfy`, `client_order.dfy`, `services.dfy`, `cgroup.dfy`, `playback.dfy` | the smaller cores |

**The step machine.** A connect and a finalisation each take the tracker lock and, later, the graph lock, never both. The
engine therefore has separate steps for the two halves: `ConnectTracker`/`ConnectGraph`, `CloseTracker`/`CloseGraph`, and
`StaleReadClock`/`StaleTracker`/`StaleGraph`, beside `Accept` and `Cleanup`. Each event pipeline is one goroutine that
finishes an event before it reads the next (loader/receiver.go:42, 77, 112), so at most one connect and one close are in
flight; a stale pass may have any number of updates pending. A state also records its history: the flows begun, the open
flows lost to a CONNECT on the same key, the finished flows dropped for want of an edge, and every metrics update. Those
fields, the numbers given to connects and the clocks are for the proofs; the program does not store them.

**Flow keys.** The comment above `HandleAccept` says that the identity of an ACCEPT is reversed first. The code
canonicalises every key instead, so the reversed lookup of `HandleClose` can never find a flow that the direct one missed
(`Lifecycle.ReversedLookupIsRedundant`).

**Time** is in integer nanoseconds. Readings made under one lock do not decrease. The stale pass reads its clock before it
takes the lock, so its reading is unconstrained: it may be older or newer than anything the tracker has seen.

## Where the code falls short of what it is for

Each promise below is false of the code. For each, the exact condition under which it holds is proved for all inputs, and
failing inputs are given.

* ActiveConnections should be the number of open flows. With nothing in flight it is, exactly when no step of the run
  leaked; otherwise it is too high by the number of leaking steps, for good (`Leaks.ActiveIsExactIffNoStepLeaks`,
  `Leaks.LeaksAreForGood`). Two kinds of step leak. One is a CONNECT on the key of a flow of the edge that is still open
  (`Races.ReusedKeyLeaks`). The other is a finalisation that reaches the graph while some CONNECT of the edge is between
  its halves, no flow of the edge is open or otherwise on its way, and nothing was lost or damaged there before. That
  finalisation need not be the CONNECT's own: it may be (`Races.CloseOvertakesConnect`), or a flow that overtook its
  CONNECT earlier took the count of one that did not, which then finds nothing left (`Races.OvertakenByAnother`).
* A tracked record should not be both failed and accepted. It is, exactly when since the last CONNECT on its key some ACCEPT
  arrived while the record was already closed as failed, because `HandleAccept` does not look at `Closed`
  (`LateAccepts.FailedAndAcceptedIff`; `LateAccepts.StepMixesIff` for one step; a run in `Races.LateAcceptAfterClose`). The
  copies handed to the graph never are (`Runs.SnapshotsMeanWhatTheySay`).
* The close of a client connection should be credited to the client. It is credited to the canonical source end of its key:
  the client's active count is restored if and only if the server's address does not sort before the client's as a string
  (`Registry.ConnectThenCloseRestoresIff`; `Runtime.Program.ClientSession` for the handlers themselves); 172.18.0.1 calling 10.0.0.5 is a case where it is not
  (`Registry.CloseCanMissItsClient`).
* Playback should keep at most MAX_PLAYBACK_FRAMES members. Above that number it does exactly when the number found is a
  multiple of it, and in general keeps up to twice as many less one (`Playback.SampledBounds`); of 501 it keeps all
  (`Playback.OneTooManyAreAllKept`). Members without a stored payload then yield no frame.

## Model

| member | source | states |
|---|---|---|
| Runs.ExactAccounting | loader/correlate.go:42-210 | in every reachable state, per edge: active connections plus connects in flight equal open flows plus finalisations in flight plus open flows overwritten plus finalisations dropped plus guard firings; connects begun equal the edge's total plus connects in flight |
| Runs.RaceDamageIsBounded | loader/correlate.go:197-208 | dropped finalisations and guard firings together happen at most once per edge over the whole run; with no connect in flight the active count never under-reports; 0 <= active <= total <= active + completed, always |
| Runs.ActiveIsExactIff | types/graph.go:139-151 | with nothing in flight, active connections exceed open flows by exactly the flows lost to key reuse plus the finalisations the graph could not account for, so they agree if and only if both numbers are zero |
| Leaks.ActiveIsExactIffNoStepLeaks | types/graph.go:139-151 | with nothing in flight after a run, active connections equal open flows if and only if no CONNECT of the run hit the key of an open flow of the edge and no finalisation found nothing to subtract from; otherwise the excess is the number of those steps |
| Leaks.StepLeaksIff | loader/correlate.go:52-208 | the excess grows by one on exactly those steps, and no step reduces it |
| Leaks.LeaksAreForGood | loader/correlate.go:197-208 | after any continuation that ends outside a connect, active connections still exceed open flows by at least the excess there was before |
| Runs.AtMostOneFinalisation | loader/correlate.go:159-176 | across duplicate closes, stale inference, late accepts, cleanup and key reuse, each connect reaches the metrics at most once and is at every moment in exactly one of five places |
| Runs.ClosedForGood | loader/correlate.go:95-176 | an incarnation that is no longer open is never open again in any continuation of the run |
| Story.TrackedFlowIsTold | loader/correlate.go:52-189 | over any run, the record at a key was begun by the last CONNECT on it, at that CONNECT's first reading; it is accepted if and only if some ACCEPT on the key came since, at whose first reading; it is closed if and only if some CLOSE on the key or stale pass listing it came since; while open it was last updated at the second reading of the latest of those CONNECT and ACCEPTs |
| Story.AppliedFlowIsTold | loader/correlate.go:141-211 | over any run, every flow applied to the graph was begun by its CONNECT and finished by the first CLOSE or stale pass on it since, it failed if and only if no ACCEPT on its key came in between, its close time is the first reading of the CLOSE or the stale pass's reading, its reason is the one that applies, and it was applied at the reading of a later graph section |
| Story.StepTells | loader/metrics.go:247-293 | every step keeps all records, flows in flight and applied flows as the events so far tell them |
| Runs.SnapshotsMeanWhatTheySay | loader/metrics.go:24-39 | every flow that reached the metrics is closed with connect <= close <= last update, non-negative duration, failed exactly when never accepted, and short-lived exactly when under 10ms if both limits are at least 10ms |
| Runs.TrackedFlowsAreSound | types/connection.go:17-52 | in every reachable state a record sits under its own canonical key, is closed exactly when its close time is set, and has its times in order |
| Runs.FiguresRefineHistory | loader/metrics.go:56-214 | an edge's figures are those computed from its complete finalisation history, and its window is exactly the suffix later than the last update minus thirty seconds |
| Figures.CumulativeFigures | loader/metrics.go:69-86 | in every reachable state an edge's failed count is the number of its applied flows never accepted, its short-lived count the number that lasted less than 10ms (with both limits at least that), its total duration the sum from CONNECT to end, and its average that sum divided and rounded down |
| Figures.WindowIsOwn | loader/metrics.go:92-130 | the window holds exactly the flows applied later than thirty seconds before the last one, in order, each with its own time, duration and failure |
| Figures.RollingFigures | loader/metrics.go:154-190 | over that window: requests per second times thirty is its size, the failure rate is the share never accepted, and the recent average is the mean lifetime rounded down |
| Runs.FiguresMeanWhatTheySay | loader/metrics.go:69-190 | in every reachable state, for any edge with completions: the average is within one unit of the exact mean, the recent average lies between two samples of the window, the failure rate is in [0,1], and the window's failures never exceed the edge's |
| Runs.ReportedP95IsOrderStatistic | loader/metrics.go:201-213 | in every reachable state the P95 an edge reports is one of the n durations in its window, more than 95 percent of n-1 of them are no larger and at most 95 percent of n-1 are smaller |
| Runs.CompletedCountsUpdates | loader/metrics.go:71 | the completed counter is the number of finalisations applied to the edge |
| Runs.ReachableInvariant | loader/correlate.go:42-211 | the conjunction of all step invariants holds after any run, by induction on the run |
| Runs.StepKeepsInvariant | loader/metrics.go:240-312 | every step of the engine keeps all of them |
| OpenFlows.AtomicRunsAreOpenFlowTables | loader/correlate.go:72-84 | a run whose connects are not interrupted and hit no open key behaves as a plain table of open flows: active = open + finishing, total = active + completed, no lookup misses and no guard fires |
| OpenFlows.AtomicRunRefines | loader/correlate.go:72-211 | along such a run every action is allowed by the table and the table always equals the tracker's open flows |
| OpenFlows.StepRefines | loader/correlate.go:42-210 | one engine step is the table actions it maps to: connect begins, close and stale finish, everything else does nothing |
| OpenFlows.StaleFinishes | loader/metrics.go:252-293 | a stale pass, whatever order it visits the map in, finishes exactly the stale flows once each |
| OpenFlows.FinishingFindsItsEdge | loader/correlate.go:203-205 | without damage and with no connect in flight, an edge's active count covers every finalisation on its way |
| Drain.FlowExpires | loader/cleanup.go:41-55 | a flow is gone once a stale pass read a clock beyond the limit that applies to it (the incomplete limit after its CONNECT if never accepted, the open limit after its last update if accepted) and a cleanup ran more than the expiration after that pass, whatever happens to other flows |
| Drain.StaysOpen | loader/metrics.go:261-273 | and no sooner: an open flow stays as it is through any run without an event on its key in which no stale reading is beyond that limit |
| Drain.PassClosesIff | loader/metrics.go:257-284 | one stale pass leaves an open flow open if and only if its reading is within the limit that applies, and ends it at that reading otherwise |
| Drain.StaysTracked | loader/cleanup.go:50-53 | a closed flow without further events survives every cleanup up to the expiration after its last update |
| Drain.CleanupKeepsIff | loader/cleanup.go:50-53 | a cleanup keeps exactly the open flows and the closed ones within the expiration |
| Drain.ConfiguredLimits | main.go:110-150 | as started, the limits are five seconds without an ACCEPT, fifteen with one, and thirty for closed flows |
| Drain.QuietEngineEmpties | main.go:110-154 | if events stop, the tracker is empty after the longer limit, one stale period, the expiration and one cleanup period |
| Drain.QuietEngineSettles | main.go:110-154 | if events stop, then by the time the stale loop next reads its clock after the tracker has emptied it has nothing left to apply |
| Drain.EventsStopThenZero | main.go:106-154 | after any atomic run without key reuse, if events stop the tracker empties in that time, and once the last close is applied every edge reports zero active connections |
| Drain.EventsStopThenLeak | main.go:106-154 | after any run at all, if events stop the tracker empties in that time, and once the last connect and close are applied every edge reports exactly as many active connections as steps of the run leaked on it |
| Drain.ConfiguredEngineEmpties | main.go:110-154 | with the program's limits (5s, 15s, 30s) and loops (a sleep of 5s after each pass, a tick every 15s) the bound is 65 seconds plus the time a pass takes plus the lateness of a tick |
| DrainWitness.QuietRunsExist | main.go:106-154 | for any limits and any event there are a run that leaves a flow open, periods, and steps of the two loops that meet everything the quiet-engine results suppose |
| Drain.DrainedActiveIsTheLeak | loader/correlate.go:197-205 | in a drained engine what is left of active connections is exactly the overwritten flows plus the at most one finalisation that found nothing to subtract from |
| Drain.PassCloses | loader/metrics.go:257-284 | a stale pass beyond the limit that applies leaves the untouched flow closed |
| Drain.SweptAway | loader/cleanup.go:45-56 | a closed, untouched flow does not survive a cleanup later than its expiration |
| Races.CloseOvertakesConnect | loader/correlate.go:72-84 | for every event, a run in which the close is processed between the two halves of its connect and leaves one active connection with no open flow |
| Races.OvertakenByAnother | loader/correlate.go:197-208 | for any two flows of one edge, a run in which the second overtakes its connect unharmed and the first, connected and counted long before, is the one that finds nothing to subtract from |
| Races.ReusedKeyLeaks | loader/correlate.go:52-63 | for every event, a run in which a second connect on the key of an open flow leaves two active connections with one open flow |
| LateAccepts.FailedAndAcceptedIff | loader/correlate.go:104-113 | over any run, a tracked record is failed and accepted if and only if since the last CONNECT on its key some ACCEPT found it closed as failed |
| LateAccepts.StepMixesIff | loader/correlate.go:104-113 | a step leaves a record failed and accepted exactly when it was and no CONNECT renews it, or the step is an ACCEPT on a record closed as failed |
| LateAccepts.RunMixesIff | loader/correlate.go:104-113 | the same from any sound state |
| LateAccepts.AnyAcceptMixes | loader/correlate.go:104-113 | from a record closed as failed and not renewed, any ACCEPT on its key while it is tracked makes it failed and accepted, and nothing else does |
| Races.LateAcceptAfterClose | loader/correlate.go:104-113 | for every event, a run that leaves a closed record both failed and accepted |
| Ledger.StepConserves | loader/correlate.go:42-211 | for any choice of flows by number and edge, every step keeps begun = open + finishing + lost + dropped + updated |
| Ledger.StalePassMoves | loader/metrics.go:252-293 | a stale pass moves flows from open to pending one for one, in any order of visiting |
| Accounting.StepKeepsBalance | types/graph.go:282-326 | every step keeps the counter equations of an edge and the bound of one on its damage |
| Accounting.FinishDamagesIff | loader/correlate.go:197-208 | the graph fails to account for a finalisation if and only if the edge has a connect between its halves, no open flow, no other finalisation under way, and nothing lost or damaged before |
| Accounting.FinishKeepsBalance | loader/correlate.go:197-208 | a finalisation keeps the counter equations and the bound of one on the damage |
| Incarnations.ExactlyOneFate | loader/correlate.go:52-176 | each connect is open, finishing, lost, dropped or applied: exactly one of them, once |
| Incarnations.OnlyConnectOpens | loader/correlate.go:52-63 | no step but a connect on the key itself makes a key open, and that one is a new incarnation |
| Lifecycle.StepKeepsSnapshotsSound | loader/correlate.go:169-189 | every copy in flight, dropped or applied keeps the meaning of failed and short-lived |
| Lifecycle.StaleMakesSnapshot | loader/metrics.go:261-284 | although the clock was read before locking, the staleness guards put it after the flow's own times, so the duration is never negative |
| Lifecycle.StepKeepsTrackerSound | loader/correlate.go:95-176 | every step keeps records under canonical keys with times in order |
| Lifecycle.ReversedLookupIsRedundant | loader/correlate.go:145-157 | the reversed lookup never finds what the direct one missed |
| History.StepKeepsFaithful | loader/metrics.go:61-130 | every step keeps an edge's figures equal to those of its history, and the history in time order |
| Metrics.UpdateRefinesHistory | loader/metrics.go:69-214 | folding one completion into the running figures equals appending it to the full history and recomputing everything |
| Metrics.RecentTwice | loader/metrics.go:115-130 | trimming a trimmed window is trimming the whole list: repeated trimming loses nothing still in the window |
| Metrics.WindowIsHistorySuffix | loader/metrics.go:115-130 | on a time-ordered history the window is exactly the entries later than the last update minus thirty seconds |
| Metrics.AggregatesMeanWhatTheySay | loader/metrics.go:69-190 | the average is within one unit of the exact mean, the recent average lies between two samples of the window, the failure rate is in [0,1], and the window's failures never exceed the edge's |
| OrderStatistics.P95IsOrderStatistic | loader/metrics.go:201-213 | P95 is one of the n samples, more than 95 percent of n-1 samples are no larger and at most 95 percent of n-1 are smaller |
| OrderStatistics.P95OfAnySort | loader/metrics.go:201-213 | any ascending rearrangement has the same value at the index |
| OrderStatistics.P95IgnoresArrivalOrder | loader/metrics.go:164-213 | P95 depends only on the bag of durations |
| OrderStatistics.SortedUnique | loader/metrics.go:201-207 | two ascending lists with the same bag are equal, whatever the sort does with ties |
| OrderStatistics.P95Index | loader/metrics.go:209-210 | the index is in range for every non-empty window and is 95 percent of n-1 rounded down |
| ServiceGraph.Edge.UpdateEdgeMetrics | loader/metrics.go:56-214 | the in-place update leaves counters and identity alone and makes the figures the folded ones |
| ServiceGraph.Edge.DeriveRolling | loader/metrics.go:144-213 | the rolling figures are count/30, truncated mean, failed share and P95 of the window; an empty window changes nothing |
| ServiceGraph.Trim | loader/metrics.go:118-130 | the loop keeps exactly the samples later than the window start, in order |
| ServiceGraph.Tally | loader/metrics.go:160-177 | the loop's total, failure count and list are those of the window |
| EdgeStory.PortIsFirst | types/graph.go:315-326 | over any run an edge carries the port of the first CONNECT on it |
| EdgeStory.SeenFirstAndLast | types/graph.go:282-326 | over any run an edge was first seen by the first graph section on it and last seen by the last one, at the readings made there |
| ServiceGraph.Graph.RecordConnect | types/graph.go:247-327 | the edge is created with ones or both counters go up by one; all other edges are untouched |
| ServiceGraph.Graph.FinishFlow | loader/correlate.go:195-210 | the guarded decrement and the metrics on an existing edge, nothing when the edge is missing |
| FlowTrackerHeap.FlowTracker.HandleConnect | loader/correlate.go:42-64 | a fresh record replaces whatever is at the canonical key |
| FlowTrackerHeap.FlowTracker.HandleAccept | loader/correlate.go:95-114 | an existing record, open or closed, is marked accepted and refreshed; otherwise nothing |
| FlowTrackerHeap.FlowTracker.CloseFlowFor | loader/correlate.go:143-193 | the open record found by either lookup is closed, judged and copied; a closed or missing one is left alone |
| FlowTrackerHeap.FlowTracker.CloseStaleFlows | loader/metrics.go:250-295 | the scan closes exactly the stale flows and returns one copy of each, in the order the map was visited |
| FlowTrackerHeap.FlowTracker.CleanupExpiredFlows | loader/cleanup.go:34-64 | exactly the expired closed flows are deleted and their number returned |
| FlowTrackerHeap.ConnectionState.InferFailure | loader/metrics.go:24-39 | closed without accept is failed with its reason; under 10ms is short-lived |
| FlowTrackerHeap.ConnectionState.InferStale | loader/metrics.go:257-284 | a record is closed with the reason that applies exactly when one of the two limits is exceeded |
| Runtime.Program.ConnectTracker | loader/correlate.go:42-64 | the tracker half of a connect is the engine's step; a flow it overwrites credits no close to the registry |
| Runtime.Program.ConnectGraph | types/graph.go:247-327 | the graph half of a connect is the engine's step |
| Runtime.Program.Accept | loader/correlate.go:95-114 | an accept is the engine's step |
| Runtime.Program.CloseTracker | loader/correlate.go:141-193 | the tracker half of a close is the engine's step, and the registry is credited for the flow it finished |
| Runtime.Program.CloseGraph | loader/correlate.go:195-210 | the graph half of a close is the engine's step |
| Runtime.Program.StaleTracker | loader/metrics.go:250-295 | the scan under the lock is the engine's step for some order of visiting the map; flows it ends credit no close to the registry |
| Runtime.Program.StaleGraph | loader/metrics.go:297-311 | one pending update is the engine's step |
| Runtime.Program.Cleanup | loader/cleanup.go:34-64 | a cleanup is the engine's step and counts what it removed |
| Runtime.Program.RecordNewConnection | loader/correlate.go:72-84 | uninterrupted, it is exactly two steps |
| Runtime.Program.HandleClose | loader/correlate.go:124-211 | uninterrupted, it is one step, or two when it finished a flow, and the registry is credited for exactly that flow |
| Runtime.Program.KeepsAccounts | loader/correlate.go:42-211 | the running program is always in a reachable state with a sound registry, so exact accounting and at-most-once finalisation hold of it between any two critical sections |
| Runtime.Program.HandleConnectEvent | main.go:239-248 | the connect pipeline relabels, counts the address and records the connection under the new label, in two steps of the engine |
| Runtime.Program.ClientSession | loader/identity.go:42 | run through the handlers themselves, a client's connection from CONNECT to CLOSE restores the client's active count if and only if the server's address does not sort before the client's |
| Runtime.ClientIsCreditedIff | loader/identity.go:31-43 | the same for any sound registry and whatever flow of the client's key the close finished |
| Runtime.CloseFindsIt | loader/correlate.go:145-189 | a close on the key of the flow just begun finishes that flow, whatever was at the key before |
| Runtime.Program.InferStaleFlows | loader/metrics.go:240-312 | one uninterrupted pass is the clock reading, the scan and one graph update for each flow the scan found, in that order, and leaves nothing pending |
| Runtime.ApplyEntryPointRules | loader/identity.go:11-29 | unresolved traffic into an entry service is relabelled and its address counted; all other events and the registry are unchanged |
| Runtime.EntryPointRules | loader/identity.go:16-28 | after the rules no event bound for an entry service has an unresolved source, resolved sources and other destinations are left alone, and only the source label ever changes |
| Runtime.CreditRules | loader/identity.go:36-42 | only the end of a flow from "client" to an entry service touches the registry, and it does |
| Runtime.TrackClientIPClose | loader/identity.go:31-43 | only a client flow into an entry service is credited, to the canonical source end of its key |
| FlowIdentity.SameKeyIffSameEndpoints | loader/correlate.go:15-34 | two kernel tuples get the same key if and only if their endpoint pairs are equal up to swapping |
| FlowIdentity.NormalizeKeepsSides | loader/normalize.go:10-74 | an event names each endpoint of its tuple on its own side |
| FlowIdentity.BuildFlowKeyCanonical | loader/correlate.go:26-33 | every key built is in canonical orientation |
| FlowIdentity.CanonicalBothWays | types/flow.go:53-61 | a key and its reverse are both canonical exactly when they are equal |
| Address.PrintedInjective | loader/normalize.go:76-86 | two addresses print alike if and only if they are equal |
| Address.Uint32ToIP | loader/normalize.go:76-86 | the byte buffer filled step by step prints as the dotted octets, least significant byte first |
| Address.DecimalRoundTrip | loader/normalize.go:85 | a printed octet reads back as itself, without leading zeros |
| Locks.ProgramNeverDeadlocks | loader/correlate.go:66-71 | with any number of pipelines and API readers, in every reachable state some thread inside a handler can go on, even if readers yield to waiting writers |
| Locks.DeadlockFree | loader/correlate.go:66-71 | the same for any programs that take the locks in rank order |
| Locks.HandlersAreOrdered | api/serializer.go:41-148 | every handler takes the locks in order and releases what it takes: the registry inside the others, tracker and graph never together |
| Locks.WritersAreAlone | types/connection.go:67 | in every reachable state a lock held exclusively is held by one thread only |
| Locks.WritersTakeExclusively | loader/correlate.go:49-210 | every handler takes exclusively exactly the locks of what it changes, and shared exactly those of what it only reads |
| Locks.NestingBothWaysDeadlocks | loader/correlate.go:69-70 | nesting tracker and graph locks both ways reaches a state where no thread can go on |
| Registry.ConnectKeepsSound | types/unknown_ips.go:32-55 | a connect keeps every entry under its own trackable address, with its total the sum over destinations and 0 <= active <= total |
| Registry.CloseKeepsSound | types/unknown_ips.go:57-75 | so does a close, whichever entry it is credited to |
| Registry.RegistrySound | types/unknown_ips.go:32-75 | in any run an entry sits under its own non-empty, non-loopback address, its total is the sum over destinations, and 0 <= active <= total |
| Registry.CountsAreExact | types/unknown_ips.go:32-55 | an address has an entry exactly when a trackable connect was recorded, and totals per address and destination are the numbers of connects |
| Registry.EntryIff | types/unknown_ips.go:28-35 | an address has an entry exactly when it was connected from and is neither empty, "::1" nor under "127." |
| Registry.LastSeenIsLast | types/unknown_ips.go:54-74 | an entry was last seen by the last connect or close on its address |
| Registry.ActiveIsConnectsLessCloses | types/unknown_ips.go:32-75 | over any run the active count of a trackable address is its connects less its closes plus the closes that found it at zero, hence the difference exactly when none did |
| Registry.ConnectThenCloseRestoresIff | loader/identity.go:42 | connect then close restores the client's active count if and only if the server's address does not sort before the client's |
| Registry.CloseCreditedToClientIff | loader/identity.go:42 | the credited end is the client's address if and only if canonicalisation did not turn the tuple round |
| Registry.CloseCanMissItsClient | loader/identity.go:42 | a concrete pair of addresses for which the close is credited to the server |
| Registry.PrintedLoopback | types/unknown_ips.go:28-30 | a printed address is loopback exactly when its first octet is 127 |
| Registry.UnknownIPRegistry.RecordConnect | types/unknown_ips.go:32-55 | one more connect to the destination for a trackable address, other entries untouched |
| Registry.UnknownIPRegistry.RecordClose | types/unknown_ips.go:57-75 | guarded decrement of an existing entry, other entries untouched |
| ClientOrder.ComparatorsAgree | api/serializer.go:158-165 | on printed addresses the server's comparator is the numeric order of the octets and has the sign of the frontend's |
| ClientOrder.StrictTotalOrder | api/serializer.go:158-165 | on printed addresses the comparator is a strict total order |
| ClientOrder.ClientListUnique | api/serializer.go:133-153 | for any run of the registry, two sorted listings of its entries are the same list |
| ClientOrder.SortedListUnique | api/serializer.go:150-152 | a sorted list is determined by which entries it holds |
| ClientOrder.ClientList | api/serializer.go:135-152 | the list is sorted and holds exactly the registry's entries, whatever order the map yields them in |
| ClientOrder.PrintedParses | frontend/src/UnknownIPTable.jsx:5-11 | a printed address has the octets the server parses and the numeric key the frontend computes |
| Services.Aggregate | history/writer.go:117-143 | the loop gives every mentioned service, and no other, the sums over its own edges |
| Services.ServiceAggregate.AccumulateService | history/writer.go:163-181 | one service's totals take in the edge on the given side, other services untouched |
| Services.AggregateConserves | history/writer.go:117-181 | summed over all services written, outbound rate, inbound rate, weighted failures and active connections each equal the sum over the edges |
| Services.TotalsConserved | history/writer.go:163-181 | the same for the sums over any set of services that contains every edge's end |
| Services.OrderIrrelevant | history/writer.go:119-143 | any permutation of the edges gives every service the same totals |
| Services.FailureRateIsAMean | history/writer.go:192-195 | a service's failure rate lies between those of two of its outbound edges that carry traffic, and is zero when none does |
| Services.MaxP95Is | history/writer.go:174-176 | the P95 written is the largest outbound one, or zero |
| Cgroup.DockerScope | resolver/cgroup.go:38-45 | extraction from `<prefix>docker-<id>.scope` returns the id, for any prefix free of the marker |
| Cgroup.CriScope | resolver/cgroup.go:47-54 | extraction from `<prefix>cri-containerd-<id>.scope` returns the id, for any prefix free of both markers |
| Cgroup.PlainPath | resolver/cgroup.go:56-60 | extraction from `<directory>/<id>` returns the id when the directory holds no marker and no id |
| Cgroup.DockerPath | resolver/cgroup.go:34-37 | extraction from `0::/docker/<id>` returns the id |
| Cgroup.ExtractedIsID | resolver/cgroup.go:33-63 | any non-empty result for any line is 12 to 64 lowercase hexadecimal digits |
| Cgroup.NormalizeStrips | resolver/cgroup.go:65-89 | white space around it, either marker before it and ".scope" after it are stripped from any run of at least twelve lowercase hexadecimal digits, which is returned up to the sixty-fourth |
| Cgroup.NothingFoundIff | resolver/cgroup.go:38-62 | nothing is found exactly when none of the three attempts finds an id |
| Cgroup.FirstPartWins | resolver/cgroup.go:56-60 | of the parts of a path the first that is an id wins |
| Cgroup.NormalizeIdempotent | resolver/cgroup.go:65-89 | normalising twice is normalising once |
| Cgroup.IDNormalizesToItself | resolver/cgroup.go:65-89 | a container id is left alone |
| Cgroup.ExtractContainerIDFromCgroupLine | resolver/cgroup.go:33-63 | the three attempts in order, falling through when a candidate is not an id |
| Cgroup.NormalizeContainerID | resolver/cgroup.go:65-89 | the trims in order, the length and digit checks, and the cut at 64 |
| Playback.SampledBounds | history-api/main.py:238-240 | above MAX members between MAX and 2*MAX-1 are kept, and at most MAX exactly when MAX divides the count |
| Playback.NoLongGaps | history-api/main.py:240 | the first member is kept, and every member is kept or follows a kept one by fewer than step positions |
| Playback.StridedAt | history-api/main.py:240 | the kept members are exactly those at multiples of the step, in order |
| Playback.OneTooManyAreAllKept | history-api/main.py:238-240 | of one member more than MAX all are kept |
| Playback.FewAreAllReplayed | history-api/main.py:238-253 | with at most 500 members every stored, non-empty payload is replayed |
| Playback.ReplayInOrder | history-api/main.py:242-253 | the frames are an in-order selection of the index, each with its own stored payload, and every kept member with a payload has its frame |
| Playback.GraphPlayback | history-api/main.py:238-253 | the loop yields the stored, non-empty payloads of the kept members in order |

## Left out

- Integer overflow and float64 rounding: integers are unbounded and rates exact; the P95 index is floor(95*(n-1)/100).
- OrderStatistics.SortDurations: stands for the library sort; only an ascending rearrangement is relied on. `ClientOrder.InsertByIP` does the same for the client list.
- Runtime.Program.InferStaleFlows: covers an uninterrupted pass; interleavings are covered by the per-section methods and the step machine.
- Drain.QuietEngineEmpties: the periods of the two loops are hypotheses about the run; no bound on scheduling delays is derived.
- Runtime.ApplyEntryPointRules: returns the relabelled event, since events are values here; the program overwrites its field.
- ServiceGraph.Edge.DeriveRolling: the early exit on an empty window is kept although `UpdateEdgeMetrics` can never reach it, the sample just added being inside the window.
- ClientOrder.ComparatorsAgree: IPv6 text, JavaScript numbers other than digit runs and `localeCompare` (a parameter) are not modelled; the probes report IPv4 only.
- Services.MaxP95Is: the P95 is kept as an integer; the program converts it to a float.
- FlowIdentity.Normalize: event type, timestamp and process id are not read by the engine and are omitted; service names are arbitrary.
- An unset close or accept time is `None` rather than the zero time.
- `Graph.RecordClose` (types/graph.go:346): not called by the running engine.
- The edge and node projection of `BuildGraphResponse`, `/api` and WebSocket transport, JSON, Redis and FastAPI plumbing: formatting and transport. They appear in the lock model as readers.
- Docker calls, the resolver's cache and its own lock, `/proc` reads: I/O and a library that cannot be seen.
- eBPF probes, ring buffers and event decoding: the kernel interface. Only the fact that each pipeline is one sequential goroutine is used.
- Telemetry counters and printing: sums and formatting. The printers appear in the lock model as readers.
- React and Cytoscape views, load scripts and mock services.
