/** When a tracked record comes to be both failed and accepted: exactly when an ACCEPT arrives for one already closed as
    failed, which `HandleAccept` does not check. */
module LateAccepts {
  import opened FlowIdentity
  import opened ServiceGraph
  import opened FlowState
  import opened Engine
  import opened Lifecycle

  predicate FailedAndAccepted(tracker: TrackerState, k: FlowKey) {
    k in tracker && tracker[k].failed && tracker[k].accepted
  }

  predicate ConnectsOn(l: Label, k: FlowKey) { l.ConnectTracker? && BuildFlowKey(l.ev) == k }

  predicate AcceptsOn(l: Label, k: FlowKey) { l.Accept? && BuildFlowKey(l.ev) == k }

  predicate ClosedAsFailed(tracker: TrackerState, k: FlowKey) {
    k in tracker && tracker[k].closed && tracker[k].failed
  }

  /** What a test of `Closed` in `HandleAccept` would turn away. */
  predicate AcceptsTooLate(s: State, l: Label, k: FlowKey) { AcceptsOn(l, k) && ClosedAsFailed(s.tracker, k) }

  lemma TrackedIsSound(s: State, k: FlowKey)
    requires TrackerSound(s)
    ensures SoundAt(s.tracker, s.trackerClock, k)
  {
  }

  /** One step: the two flags stand together afterwards exactly when they did before and no CONNECT renewed the
      record, or the step is an ACCEPT that comes too late. */
  lemma StepMixesIff(cfg: Timeouts, s: State, l: Label, k: FlowKey)
    requires Enabled(cfg, s, l) && TrackerSound(s) && k in Step(cfg, s, l).tracker
    ensures FailedAndAccepted(Step(cfg, s, l).tracker, k)
       <==> (FailedAndAccepted(s.tracker, k) && !ConnectsOn(l, k)) || AcceptsTooLate(s, l, k)
  {
    hide Connected, Finished, BuildFlowKey, TrackerSound;
    TrackedIsSound(s, k);
  }

  lemma AbsentUntilConnect(cfg: Timeouts, s: State, l: Label, k: FlowKey)
    requires Enabled(cfg, s, l) && k !in s.tracker && !ConnectsOn(l, k)
    ensures k !in Step(cfg, s, l).tracker
  {
    hide Connected, Finished, BuildFlowKey;
  }

  // ---------- over runs ----------

  /** The state before step `i` of a run. */
  ghost function StateAt(cfg: Timeouts, s: State, ls: seq<Label>, i: nat): State
    requires IsRun(cfg, s, ls) && i <= |ls|
    decreases ls
  {
    if i == 0 then s else StateAt(cfg, Step(cfg, s, ls[0]), ls[1..], i - 1)
  }

  /** No CONNECT on the key from step `from` on. */
  predicate NotRenewed(ls: seq<Label>, from: nat, k: FlowKey) {
    forall i :: from <= i < |ls| ==> !ConnectsOn(ls[i], k)
  }

  ghost predicate LateAt(cfg: Timeouts, s: State, ls: seq<Label>, i: nat, k: FlowKey)
    requires IsRun(cfg, s, ls) && i < |ls|
  {
    AcceptsTooLate(StateAt(cfg, s, ls, i), ls[i], k) && NotRenewed(ls, i + 1, k)
  }

  /** Some ACCEPT of the run came too late for the record that is at the key in the end. */
  ghost predicate AcceptedTooLate(cfg: Timeouts, s: State, ls: seq<Label>, k: FlowKey)
    requires IsRun(cfg, s, ls)
  {
    exists i :: 0 <= i < |ls| && LateAt(cfg, s, ls, i, k)
  }

  lemma RenewedShifts(ls: seq<Label>, from: nat, k: FlowKey)
    requires ls != [] && from > 0
    ensures NotRenewed(ls, from, k) <==> NotRenewed(ls[1..], from - 1, k)
  {
    hide ConnectsOn;
    if NotRenewed(ls[1..], from - 1, k) {
      forall i | from <= i < |ls| ensures !ConnectsOn(ls[i], k) { assert ls[1..][i - 1] == ls[i]; }
    }
  }

  lemma LateAtShifts(cfg: Timeouts, s: State, ls: seq<Label>, i: nat, k: FlowKey)
    requires IsRun(cfg, s, ls) && 0 < i < |ls|
    ensures LateAt(cfg, s, ls, i, k) <==> LateAt(cfg, Step(cfg, s, ls[0]), ls[1..], i - 1, k)
  {
    hide AcceptsTooLate, ConnectsOn, Step, Enabled;
    RenewedShifts(ls, i + 1, k);
  }

  lemma FirstIsLate(cfg: Timeouts, s: State, ls: seq<Label>, k: FlowKey)
    requires IsRun(cfg, s, ls) && ls != []
    ensures LateAt(cfg, s, ls, 0, k) <==> AcceptsTooLate(s, ls[0], k) && NotRenewed(ls[1..], 0, k)
  {
    hide NotRenewed, AcceptsTooLate, Step, Enabled;
    RenewedShifts(ls, 1, k);
  }

  lemma TooLateSplits(cfg: Timeouts, s: State, ls: seq<Label>, k: FlowKey)
    requires IsRun(cfg, s, ls) && ls != []
    ensures AcceptedTooLate(cfg, s, ls, k)
       <==> ((AcceptsTooLate(s, ls[0], k) && NotRenewed(ls[1..], 0, k))
             || AcceptedTooLate(cfg, Step(cfg, s, ls[0]), ls[1..], k))
  {
    hide LateAt, NotRenewed, AcceptsTooLate, Step, Enabled;
    var t, rest := Step(cfg, s, ls[0]), ls[1..];
    FirstIsLate(cfg, s, ls, k);
    if i :| 0 < i < |ls| && LateAt(cfg, s, ls, i, k) {
      LateAtShifts(cfg, s, ls, i, k);
    }
    if i :| 0 <= i < |rest| && LateAt(cfg, t, rest, i, k) {
      LateAtShifts(cfg, s, ls, i + 1, k);
    }
  }

  lemma FirstOrRest(ls: seq<Label>, k: FlowKey)
    requires ls != []
    ensures NotRenewed(ls, 0, k) <==> !ConnectsOn(ls[0], k) && NotRenewed(ls[1..], 0, k)
  {
    hide ConnectsOn;
    RenewedShifts(ls, 1, k);
  }

  lemma NotMixedIfAbsent(tracker: TrackerState, k: FlowKey)
    requires k !in tracker
    ensures !FailedAndAccepted(tracker, k) && !ClosedAsFailed(tracker, k)
  {
  }

  lemma {:induction false} StillAbsent(cfg: Timeouts, s: State, ls: seq<Label>, k: FlowKey)
    requires IsRun(cfg, s, ls) && k !in s.tracker && k in After(cfg, s, ls).tracker
    ensures !NotRenewed(ls, 0, k)
    decreases ls
  {
    hide Step, Enabled, ConnectsOn;
    if ConnectsOn(ls[0], k) {
    } else {
      AbsentUntilConnect(cfg, s, ls[0], k);
      StillAbsent(cfg, Step(cfg, s, ls[0]), ls[1..], k);
      FirstOrRest(ls, k);
    }
  }

  /** Over any run: the record at the key in the end is failed and accepted exactly when it already was and no CONNECT
      renewed it, or some ACCEPT since the last CONNECT on the key came too late. */
  lemma {:induction false} RunMixesIff(cfg: Timeouts, s: State, ls: seq<Label>, k: FlowKey)
    requires IsRun(cfg, s, ls) && TrackerSound(s) && k in After(cfg, s, ls).tracker
    ensures FailedAndAccepted(After(cfg, s, ls).tracker, k)
       <==> (FailedAndAccepted(s.tracker, k) && NotRenewed(ls, 0, k)) || AcceptedTooLate(cfg, s, ls, k)
    decreases ls
  {
    hide Step, Enabled, TrackerSound, AcceptsTooLate, ConnectsOn;
    if ls == [] {
    } else {
      var t, rest := Step(cfg, s, ls[0]), ls[1..];
      StepKeepsTrackerSound(cfg, s, ls[0]);
      RunMixesIff(cfg, t, rest, k);
      TooLateSplits(cfg, s, ls, k);
      FirstOrRest(ls, k);
      hide AcceptedTooLate, FailedAndAccepted, NotRenewed;
      if k in t.tracker {
        StepMixesIff(cfg, s, ls[0], k);
      } else {
        StillAbsent(cfg, t, rest, k);
        NotMixedIfAbsent(t.tracker, k);
      }
    }
  }

  /** From the empty engine: a tracked record is failed and accepted exactly when, since the last CONNECT on its
      key, some ACCEPT found it closed as failed. */
  lemma FailedAndAcceptedIff(cfg: Timeouts, ls: seq<Label>, k: FlowKey)
    requires IsRun(cfg, INITIAL, ls) && k in After(cfg, INITIAL, ls).tracker
    ensures FailedAndAccepted(After(cfg, INITIAL, ls).tracker, k) <==> AcceptedTooLate(cfg, INITIAL, ls, k)
  {
    hide Step, Enabled, IsRun, After, AcceptedTooLate, NotRenewed;
    assert TrackerSound(INITIAL);
    RunMixesIff(cfg, INITIAL, ls, k);
  }

  lemma ClosedStaysClosed(cfg: Timeouts, s: State, l: Label, k: FlowKey)
    requires Enabled(cfg, s, l) && ClosedAsFailed(s.tracker, k) && !ConnectsOn(l, k) && k in Step(cfg, s, l).tracker
    ensures ClosedAsFailed(Step(cfg, s, l).tracker, k)
    ensures Step(cfg, s, l).tracker[k].accepted <==> s.tracker[k].accepted || AcceptsOn(l, k)
  {
    hide Connected, Finished, BuildFlowKey;
  }

  /** From a record closed as failed, as long as it is tracked and no CONNECT renews it: any ACCEPT on its key mixes
      the two flags, and nothing else does. */
  lemma {:induction false} AnyAcceptMixes(cfg: Timeouts, s: State, ls: seq<Label>, k: FlowKey)
    requires IsRun(cfg, s, ls) && TrackerSound(s) && NotRenewed(ls, 0, k)
    requires ClosedAsFailed(s.tracker, k) && k in After(cfg, s, ls).tracker
    ensures ClosedAsFailed(After(cfg, s, ls).tracker, k)
    ensures FailedAndAccepted(After(cfg, s, ls).tracker, k)
       <==> s.tracker[k].accepted || exists i :: 0 <= i < |ls| && AcceptsOn(ls[i], k)
    decreases ls
  {
    hide Step, Enabled, TrackerSound, ConnectsOn, AcceptsOn;
    if ls == [] {
    } else {
      var t, rest := Step(cfg, s, ls[0]), ls[1..];
      FirstOrRest(ls, k);
      StepKeepsTrackerSound(cfg, s, ls[0]);
      if k !in t.tracker {
        StillAbsent(cfg, t, rest, k);
      } else {
        ClosedStaysClosed(cfg, s, ls[0], k);
        AnyAcceptMixes(cfg, t, rest, k);
        assert forall i :: 0 <= i < |rest| ==> rest[i] == ls[i + 1];
        assert forall i :: 0 < i < |ls| ==> ls[i] == rest[i - 1];
      }
    }
  }
}
