/** Every CONNECT begins one incarnation, and every incarnation has exactly one fate. */
module Incarnations {
  import opened Common
  import opened FlowIdentity
  import opened FlowState
  import opened Engine
  import opened Ledger

  /** Flows are numbered in the order their CONNECTs reached the tracker. */
  ghost predicate Numbered(s: State) { forall i :: 0 <= i < |s.begun| ==> s.begun[i].id == i }

  lemma StepKeepsNumbered(cfg: Timeouts, s: State, l: Label)
    requires Enabled(cfg, s, l) && Numbered(s)
    ensures Numbered(Step(cfg, s, l))
    ensures s.begun <= Step(cfg, s, l).begun
  {
  }

  lemma {:induction false} CountNumbered(fs: seq<Flow>, id: nat)
    requires forall i :: 0 <= i < |fs| ==> fs[i].id == i
    ensures Count(fs, ById(id)) == Bit(id < |fs|)
  {
    if fs == [] {
    } else {
      CountNumbered(fs[..|fs| - 1], id);
    }
  }

  lemma {:induction false} CountUpdated(us: seq<Update>, i: nat)
    requires i < |us|
    ensures CountUpdates(us, ById(us[i].flow.id)) >= 1
  {
    if i == |us| - 1 {
    } else {
      CountUpdated(us[..|us| - 1], i);
    }
  }

  lemma {:induction false} CountUpdatedTwice(us: seq<Update>, i: nat, j: nat)
    requires i < j < |us| && us[i].flow.id == us[j].flow.id
    ensures CountUpdates(us, ById(us[j].flow.id)) >= 2
  {
    if j == |us| - 1 {
      CountUpdated(us[..|us| - 1], i);
    } else {
      CountUpdatedTwice(us[..|us| - 1], i, j);
    }
  }

  /** Each incarnation is in exactly one place, once: open in the tracker, on its way to the graph, lost to key reuse,
      dropped for want of an edge, or applied to the graph. */
  lemma ExactlyOneFate(s: State, id: nat)
    requires Numbered(s) && Conserved(s, ById(id)) && id < |s.begun|
    ensures Open(s, ById(id)) + Finishing(s, ById(id)) + Count(s.lost, ById(id)) + Count(s.dropped, ById(id))
          + CountUpdates(s.updates, ById(id)) == 1
  {
    CountNumbered(s.begun, id);
  }

  /** No incarnation reaches the metrics twice. */
  lemma NoTwoUpdates(s: State, i: nat, j: nat)
    requires i < j < |s.updates| && Numbered(s) && Conserved(s, ById(s.updates[j].flow.id))
    ensures s.updates[i].flow.id != s.updates[j].flow.id
  {
    if s.updates[i].flow.id == s.updates[j].flow.id {
      CountUpdatedTwice(s.updates, i, j);
      CountNumbered(s.begun, s.updates[j].flow.id);
    }
  }

  /** No step but a CONNECT on the key itself makes a key open, and that one starts a new incarnation. */
  lemma OnlyConnectOpens(cfg: Timeouts, s: State, l: Label, k: FlowKey)
    requires Enabled(cfg, s, l)
    requires k in Step(cfg, s, l).tracker && Step(cfg, s, l).tracker[k].IsOpen()
    ensures var f := Step(cfg, s, l).tracker[k];
      || (k in s.tracker && s.tracker[k].IsOpen() && s.tracker[k].id == f.id)
      || (l.ConnectTracker? && BuildFlowKey(l.ev) == k && f.id == |s.begun|)
  {
  }
}
