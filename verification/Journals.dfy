/**
 What the journals of reachable states say: executions happen at most once, in order, after the
 confirmations they need, and on the snapshots taken when the run was accepted.
 */
module Journals {
  import opened Model
  import opened Protocol
  import opened Plan
  import opened Invariant
  import opened ExecutorSteps
  import opened OpSteps

  // ----- plans -----

  function Grants(j: seq<Entry>): nat {
    if j == [] then 0 else Grants(j[..|j| - 1]) + (if j[|j| - 1].Granted? then 1 else 0)
  }

  function HandOvers(j: seq<Entry>): nat {
    if j == [] then 0 else HandOvers(j[..|j| - 1]) + (if j[|j| - 1].Handed? then 1 else 0)
  }

  lemma {:induction false} CountsAppend(x: seq<Entry>, y: seq<Entry>)
    ensures Grants(x + y) == Grants(x) + Grants(y)
    ensures HandOvers(x + y) == HandOvers(x) + HandOvers(y)
    decreases |y|
  {
    if y == [] {
      assert x + y == x;
    } else {
      assert (x + y)[..|x + y| - 1] == x + y[..|y| - 1];
      CountsAppend(x, y[..|y| - 1]);
    }
  }

  lemma OneEntryCounts(e: Entry)
    ensures Grants([e]) == (if e.Granted? then 1 else 0) && HandOvers([e]) == (if e.Handed? then 1 else 0)
  {
    assert [e][..0] == [];
  }

  /** One step adds its own confirmation, if it needs one, and its hand-over. */
  lemma StepCounts(a: Activity, k: nat)
    requires k < |a.steps|
    ensures Grants(GrantEntries(a, k)) == |GrantEntries(a, k)| && HandOvers(GrantEntries(a, k)) == 0
    ensures Grants([HandEntry(a, k)]) == 0 && HandOvers([HandEntry(a, k)]) == 1
  {
    OneEntryCounts(Granted(StepGrant(k), false));
    OneEntryCounts(HandEntry(a, k));
  }

  lemma {:induction false} PlanCounts(a: Activity, n: nat)
    requires n <= |a.steps|
    ensures Grants(PlanUpTo(a, n)) == (if a.Asks() then 1 else 0) + |DangerousBelow(a, n)|
    ensures HandOvers(PlanUpTo(a, n)) == n
  {
    if n == 0 {
      OneEntryCounts(Granted(RunGrant, false));
    } else {
      var before, grant, hand := PlanUpTo(a, n - 1), GrantEntries(a, n - 1), [HandEntry(a, n - 1)];
      PlanCounts(a, n - 1);
      CountsAppend(before, grant);
      CountsAppend(before + grant, hand);
      StepCounts(a, n - 1);
    }
  }

  /** Every entry of a plan, and what stands before it. */
  predicate EntryOk(a: Activity, j: seq<Entry>, k: nat)
    requires k < |j|
  {
    match j[k]
    case Granted(what, locked) => !locked && (what.StepGrant? ==> what.index < |a.steps| && a.steps[what.index].Dangerous())
    case Handed(i, step, action) =>
      && i < |a.steps| && step == a.steps[i].step && action == a.steps[i].action
      && (a.Asks() ==> 0 < k && j[0] == Granted(RunGrant, false))
      && (a.steps[i].Dangerous() ==> 0 < k && j[k - 1] == Granted(StepGrant(i), false))
  }

  /** Hand-overs appear in the order of the steps, each once. */
  predicate InOrder(j: seq<Entry>) {
    forall k, l :: 0 <= k < l < |j| && j[k].Handed? && j[l].Handed? ==> j[k].index < j[l].index
  }

  lemma {:induction false} PlanEntries(a: Activity, n: nat)
    requires n <= |a.steps|
    ensures forall k :: 0 <= k < |PlanUpTo(a, n)| ==> EntryOk(a, PlanUpTo(a, n), k)
    ensures forall k :: 0 <= k < |PlanUpTo(a, n)| && PlanUpTo(a, n)[k].Handed? ==> PlanUpTo(a, n)[k].index < n
    ensures InOrder(PlanUpTo(a, n))
    ensures a.Asks() ==> PlanUpTo(a, n) != [] && PlanUpTo(a, n)[0] == Granted(RunGrant, false)
  {
    if n > 0 {
      PlanEntries(a, n - 1);
      var before := PlanUpTo(a, n - 1);
      var plan := PlanUpTo(a, n);
      assert plan == before + GrantEntries(a, n - 1) + [HandEntry(a, n - 1)];
      forall k | 0 <= k < |plan| ensures EntryOk(a, plan, k) {
        if k < |before| { assert EntryOk(a, before, k); }
      }
    }
  }

  lemma PrefixEntries(a: Activity, j: seq<Entry>)
    requires j <= FullPlan(a)
    ensures forall k :: 0 <= k < |j| ==> EntryOk(a, j, k)
    ensures InOrder(j)
  {
    PlanEntries(a, |a.steps|);
    forall k | 0 <= k < |j| ensures EntryOk(a, j, k) {
      assert EntryOk(a, FullPlan(a), k);
    }
  }

  // ----- reachable states -----

  /** Over every interleaving, relaunch, crash and recovery, each step of a run is handed to the
      runner at most once, and the steps are handed over in order. */
  lemma AtMostOnce(s: State, id: Uuid, k: nat, l: nat)
    requires Reachable(s) && id in s.journal && k < l < |s.journal[id]|
    requires s.journal[id][k].Handed? && s.journal[id][l].Handed?
    ensures s.journal[id][k].index < s.journal[id][l].index
  {
    ReachableOk(s);
    assert HistoryOk(s, id);
    PrefixEntries(s.accepted[id], s.journal[id]);
  }

  /** Every hand-over is the snapshot taken at acceptance, comes after the confirmation of the run
      when the run asks for one, and directly after its own confirmation when the step is dangerous. */
  lemma ConfirmedBeforeHandOver(s: State, id: Uuid, k: nat)
    requires Reachable(s) && id in s.journal && k < |s.journal[id]| && s.journal[id][k].Handed?
    ensures id in s.accepted
    ensures var a := s.accepted[id]; var e := s.journal[id][k];
      && e.index < |a.steps| && e.index < |a.definition.steps|
      && e.step == a.definition.steps[e.index] && e.action == a.steps[e.index].action
      && (e.step.QuickAction? ==> e.action.Some?)
      && (a.Asks() ==> 0 < k && s.journal[id][0] == Granted(RunGrant, false))
      && (a.steps[e.index].Dangerous() ==> 0 < k && s.journal[id][k - 1] == Granted(StepGrant(e.index), false))
  {
    ReachableOk(s);
    assert HistoryOk(s, id);
    PrefixEntries(s.accepted[id], s.journal[id]);
    assert EntryOk(s.accepted[id], s.journal[id], k);
    assert SnapshotTaken(s.accepted[id], s.journal[id][k].index);
  }

  /** Every confirmation on record was given on an unlocked session. */
  lemma GrantsAreUnlocked(s: State, id: Uuid, k: nat)
    requires Reachable(s) && id in s.journal && k < |s.journal[id]| && s.journal[id][k].Granted?
    ensures !s.journal[id][k].locked
  {
    ReachableOk(s);
    assert HistoryOk(s, id);
    PrefixEntries(s.accepted[id], s.journal[id]);
    assert EntryOk(s.accepted[id], s.journal[id], k);
  }

  /** A run that succeeded carried out its whole plan: every step handed over, one confirmation for
      the run if it asks, one for each dangerous step, in increasing order. */
  lemma SucceededAccounting(s: State, id: Uuid)
    requires Reachable(s) && id in s.rows && s.rows[id].status.Succeeded?
    ensures id in s.accepted && id in s.journal && s.journal[id] == FullPlan(s.accepted[id])
    ensures AllSucceeded(s.rows[id])
    ensures s.rows[id].confirmedSteps == DangerousBelow(s.accepted[id], |s.accepted[id].steps|)
    ensures Grants(s.journal[id]) == (if s.rows[id].Asks() then 1 else 0) + |s.rows[id].confirmedSteps|
    ensures HandOvers(s.journal[id]) == |s.rows[id].steps|
    ensures forall i :: i in s.rows[id].confirmedSteps <==> 0 <= i < |s.rows[id].steps| && s.rows[id].steps[i].Dangerous()
    ensures forall k, l :: 0 <= k < l < |s.rows[id].confirmedSteps| ==> s.rows[id].confirmedSteps[k] < s.rows[id].confirmedSteps[l]
  {
    ReachableOk(s);
    assert RowOk(s, id);
    var a := s.accepted[id];
    var r := s.rows[id];
    PlanCounts(a, |a.steps|);
    DangerousBelowExact(a, |a.steps|);
    assert forall i :: 0 <= i < |a.steps| ==> SameStep(r.steps[i], a.steps[i]);
  }

  /** A record that was never launched or queued for confirmation is being enqueued, or has been
      skipped, refused or interrupted, and nothing of it was ever granted or handed over. */
  lemma UnacceptedNeverRuns(s: State, id: Uuid)
    requires Reachable(s) && id in s.rows && id !in s.accepted
    ensures id in s.journal && s.journal[id] == []
    ensures s.rows[id].status.Skipped? || s.rows[id].status.Failed? || s.rows[id].status.Interrupted?
         || (s.rows[id].status.Queued? && (Enqueuing(s.gate, id) || Recovering(s.gate)))
  {
    ReachableOk(s);
    assert RowOk(s, id) && HistoryOk(s, id);
  }

  /** The record of an accepted run never changes apart from statuses and confirmations. */
  lemma SnapshotIsolation(s: State, id: Uuid)
    requires Reachable(s) && id in s.rows && id in s.accepted
    ensures SameRun(s.rows[id], s.accepted[id])
    ensures |s.rows[id].steps| == |s.rows[id].definition.steps|
    ensures forall k :: 0 <= k < |s.rows[id].steps| ==>
      && s.rows[id].steps[k].step == s.rows[id].definition.steps[k]
      && (s.rows[id].steps[k].step.QuickAction? <==> s.rows[id].steps[k].action.Some?)
  {
    ReachableOk(s);
    assert RowOk(s, id) && HistoryOk(s, id);
    forall k | 0 <= k < |s.rows[id].steps|
      ensures s.rows[id].steps[k].step == s.rows[id].definition.steps[k]
      ensures s.rows[id].steps[k].step.QuickAction? <==> s.rows[id].steps[k].action.Some?
    {
      assert SameStep(s.rows[id].steps[k], s.accepted[id].steps[k]) && SnapshotTaken(s.accepted[id], k);
    }
  }

  /** The shape of the stored steps, in every reachable state, for every way a run can stand or end. */
  lemma StepShape(s: State, id: Uuid)
    requires Reachable(s) && id in s.rows && id in s.accepted
    ensures s.rows[id].Live() ==> LiveShape(s.rows[id])
    ensures s.rows[id].status.Succeeded? ==> AllSucceeded(s.rows[id])
    ensures s.rows[id].status.Failed? ==> FailedShape(s.rows[id])
    ensures s.rows[id].status.Canceled? ==> CanceledShape(s.rows[id])
    ensures s.rows[id].status.Interrupted? ==> InterruptedShape(s.rows[id])
    ensures s.rows[id].status.AwaitingConfirmation? ==> GrantOf(s.rows[id]).Some?
  {
    ReachableOk(s);
    assert RowOk(s, id) && HistoryOk(s, id);
    if s.rows[id].status.AwaitingConfirmation? {
      GrantIsNext(s.rows[id], s.accepted[id], s.journal[id]);
    }
  }

  /** The missing-snapshot and missing-row errors of the executor cannot occur. */
  lemma ErrorPathUnreachable(s: State, t: Uuid)
    requires Reachable(s) && t in s.executors
    ensures !s.executors[t].pc.ErrorRead? && !s.executors[t].pc.ErrorPersist?
  {
    ReachableOk(s);
    InvLocal(s, t);
    if Writer(s.executors[t].pc) { WriterFacts(s, t); }
  }
}
