/**
 What every reachable state satisfies.  The record of a live run, its journal and the program
 counter of its one executor always agree on how far the plan has been carried out.
 */
module Invariant {
  import opened Model
  import opened Protocol
  import opened Plan

  // ----- records -----

  predicate SameStep(x: StepRun, y: StepRun) {
    x.index == y.index && x.step == y.step && x.action == y.action
  }

  /** Two versions of one run: everything but statuses and confirmations agrees. */
  predicate SameRun(a: Activity, b: Activity) {
    && a.id == b.id && a.rowid == b.rowid && a.automationId == b.automationId
    && a.definition == b.definition && a.event == b.event && a.createdAt == b.createdAt
    && |a.steps| == |b.steps|
    && forall k :: 0 <= k < |a.steps| ==> SameStep(a.steps[k], b.steps[k])
  }

  predicate SnapshotTaken(a: Activity, k: nat)
    requires k < |a.steps| <= |a.definition.steps|
  {
    && a.steps[k].index == k
    && a.steps[k].step == a.definition.steps[k]
    && (a.steps[k].step.QuickAction? <==> a.steps[k].action.Some?)
    && a.steps[k].status == Queued
  }

  predicate SnapshotsTaken(a: Activity) {
    && |a.steps| <= |a.definition.steps|
    && forall k :: 0 <= k < |a.steps| ==> SnapshotTaken(a, k)
  }

  /** A record a run is launched or queued for confirmation with. */
  predicate AcceptedOk(a: Activity) {
    && |a.steps| == |a.definition.steps| && SnapshotsTaken(a)
    && a.confirmedSteps == [] && !a.runConfirmed
    && a.automationId == a.definition.id
  }

  /** Number of leading steps that have succeeded. */
  function Done(steps: seq<StepRun>): (n: nat)
    ensures n <= |steps|
    ensures forall k :: 0 <= k < n ==> steps[k].status.Succeeded?
    ensures n < |steps| ==> !steps[n].status.Succeeded?
  {
    if steps == [] || !steps[0].status.Succeeded? then 0 else 1 + Done(steps[1..])
  }

  /** Exactly the first `p` steps have succeeded and nothing after step `p` has been touched. */
  predicate Progress(r: Activity, a: Activity, p: nat) {
    && SameRun(r, a) && p <= |r.steps|
    && (forall k :: 0 <= k < p ==> r.steps[k].status.Succeeded?)
    && (forall k :: p < k < |r.steps| ==> r.steps[k].status.Queued?)
    && r.runConfirmed == r.Asks()
  }

  /** `r` and its journal stand before the hand-over of step `p`; `granted` tells whether the
      confirmation of step `p` has been given. */
  predicate At(r: Activity, a: Activity, j: seq<Entry>, p: nat, granted: bool) {
    && Progress(r, a, p)
    && (granted ==> p < |a.steps|)
    && r.confirmedSteps == DangerousBelow(a, if granted then p + 1 else p)
    && j == if granted then PlanUpTo(a, p) + GrantEntries(a, p) else PlanUpTo(a, p)
  }

  /** Between two steps. */
  predicate Idle(r: Activity, a: Activity, j: seq<Entry>) {
    var p := Done(r.steps);
    && (r.status.Queued? || r.status.Running?)
    && (p < |r.steps| ==> r.steps[p].status.Queued? || (r.steps[p].status.AwaitingConfirmation? && r.steps[p].Dangerous()))
    && At(r, a, j, p, p < |r.steps| && r.steps[p].status.AwaitingConfirmation?)
  }

  /** Waiting for the user, either before the run or before step `Done`. */
  predicate Waiting(r: Activity, a: Activity, j: seq<Entry>) {
    var p := Done(r.steps);
    && r.status.AwaitingConfirmation?
    && if r.Asks() && !r.runConfirmed then
         && SameRun(r, a) && r.confirmedSteps == [] && j == []
         && forall k :: 0 <= k < |r.steps| ==> r.steps[k].status.Queued?
       else
         && p < |r.steps| && r.steps[p].Dangerous() && r.steps[p].status.AwaitingConfirmation?
         && At(r, a, j, p, false)
  }

  /** Step `i` is marked running and has not been handed over. */
  predicate Started(r: Activity, a: Activity, j: seq<Entry>, i: nat) {
    r.status.Running? && i < |r.steps| && r.steps[i].status.Running? && At(r, a, j, i, true)
  }

  /** Step `i` has been handed over. */
  predicate HandedOver(r: Activity, a: Activity, j: seq<Entry>, i: nat) {
    && r.status.Running? && i < |r.steps| && r.steps[i].status.Running?
    && Progress(r, a, i)
    && r.confirmedSteps == DangerousBelow(a, i + 1)
    && j == PlanUpTo(a, i + 1)
  }

  /** A live record: a `Succeeded` prefix, at most one step in flight or waiting, then only `Queued`. */
  predicate LiveShape(r: Activity) {
    var p := Done(r.steps);
    && (p < |r.steps| ==> r.steps[p].status.Queued? || r.steps[p].status.Running? || r.steps[p].status.AwaitingConfirmation?)
    && forall k :: p < k < |r.steps| ==> r.steps[k].status.Queued?
  }

  predicate AllSucceeded(r: Activity) {
    forall k :: 0 <= k < |r.steps| ==> r.steps[k].status.Succeeded?
  }

  /** A `Succeeded` prefix, one `Failed` step, then only `Skipped`. */
  predicate FailedShape(r: Activity) {
    var p := Done(r.steps);
    && p < |r.steps| && r.steps[p].status.Failed?
    && forall k :: p < k < |r.steps| ==> r.steps[k].status.Skipped?
  }

  /** A canceled run keeps its last live shape, or had its remaining steps canceled, except that a step
      whose confirmation was asked for may still say so. */
  predicate CanceledShape(r: Activity) {
    var p := Done(r.steps);
    || LiveShape(r)
    || (&& p < |r.steps| && (r.steps[p].status.Canceled? || r.steps[p].status.AwaitingConfirmation?)
        && forall k :: p < k < |r.steps| ==> r.steps[k].status.Canceled?)
  }

  /** An interrupted run keeps its `Queued` steps; only the step in flight is marked. */
  predicate InterruptedShape(r: Activity) {
    var p := Done(r.steps);
    && (p < |r.steps| ==> r.steps[p].status.Queued? || r.steps[p].status.Interrupted? || r.steps[p].status.AwaitingConfirmation?)
    && forall k :: p < k < |r.steps| ==> r.steps[k].status.Queued?
  }

  predicate Linked(r: Activity, a: Activity, j: seq<Entry>) {
    SameRun(r, a) && j <= FullPlan(a)
  }

  predicate Ended(r: Activity, a: Activity, j: seq<Entry>) {
    && Linked(r, a, j) && r.status.Terminal()
    && (r.status.Succeeded? ==>
          AllSucceeded(r) && r.runConfirmed == r.Asks() && j == FullPlan(a)
          && r.confirmedSteps == DangerousBelow(a, |a.steps|))
    && (r.status.Failed? ==> FailedShape(r))
    && (r.status.Canceled? ==> CanceledShape(r))
    && (r.status.Interrupted? ==> InterruptedShape(r))
    && !r.status.Skipped?
  }

  // ----- executors -----

  /** May still write its row. */
  predicate Writer(pc: Pc) {
    !pc.LeaveGate? && !pc.LeavePermit? && !pc.Cleanup?
  }

  predicate GatePc(pc: Pc) {
    pc.Gated? || pc.GatedPersist? || pc.LeaveGate?
  }

  predicate NeedsPermit(pc: Pc) {
    pc.Loop? || pc.WaitGate? || pc.PersistRunning? || pc.PostCheck? || pc.Checked? || pc.Executing? || pc.PersistStep? || GatePc(pc)
  }

  predicate Unconfirmed(r: Activity, i: nat) {
    i == Done(r.steps) && i < |r.steps| && r.steps[i].Dangerous() && i !in r.confirmedSteps
  }

  /** Where an executor stands, against its row `r`, the accepted record `a` and the journal. */
  predicate PcOk(pc: Pc, r: Activity, a: Activity, j: seq<Entry>, canceled: bool) {
    match pc
    case Start => Idle(r, a, j) && r.status.Queued?
    case Acquire(l) => l == r && Idle(r, a, j) && r.status.Queued?
    case Loop(l, i) => l == r && Idle(r, a, j) && i <= Done(r.steps)
    case WaitGate(l, i) => l == r && Idle(r, a, j) && Unconfirmed(r, i)
    case Gated(l, i) => l == r && Idle(r, a, j) && Unconfirmed(r, i)
    case GatedPersist(l) =>
      var i := Done(r.steps);
      && !canceled && Idle(r, a, j) && Unconfirmed(r, i)
      && l == SetStep(r.(status := AwaitingConfirmation), i, AwaitingConfirmation)
    case PersistRunning(l, i) =>
      && Idle(r, a, j) && i == Done(r.steps) && i < |r.steps|
      && (r.steps[i].Dangerous() ==> i in r.confirmedSteps)
      && l == SetStep(r.(status := Running), i, Running)
    case PostCheck(l, i) => l == r && Started(r, a, j, i)
    case Checked(l, i) => l == r && Started(r, a, j, i)
    case Executing(l, i) => l == r && HandedOver(r, a, j, i)
    case PersistStep(l, i) => HandedOver(r, a, j, i) && l == SetStep(r, i, Succeeded)
    case PersistFinal(l) => Ended(l, a, j) && (r.status.Queued? || r.status.Running?)
    case ErrorRead => false
    case ErrorPersist(_) => false
    case _ => true
  }

  ghost predicate ExecutorOk(s: State, t: Uuid)
    requires t in s.executors
  {
    var e := s.executors[t];
    && e.id in s.accepted && e.id in s.journal
    && (Writer(e.pc) ==>
          && e.id in s.rows && e.id in s.active && s.active[e.id] == t
          && PcOk(e.pc, s.rows[e.id], s.accepted[e.id], s.journal[e.id], t in s.canceled))
    && (GatePc(e.pc) <==> s.gate == HeldByExecutor(t))
    && (NeedsPermit(e.pc) ==> t in s.permits)
    && (e.pc.Cleanup? ==> t !in s.permits)
  }

  // ----- rows and history -----

  ghost predicate Owned(s: State, id: Uuid) {
    && id in s.active && s.active[id] in s.executors
    && s.executors[s.active[id]].id == id && Writer(s.executors[s.active[id]].pc)
  }

  predicate Recovering(gate: Gate) {
    gate.HeldByOp? && (gate.op.RecoverRead? || gate.op.RecoverLoop?)
  }

  predicate LaunchPending(gate: Gate, id: Uuid) {
    gate.HeldByOp? && (gate.op == EnqueueLaunch(id) || gate.op == ConfirmLaunch(id))
  }

  predicate Enqueuing(gate: Gate, id: Uuid) {
    gate.HeldByOp? && (gate.op.EnqueueSnapshot? || gate.op.EnqueuePersist?) && gate.op.a.id == id
  }

  ghost predicate RowOk(s: State, id: Uuid)
    requires id in s.rows
  {
    var r := s.rows[id];
    && r.id == id && id in s.journal
    && if id in s.accepted then
         && Linked(r, s.accepted[id], s.journal[id])
         && (r.status.Terminal() ==> Ended(r, s.accepted[id], s.journal[id]))
         && (r.Live() ==> LiveShape(r))
         && (r.status.AwaitingConfirmation? ==> Waiting(r, s.accepted[id], s.journal[id]))
         && (r.status.Queued? || r.status.Running? ==>
               Owned(s, id) || LaunchPending(s.gate, id) || Recovering(s.gate))
       else
         && r.confirmedSteps == [] && !r.runConfirmed
         && (r.status.Queued? || r.status.Skipped? || r.status.Failed? || r.status.Interrupted?)
         && (r.status.Queued? ==> (Enqueuing(s.gate, id) || Recovering(s.gate)))
  }

  ghost predicate HistoryOk(s: State, id: Uuid)
    requires id in s.journal
  {
    if id in s.accepted then
      AcceptedOk(s.accepted[id]) && s.accepted[id].id == id && s.journal[id] <= FullPlan(s.accepted[id])
    else s.journal[id] == []
  }

  ghost predicate TableOk(rows: map<Uuid, Activity>) {
    && (forall x, y :: x in rows && y in rows && SameSlot(rows[x], rows[y]) ==> x == y)
    && (forall x, y :: x in rows && y in rows && rows[x].Live() && rows[y].Live()
          && rows[x].automationId == rows[y].automationId
          ==> x == y)
    && |Live(rows)| <= OUTSTANDING
  }

  ghost predicate VolatileOk(s: State) {
    && (forall id :: id in s.active ==> s.active[id] in s.executors && s.executors[s.active[id]].id == id)
    && s.permits <= s.executors.Keys && |s.permits| <= PERMITS
    && s.executors.Keys <= s.tickets && s.canceled <= s.tickets
  }

  // ----- the operation under the gate -----

  ghost predicate NoWriter(s: State, id: Uuid) {
    forall t :: t in s.executors && s.executors[t].id == id ==> !Writer(s.executors[t].pc)
  }

  /** A record an enqueue or a missed slot holds before anything can run. */
  ghost predicate Unaccepted(s: State, a: Activity) {
    && a.id in s.journal && a.id !in s.accepted
    && a.confirmedSteps == [] && !a.runConfirmed && a.automationId == a.definition.id
    && (a.id in s.rows ==> SameSlot(a, s.rows[a.id]) && (s.rows[a.id].Live() ==> s.rows[a.id].status.Queued?))
  }

  ghost predicate OpOk(s: State, op: Op) {
    match op
    case EnqueueDecide(d, _, _, busy, full) =>
      (!busy ==> !Busy(s.rows, d.id)) && (!full ==> |Live(s.rows)| < OUTSTANDING)
    case EnqueueInsert(a) =>
      && Unaccepted(s, a) && a.id !in s.rows && a.steps == []
      && (a.status.Skipped? || (a.status.Queued? && !Busy(s.rows, a.automationId) && |Live(s.rows)| < OUTSTANDING))
    case EnqueueSnapshot(a) =>
      && Unaccepted(s, a) && SnapshotsTaken(a)
      && if a.status.Queued? then a.id in s.rows && s.rows[a.id].status.Queued?
         else a.status.Skipped? && (a.id in s.rows ==> s.rows[a.id] == a)
    case EnqueuePersist(a) =>
      && Unaccepted(s, a)
      && if a.Live() then
           && AcceptedOk(a) && a.id in s.rows && s.rows[a.id].status.Queued?
           && (if a.Asks() then a.status.AwaitingConfirmation? else a.status.Queued?)
         else if a.status.Skipped? then a.id in s.rows ==> s.rows[a.id] == a
         else a.status.Failed? && a.id in s.rows && s.rows[a.id].status.Queued?
    case EnqueueLaunch(id) =>
      && id in s.rows && id in s.accepted && id in s.journal && NoWriter(s, id)
      && s.rows[id].status.Queued? && Idle(s.rows[id], s.accepted[id], s.journal[id])
    case MissedPersist(a) =>
      Unaccepted(s, a) && a.status.Skipped? && (a.id in s.rows ==> s.rows[a.id] == a)
    case ConfirmEnvironment(a) =>
      a.id in s.rows && s.rows[a.id] == a && a.id in s.accepted && a.status.AwaitingConfirmation?
    case ConfirmPersist(a, what, locked) =>
      && a.id in s.rows && s.rows[a.id].status.AwaitingConfirmation? && a.id in s.accepted
      && a == Confirmed(s.rows[a.id]) && what == GrantOf(s.rows[a.id]) && !locked
    case ConfirmLaunch(id) =>
      && id in s.rows && id in s.accepted && id in s.journal && NoWriter(s, id)
      && s.rows[id].status.Queued? && Idle(s.rows[id], s.accepted[id], s.journal[id])
    case CancelLookup(a) =>
      && a.Live() && a.id in s.accepted && SameRun(a, s.accepted[a.id]) && LiveShape(a)
      && (a.status.AwaitingConfirmation? ==> a.id in s.rows && s.rows[a.id] == a)
      && (a.id in s.rows && s.rows[a.id].status.AwaitingConfirmation? ==> s.rows[a.id] == a)
    case CancelPersist(a) =>
      && a.status.Canceled? && a.id in s.accepted && SameRun(a, s.accepted[a.id]) && LiveShape(a)
      && (a.id in s.rows ==> s.rows[a.id].status.Terminal() || s.rows[a.id].status.AwaitingConfirmation?)
    case RecoverRead => s.executors == map[] && s.active == map[]
    case RecoverLoop(todo) =>
      && s.executors == map[] && s.active == map[]
      && (forall k :: 0 <= k < |todo| ==> todo[k].id in s.rows && s.rows[todo[k].id] == todo[k] && todo[k].Live())
      && (forall k, l :: 0 <= k < l < |todo| ==> todo[k].id != todo[l].id)
      && (forall id :: id in s.rows && (s.rows[id].status.Queued? || s.rows[id].status.Running?)
            ==> exists k :: 0 <= k < |todo| && todo[k].id == id)
    case _ => true
  }

  ghost predicate GateOk(s: State) {
    match s.gate
    case Free => true
    case HeldByOp(op) => OpOk(s, op)
    case HeldByExecutor(t) => t in s.executors
  }

  ghost predicate ExecutorsOk(s: State) {
    forall t :: t in s.executors ==> ExecutorOk(s, t)
  }

  ghost predicate RowsOk(s: State) {
    forall id :: id in s.rows ==> RowOk(s, id)
  }

  ghost predicate HistoriesOk(s: State) {
    s.accepted.Keys <= s.journal.Keys && forall id :: id in s.journal ==> HistoryOk(s, id)
  }

  ghost predicate Inv(s: State) {
    && ExecutorsOk(s)
    && RowsOk(s)
    && HistoriesOk(s)
    && TableOk(s.rows)
    && VolatileOk(s)
    && GateOk(s)
  }
}
