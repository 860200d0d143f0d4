/**
 Which events run: what an enqueue accepts, from its first step to its end with executors and prunes acting in between.
 */
module Enqueues {
  import opened Model
  import opened Protocol
  import opened Invariant
  import opened ExecutorSteps
  import opened OpSteps
  import opened Slots
  import opened Confirmations

  /** What the outside world decides of an enqueue: whether cooldown or conditions suppress it, and whether every quick
      action can be snapshotted. */
  datatype Verdict = Verdict(suppressed: bool, snapshots: bool)

  ghost predicate Meets(v: Verdict, s: State, actions: seq<Action>)
    requires Possible(s, actions)
    decreases |actions|
  {
    actions == [] ||
    (&& !actions[0].Begin? && !actions[0].Crash?
     && (actions[0].OpStep? && s.gate.HeldByOp? ==> Given(v, s.gate.op, actions[0].env))
     && Meets(v, Apply(s, actions[0]), actions[1..]))
  }

  predicate Given(v: Verdict, op: Op, env: Env) {
    match op
    case EnqueueDecide(_, _, _, _, _) => env.suppressed == v.suppressed
    case EnqueueSnapshot(a) =>
      v.snapshots && |a.steps| < |a.definition.steps| && a.definition.steps[|a.steps|].QuickAction? ==> env.snapshot.Some?
    case _ => true
  }

  /** The event is no automation's own, the automation has no live run, fewer than 128 runs are live, and the call is
      manual or not suppressed. */
  ghost predicate Admissible(rows: map<Uuid, Activity>, d: Definition, e: Event, manual: bool, suppressed: bool) {
    && e.origin.None?
    && (forall id :: id in rows && rows[id].Live() ==> rows[id].automationId != d.id)
    && |Live(rows)| < 128
    && (manual || !suppressed)
  }

  // ----- only these are accepted -----

  /** Past its read, the enqueue will queue its record if and only if it is to be admitted. */
  predicate Admits(op: Op, d: Definition, e: Event, manual: bool, suppressed: bool, admitted: bool) {
    match op
    case EnqueueDecide(d', e', m, busy, full) =>
      && d' == d && e' == e && m == manual
      && (admitted <==> e.origin.None? && !busy && !full && (manual || !suppressed))
    case EnqueueInsert(a) => a.definition == d && a.event == e && (a.Live() <==> admitted)
    case EnqueueSnapshot(a) => a.definition == d && a.event == e && (a.Live() <==> admitted)
    case EnqueuePersist(a) => a.definition == d && a.event == e && (a.Live() ==> admitted)
    case EnqueueLookup(_) => true
    case EnqueueLaunch(_) => true
    case EnqueuePrune(_) => true
    case Leave(_) => true
    case _ => false
  }

  lemma ReadAdmits(s: State, env: Env, suppressed: bool)
    requires OpEnabled(s, env) && s.gate.op.EnqueueRead?
    ensures var op := s.gate.op; var s' := EnqueueApply(s, op, env);
      var admitted := Admissible(s.rows, op.definition, op.event, op.manual, suppressed);
      s'.gate.HeldByOp? && Admits(s'.gate.op, op.definition, op.event, op.manual, suppressed, admitted)
  {
  }

  lemma TurnAdmits(s: State, env: Env, d: Definition, e: Event, manual: bool, suppressed: bool, admitted: bool)
    requires OpEnabled(s, env) && EnqueueOp(s.gate.op) && Admits(s.gate.op, d, e, manual, suppressed, admitted)
    requires s.gate.op.EnqueueDecide? ==> env.suppressed == suppressed
    ensures var s' := EnqueueApply(s, s.gate.op, env);
      s'.gate.HeldByOp? && Admits(s'.gate.op, d, e, manual, suppressed, admitted)
  {
    match s.gate.op
    case EnqueueSnapshot(a) => SnapshotAdmits(a, env.snapshot, d, e, manual, suppressed, admitted);
    case EnqueueInsert(_) =>
    case EnqueueDecide(_, _, _, _, _) =>
    case _ => NextIsFree(s, env);
  }

  /** What follows the last write of an enqueue carries no record. */
  lemma NextIsFree(s: State, env: Env)
    requires OpEnabled(s, env)
    requires var op := s.gate.op; op.EnqueueLookup? || op.EnqueuePersist? || op.EnqueueLaunch? || op.EnqueuePrune?
    ensures var s' := EnqueueApply(s, s.gate.op, env);
      s'.gate.HeldByOp? && (s'.gate.op.EnqueueLaunch? || s'.gate.op.EnqueuePrune? || s'.gate.op.Leave?)
  {
    match s.gate.op
    case EnqueueLookup(_) =>
    case EnqueuePersist(_) =>
    case EnqueueLaunch(_) =>
    case EnqueuePrune(_) =>
  }

  lemma SnapshotAdmits(a: Activity, snapshot: Option<Snapshot>, d: Definition, e: Event, manual: bool, suppressed: bool,
                       admitted: bool)
    requires Admits(EnqueueSnapshot(a), d, e, manual, suppressed, admitted)
    ensures Admits(SnapshotOp(a, snapshot), d, e, manual, suppressed, admitted)
  {
  }

  /** A record is newly accepted by an enqueue that has admitted it. */
  lemma AcceptsAdmitted(s: State, action: Action, d: Definition, e: Event, manual: bool, suppressed: bool, admitted: bool,
                        x: Uuid)
    requires Reachable(s) && Enabled(s, action) && x !in s.accepted && x in Apply(s, action).accepted
    requires s.gate.HeldByOp? ==> Admits(s.gate.op, d, e, manual, suppressed, admitted)
    ensures admitted
  {
    AcceptsAt(s, action, x);
    match action
    case OpStep(env) => PersistAccepts(s, env, x);
  }

  lemma AcceptsAt(s: State, action: Action, x: Uuid)
    requires Reachable(s) && Enabled(s, action) && x !in s.accepted && x in Apply(s, action).accepted
    ensures s.gate.HeldByOp? && s.gate.op.EnqueuePersist? && action.OpStep?
  {
    hide Inv, Local, ExecutorApply, OpApply;
    ReachableOk(s);
    NewlyAccepted(s, action, x);
    if action.ExecutorStep? {
      InvLocal(s, action.ticket);
      ExecutorAcceptsNothing(s, action.ticket, action.env);
    }
  }

  lemma PersistAccepts(s: State, env: Env, x: Uuid)
    requires OpEnabled(s, env) && s.gate.op.EnqueuePersist?
    requires x !in s.accepted && x in EnqueueApply(s, s.gate.op, env).accepted
    ensures s.gate.op.a.Live()
  {
  }

  /** Nothing but its own steps moves the enqueue on. */
  lemma StepAdmits(v: Verdict, s: State, actions: seq<Action>, d: Definition, e: Event, manual: bool, admitted: bool)
    requires Reachable(s) && Possible(s, actions) && Meets(v, s, actions) && actions != []
    requires s.gate.HeldByOp? ==> Admits(s.gate.op, d, e, manual, v.suppressed, admitted)
    ensures var s' := Apply(s, actions[0]);
      Reachable(s') && (s'.gate.HeldByOp? ==> Admits(s'.gate.op, d, e, manual, v.suppressed, admitted))
  {
    ReachNext(s, actions[0]);
    match actions[0]
    case OpStep(env) => if EnqueueOp(s.gate.op) { TurnAdmits(s, env, d, e, manual, v.suppressed, admitted); }
    case ExecutorStep(t, env) =>
      ReachableOk(s);
      ExecutorKeepsGate(s, t, env);
    case ClearActivities(_) =>
  }

  lemma {:induction false} AdmittedRun(
      v: Verdict, s: State, actions: seq<Action>, d: Definition, e: Event, manual: bool, admitted: bool, x: Uuid)
    requires Reachable(s) && Possible(s, actions) && Meets(v, s, actions)
    requires s.gate.HeldByOp? ==> Admits(s.gate.op, d, e, manual, v.suppressed, admitted)
    requires x !in s.accepted && x in After(s, actions).accepted
    ensures admitted
    decreases |actions|
  {
    if x in Apply(s, actions[0]).accepted {
      AcceptsAdmitted(s, actions[0], d, e, manual, v.suppressed, admitted, x);
    } else {
      StepAdmits(v, s, actions, d, e, manual, admitted);
      AdmittedRun(v, Apply(s, actions[0]), actions[1..], d, e, manual, admitted, x);
    }
  }

  /** Over a whole enqueue: a record is accepted only if the event is no automation's own and, as the rows are read, no
      run of the automation is live and fewer than 128 are, and the call is manual or not suppressed. */
  lemma {:induction false} OnlyAdmissible(
      v: Verdict, s: State, actions: seq<Action>, d: Definition, e: Event, manual: bool, x: Uuid)
    requires Reachable(s) && s.gate == HeldByOp(EnqueueRead(d, e, manual)) && Possible(s, actions) && Meets(v, s, actions)
    requires x !in s.accepted && x in After(s, actions).accepted
    ensures Admissible(AtFirst(s, actions).rows, d, e, manual, v.suppressed)
    decreases |actions|
  {
    var s1, rest := Apply(s, actions[0]), actions[1..];
    NothingAcceptedYet(s, actions[0]);
    if actions[0].OpStep? {
      ReachNext(s, actions[0]);
      ReadAdmits(s, actions[0].env, v.suppressed);
      AdmittedRun(v, s1, rest, d, e, manual, Admissible(s.rows, d, e, manual, v.suppressed), x);
    } else {
      StepBeside(s, actions[0], x);
      OnlyAdmissible(v, s1, rest, d, e, manual, x);
    }
  }

  lemma NothingAcceptedYet(s: State, action: Action)
    requires Reachable(s) && Enabled(s, action) && !(s.gate.HeldByOp? && s.gate.op.EnqueuePersist?)
    ensures Apply(s, action).accepted.Keys <= s.accepted.Keys
  {
    ReachableOk(s);
    forall x | x in Apply(s, action).accepted ensures x in s.accepted {
      if x !in s.accepted { NewlyAccepted(s, action, x); }
    }
  }

  // ----- all these are accepted -----

  /** No row of the automation's event is stored. */
  ghost predicate NewEvent(rows: map<Uuid, Activity>, d: Definition, e: Event) {
    forall id :: !Stored(rows, d, e, id)
  }

  function FirstStatus(d: Definition): Status {
    if d.runMode.AskBeforeRun? then AwaitingConfirmation else Queued
  }

  /** Accepted since `s0`, for this definition and event. */
  ghost predicate AcceptedSince(s0: State, s: State, d: Definition, e: Event, x: Uuid) {
    && x !in s0.accepted && x in s.accepted
    && s.accepted[x].definition == d && s.accepted[x].event == e && s.accepted[x].status == FirstStatus(d)
  }

  /** The accepted run waits as it was accepted if it asks; else whoever is registered for it has a fresh ticket. */
  ghost predicate Placed(s0: State, s: State, d: Definition, e: Event, x: Uuid) {
    && AcceptedSince(s0, s, d, e, x)
    && if d.runMode.AskBeforeRun? then Waits(s, x) && s.rows[x] == s.accepted[x]
       else !Waits(s, x) && (x in s.active ==> s.active[x] !in s0.tickets)
  }

  /** Where an enqueue stands, past its read in state `s0`, that is to end with its record accepted. */
  ghost predicate Going(v: Verdict, s0: State, s: State, d: Definition, e: Event)
    requires s.gate.HeldByOp?
  {
    match s.gate.op
    case EnqueueDecide(d', e', manual, busy, full) =>
      && s.accepted == s0.accepted && s.tickets == s0.tickets && NewEvent(s.rows, d, e)
      && d' == d && e' == e && e.origin.None? && !busy && !full && (manual || !v.suppressed)
    case EnqueueInsert(a) =>
      && s.accepted == s0.accepted && s.tickets == s0.tickets && NewEvent(s.rows, d, e)
      && a.definition == d && a.automationId == d.id && a.event == e && a.status.Queued? && a.id !in s0.accepted
    case EnqueueSnapshot(a) =>
      && s.accepted == s0.accepted && s.tickets == s0.tickets
      && a.definition == d && a.event == e && a.status.Queued? && a.id !in s0.accepted
    case EnqueuePersist(a) =>
      && s.accepted == s0.accepted && s.tickets == s0.tickets
      && a.definition == d && a.event == e && a.status == FirstStatus(d) && a.id !in s0.accepted
    case EnqueueLaunch(x) => AcceptedSince(s0, s, d, e, x) && d.runMode.Automatic? && s.tickets == s0.tickets
    case EnqueuePrune(x) => Placed(s0, s, d, e, x)
    case Leave(o) => o.Ok? && o.value.Some? && Placed(s0, s, d, e, o.value.value)
    case _ => false
  }

  lemma TurnGoesEarly(v: Verdict, s0: State, s: State, env: Env, d: Definition, e: Event)
    requires OpEnabled(s, env) && OpOk(s, s.gate.op) && Going(v, s0, s, d, e) && Given(v, s.gate.op, env) && v.snapshots
    requires s0.accepted.Keys <= s0.journal.Keys && (s.gate.op.EnqueueDecide? ==> s.accepted.Keys <= s.journal.Keys)
    requires var op := s.gate.op; op.EnqueueDecide? || op.EnqueueInsert? || op.EnqueueSnapshot?
    ensures var s' := EnqueueApply(s, s.gate.op, env); s'.gate.HeldByOp? && Going(v, s0, s', d, e)
  {
    match s.gate.op
    case EnqueueDecide(_, _, _, _, _) =>
    case EnqueueInsert(a) =>
      forall id | id in s.rows ensures !SameSlot(s.rows[id], a) {
        assert !Stored(s.rows, d, e, id);
      }
    case EnqueueSnapshot(a) =>
  }

  lemma TurnGoesLate(v: Verdict, s0: State, s: State, env: Env, d: Definition, e: Event)
    requires OpEnabled(s, env) && OpOk(s, s.gate.op) && Going(v, s0, s, d, e)
    requires var op := s.gate.op; op.EnqueuePersist? || op.EnqueueLaunch? || op.EnqueuePrune?
    requires s.gate.op.EnqueuePersist? ==> s.gate.op.a.id !in s.active
    ensures var s' := EnqueueApply(s, s.gate.op, env); s'.gate.HeldByOp? && Going(v, s0, s', d, e)
  {
    match s.gate.op
    case EnqueuePersist(a) =>
    case EnqueueLaunch(x) =>
    case EnqueuePrune(x) =>
  }

  /** The run an enqueue has placed, if it is that far. */
  predicate IsPlaced(op: Op, x: Uuid) {
    op == EnqueuePrune(x) || op == Leave(Ok(Some(x)))
  }

  lemma BesideKeepsGoing(v: Verdict, s0: State, s: State, s': State, d: Definition, e: Event)
    requires s.gate.HeldByOp? && s'.gate == s.gate && Going(v, s0, s, d, e) && NothingAdded(s, s')
    requires forall x :: IsPlaced(s.gate.op, x) ==> LeavesWaits(s, s', x)
    requires forall id :: id in s'.rows ==> SameSlot(s.rows[id], s'.rows[id])
    ensures Going(v, s0, s', d, e)
  {
    if NewEvent(s.rows, d, e) {
      forall id ensures !Stored(s'.rows, d, e, id) {
        assert !Stored(s.rows, d, e, id);
      }
    }
    match s.gate.op
    case EnqueuePrune(x) => assert IsPlaced(s.gate.op, x);
    case Leave(o) => if o.Ok? && o.value.Some? { assert IsPlaced(s.gate.op, o.value.value); }
    case _ =>
  }

  lemma BesideAddsNothing(s: State, action: Action)
    requires Reachable(s) && s.gate.HeldByOp? && Enabled(s, action) && (action.ExecutorStep? || action.ClearActivities?)
    ensures NothingAdded(s, Apply(s, action))
    ensures forall id :: id in Apply(s, action).rows ==> SameSlot(s.rows[id], Apply(s, action).rows[id])
  {
    ReachableOk(s);
    if action.ExecutorStep? { ExecutorAddsNothing(s, action.ticket, action.env); }
    forall id | id in Apply(s, action).rows ensures SameSlot(s.rows[id], Apply(s, action).rows[id]) {
      StepKeepsSlot(s, action, id);
    }
  }

  lemma StepGoesBeside(v: Verdict, s0: State, s: State, action: Action, d: Definition, e: Event)
    requires Reachable(s) && s.gate.HeldByOp? && Going(v, s0, s, d, e)
    requires Enabled(s, action) && (action.ExecutorStep? || action.ClearActivities?)
    ensures var s' := Apply(s, action); Reachable(s') && s'.gate == s.gate && Going(v, s0, s', d, e)
  {
    StepBeside(s, action, Uuid(0));
    BesideAddsNothing(s, action);
    forall x | IsPlaced(s.gate.op, x) ensures LeavesWaits(s, Apply(s, action), x) {
      StepBeside(s, action, x);
    }
    BesideKeepsGoing(v, s0, s, Apply(s, action), d, e);
  }

  lemma StepGoes(v: Verdict, s0: State, s: State, env: Env, d: Definition, e: Event)
    requires Reachable(s0) && Reachable(s) && OpEnabled(s, env) && Going(v, s0, s, d, e) && !s.gate.op.Leave?
    requires Given(v, s.gate.op, env) && v.snapshots
    ensures var s' := OpApply(s, env); Reachable(s') && s'.gate.HeldByOp? && Going(v, s0, s', d, e)
  {
    ReachNext(s, OpStep(env));
    GoingFacts(s);
    GoingFacts(s0);
    if s.gate.op.EnqueueDecide? || s.gate.op.EnqueueInsert? || s.gate.op.EnqueueSnapshot? {
      TurnGoesEarly(v, s0, s, env, d, e);
    } else {
      TurnGoesLate(v, s0, s, env, d, e);
    }
  }

  /** The run of a record that is not accepted yet is not registered. */
  lemma GoingFacts(s: State)
    requires Reachable(s)
    ensures s.accepted.Keys <= s.journal.Keys && (s.gate.HeldByOp? ==> OpOk(s, s.gate.op))
    ensures s.gate.HeldByOp? && s.gate.op.EnqueuePersist? ==> s.gate.op.a.id !in s.active
  {
    ReachableOk(s);
    if s.gate.HeldByOp? && s.gate.op.EnqueuePersist? {
      assert OpOk(s, s.gate.op);
      forall t | t in s.executors ensures s.executors[t].id != s.gate.op.a.id {
        assert ExecutorOk(s, t);
      }
    }
  }

  lemma {:induction false} GoingRun(
      v: Verdict, s0: State, s: State, actions: seq<Action>, d: Definition, e: Event, outcome: Result<Option<Uuid>>)
    requires Reachable(s0) && Reachable(s) && s.gate.HeldByOp? && Going(v, s0, s, d, e) && v.snapshots
    requires Possible(s, actions) && Meets(v, s, actions) && After(s, actions).gate == HeldByOp(Leave(outcome))
    ensures Going(v, s0, After(s, actions), d, e)
    decreases |actions|
  {
    hide Going, Reachable, Given;
    if actions != [] {
      if !actions[0].OpStep? {
        StepGoesBeside(v, s0, s, actions[0], d, e);
      } else if s.gate.op.Leave? {
        MeetsOne(v, s, actions);
        LeavesOnce(s, actions);
      } else {
        StepGoes(v, s0, s, actions[0].env, d, e);
      }
      GoingRun(v, s0, Apply(s, actions[0]), actions[1..], d, e, outcome);
    }
  }

  lemma {:induction false} MeetsOne(v: Verdict, s: State, actions: seq<Action>)
    requires Possible(s, actions) && Meets(v, s, actions)
    ensures OneOperation(actions)
    decreases |actions|
  {
    if actions != [] {
      MeetsOne(v, Apply(s, actions[0]), actions[1..]);
      assert forall k :: 0 < k < |actions| ==> actions[k] == actions[1..][k - 1];
    }
  }

  /** The read that begins an enqueue to be admitted. */
  lemma ReadGoes(v: Verdict, s: State, env: Env)
    requires OpEnabled(s, env) && s.gate.op.EnqueueRead?
    requires var op := s.gate.op;
      Admissible(s.rows, op.definition, op.event, op.manual, v.suppressed) && NewEvent(s.rows, op.definition, op.event)
    ensures var s' := EnqueueApply(s, s.gate.op, env);
      s'.gate.HeldByOp? && Going(v, s, s', s.gate.op.definition, s.gate.op.event)
  {
  }

  /** A placed run that does not ask is in the hands of the executor registered for it, or has ended. */
  lemma PlacedIsOwned(s: State, x: Uuid)
    requires Reachable(s) && s.gate.HeldByOp? && s.gate.op.Leave? && x in s.accepted && !Waits(s, x)
    ensures x in s.rows && s.rows[x].Live() ==> Owned(s, x)
  {
    ReachableOk(s);
    if x in s.rows { assert RowOk(s, x); }
  }

  /** The converse over a whole enqueue: under these conditions as the rows are read, with an event not on record and
      every quick action snapshotted, it ends with a newly accepted record of this definition and event, and answers with
      its identifier.  If the definition asks, the run waits as it was accepted; else it is in the hands of an executor
      with a fresh ticket, or has ended. */
  lemma {:induction false} AdmissibleRuns(
      v: Verdict, s: State, actions: seq<Action>, d: Definition, e: Event, manual: bool, outcome: Result<Option<Uuid>>)
    requires Reachable(s) && s.gate == HeldByOp(EnqueueRead(d, e, manual)) && Possible(s, actions) && Meets(v, s, actions)
    requires After(s, actions).gate == HeldByOp(Leave(outcome)) && v.snapshots
    requires var rows := AtFirst(s, actions).rows; Admissible(rows, d, e, manual, v.suppressed) && NewEvent(rows, d, e)
    ensures var s' := After(s, actions);
      && outcome.Ok? && outcome.value.Some?
      && var x := outcome.value.value;
         && AcceptedSince(s, s', d, e, x)
         && if d.runMode.AskBeforeRun? then x in s'.rows && s'.rows[x] == s'.accepted[x]
            else x in s'.rows && s'.rows[x].Live() ==> Owned(s', x) && s'.active[x] !in s.tickets
    decreases |actions|
  {
    var s1, rest := Apply(s, actions[0]), actions[1..];
    if actions[0].OpStep? {
      ReachNext(s, actions[0]);
      ReadGoes(v, s, actions[0].env);
      GoingRun(v, s, s1, rest, d, e, outcome);
      RunStaysReachable(s, actions);
      if d.runMode.Automatic? { PlacedIsOwned(After(s, actions), outcome.value.value); }
    } else {
      StepBeside(s, actions[0], Uuid(0));
      BesideAddsNothing(s, actions[0]);
      AdmissibleRuns(v, s1, rest, d, e, manual, outcome);
    }
  }

  lemma {:induction false} RunStaysReachable(s: State, actions: seq<Action>)
    requires Reachable(s) && Possible(s, actions)
    ensures Reachable(After(s, actions))
    decreases |actions|
  {
    if actions != [] {
      ReachNext(s, actions[0]);
      RunStaysReachable(Apply(s, actions[0]), actions[1..]);
    }
  }
}
