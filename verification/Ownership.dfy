/**
 Who may touch a run: one executor at a time, undisturbed by everybody else, within the bounds the
 engine admits.
 */
module Ownership {
  import opened Model
  import opened Protocol
  import opened Invariant
  import opened ExecutorSteps
  import opened OpSteps

  // ----- exclusivity -----

  /** At most one executor per run is between its first read and its last write, and the entry in
      `active` is its own. */
  lemma OneWriter(s: State, t: Uuid, u: Uuid)
    requires Reachable(s) && t in s.executors && u in s.executors
    requires s.executors[t].id == s.executors[u].id
    requires Writer(s.executors[t].pc) && Writer(s.executors[u].pc)
    ensures t == u && s.executors[t].id in s.active && s.active[s.executors[t].id] == t
  {
    ReachableOk(s);
    assert ExecutorOk(s, t) && ExecutorOk(s, u);
  }

  /** What belongs to the run of executor `t`. */
  ghost predicate Undisturbed(s: State, s': State, t: Uuid)
    requires t in s.executors
  {
    var id := s.executors[t].id;
    && t in s'.executors && s'.executors[t] == s.executors[t]
    && (t in s.canceled ==> t in s'.canceled)
    && (id in s.rows ==> id in s'.rows && s'.rows[id] == s.rows[id])
    && (id in s.journal ==> id in s'.journal && s'.journal[id] == s.journal[id])
    && (id in s.active ==> id in s'.active && s'.active[id] == s.active[id])
    && (id in s.accepted ==> id in s'.accepted && s'.accepted[id] == s.accepted[id])
  }

  lemma ExecutorLeavesOthers(s: State, t: Uuid, u: Uuid, env: Env)
    requires VolatileOk(s) && t in s.executors && Writer(s.executors[t].pc) && Local(s, t)
    requires ExecutorEnabled(s, u, env) && u != t && Local(s, u)
    ensures Undisturbed(s, ExecutorApply(s, u, env), t)
  {
    assert ExecutorOk(s, t) && ExecutorOk(s, u);
    if !s.executors[u].pc.Cleanup? {
      StepKeepsLocal(s, u, env);
    }
  }

  /** A row with a writing executor is live, accepted, and neither waiting nor new. */
  lemma WriterRow(s: State, t: Uuid)
    requires t in s.executors && Writer(s.executors[t].pc) && Local(s, t)
    ensures var id := s.executors[t].id;
      id in s.rows && id in s.accepted && (s.rows[id].status.Queued? || s.rows[id].status.Running?)
  {
    hide Local;
    WriterFacts(s, t);
  }

  lemma EnqueueLeavesRun(s: State, t: Uuid, env: Env)
    requires VolatileOk(s) && t in s.executors && Writer(s.executors[t].pc) && Local(s, t)
    requires OpEnabled(s, env) && EnqueueOp(s.gate.op) && OpOk(s, s.gate.op)
    ensures Undisturbed(s, EnqueueApply(s, s.gate.op, env), t)
  {
    hide Local;
    WriterRow(s, t);
  }

  lemma ConfirmLeavesRun(s: State, t: Uuid, env: Env)
    requires VolatileOk(s) && t in s.executors && Writer(s.executors[t].pc) && Local(s, t)
    requires OpEnabled(s, env) && ConfirmOp(s.gate.op) && OpOk(s, s.gate.op)
    ensures Undisturbed(s, ConfirmApply(s, s.gate.op, env), t)
  {
    hide Local;
    WriterRow(s, t);
  }

  lemma CancelLeavesRun(s: State, t: Uuid, env: Env)
    requires VolatileOk(s) && t in s.executors && Writer(s.executors[t].pc) && Local(s, t)
    requires OpEnabled(s, env) && CancelOp(s.gate.op) && OpOk(s, s.gate.op)
    ensures Undisturbed(s, CancelApply(s, s.gate.op), t)
  {
    hide Local;
    WriterRow(s, t);
  }

  lemma MissedLeavesRun(s: State, t: Uuid, env: Env)
    requires VolatileOk(s) && t in s.executors && Writer(s.executors[t].pc) && Local(s, t)
    requires OpEnabled(s, env) && MissedOp(s.gate.op) && OpOk(s, s.gate.op)
    ensures Undisturbed(s, MissedApply(s, s.gate.op, env), t)
  {
    hide Local;
    WriterRow(s, t);
  }

  lemma OpLeavesRun(s: State, t: Uuid, env: Env)
    requires VolatileOk(s) && t in s.executors && Writer(s.executors[t].pc) && Local(s, t)
    requires OpEnabled(s, env) && OpOk(s, s.gate.op)
    ensures Undisturbed(s, OpApply(s, env), t)
  {
    hide Local;
    var op := s.gate.op;
    if EnqueueOp(op) {
      EnqueueLeavesRun(s, t, env);
    } else if ConfirmOp(op) {
      ConfirmLeavesRun(s, t, env);
    } else if CancelOp(op) {
      CancelLeavesRun(s, t, env);
    } else if MissedOp(op) {
      MissedLeavesRun(s, t, env);
    }
  }

  predicate OwnStep(action: Action, t: Uuid) {
    action.ExecutorStep? && action.ticket == t
  }

  lemma WriterLeftAlone(s: State, action: Action, t: Uuid)
    requires Inv(s) && Enabled(s, action) && t in s.executors && Writer(s.executors[t].pc)
    requires !OwnStep(action, t) && !action.Crash?
    ensures Undisturbed(s, Apply(s, action), t)
  {
    InvLocal(s, t);
    match action
    case Begin(_) =>
    case OpStep(env) => OpLeavesRun(s, t, env);
    case ExecutorStep(u, env) =>
      InvLocal(s, u);
      ExecutorLeavesOthers(s, t, u, env);
    case ClearActivities(_) => WriterRow(s, t);
  }

  /** While an executor may still write its row, no action but its own steps, and no crash, touches
      the row, the journal, the executor or its entry in `active`; a cancellation can only set its token. */
  lemma WriterUndisturbed(s: State, action: Action, t: Uuid)
    requires Reachable(s) && Enabled(s, action) && t in s.executors && Writer(s.executors[t].pc)
    requires !OwnStep(action, t) && !action.Crash?
    ensures Undisturbed(s, Apply(s, action), t)
  {
    ReachableOk(s);
    WriterLeftAlone(s, action, t);
  }

  // ----- permits and launches -----

  /** An operation touches no permit, and an executor it adds stands at its start. */
  ghost predicate OnlyLaunches(s: State, s': State) {
    && s'.permits == s.permits && s.tickets <= s'.tickets
    && forall t :: t in s'.executors && t !in s.executors ==> s'.executors[t].pc.Start? && t !in s.tickets
  }

  lemma EnqueueOnlyLaunches(s: State, env: Env)
    requires OpEnabled(s, env) && EnqueueOp(s.gate.op)
    ensures OnlyLaunches(s, EnqueueApply(s, s.gate.op, env))
  {
    match s.gate.op
    case EnqueueLaunch(id) =>
    case EnqueueRead(_, _, _) =>
    case EnqueueDecide(_, _, _, _, _) =>
    case EnqueueInsert(_) =>
    case EnqueueLookup(_) =>
    case EnqueueSnapshot(_) =>
    case EnqueuePersist(_) =>
    case EnqueuePrune(_) =>
  }

  lemma ConfirmOnlyLaunches(s: State, env: Env)
    requires OpEnabled(s, env) && ConfirmOp(s.gate.op)
    ensures OnlyLaunches(s, ConfirmApply(s, s.gate.op, env))
  {
  }

  lemma CancelKeepsExecutors(s: State)
    requires s.gate.HeldByOp? && CancelOp(s.gate.op)
    ensures CancelApply(s, s.gate.op).executors == s.executors && CancelApply(s, s.gate.op).permits == s.permits
    ensures CancelApply(s, s.gate.op).tickets == s.tickets
  {
    match s.gate.op
    case CancelRead(_) =>
    case CancelLookup(_) =>
    case CancelPersist(_) =>
  }

  lemma RecoverKeepsExecutors(s: State, env: Env)
    requires s.gate.HeldByOp? && RecoverOp(s.gate.op)
    ensures RecoverApply(s, s.gate.op, env).executors == s.executors && RecoverApply(s, s.gate.op, env).permits == s.permits
    ensures RecoverApply(s, s.gate.op, env).tickets == s.tickets
  {
    match s.gate.op
    case RecoverRead =>
    case RecoverLoop(_) =>
  }

  lemma OtherOpsKeepExecutors(s: State, env: Env)
    requires OpEnabled(s, env) && !EnqueueOp(s.gate.op) && !ConfirmOp(s.gate.op)
    ensures OpApply(s, env).executors == s.executors && OpApply(s, env).permits == s.permits
    ensures OpApply(s, env).tickets == s.tickets
  {
    if CancelOp(s.gate.op) {
      CancelKeepsExecutors(s);
    } else if RecoverOp(s.gate.op) {
      RecoverKeepsExecutors(s, env);
    } else if MissedOp(s.gate.op) {
      assert MissedApply(s, s.gate.op, env) ==
             s.(rows := MissedApply(s, s.gate.op, env).rows, journal := MissedApply(s, s.gate.op, env).journal,
                gate := MissedApply(s, s.gate.op, env).gate);
    }
  }

  lemma OpOnlyLaunches(s: State, env: Env)
    requires OpEnabled(s, env)
    ensures OnlyLaunches(s, OpApply(s, env))
  {
    if EnqueueOp(s.gate.op) {
      EnqueueOnlyLaunches(s, env);
    } else if ConfirmOp(s.gate.op) {
      ConfirmOnlyLaunches(s, env);
    } else {
      OtherOpsKeepExecutors(s, env);
    }
  }

  lemma OtherPermits(s: State, u: Uuid, env: Env, t: Uuid)
    requires Inv(s) && ExecutorEnabled(s, u, env) && u != t
    ensures t in ExecutorApply(s, u, env).permits <==> t in s.permits
  {
    hide Inv;
    if !s.executors[u].pc.Cleanup? {
      InvLocal(s, u);
      StepKeepsLocal(s, u, env);
    }
  }

  lemma PermitsKept(s: State, action: Action, t: Uuid)
    requires Inv(s) && Enabled(s, action) && !OwnStep(action, t) && !action.Crash?
    ensures t in Apply(s, action).permits <==> t in s.permits
  {
    hide Inv;
    match action
    case OpStep(env) => OpOnlyLaunches(s, env);
    case ExecutorStep(u, env) => OtherPermits(s, u, env, t);
    case _ =>
  }

  lemma ExecutorKept(s: State, action: Action, t: Uuid)
    requires Inv(s) && Enabled(s, action) && t in s.executors && !OwnStep(action, t) && !action.Crash?
    ensures t in Apply(s, action).executors && Apply(s, action).executors[t] == s.executors[t]
  {
    match action
    case OpStep(env) => OpKeeps(s, env, t);
    case ExecutorStep(u, env) => OtherExecutorKeeps(s, u, env, t);
    case _ =>
  }

  /** An executor that was not there before stands at its start. */
  lemma NewExecutor(s: State, action: Action, t: Uuid)
    requires Inv(s) && Enabled(s, action) && t !in s.executors && t in Apply(s, action).executors
    ensures Apply(s, action).executors[t].pc.Start? && t !in Apply(s, action).permits && t !in s.tickets
  {
    assert t !in s.permits;
    hide Inv, Local, OpApply, ExecutorApply;
    match action
    case OpStep(env) => OpOnlyLaunches(s, env);
    case ExecutorStep(u, env) =>
      InvLocal(s, u);
      NoNewExecutor(s, u, env);
    case _ =>
  }

  lemma NoNewExecutor(s: State, u: Uuid, env: Env)
    requires VolatileOk(s) && ExecutorEnabled(s, u, env) && Local(s, u)
    ensures ExecutorApply(s, u, env).executors.Keys <= s.executors.Keys
  {
    hide Local;
    if !s.executors[u].pc.Cleanup? { StepKeepsLocal(s, u, env); }
  }

  // ----- bounds -----

  /** At most one live row per automation, 128 live rows in all, one row per automation and event,
      and 16 permits; every executor between its acquisition and its last write holds one. */
  lemma Admission(s: State)
    requires Reachable(s)
    ensures forall x, y :: x in s.rows && y in s.rows && s.rows[x].Live() && s.rows[y].Live() && x != y
              ==> s.rows[x].automationId != s.rows[y].automationId
    ensures |Live(s.rows)| <= 128
    ensures forall x, y :: x in s.rows && y in s.rows && SameSlot(s.rows[x], s.rows[y]) ==> x == y
    ensures |s.permits| <= 16 && s.permits <= s.executors.Keys
    ensures forall t :: t in s.executors && NeedsPermit(s.executors[t].pc) ==> t in s.permits
  {
    ReachableOk(s);
    forall t | t in s.executors && NeedsPermit(s.executors[t].pc) ensures t in s.permits {
      assert ExecutorOk(s, t);
    }
  }

  // ----- duplicates -----

  /** The duplicate is answered with the stored id exactly when that row is among the automation's
      100 newest; otherwise with an id under which no row is stored. */
  lemma DuplicateIdExact(s: State, a: Activity, id: Uuid)
    requires Reachable(s) && id in s.rows && SameSlot(s.rows[id], a) && a.id !in s.rows
    ensures DuplicateId(s.rows, a) == id <==> |Ahead(s.rows, id)| < 100
    ensures |Ahead(s.rows, id)| >= 100 ==> DuplicateId(s.rows, a) == a.id
  {
    ReachableOk(s);
    forall o | FoundBy(s.rows, a, o) ensures o == id {
      assert SameSlot(s.rows[o], s.rows[id]);
    }
    if |Ahead(s.rows, id)| < 100 {
      assert FoundBy(s.rows, a, id);
    }
  }
}
