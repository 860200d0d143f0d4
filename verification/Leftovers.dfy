/**
 What a run leaves of its steps when it ends, and when a late cancellation overwrites it: exactly when a
 `Queued` step is stored, and exactly when a step is stored as waiting for confirmation.
 */
module Leftovers {
  import opened Model
  import opened Protocol
  import opened Invariant
  import opened ExecutorSteps
  import opened OpSteps
  import opened Endings
  import opened Outcomes

  predicate HasQueued(r: Activity) {
    exists k :: 0 <= k < |r.steps| && r.steps[k].status.Queued?
  }

  /** The two versions agree on which steps wait for confirmation. */
  predicate SameWaits(x: Activity, y: Activity) {
    |x.steps| == |y.steps| &&
    forall k :: 0 <= k < |x.steps| ==> (x.steps[k].status.AwaitingConfirmation? <==> y.steps[k].status.AwaitingConfirmation?)
  }

  /** The last version `l` of a run, against its stored row `r`.  With a permit the closing loop has run; without one
      the run was canceled before its loop and all steps are as they were. */
  predicate LastOk(l: Activity, r: Activity, permitted: bool) {
    && SameWaits(l, r) && WaitsConfirmed(r)
    && (if permitted then !HasQueued(l) else l.steps == r.steps)
  }

  /** A cancellation about to end a waiting row has that row as it is stored. */
  ghost predicate CancelOk(s: State) {
    s.gate.HeldByOp? && s.gate.op.CancelPersist? ==>
      var a := s.gate.op.a;
      a.id in s.rows && s.rows[a.id].status.AwaitingConfirmation? ==> a == s.rows[a.id].(status := Canceled)
  }

  // ----- the closing loop -----

  lemma FinishCloses(a: Activity)
    ensures !HasQueued(Finish(a)) && SameWaits(Finish(a), a)
  {
  }

  /** The last write of an executor closes the steps if it has a permit. */
  lemma ConcludesLast(r: Activity, l: Activity, look: Look, permit: bool)
    requires Concludes(r, l, look, permit) && WaitsConfirmed(r)
    ensures LastOk(l, r, permit)
  {
  }

  // ----- cancellations -----

  lemma CancelStaysOk(s: State, action: Action)
    requires Inv(s) && Enabled(s, action) && CancelOk(s)
    ensures CancelOk(Apply(s, action))
  {
    hide Inv;
    match action
    case OpStep(env) => CancelStepOk(s, env);
    case ExecutorStep(t, env) =>
      if s.gate.HeldByOp? && s.gate.op.CancelPersist? {
        OtherWaits(s, action, s.gate.op.a.id);
      } else {
        NoCancelFromExecutor(s, t, env);
      }
    case ClearActivities(_) =>
      if s.gate.HeldByOp? && s.gate.op.CancelPersist? { OtherWaits(s, action, s.gate.op.a.id); }
    case _ =>
  }

  lemma CancelTurnOk(s: State)
    requires GateOk(s) && s.gate.HeldByOp? && CancelOp(s.gate.op)
    ensures CancelOk(CancelApply(s, s.gate.op))
  {
    assert OpOk(s, s.gate.op);
  }

  lemma CancelStepOk(s: State, env: Env)
    requires Inv(s) && OpEnabled(s, env)
    ensures CancelOk(OpApply(s, env))
  {
    if CancelOp(s.gate.op) {
      CancelTurnOk(s);
    } else {
      OtherOpsNext(s, env);
    }
  }

  lemma NoCancelFromExecutor(s: State, t: Uuid, env: Env)
    requires Inv(s) && ExecutorEnabled(s, t, env) && !(s.gate.HeldByOp? && s.gate.op.CancelPersist?)
    ensures CancelOk(ExecutorApply(s, t, env))
  {
    if !s.executors[t].pc.Cleanup? {
      InvLocal(s, t);
      StepKeepsLocal(s, t, env);
    }
  }

  // ----- every reachable state -----

  lemma {:induction false} RunKeepsCancelOk(s: State, actions: seq<Action>)
    requires Inv(s) && CancelOk(s) && Possible(s, actions)
    ensures CancelOk(After(s, actions))
    decreases |actions|
  {
    hide Inv;
    if actions != [] {
      CancelStaysOk(s, actions[0]);
      StepKeepsInv(s, actions[0]);
      RunKeepsCancelOk(Apply(s, actions[0]), actions[1..]);
    }
  }

  lemma ReachableCancelOk(s: State)
    requires Reachable(s)
    ensures CancelOk(s)
  {
    var actions :| Possible(INITIAL, actions) && After(INITIAL, actions) == s;
    InitialOk();
    RunKeepsCancelOk(INITIAL, actions);
  }

  // ----- what remains -----

  /** The action ends the run: its live row is stored as an ended one. */
  ghost predicate Ends(s: State, action: Action, id: Uuid)
    requires Enabled(s, action)
  {
    var s' := Apply(s, action);
    && id in s.rows && id in s.accepted && s.rows[id].Live()
    && id in s'.rows && s'.rows[id].status.Terminal()
  }

  /** The action stores a changed, ended version of the row of an accepted run. */
  ghost predicate StoresEnded(s: State, action: Action, id: Uuid)
    requires Enabled(s, action)
  {
    var s' := Apply(s, action);
    && id in s.rows && id in s.accepted && id in s'.rows
    && s'.rows[id] != s.rows[id] && s'.rows[id].status.Terminal()
  }

  /** The action is the write of a cancellation of the run. */
  predicate CancelWrites(s: State, action: Action, id: Uuid) {
    action.OpStep? && s.gate.HeldByOp? && s.gate.op.CancelPersist? && s.gate.op.a.id == id
  }

  /** The other writers that leave the steps alone: a recovery, and an executor that was canceled before it had a
      permit. */
  ghost predicate LeavesSteps(s: State, action: Action) {
    match action
    case OpStep(_) => s.gate.HeldByOp? && s.gate.op.RecoverLoop?
    case ExecutorStep(t, _) => t !in s.permits
    case _ => false
  }

  /** The row is as it was, or gone. */
  ghost predicate RowKept(s: State, s': State, id: Uuid)
    requires id in s.rows
  {
    id in s'.rows ==> s'.rows[id] == s.rows[id]
  }

  lemma EnqueueKeepsRow(s: State, env: Env, id: Uuid)
    requires OpEnabled(s, env) && EnqueueOp(s.gate.op) && OpOk(s, s.gate.op) && id in s.rows && id in s.accepted
    ensures RowKept(s, EnqueueApply(s, s.gate.op, env), id)
  {
    match s.gate.op
    case EnqueueLaunch(_) =>
    case EnqueueRead(_, _, _) =>
    case EnqueueDecide(_, _, _, _, _) =>
    case EnqueueInsert(_) =>
    case EnqueueLookup(_) =>
    case EnqueueSnapshot(_) =>
    case EnqueuePersist(_) =>
    case EnqueuePrune(_) =>
  }

  lemma MissedKeepsRow(s: State, env: Env, id: Uuid)
    requires OpEnabled(s, env) && MissedOp(s.gate.op) && OpOk(s, s.gate.op) && id in s.rows && id in s.accepted
    requires env.uuid !in s.journal ==> env.uuid !in s.rows
    ensures RowKept(s, MissedApply(s, s.gate.op, env), id)
  {
  }

  lemma ConfirmEndsNothing(s: State, env: Env, id: Uuid)
    requires OpEnabled(s, env) && ConfirmOp(s.gate.op) && OpOk(s, s.gate.op) && id in s.rows
    ensures RowKept(s, ConfirmApply(s, s.gate.op, env), id) || ConfirmApply(s, s.gate.op, env).rows[id].Live()
  {
  }

  lemma CancelEnds(s: State, id: Uuid)
    requires s.gate.HeldByOp? && CancelOp(s.gate.op) && OpOk(s, s.gate.op) && CancelOk(s) && id in s.rows && s.rows[id].Live()
    ensures RowKept(s, CancelApply(s, s.gate.op), id) || (s.gate.op.CancelPersist? && s.gate.op.a.id == id)
    ensures id in CancelApply(s, s.gate.op).rows && CancelApply(s, s.gate.op).rows[id].steps == s.rows[id].steps
  {
  }

  lemma RecoverEnds(s: State, env: Env, id: Uuid)
    requires OpEnabled(s, env) && RecoverOp(s.gate.op) && OpOk(s, s.gate.op) && id in s.rows
    ensures RowKept(s, RecoverApply(s, s.gate.op, env), id) || s.gate.op.RecoverLoop?
    ensures var r' := RecoverApply(s, s.gate.op, env).rows[id]; r' == s.rows[id] || r' == Interrupt(s.rows[id])
  {
  }

  lemma InterruptLeaves(r: Activity)
    ensures HasQueued(Interrupt(r)) <==> HasQueued(r)
    ensures SameWaits(Interrupt(r), r)
  {
    assert forall k :: 0 <= k < |r.steps| ==> Interrupt(r).steps[k] == InterruptStep(r.steps[k]);
  }

  lemma EndedByOp(s: State, env: Env, id: Uuid)
    requires Inv(s) && CancelOk(s) && OpEnabled(s, env) && Ends(s, OpStep(env), id)
    ensures CancelWrites(s, OpStep(env), id) || LeavesSteps(s, OpStep(env))
    ensures HasQueued(OpApply(s, env).rows[id]) <==> HasQueued(s.rows[id])
    ensures SameWaits(OpApply(s, env).rows[id], s.rows[id])
  {
    assert OpOk(s, s.gate.op);
    if EnqueueOp(s.gate.op) {
      EnqueueKeepsRow(s, env, id);
    } else if MissedOp(s.gate.op) {
      UnusedIsNew(s, env.uuid);
      MissedKeepsRow(s, env, id);
    } else if ConfirmOp(s.gate.op) {
      ConfirmEndsNothing(s, env, id);
    } else if CancelOp(s.gate.op) {
      CancelEnds(s, id);
    } else if RecoverOp(s.gate.op) {
      RecoverEnds(s, env, id);
      InterruptLeaves(s.rows[id]);
    }
  }

  /** Which executor step stores an ended row. */
  lemma ExecutorEnds(s: State, t: Uuid, env: Env, id: Uuid)
    requires ExecutorEnabled(s, t, env) && Local(s, t) && Ends(s, ExecutorStep(t, env), id)
    ensures s.executors[t].pc.PersistFinal? && s.executors[t].id == id
    ensures ExecutorApply(s, t, env).rows[id] == s.executors[t].pc.a
  {
    hide Local;
    if Writer(s.executors[t].pc) { WriterFacts(s, t); }
    match s.executors[t].pc
    case PersistFinal(l) =>
    case GatedPersist(l) =>
    case PersistRunning(l, _) =>
    case PersistStep(l, _) =>
    case _ =>
  }

  lemma ExecutorEndsLast(s: State, t: Uuid, env: Env, id: Uuid)
    requires Reachable(s) && ExecutorEnabled(s, t, env) && Ends(s, ExecutorStep(t, env), id)
    ensures LastOk(ExecutorApply(s, t, env).rows[id], s.rows[id], t in s.permits)
  {
    var look := ReachableTrack(s, t);
    ReachableOk(s);
    InvLocal(s, t);
    ExecutorEnds(s, t, env, id);
    ConcludesLast(s.rows[id], s.executors[t].pc.a, look, t in s.permits);
  }

  /** What the write of a cancellation stores is the row it holds. */
  lemma CancelStores(s: State, action: Action, id: Uuid)
    requires RowsOk(s) && GateOk(s) && Enabled(s, action) && StoresEnded(s, action, id) && CancelWrites(s, action, id)
    ensures Apply(s, action).rows[id] == s.gate.op.a && |s.gate.op.a.steps| == |s.rows[id].steps|
  {
    assert OpOk(s, s.gate.op) && RowOk(s, id);
  }

  /** Only the write of a cancellation changes a row that has ended. */
  lemma OthersEnd(s: State, action: Action, id: Uuid)
    requires Inv(s) && Enabled(s, action) && StoresEnded(s, action, id) && !CancelWrites(s, action, id)
    ensures Ends(s, action, id)
  {
    hide Inv;
    if s.rows[id].status.Terminal() {
      EndedIsOver(s, id);
      TerminalAbsorbing(s, action, id);
      OnlyCancelRewrites(s, action, id);
    }
  }

  /** A step of anybody else beside the write of a cancellation stores no other row as ended. */
  lemma OnlyCancelRewrites(s: State, action: Action, id: Uuid)
    requires Inv(s) && Enabled(s, action) && Over(s, id) && Settled(s, Apply(s, action), id) && !CancelWrites(s, action, id)
    ensures id in s.rows && id in Apply(s, action).rows ==> Apply(s, action).rows[id] == s.rows[id]
  {
    if s.gate.HeldByOp? && s.gate.op.CancelPersist? && s.gate.op.a.id == id && (action.ExecutorStep? || action.ClearActivities?) {
      OtherWaits(s, action, id);
    }
  }

  /** Exactly when the stored row of an ended run has a `Queued` step, for every action that ends a run or rewrites one
      that has ended.  A cancellation stores the steps it holds.  Any other writer leaves a `Queued` step if and only if
      one was there and it leaves the steps alone; the loop that closes the remaining steps runs only in an executor
      with a permit. */
  lemma QueuedRemains(s: State, action: Action, id: Uuid)
    requires Reachable(s) && Enabled(s, action) && StoresEnded(s, action, id)
    ensures HasQueued(Apply(s, action).rows[id]) <==>
            if CancelWrites(s, action, id) then HasQueued(s.gate.op.a) else HasQueued(s.rows[id]) && LeavesSteps(s, action)
    ensures CancelWrites(s, action, id) && s.rows[id].Live() ==> s.gate.op.a.steps == s.rows[id].steps
  {
    ReachableOk(s);
    ReachableCancelOk(s);
    if CancelWrites(s, action, id) {
      CancelStores(s, action, id);
      CancelHoldsLive(s, id);
    } else {
      OthersEnd(s, action, id);
      match action
      case OpStep(env) => EndedByOp(s, env, id);
      case ExecutorStep(t, env) => ExecutorEndsLast(s, t, env, id);
      case _ =>
    }
  }

  lemma CancelHoldsLive(s: State, id: Uuid)
    requires GateOk(s) && CancelOk(s) && s.gate.HeldByOp? && s.gate.op.CancelPersist? && s.gate.op.a.id == id
    ensures id in s.rows && s.rows[id].Live() ==> s.gate.op.a.steps == s.rows[id].steps
  {
    assert OpOk(s, s.gate.op);
  }

  /** Exactly when a step of the stored row of an ended run waits for confirmation, for the same actions.  A cancellation
      stores the steps it holds; any other writer leaves a step waiting if and only if it did.  In a run ended by its
      executor such a step has been confirmed, and nothing starts it any more. */
  lemma WaitingRemains(s: State, action: Action, id: Uuid, k: nat)
    requires Reachable(s) && Enabled(s, action) && StoresEnded(s, action, id) && k < |s.rows[id].steps|
    ensures |Apply(s, action).rows[id].steps| == |s.rows[id].steps|
    ensures CancelWrites(s, action, id) ==> |s.gate.op.a.steps| == |s.rows[id].steps|
    ensures Apply(s, action).rows[id].steps[k].status.AwaitingConfirmation? <==>
            (if CancelWrites(s, action, id) then s.gate.op.a.steps[k] else s.rows[id].steps[k]).status.AwaitingConfirmation?
    ensures action.ExecutorStep? ==>
              (Apply(s, action).rows[id].steps[k].status.AwaitingConfirmation? <==>
               s.rows[id].steps[k].status.AwaitingConfirmation? && k in s.rows[id].confirmedSteps)
  {
    ReachableOk(s);
    ReachableCancelOk(s);
    if CancelWrites(s, action, id) {
      CancelStores(s, action, id);
    } else {
      OthersEnd(s, action, id);
      match action
      case OpStep(env) => EndedByOp(s, env, id);
      case ExecutorStep(t, env) => ExecutorEndsLast(s, t, env, id);
      case _ =>
    }
  }

  // ----- what a cancellation holds -----

  /** The cancellation holds the row `r` it has read. */
  predicate Holds(gate: Gate, r: Activity) {
    gate.HeldByOp? ==>
      match gate.op
      case CancelLookup(a) => a == r
      case CancelPersist(a) => a == r.(status := Canceled)
      case Leave(_) => true
      case _ => false
  }

  lemma OpHolds(s: State, env: Env, r: Activity)
    requires OpEnabled(s, env) && Holds(s.gate, r)
    ensures Holds(OpApply(s, env).gate, r)
  {
    match s.gate.op
    case CancelLookup(a) => assert OpApply(s, env).gate == HeldByOp(AfterLookup(s, a));
    case CancelPersist(_) =>
    case Leave(_) =>
  }

  lemma StepHolds(s: State, action: Action, r: Activity)
    requires Inv(s) && Enabled(s, action) && !action.Begin? && !action.Crash? && Holds(s.gate, r)
    ensures Holds(Apply(s, action).gate, r)
  {
    hide Inv;
    match action
    case OpStep(env) => OpHolds(s, env, r);
    case ExecutorStep(t, env) => ExecutorKeepsGate(s, t, env);
    case _ =>
  }

  lemma {:induction false} RunHolds(s: State, actions: seq<Action>, r: Activity)
    requires Reachable(s) && Possible(s, actions) && OneOperation(actions) && Holds(s.gate, r)
    ensures Holds(After(s, actions).gate, r)
    decreases |actions|
  {
    hide Inv;
    if actions != [] {
      OneOperationNext(actions);
      ReachableOk(s);
      StepHolds(s, actions[0], r);
      ReachNext(s, actions[0]);
      RunHolds(Apply(s, actions[0]), actions[1..], r);
    }
  }

  lemma ReadHolds(s: State, id: Uuid, env: Env)
    requires OpEnabled(s, env) && s.gate == HeldByOp(CancelRead(id)) && id in s.rows && s.rows[id].Live()
    ensures OpApply(s, env).gate == HeldByOp(CancelLookup(s.rows[id]))
  {
  }

  lemma WriteStores(s: State, env: Env, r: Activity)
    requires OpEnabled(s, env) && s.gate.op.CancelPersist? && Holds(s.gate, r) && r.id in s.rows
    ensures OpApply(s, env).rows[r.id] == r.(status := Canceled)
  {
  }

  /** A cancellation that writes stores the row exactly as it had read it, but `Canceled`, whatever executors and prunes
      have done since: the steps it read come back. */
  lemma WrittenAsRead(s: State, id: Uuid, env: Env, actions: seq<Action>, env': Env)
    requires Reachable(s) && s.gate == HeldByOp(CancelRead(id)) && OpEnabled(s, env) && id in s.rows && s.rows[id].Live()
    requires Possible(OpApply(s, env), actions) && OneOperation(actions)
    requires var s' := After(OpApply(s, env), actions);
      s'.gate.HeldByOp? && s'.gate.op.CancelPersist? && OpEnabled(s', env') && id in s'.rows
    ensures OpApply(After(OpApply(s, env), actions), env').rows[id] == s.rows[id].(status := Canceled)
  {
    KeyedById(s);
    ReachNext(s, OpStep(env));
    ReadHolds(s, id, env);
    RunHolds(OpApply(s, env), actions, s.rows[id]);
    WriteStores(After(OpApply(s, env), actions), env', s.rows[id]);
  }
}
