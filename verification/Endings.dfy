/**
 How runs end: a terminal row stays as it is but for one stale write, nothing of an ended run is
 ever handed over again, and a cancellation is final.
 */
module Endings {
  import opened Model
  import opened Protocol
  import opened Invariant
  import opened ExecutorSteps
  import opened OpSteps
  import opened Ownership

  // ----- runs that are over -----

  /** The run has ended (its row may since have been pruned) and is not about to be inserted. */
  ghost predicate Over(s: State, id: Uuid) {
    && id in s.journal && (id in s.rows ==> s.rows[id].status.Terminal())
    && !(s.gate.HeldByOp? && s.gate.op.EnqueueInsert? && s.gate.op.a.id == id)
  }

  lemma EndedIsOver(s: State, id: Uuid)
    requires Inv(s) && id in s.rows && s.rows[id].status.Terminal()
    ensures Over(s, id)
  {
    assert RowOk(s, id);
    if s.gate.HeldByOp? && s.gate.op.EnqueueInsert? { assert OpOk(s, s.gate.op); }
  }

  /** What may still happen to a run that is over: its row goes, or a cancellation that had read the
      row before it ended overwrites it. */
  ghost predicate Settled(s: State, s': State, id: Uuid) {
    && Over(s', id)
    && id in s.journal && s'.journal[id] == s.journal[id]
    && (id in s'.rows ==> id in s.rows)
    && (id in s'.rows && s'.rows[id] != s.rows[id] ==>
          s.gate.HeldByOp? && s.gate.op.CancelPersist? && s.gate.op.a.id == id && s'.rows[id].status.Canceled?)
  }

  lemma ExecutorSettles(s: State, t: Uuid, env: Env, id: Uuid)
    requires VolatileOk(s) && ExecutorEnabled(s, t, env) && Local(s, t) && Over(s, id)
    ensures Settled(s, ExecutorApply(s, t, env), id)
  {
    hide Local;
    if Writer(s.executors[t].pc) { WriterRow(s, t); }
    if !s.executors[t].pc.Cleanup? { StepKeepsLocal(s, t, env); }
  }

  lemma EnqueueSettles(s: State, env: Env, id: Uuid)
    requires OpEnabled(s, env) && EnqueueOp(s.gate.op) && OpOk(s, s.gate.op) && Over(s, id)
    requires id in s.rows ==> RowOk(s, id)
    ensures Settled(s, EnqueueApply(s, s.gate.op, env), id)
  {
    EnqueueKeepsEnded(s, env, id);
  }

  /** The second write of an enqueue repeats what its insertion stored. */
  lemma EnqueueKeepsEnded(s: State, env: Env, id: Uuid)
    requires OpEnabled(s, env) && EnqueueOp(s.gate.op) && OpOk(s, s.gate.op) && Over(s, id)
    requires id in s.rows ==> RowOk(s, id)
    ensures var s' := EnqueueApply(s, s.gate.op, env);
      id in s'.rows ==> id in s.rows && s'.rows[id] == s.rows[id]
  {
    match s.gate.op
    case EnqueueSnapshot(a) => assert EnqueueApply(s, s.gate.op, env).rows == s.rows;
    case EnqueueLaunch(a) => assert EnqueueApply(s, s.gate.op, env).rows == s.rows;
    case EnqueuePersist(a) => assert EnqueueApply(s, s.gate.op, env).rows == Save(s.rows, a);
    case _ =>
  }

  lemma MissedSettles(s: State, env: Env, id: Uuid)
    requires OpEnabled(s, env) && MissedOp(s.gate.op) && OpOk(s, s.gate.op) && Over(s, id)
    ensures Settled(s, MissedApply(s, s.gate.op, env), id)
  {
  }

  lemma ConfirmSettles(s: State, env: Env, id: Uuid)
    requires OpEnabled(s, env) && ConfirmOp(s.gate.op) && OpOk(s, s.gate.op) && Over(s, id)
    ensures Settled(s, ConfirmApply(s, s.gate.op, env), id)
  {
  }

  lemma CancelSettles(s: State, id: Uuid)
    requires s.gate.HeldByOp? && CancelOp(s.gate.op) && OpOk(s, s.gate.op) && Over(s, id)
    ensures Settled(s, CancelApply(s, s.gate.op), id)
  {
  }

  lemma RecoverSettles(s: State, env: Env, id: Uuid)
    requires OpEnabled(s, env) && RecoverOp(s.gate.op) && OpOk(s, s.gate.op) && Over(s, id)
    ensures Settled(s, RecoverApply(s, s.gate.op, env), id)
  {
  }

  lemma OpSettles(s: State, env: Env, id: Uuid)
    requires OpEnabled(s, env) && OpOk(s, s.gate.op) && Over(s, id)
    requires id in s.rows ==> RowOk(s, id)
    ensures Settled(s, OpApply(s, env), id)
  {
    var op := s.gate.op;
    if EnqueueOp(op) {
      EnqueueSettles(s, env, id);
    } else if MissedOp(op) {
      MissedSettles(s, env, id);
    } else if ConfirmOp(op) {
      ConfirmSettles(s, env, id);
    } else if CancelOp(op) {
      CancelSettles(s, id);
    } else if RecoverOp(op) {
      RecoverSettles(s, env, id);
    }
  }

  /** Terminal status is absorbing under every action but one: the write of a cancellation may
      overwrite an ended row, and only with `Canceled`.  Nothing is ever granted or handed over again. */
  lemma TerminalAbsorbing(s: State, action: Action, id: Uuid)
    requires Inv(s) && Enabled(s, action) && Over(s, id)
    ensures Settled(s, Apply(s, action), id)
  {
    if id in s.rows { assert RowOk(s, id); }
    match action
    case Begin(_) =>
    case OpStep(env) => OpSettles(s, env, id);
    case ExecutorStep(t, env) =>
      InvLocal(s, t);
      ExecutorSettles(s, t, env, id);
    case ClearActivities(_) =>
    case Crash =>
  }

  /** Over whole runs: once over, always over, with the journal as it was. */
  lemma {:induction false} OverForever(s: State, actions: seq<Action>, id: Uuid)
    requires Inv(s) && Possible(s, actions) && Over(s, id)
    ensures Over(After(s, actions), id)
    ensures After(s, actions).journal[id] == s.journal[id]
    ensures id in After(s, actions).rows && id in s.rows ==>
              After(s, actions).rows[id] == s.rows[id] || After(s, actions).rows[id].status.Canceled?
    ensures id in After(s, actions).rows ==> id in s.rows
    decreases |actions|
  {
    hide Inv;
    if actions != [] {
      TerminalAbsorbing(s, actions[0], id);
      StepKeepsInv(s, actions[0]);
      OverForever(Apply(s, actions[0]), actions[1..], id);
    }
  }

  // ----- when the read and the lookup of a cancellation are one step -----

  /** No other action comes between the read and the lookup of any cancellation. */
  ghost predicate LooksUpAtOnce(s: State, actions: seq<Action>)
    requires Possible(s, actions)
    decreases |actions|
  {
    actions == [] ||
    (&& (s.gate.HeldByOp? && s.gate.op.CancelLookup? ==> actions[0].OpStep? || actions[0].Crash?)
     && LooksUpAtOnce(Apply(s, actions[0]), actions[1..]))
  }

  /** The cancellation in progress works on the row as it is stored, and is about to overwrite a
      waiting row only. */
  ghost predicate FreshCancel(s: State) {
    && (s.gate.HeldByOp? && s.gate.op.CancelLookup? ==>
          s.gate.op.a.id in s.rows && s.rows[s.gate.op.a.id] == s.gate.op.a)
    && (s.gate.HeldByOp? && s.gate.op.CancelPersist? ==>
          s.gate.op.a.id in s.rows && s.rows[s.gate.op.a.id].status.AwaitingConfirmation?)
  }

  lemma CancelStaysFresh(s: State, action: Action)
    requires Inv(s) && Enabled(s, action) && FreshCancel(s)
    requires s.gate.HeldByOp? && s.gate.op.CancelLookup? ==> action.OpStep? || action.Crash?
    ensures FreshCancel(Apply(s, action))
  {
    match action
    case Begin(_) =>
    case OpStep(env) => OpStaysFresh(s, env);
    case ExecutorStep(t, env) =>
      InvLocal(s, t);
      if !s.executors[t].pc.Cleanup? {
        StepKeepsLocal(s, t, env);
        ExecutorStaysFresh(s, ExecutorApply(s, t, env), t);
      }
    case ClearActivities(_) =>
    case Crash =>
  }

  lemma ExecutorStaysFresh(s: State, s': State, t: Uuid)
    requires t in s.executors && Moves(s, s', t) && ExecutorOk(s, t) && FreshCancel(s)
    requires !(s.gate.HeldByOp? && s.gate.op.CancelLookup?)
    ensures FreshCancel(s')
  {
    if s.gate.HeldByOp? && s.gate.op.CancelPersist? {
      UnownedKept(s, s', t, s.gate.op.a.id);
    }
  }

  predicate CancelPending(gate: Gate) {
    gate.HeldByOp? && (gate.op.CancelLookup? || gate.op.CancelPersist?)
  }

  lemma EnqueueNext(s: State, env: Env)
    requires OpEnabled(s, env) && EnqueueOp(s.gate.op)
    ensures !CancelPending(EnqueueApply(s, s.gate.op, env).gate)
  {
    match s.gate.op
    case EnqueueSnapshot(a) => assert !CancelPending(HeldByOp(SnapshotOp(a, env.snapshot)));
    case EnqueueLaunch(id) => assert EnqueueApply(s, s.gate.op, env).gate == HeldByOp(EnqueuePrune(id));
    case _ =>
  }

  lemma ConfirmNext(s: State, env: Env)
    requires OpEnabled(s, env) && ConfirmOp(s.gate.op)
    ensures !CancelPending(ConfirmApply(s, s.gate.op, env).gate)
  {
    match s.gate.op
    case ConfirmPersist(a, _, _) => assert ConfirmApply(s, s.gate.op, env).gate == HeldByOp(ConfirmLaunch(a.id));
    case ConfirmLaunch(_) => assert ConfirmApply(s, s.gate.op, env).gate == HeldByOp(Leave(Ok(None)));
    case _ =>
  }

  lemma OtherOpsNext(s: State, env: Env)
    requires OpEnabled(s, env) && !CancelOp(s.gate.op)
    ensures !CancelPending(OpApply(s, env).gate)
  {
    if EnqueueOp(s.gate.op) {
      EnqueueNext(s, env);
    } else if ConfirmOp(s.gate.op) {
      ConfirmNext(s, env);
    }
  }

  lemma OpStaysFresh(s: State, env: Env)
    requires RowsOk(s) && GateOk(s) && OpEnabled(s, env) && FreshCancel(s)
    ensures FreshCancel(OpApply(s, env))
  {
    if CancelOp(s.gate.op) {
      CancelOpStaysFresh(s);
    } else {
      OtherOpsNext(s, env);
    }
  }

  lemma CancelOpStaysFresh(s: State)
    requires RowsOk(s) && GateOk(s) && s.gate.HeldByOp? && CancelOp(s.gate.op) && FreshCancel(s)
    ensures FreshCancel(CancelApply(s, s.gate.op))
  {
    match s.gate.op
    case CancelRead(id) => if id in s.rows { assert RowOk(s, id); }
    case CancelLookup(a) =>
      assert RowOk(s, a.id) && OpOk(s, s.gate.op);
    case CancelPersist(_) =>
  }

  /** Then a terminal row is never rewritten, over whole runs: it stays as it is until it is pruned. */
  lemma {:induction false} TerminalIsFinal(s: State, actions: seq<Action>, id: Uuid)
    requires Inv(s) && FreshCancel(s) && Possible(s, actions) && LooksUpAtOnce(s, actions) && Over(s, id)
    ensures id in After(s, actions).rows ==> id in s.rows && After(s, actions).rows[id] == s.rows[id]
    decreases |actions|
  {
    hide Inv;
    if actions != [] {
      TerminalAbsorbing(s, actions[0], id);
      StepKeepsInv(s, actions[0]);
      CancelStaysFresh(s, actions[0]);
      TerminalIsFinal(Apply(s, actions[0]), actions[1..], id);
    }
  }

  lemma LookupKeepsRows(s: State, a: Activity)
    requires s.gate == HeldByOp(CancelLookup(a))
    ensures CancelApply(s, s.gate.op).rows == s.rows
    ensures a.id !in s.active || a.status.AwaitingConfirmation? ==>
              CancelApply(s, s.gate.op).gate == HeldByOp(CancelPersist(a.(status := Canceled)))
    ensures a.id in s.active && !a.status.AwaitingConfirmation? ==> CancelApply(s, s.gate.op).gate.op.Leave?
  {
  }

  /** The guard of the race: a cancellation writes over an ended row exactly when its lookup does not find the run and
      the row it read was not waiting.  A run that is looked up while it waits, or that is still registered, has a row
      that has not ended, or is left alone. */
  lemma StaleLookupExact(s: State, a: Activity)
    requires Reachable(s) && s.gate == HeldByOp(CancelLookup(a)) && a.id in s.rows
    ensures AfterLookup(s, a).CancelPersist? && s.rows[a.id].status.Terminal()
       <==> a.id !in s.active && !a.status.AwaitingConfirmation?
  {
    ReachableOk(s);
    assert RowOk(s, a.id) && OpOk(s, s.gate.op);
  }

  /** Between lookup and write executors and prunes change neither the gate nor whether the row has ended. */
  lemma WriteWaits(s: State, c: Activity, actions: seq<Action>)
    requires Inv(s) && s.gate == HeldByOp(CancelPersist(c)) && Possible(s, actions) && BesideOps(actions)
    requires c.id in After(s, actions).rows
    ensures After(s, actions).gate == s.gate && c.id in s.rows
    ensures After(s, actions).rows[c.id].status.Terminal() <==> s.rows[c.id].status.Terminal()
    ensures CancelApply(After(s, actions), CancelPersist(c)).rows[c.id] == c
  {
    hide Inv;
    OthersWait(s, actions, c.id);
  }

  /** From the lookup to the write, with executors and prunes in between: the cancellation overwrites an ended row if
      and only if its lookup did not find the run and the row it had read was not waiting. */
  lemma StaleWriteExact(s: State, a: Activity, env: Env, actions: seq<Action>)
    requires Reachable(s) && s.gate == HeldByOp(CancelLookup(a)) && OpEnabled(s, env)
    requires Possible(OpApply(s, env), actions) && BesideOps(actions) && a.id in After(OpApply(s, env), actions).rows
    ensures var s' := After(OpApply(s, env), actions);
      && (s'.gate == HeldByOp(CancelPersist(a.(status := Canceled))) && s'.rows[a.id].status.Terminal()
          <==> a.id !in s.active && !a.status.AwaitingConfirmation?)
      && (s'.gate == HeldByOp(CancelPersist(a.(status := Canceled))) ==>
            CancelApply(s', s'.gate.op).rows[a.id] == a.(status := Canceled))
  {
    var s1 := OpApply(s, env);
    ReachNext(s, OpStep(env));
    ReachableOk(s1);
    LookupKeepsRows(s, a);
    if s1.gate.op.CancelPersist? {
      WriteWaits(s1, a.(status := Canceled), actions);
      StaleLookupExact(s, a);
    } else {
      OpGateKept(s1, actions);
    }
  }

  ghost predicate Waits(s: State, s': State, id: Uuid) {
    s'.gate == s.gate && (id in s'.rows ==> id in s.rows && s'.rows[id] == s.rows[id])
  }

  lemma OtherWaits(s: State, action: Action, id: Uuid)
    requires Inv(s) && Enabled(s, action) && (action.ExecutorStep? || action.ClearActivities?)
    requires s.gate.HeldByOp? && s.gate.op.CancelPersist? && s.gate.op.a.id == id
    ensures Waits(s, Apply(s, action), id)
  {
    if action.ExecutorStep? {
      InvLocal(s, action.ticket);
      CancelPersistFinds(s);
      ExecutorWaits(s, action.ticket, action.env, id);
    }
  }

  lemma CancelPersistFinds(s: State)
    requires GateOk(s) && s.gate.HeldByOp? && s.gate.op.CancelPersist?
    ensures var id := s.gate.op.a.id;
      id in s.rows ==> s.rows[id].status.Terminal() || s.rows[id].status.AwaitingConfirmation?
  {
    assert OpOk(s, s.gate.op);
  }

  lemma {:induction false} OthersWait(s: State, actions: seq<Action>, id: Uuid)
    requires Inv(s) && Possible(s, actions) && BesideOps(actions)
    requires s.gate.HeldByOp? && s.gate.op.CancelPersist? && s.gate.op.a.id == id
    ensures Waits(s, After(s, actions), id)
    decreases |actions|
  {
    hide Inv;
    if actions != [] {
      OtherWaits(s, actions[0], id);
      StepKeepsInv(s, actions[0]);
      OthersWait(Apply(s, actions[0]), actions[1..], id);
    }
  }

  lemma ExecutorWaits(s: State, t: Uuid, env: Env, id: Uuid)
    requires VolatileOk(s) && ExecutorEnabled(s, t, env) && Local(s, t)
    requires s.gate.HeldByOp? && s.gate.op.CancelPersist?
    requires id in s.rows ==> s.rows[id].status.Terminal() || s.rows[id].status.AwaitingConfirmation?
    ensures ExecutorApply(s, t, env).gate == s.gate
    ensures ExecutorApply(s, t, env).rows.Keys == s.rows.Keys
    ensures id in s.rows ==> ExecutorApply(s, t, env).rows[id] == s.rows[id]
  {
    if !s.executors[t].pc.Cleanup? {
      StepKeepsLocal(s, t, env);
      if id in s.rows { UnownedKept(s, ExecutorApply(s, t, env), t, id); }
    }
  }
}
