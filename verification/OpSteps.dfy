/**
 Every step of an operation under the gate, a prune and a crash keep the invariant.
 */
module OpSteps {
  import opened Model
  import opened Protocol
  import opened Plan
  import opened Invariant
  import opened Records
  import opened ExecutorSteps

  // ----- framing -----

  /** Rows the gate's holder answers for in `s` are still answered for in `s'`. */
  ghost predicate GateHandsOn(s: State, s': State, k: Uuid)
    requires k in s.rows
  {
    && (LaunchPending(s.gate, k) ==> LaunchPending(s'.gate, k))
    && (Enqueuing(s.gate, k) ==> Enqueuing(s'.gate, k))
    && (Recovering(s.gate) ==> Recovering(s'.gate) || !(s.rows[k].status.Queued? || s.rows[k].status.Running?))
  }

  /** An operation writes the row, the journal and the accepted record of `id` only. */
  ghost predicate OpMoves(s: State, s': State, id: Uuid) {
    && s'.executors == s.executors && s'.active == s.active && s'.permits == s.permits && s'.tickets == s.tickets
    && s'.canceled == s.canceled
    && !s.gate.HeldByExecutor? && !s'.gate.HeldByExecutor?
    && (forall k :: k != id ==> (k in s.rows <==> k in s'.rows) && (k in s.rows ==> s'.rows[k] == s.rows[k] && GateHandsOn(s, s', k)))
    && (forall k :: k != id ==> (k in s.journal <==> k in s'.journal) && (k in s.journal ==> s'.journal[k] == s.journal[k]))
    && (forall k :: k != id ==> (k in s.accepted <==> k in s'.accepted) && (k in s.accepted ==> s'.accepted[k] == s.accepted[k]))
    && (id in s.accepted ==> id in s'.accepted) && (id in s.journal ==> id in s'.journal)
    && (id in s'.accepted ==> id in s'.journal)
  }

  lemma OpExecutorsKept(s: State, s': State, id: Uuid)
    requires ExecutorsOk(s) && OpMoves(s, s', id) && NoWriter(s, id)
    ensures ExecutorsOk(s')
  {
    forall t | t in s'.executors ensures ExecutorOk(s', t) {
      assert ExecutorOk(s, t);
    }
  }

  lemma OpRowsKept(s: State, s': State, id: Uuid)
    requires RowsOk(s) && OpMoves(s, s', id)
    requires id in s'.rows ==> RowOk(s', id)
    ensures RowsOk(s')
  {
    forall k | k in s'.rows ensures RowOk(s', k) {
      if k != id { assert RowOk(s, k) && GateHandsOn(s, s', k); }
    }
  }

  lemma OpHistoryKept(s: State, s': State, id: Uuid)
    requires HistoriesOk(s) && OpMoves(s, s', id)
    requires id in s'.journal ==> HistoryOk(s', id)
    ensures HistoriesOk(s')
  {
    forall k | k in s'.journal ensures HistoryOk(s', k) {
      if k != id { assert HistoryOk(s, k); }
    }
  }

  lemma OpMovesKeepInv(s: State, s': State, id: Uuid)
    requires Inv(s) && OpMoves(s, s', id) && NoWriter(s, id)
    requires id in s'.rows ==> RowOk(s', id)
    requires id in s'.journal ==> HistoryOk(s', id)
    requires TableOk(s'.rows) && GateOk(s')
    ensures Inv(s')
  {
    OpExecutorsKept(s, s', id);
    OpRowsKept(s, s', id);
    OpHistoryKept(s, s', id);
  }

  /** Only the gate's program counter moves. */
  lemma GateTurnKeepsInv(s: State, gate: Gate)
    requires Inv(s) && !s.gate.HeldByExecutor? && !gate.HeldByExecutor?
    requires GateOk(s.(gate := gate))
    requires forall k :: k in s.rows ==> GateHandsOn(s, s.(gate := gate), k)
    ensures Inv(s.(gate := gate))
  {
    var s' := s.(gate := gate);
    assert ExecutorsOk(s') by {
      forall t | t in s'.executors ensures ExecutorOk(s', t) { assert ExecutorOk(s, t); }
    }
    assert RowsOk(s') by {
      forall k | k in s'.rows ensures RowOk(s', k) { assert RowOk(s, k) && GateHandsOn(s, s', k); }
    }
    assert HistoriesOk(s') by {
      forall k | k in s'.journal ensures HistoryOk(s', k) { assert HistoryOk(s, k); }
    }
  }

  /** A row nobody writes: it has ended, waits, or has not been accepted. */
  lemma NobodyWrites(s: State, id: Uuid)
    requires ExecutorsOk(s)
    requires id !in s.accepted || id !in s.rows || s.rows[id].status.Terminal() || s.rows[id].status.AwaitingConfirmation?
    ensures NoWriter(s, id)
  {
    forall t | t in s.executors && s.executors[t].id == id ensures !Writer(s.executors[t].pc) {
      assert ExecutorOk(s, t);
    }
  }

  lemma LiveGrows(rows: map<Uuid, Activity>, a: Activity)
    requires a.id !in rows
    requires |Live(rows)| <= OUTSTANDING && (a.Live() ==> |Live(rows)| < OUTSTANDING)
    ensures |Live(rows[a.id := a])| <= OUTSTANDING
  {
    if a.Live() {
      assert Live(rows[a.id := a]) == Live(rows) + {a.id};
    } else {
      assert Live(rows[a.id := a]) == Live(rows);
    }
  }

  lemma TableGrows(rows: map<Uuid, Activity>, a: Activity)
    requires TableOk(rows) && a.id !in rows
    requires forall k :: k in rows ==> !SameSlot(rows[k], a)
    requires a.Live() ==> !Busy(rows, a.automationId) && |Live(rows)| < OUTSTANDING
    ensures TableOk(rows[a.id := a])
  {
    LiveGrows(rows, a);
  }

  /** The part of the state an operation on run `id` relies on. */
  ghost predicate OpLocal(s: State, id: Uuid) {
    && (id in s.rows ==> RowOk(s, id)) && (id in s.journal ==> HistoryOk(s, id))
    && (id in s.accepted ==> id in s.journal) && (id in s.rows ==> id in s.journal)
    && TableOk(s.rows) && GateOk(s) && NoWriter(s, id)
  }

  ghost predicate OpGood(s: State, s': State, id: Uuid) {
    && OpMoves(s, s', id)
    && (id in s'.rows ==> RowOk(s', id)) && (id in s'.journal ==> HistoryOk(s', id))
    && TableOk(s'.rows) && GateOk(s')
  }

  lemma InvOpLocal(s: State, id: Uuid)
    requires Inv(s) && NoWriter(s, id)
    ensures OpLocal(s, id)
  {
    if id in s.rows { assert RowOk(s, id); }
    if id in s.journal { assert HistoryOk(s, id); }
  }

  lemma OpGoodKeepsInv(s: State, s': State, id: Uuid)
    requires Inv(s) && NoWriter(s, id) && OpGood(s, s', id)
    ensures Inv(s')
  {
    OpMovesKeepInv(s, s', id);
  }

  /** What an operation relies on does not mention the gate itself. */
  lemma OpOkGate(s: State, gate: Gate, op: Op)
    requires OpOk(s, op)
    ensures OpOk(s.(gate := gate), op)
  {
  }

  // ----- steps that only move the program counter -----

  lemma SnapshotOpOk(s: State, a: Activity, snapshot: Option<Snapshot>)
    requires OpOk(s, EnqueueSnapshot(a))
    ensures OpOk(s, SnapshotOp(a, snapshot))
    ensures Enqueuing(HeldByOp(SnapshotOp(a, snapshot)), a.id)
  {
    var op := SnapshotOp(a, snapshot);
    if op.EnqueueSnapshot? {
      assert forall k :: 0 <= k < |a.steps| ==> SnapshotTaken(a, k);
      assert SnapshotTaken(op.a, |a.steps|);
      forall k | 0 <= k < |op.a.steps| ensures SnapshotTaken(op.a, k) {
        if k < |a.steps| { assert op.a.steps[k] == a.steps[k] && SnapshotTaken(a, k); }
      }
    } else if a.Live() && op.a.Live() {
      forall k | 0 <= k < |op.a.steps| ensures SnapshotTaken(op.a, k) {
        assert SnapshotTaken(a, k);
      }
    }
  }

  /** A row found live under the gate by a user operation has been accepted. */
  lemma FoundIsAccepted(s: State, id: Uuid)
    requires id in s.rows && RowsOk(s) && s.rows[id].Live()
    requires !Recovering(s.gate) && !Enqueuing(s.gate, id)
    ensures s.rows[id].id == id && id in s.accepted && SameRun(s.rows[id], s.accepted[id]) && LiveShape(s.rows[id])
  {
    assert RowOk(s, id);
  }

  /** The next program counter is one whose assumptions already hold. */
  lemma TurnKeeps(s: State, op: Op)
    requires Inv(s) && s.gate.HeldByOp? && OpOk(s, op)
    requires forall k :: k in s.rows ==> GateHandsOn(s, ToOp(s, op), k)
    ensures Inv(ToOp(s, op))
  {
    hide Inv;
    OpOkGate(s, HeldByOp(op), op);
    GateTurnKeepsInv(s, HeldByOp(op));
  }

  /** Operations that answer for a row. */
  predicate Owner(op: Op) {
    op.EnqueueSnapshot? || op.EnqueuePersist? || op.EnqueueLaunch? || op.ConfirmLaunch? || RecoverOp(op)
  }

  lemma TurnFreely(s: State, op: Op)
    requires Inv(s) && s.gate.HeldByOp? && !Owner(s.gate.op) && OpOk(s, op)
    ensures Inv(ToOp(s, op))
  {
    hide Inv;
    TurnKeeps(s, op);
  }

  lemma EnqueueReadKeeps(s: State, env: Env)
    requires Inv(s) && OpEnabled(s, env) && s.gate.op.EnqueueRead?
    ensures Inv(EnqueueApply(s, s.gate.op, env))
  {
    hide Inv;
    var op := s.gate.op;
    TurnFreely(s, EnqueueDecide(op.definition, op.event, op.manual, Busy(s.rows, op.definition.id), |Live(s.rows)| >= OUTSTANDING));
  }

  lemma EnqueueLookupKeeps(s: State, env: Env)
    requires Inv(s) && OpEnabled(s, env) && s.gate.op.EnqueueLookup?
    ensures Inv(EnqueueApply(s, s.gate.op, env))
  {
    hide Inv;
    TurnFreely(s, Leave(Ok(Some(DuplicateId(s.rows, s.gate.op.a)))));
  }

  lemma EnqueueSnapshotKeeps(s: State, env: Env)
    requires Inv(s) && OpEnabled(s, env) && s.gate.op.EnqueueSnapshot?
    ensures Inv(EnqueueApply(s, s.gate.op, env))
  {
    SnapshotOpOk(s, s.gate.op.a, env.snapshot);
    TurnKeeps(s, SnapshotOp(s.gate.op.a, env.snapshot));
  }

  lemma ConfirmReadOk(s: State, env: Env)
    requires RowsOk(s) && OpEnabled(s, env) && s.gate.op.ConfirmRead?
    ensures ConfirmApply(s, s.gate.op, env).gate.HeldByOp?
    ensures ConfirmApply(s, s.gate.op, env) == ToOp(s, ConfirmApply(s, s.gate.op, env).gate.op)
    ensures OpOk(s, ConfirmApply(s, s.gate.op, env).gate.op)
  {
    var id := s.gate.op.id;
    if id in s.rows && s.rows[id].status.AwaitingConfirmation? { FoundIsAccepted(s, id); }
  }

  lemma ConfirmReadKeeps(s: State, env: Env)
    requires Inv(s) && OpEnabled(s, env) && s.gate.op.ConfirmRead?
    ensures Inv(ConfirmApply(s, s.gate.op, env))
  {
    ConfirmReadOk(s, env);
    TurnFreely(s, ConfirmApply(s, s.gate.op, env).gate.op);
  }

  lemma ConfirmPersistOk(s: State)
    requires GateOk(s) && s.gate.HeldByOp? && s.gate.op.ConfirmEnvironment?
    ensures var a := s.gate.op.a; OpOk(s, ConfirmPersist(Confirmed(a), GrantOf(a), false))
  {
    var a := s.gate.op.a;
    assert OpOk(s, s.gate.op);
    assert Confirmed(a).id == a.id;
  }

  lemma ConfirmLockedKeeps(s: State, env: Env)
    requires Inv(s) && OpEnabled(s, env) && s.gate.op.ConfirmEnvironment? && env.locked
    ensures Inv(ConfirmApply(s, s.gate.op, env))
  {
    hide Inv;
    TurnFreely(s, Leave(Err(Invalid)));
  }

  lemma ConfirmUnlockedKeeps(s: State, env: Env)
    requires Inv(s) && OpEnabled(s, env) && s.gate.op.ConfirmEnvironment? && !env.locked
    ensures Inv(ConfirmApply(s, s.gate.op, env))
  {
    var a := s.gate.op.a;
    ConfirmPersistOk(s);
    TurnFreely(s, ConfirmPersist(Confirmed(a), GrantOf(a), false));
  }

  lemma CancelReadOk(s: State)
    requires RowsOk(s) && s.gate.HeldByOp? && s.gate.op.CancelRead?
    ensures CancelApply(s, s.gate.op).gate.HeldByOp?
    ensures CancelApply(s, s.gate.op) == ToOp(s, CancelApply(s, s.gate.op).gate.op)
    ensures OpOk(s, CancelApply(s, s.gate.op).gate.op)
  {
    var id := s.gate.op.id;
    if id in s.rows && s.rows[id].Live() { FoundIsAccepted(s, id); }
  }

  lemma CancelReadKeeps(s: State)
    requires Inv(s) && s.gate.HeldByOp? && s.gate.op.CancelRead?
    ensures Inv(CancelApply(s, s.gate.op))
  {
    CancelReadOk(s);
    TurnFreely(s, CancelApply(s, s.gate.op).gate.op);
  }

  lemma RecoverReadOk(s: State, todo: seq<Activity>)
    requires GateOk(s) && s.gate.HeldByOp? && s.gate.op.RecoverRead? && ListsLive(s.rows, todo)
    ensures OpOk(s, RecoverLoop(todo))
  {
    assert OpOk(s, s.gate.op);
  }

  lemma RecoverReadKeeps(s: State, env: Env)
    requires Inv(s) && OpEnabled(s, env) && s.gate.op.RecoverRead?
    ensures Inv(RecoverApply(s, s.gate.op, env))
  {
    RecoverReadOk(s, env.todo);
    RecoverTurn(s, RecoverLoop(env.todo));
  }

  lemma LeaveKeepsInv(s: State)
    requires Inv(s) && s.gate.HeldByOp? && s.gate.op.Leave?
    ensures Inv(s.(gate := Free))
  {
    hide Inv;
    GateTurnKeepsInv(s, Free);
  }

  // ----- storing a new version of a row nobody writes -----

  lemma SaveTable(rows: map<Uuid, Activity>, a: Activity)
    requires TableOk(rows)
    requires a.id in rows ==> SameSlot(a, rows[a.id]) && (a.Live() ==> rows[a.id].Live())
    ensures TableOk(Save(rows, a))
  {
    TableShrinks(rows, Save(rows, a));
  }

  predicate HandsOff(gate: Gate, id: Uuid) {
    gate.HeldByOp? && !RecoverOp(gate.op)
    && (gate.op.EnqueueSnapshot? || gate.op.EnqueuePersist? ==> gate.op.a.id == id)
    && !gate.op.EnqueueLaunch? && !gate.op.ConfirmLaunch?
  }

  lemma SaveMovesOp(s: State, s': State, a: Activity)
    requires HandsOff(s.gate, a.id) && s'.gate.HeldByOp?
    requires s' == s.(rows := Save(s.rows, a), journal := s'.journal, accepted := s'.accepted, gate := s'.gate)
    requires s'.journal == s.journal || (a.id in s.journal && a.id in s'.journal && s'.journal == s.journal[a.id := s'.journal[a.id]])
    requires s'.accepted == s.accepted || (a.id in s'.accepted && a.id in s.journal && s'.accepted == s.accepted[a.id := s'.accepted[a.id]])
    requires a.id in s.accepted ==> a.id in s.journal
    ensures OpMoves(s, s', a.id)
  {
  }

  lemma SaveGood(s: State, s': State, a: Activity)
    requires HandsOff(s.gate, a.id) && s'.gate.HeldByOp? && OpLocal(s, a.id)
    requires s' == s.(rows := Save(s.rows, a), journal := s'.journal, accepted := s'.accepted, gate := s'.gate)
    requires s'.journal == s.journal || (a.id in s.journal && a.id in s'.journal && s'.journal == s.journal[a.id := s'.journal[a.id]])
    requires s'.accepted == s.accepted || (a.id in s'.accepted && a.id in s.journal && s'.accepted == s.accepted[a.id := s'.accepted[a.id]])
    requires a.id in s.rows ==> SameSlot(a, s.rows[a.id]) && (a.Live() ==> s.rows[a.id].Live()) && RowOk(s', a.id)
    requires a.id in s'.journal ==> HistoryOk(s', a.id)
    requires OpOk(s', s'.gate.op)
    ensures OpGood(s, s', a.id)
  {
    SaveMovesOp(s, s', a);
    SaveTable(s.rows, a);
  }

  // ----- enqueue -----

  lemma DecideGood(s: State, env: Env)
    requires OpEnabled(s, env) && s.gate.op.EnqueueDecide? && OpLocal(s, env.uuid)
    requires env.uuid !in s.accepted && env.uuid !in s.rows
    ensures OpGood(s, EnqueueApply(s, s.gate.op, env), env.uuid)
  {
    var s' := EnqueueApply(s, s.gate.op, env);
    assert s'.journal[env.uuid] == [];
    assert OpMoves(s, s', env.uuid);
    assert OpOk(s', s'.gate.op);
  }

  lemma InsertMoves(s: State, row: Activity)
    requires s.gate.HeldByOp? && s.gate.op.EnqueueInsert? && row.id !in s.accepted
    ensures OpMoves(s, ToOp(s.(rows := s.rows[row.id := row]), EnqueueSnapshot(row)), row.id)
  {
  }

  lemma InsertNewGood(s: State, env: Env)
    requires OpEnabled(s, env) && s.gate.op.EnqueueInsert? && OpLocal(s, s.gate.op.a.id)
    requires !Duplicate(s.rows, s.gate.op.a)
    ensures OpGood(s, EnqueueApply(s, s.gate.op, env), s.gate.op.a.id)
  {
    var row := s.gate.op.a.(rowid := env.rowid);
    assert OpOk(s, s.gate.op);
    TableGrows(s.rows, row);
    InsertedOk(s, row);
    InsertMoves(s, row);
  }

  lemma InsertedOk(s: State, row: Activity)
    requires Unaccepted(s, row) && row.steps == [] && (row.status.Skipped? || row.status.Queued?)
    ensures var s' := ToOp(s.(rows := s.rows[row.id := row]), EnqueueSnapshot(row));
      OpOk(s', EnqueueSnapshot(row)) && RowOk(s', row.id)
  {
  }

  lemma InsertKeeps(s: State, env: Env)
    requires Inv(s) && OpEnabled(s, env) && s.gate.op.EnqueueInsert?
    ensures Inv(EnqueueApply(s, s.gate.op, env))
  {
    var a := s.gate.op.a;
    if Duplicate(s.rows, a) {
      TurnKeeps(s, EnqueueLookup(a));
    } else {
      NobodyWrites(s, a.id);
      InvOpLocal(s, a.id);
      InsertNewGood(s, env);
      OpGoodKeepsInv(s, EnqueueApply(s, s.gate.op, env), a.id);
    }
  }

  lemma AcceptedIsReady(a: Activity)
    requires AcceptedOk(a) && a.Live() && a.status == (if a.Asks() then AwaitingConfirmation else Queued)
    ensures Linked(a, a, []) && LiveShape(a) && (if a.Asks() then Waiting(a, a, []) else Idle(a, a, []))
  {
    forall k | 0 <= k < |a.steps| ensures a.steps[k].status.Queued? {
      assert SnapshotTaken(a, k);
    }
    DoneIs(a.steps, 0);
    PlanGrows(a, 0, |a.steps|);
  }

  lemma PersistAcceptedGood(s: State, env: Env)
    requires OpEnabled(s, env) && s.gate.op.EnqueuePersist? && OpLocal(s, s.gate.op.a.id)
    requires s.gate.op.a.Live()
    ensures OpGood(s, EnqueueApply(s, s.gate.op, env), s.gate.op.a.id)
  {
    var a := s.gate.op.a;
    var s' := EnqueueApply(s, s.gate.op, env);
    assert OpOk(s, s.gate.op);
    PersistedOk(s, s', a);
    SaveGood(s, s', a);
  }

  lemma PersistedOk(s: State, s': State, a: Activity)
    requires OpOk(s, EnqueuePersist(a)) && a.Live() && a.id in s.journal && s.journal[a.id] == [] && NoWriter(s, a.id)
    requires s' == ToOp(s.(rows := Save(s.rows, a), accepted := s.accepted[a.id := a]),
                        if a.status.Queued? then EnqueueLaunch(a.id) else EnqueuePrune(a.id))
    ensures RowOk(s', a.id) && HistoryOk(s', a.id) && OpOk(s', s'.gate.op)
  {
    AcceptedIsReady(a);
  }

  lemma PersistEndedGood(s: State, env: Env)
    requires OpEnabled(s, env) && s.gate.op.EnqueuePersist? && OpLocal(s, s.gate.op.a.id)
    requires !s.gate.op.a.Live()
    ensures OpGood(s, EnqueueApply(s, s.gate.op, env), s.gate.op.a.id)
  {
    var a := s.gate.op.a;
    var s' := EnqueueApply(s, s.gate.op, env);
    assert OpOk(s, s.gate.op);
    SaveGood(s, s', a);
  }

  lemma EnqueuePersistKeeps(s: State, env: Env)
    requires Inv(s) && OpEnabled(s, env) && s.gate.op.EnqueuePersist?
    ensures Inv(EnqueueApply(s, s.gate.op, env))
  {
    var a := s.gate.op.a;
    NobodyWrites(s, a.id);
    InvOpLocal(s, a.id);
    if a.Live() { PersistAcceptedGood(s, env); } else { PersistEndedGood(s, env); }
    OpGoodKeepsInv(s, EnqueueApply(s, s.gate.op, env), a.id);
  }

  lemma DecideKeeps(s: State, env: Env)
    requires Inv(s) && OpEnabled(s, env) && s.gate.op.EnqueueDecide?
    ensures Inv(EnqueueApply(s, s.gate.op, env))
  {
    hide Inv;
    UnusedIsNew(s, env.uuid);
    InvOpLocal(s, env.uuid);
    DecideGood(s, env);
    OpGoodKeepsInv(s, EnqueueApply(s, s.gate.op, env), env.uuid);
  }

  lemma UnusedIsNew(s: State, id: Uuid)
    requires Inv(s) && id !in s.journal
    ensures id !in s.rows && id !in s.accepted && NoWriter(s, id)
  {
    assert id !in s.rows by {
      assert forall k :: k in s.rows ==> RowOk(s, k);
    }
    NobodyWrites(s, id);
  }

  // ----- launching -----

  lemma LaunchExecutors(s: State, s': State, id: Uuid, t: Uuid)
    requires ExecutorsOk(s) && t !in s.tickets && VolatileOk(s) && !s.gate.HeldByExecutor? && !s'.gate.HeldByExecutor?
    requires id in s.rows && id in s.accepted && id in s.journal && NoWriter(s, id)
    requires s.rows[id].status.Queued? && Idle(s.rows[id], s.accepted[id], s.journal[id])
    requires s' == Launch(s, id, t).(gate := s'.gate)
    ensures ExecutorsOk(s')
  {
    forall u | u in s'.executors ensures ExecutorOk(s', u) {
      if u != t { assert ExecutorOk(s, u); }
    }
  }

  lemma LaunchRow(s: State, s': State, id: Uuid, t: Uuid, k: Uuid)
    requires k in s.rows && RowOk(s, k) && t !in s.tickets && VolatileOk(s) && LaunchPending(s.gate, id)
    requires s' == Launch(s, id, t).(gate := s'.gate) && s'.gate.HeldByOp? && !Enqueuing(s'.gate, id)
    ensures RowOk(s', k)
  {
    if k == id {
      assert Owned(s', id);
    } else if Owned(s, k) {
      assert s.active[k] != t && Owned(s', k);
    }
  }

  lemma LaunchRows(s: State, s': State, id: Uuid, t: Uuid)
    requires RowsOk(s) && t !in s.tickets && VolatileOk(s) && LaunchPending(s.gate, id)
    requires s' == Launch(s, id, t).(gate := s'.gate) && s'.gate.HeldByOp? && !Enqueuing(s'.gate, id)
    ensures RowsOk(s')
  {
    forall k | k in s'.rows ensures RowOk(s', k) {
      LaunchRow(s, s', id, t, k);
    }
  }

  lemma LaunchVolatile(s: State, s': State, id: Uuid, t: Uuid)
    requires t !in s.tickets && VolatileOk(s)
    requires s' == Launch(s, id, t).(gate := s'.gate)
    ensures VolatileOk(s')
  {
  }

  lemma LaunchHistory(s: State, s': State, id: Uuid, t: Uuid)
    requires HistoriesOk(s) && s' == Launch(s, id, t).(gate := s'.gate)
    ensures HistoriesOk(s')
  {
    forall k | k in s'.journal ensures HistoryOk(s', k) { assert HistoryOk(s, k); }
  }

  /** The run an operation is about to launch is ready and nobody writes it. */
  lemma PendingIsReady(s: State, id: Uuid)
    requires GateOk(s) && LaunchPending(s.gate, id)
    ensures id in s.rows && id in s.accepted && id in s.journal && NoWriter(s, id)
    ensures s.rows[id].status.Queued? && Idle(s.rows[id], s.accepted[id], s.journal[id])
  {
    assert OpOk(s, s.gate.op);
  }

  lemma LaunchParts(s: State, next: Op, id: Uuid, t: Uuid)
    requires ExecutorsOk(s) && RowsOk(s) && HistoriesOk(s) && VolatileOk(s) && GateOk(s)
    requires t !in s.tickets && LaunchPending(s.gate, id) && (next.EnqueuePrune? || next.Leave?)
    ensures var s' := ToOp(Launch(s, id, t), next);
      ExecutorsOk(s') && RowsOk(s') && HistoriesOk(s') && VolatileOk(s')
  {
    var s' := ToOp(Launch(s, id, t), next);
    PendingIsReady(s, id);
    LaunchExecutors(s, s', id, t);
    LaunchRows(s, s', id, t);
    LaunchVolatile(s, s', id, t);
    LaunchHistory(s, s', id, t);
  }

  lemma LaunchKeeps(s: State, next: Op, id: Uuid, t: Uuid)
    requires Inv(s) && t !in s.tickets && LaunchPending(s.gate, id) && (next.EnqueuePrune? || next.Leave?)
    ensures Inv(ToOp(Launch(s, id, t), next))
  {
    LaunchParts(s, next, id, t);
  }

  // ----- missed slots -----

  lemma MissedMoves(s: State, s': State, row: Activity, op: Op)
    requires s.gate.HeldByOp? && s.gate.op.MissedInsert? && row.id !in s.rows && row.id !in s.journal && row.id !in s.accepted
    requires s' == ToOp(s.(journal := s.journal[row.id := []], rows := s.rows[row.id := row]), op)
          || s' == ToOp(s.(journal := s.journal[row.id := []]), op)
    ensures OpMoves(s, s', row.id)
  {
  }

  lemma MissedInsertGood(s: State, env: Env)
    requires OpEnabled(s, env) && s.gate.op.MissedInsert? && OpLocal(s, env.uuid)
    requires env.uuid !in s.accepted && env.uuid !in s.rows
    ensures OpGood(s, MissedApply(s, s.gate.op, env), env.uuid)
  {
    var row := NewActivity(s.gate.op.definition, s.gate.op.event, Skipped, env).(rowid := env.rowid);
    if Duplicate(s.rows, row) { MissedAgainGood(s, row); } else { MissedNewGood(s, row); }
  }

  lemma MissedAgainGood(s: State, row: Activity)
    requires s.gate.HeldByOp? && s.gate.op.MissedInsert? && OpLocal(s, row.id) && TableOk(s.rows)
    requires row.id !in s.rows && row.id !in s.journal && row.id !in s.accepted
    ensures OpGood(s, ToOp(s.(journal := s.journal[row.id := []]), Leave(Ok(None))), row.id)
  {
    MissedMoves(s, ToOp(s.(journal := s.journal[row.id := []]), Leave(Ok(None))), row, Leave(Ok(None)));
  }

  lemma MissedNewGood(s: State, row: Activity)
    requires s.gate.HeldByOp? && s.gate.op.MissedInsert? && OpLocal(s, row.id) && !Duplicate(s.rows, row)
    requires row.id !in s.rows && row.id !in s.journal && row.id !in s.accepted && NewRowid(s.rows, row.rowid)
    requires row.status.Skipped? && row.automationId == row.definition.id && row.confirmedSteps == [] && !row.runConfirmed
    ensures OpGood(s, ToOp(s.(journal := s.journal[row.id := []], rows := s.rows[row.id := row]), MissedPersist(row)), row.id)
  {
    var s' := ToOp(s.(journal := s.journal[row.id := []], rows := s.rows[row.id := row]), MissedPersist(row));
    MissedMoves(s, s', row, MissedPersist(row));
    TableGrows(s.rows, row);
    MissedRowOk(s, s', row);
  }

  lemma MissedRowOk(s: State, s': State, row: Activity)
    requires row.status.Skipped? && row.id !in s.accepted && row.automationId == row.definition.id
    requires row.confirmedSteps == [] && !row.runConfirmed
    requires s' == ToOp(s.(journal := s.journal[row.id := []], rows := s.rows[row.id := row]), MissedPersist(row))
    ensures RowOk(s', row.id) && OpOk(s', MissedPersist(row))
  {
  }

  lemma MissedInsertKeeps(s: State, env: Env)
    requires Inv(s) && OpEnabled(s, env) && s.gate.op.MissedInsert?
    ensures Inv(MissedApply(s, s.gate.op, env))
  {
    hide Inv;
    UnusedIsNew(s, env.uuid);
    InvOpLocal(s, env.uuid);
    MissedInsertGood(s, env);
    OpGoodKeepsInv(s, MissedApply(s, s.gate.op, env), env.uuid);
  }

  lemma MissedPersistGood(s: State, env: Env)
    requires OpEnabled(s, env) && s.gate.op.MissedPersist? && OpLocal(s, s.gate.op.a.id)
    ensures OpGood(s, MissedApply(s, s.gate.op, env), s.gate.op.a.id)
  {
    assert OpOk(s, s.gate.op);
    SaveGood(s, MissedApply(s, s.gate.op, env), s.gate.op.a);
  }

  lemma MissedPersistKeeps(s: State, env: Env)
    requires Inv(s) && OpEnabled(s, env) && s.gate.op.MissedPersist?
    ensures Inv(MissedApply(s, s.gate.op, env))
  {
    var a := s.gate.op.a;
    assert OpOk(s, s.gate.op);
    NobodyWrites(s, a.id);
    InvOpLocal(s, a.id);
    MissedPersistGood(s, env);
    OpGoodKeepsInv(s, MissedApply(s, s.gate.op, env), a.id);
  }

  // ----- confirm -----

  lemma {:induction false} FirstAwaitingIs(steps: seq<StepRun>, p: nat)
    requires p < |steps| && steps[p].status.AwaitingConfirmation?
    requires forall k :: 0 <= k < p ==> !steps[k].status.AwaitingConfirmation?
    ensures FirstAwaiting(steps) == Some(steps[p].index)
  {
    if p > 0 {
      FirstAwaitingIs(steps[1..], p - 1);
    }
  }

  /** A confirmation grants exactly the next thing the plan asks for, and leaves the run ready. */
  lemma GrantIsNext(r: Activity, a: Activity, j: seq<Entry>)
    requires Waiting(r, a, j) && AcceptedOk(a)
    ensures GrantOf(r).Some?
    ensures SameRun(Confirmed(r), a)
    ensures Idle(Confirmed(r), a, j + [Granted(GrantOf(r).value, false)])
    ensures j + [Granted(GrantOf(r).value, false)] <= FullPlan(a)
  {
    if r.Asks() && !r.runConfirmed {
      GrantRun(r, a, j);
    } else {
      GrantStep(r, a, j);
    }
  }

  lemma GrantRun(r: Activity, a: Activity, j: seq<Entry>)
    requires Waiting(r, a, j) && r.Asks() && !r.runConfirmed
    ensures GrantOf(r) == Some(RunGrant) && SameRun(Confirmed(r), a)
    ensures Idle(Confirmed(r), a, j + [Granted(RunGrant, false)])
    ensures j + [Granted(RunGrant, false)] <= FullPlan(a)
  {
    DoneIs(r.steps, 0);
    PlanGrows(a, 0, |a.steps|);
    assert PlanUpTo(a, 0) == j + [Granted(RunGrant, false)];
  }

  lemma GrantStep(r: Activity, a: Activity, j: seq<Entry>)
    requires Waiting(r, a, j) && !(r.Asks() && !r.runConfirmed) && AcceptedOk(a)
    ensures GrantOf(r) == Some(StepGrant(Done(r.steps))) && SameRun(Confirmed(r), a)
    ensures Idle(Confirmed(r), a, j + [Granted(StepGrant(Done(r.steps)), false)])
    ensures j + [Granted(StepGrant(Done(r.steps)), false)] <= FullPlan(a)
  {
    var p := Done(r.steps);
    FirstAwaitingIs(r.steps, p);
    assert SameStep(r.steps[p], a.steps[p]) && SnapshotTaken(a, p);
    PlanGrowsWithGrant(a, p);
    assert GrantEntries(a, p) == [Granted(StepGrant(p), false)];
    assert DangerousBelow(a, p + 1) == DangerousBelow(a, p) + [p];
  }

  lemma ConfirmedOk(s: State, s': State, a: Activity, what: Grant)
    requires a.id in s.rows && a.id in s.accepted && a.id in s.journal && NoWriter(s, a.id)
    requires RowOk(s, a.id) && HistoryOk(s, a.id) && s.rows[a.id].status.AwaitingConfirmation?
    requires a == Confirmed(s.rows[a.id]) && GrantOf(s.rows[a.id]) == Some(what)
    requires s' == ToOp(s.(rows := Save(s.rows, a), journal := Record(s.journal, a.id, Granted(what, false))), ConfirmLaunch(a.id))
    ensures RowOk(s', a.id) && HistoryOk(s', a.id) && OpOk(s', ConfirmLaunch(a.id)) && SameSlot(a, s.rows[a.id])
  {
    GrantIsNext(s.rows[a.id], s.accepted[a.id], s.journal[a.id]);
  }

  lemma ConfirmPersistGood(s: State, env: Env)
    requires OpEnabled(s, env) && s.gate.op.ConfirmPersist? && OpLocal(s, s.gate.op.a.id)
    ensures OpGood(s, ConfirmApply(s, s.gate.op, env), s.gate.op.a.id)
  {
    var a := s.gate.op.a;
    var s' := ConfirmApply(s, s.gate.op, env);
    ConfirmGrants(s);
    ConfirmedOk(s, s', a, s.gate.op.what.value);
    SaveGood(s, s', a);
  }

  lemma ConfirmGrants(s: State)
    requires s.gate.HeldByOp? && s.gate.op.ConfirmPersist? && OpLocal(s, s.gate.op.a.id)
    ensures var a := s.gate.op.a; var id := a.id;
      && id in s.rows && id in s.accepted && id in s.journal && s.rows[id].status.AwaitingConfirmation?
      && a == Confirmed(s.rows[id]) && GrantOf(s.rows[id]) == s.gate.op.what && s.gate.op.what.Some? && !s.gate.op.locked
  {
    assert OpOk(s, s.gate.op);
    GrantIsNext(s.rows[s.gate.op.a.id], s.accepted[s.gate.op.a.id], s.journal[s.gate.op.a.id]);
  }

  lemma ConfirmPersistKeeps(s: State, env: Env)
    requires Inv(s) && OpEnabled(s, env) && s.gate.op.ConfirmPersist?
    ensures Inv(ConfirmApply(s, s.gate.op, env))
  {
    var id := s.gate.op.a.id;
    assert OpOk(s, s.gate.op);
    NobodyWrites(s, id);
    InvOpLocal(s, id);
    ConfirmPersistGood(s, env);
    OpGoodKeepsInv(s, ConfirmApply(s, s.gate.op, env), id);
  }

  // ----- cancel -----

  /** Setting a token other than that of an executor about to ask leaves every executor in order. */
  lemma TokenExecutors(s: State, s': State, t: Uuid)
    requires ExecutorsOk(s) && s'.gate.HeldByOp? && s.gate.HeldByOp?
    requires s' == s.(canceled := s.canceled + {t}, gate := s'.gate)
    ensures ExecutorsOk(s')
  {
    forall u | u in s'.executors ensures ExecutorOk(s', u) {
      assert ExecutorOk(s, u);
    }
  }

  lemma TokenRows(s: State, s': State, t: Uuid)
    requires RowsOk(s) && s.gate.HeldByOp? && !Owner(s.gate.op) && s'.gate.HeldByOp?
    requires s' == s.(canceled := s.canceled + {t}, gate := s'.gate)
    ensures RowsOk(s')
  {
    forall k | k in s'.rows ensures RowOk(s', k) { assert RowOk(s, k); }
  }

  lemma TokenHistory(s: State, s': State, t: Uuid)
    requires HistoriesOk(s) && s' == s.(canceled := s.canceled + {t}, gate := s'.gate)
    ensures HistoriesOk(s')
  {
    forall k | k in s'.journal ensures HistoryOk(s', k) { assert HistoryOk(s, k); }
  }

  lemma TokenVolatile(s: State, s': State, t: Uuid)
    requires VolatileOk(s) && t in s.executors && s' == s.(canceled := s.canceled + {t}, gate := s'.gate)
    ensures VolatileOk(s')
  {
  }

  lemma TokenOp(s: State, s': State, t: Uuid, op: Op)
    requires OpOk(s, op) && (op.Leave? || op.CancelPersist?)
    requires s' == s.(canceled := s.canceled + {t}, gate := HeldByOp(op))
    ensures GateOk(s')
  {
  }

  lemma TokenKeeps(s: State, t: Uuid, op: Op)
    requires Inv(s) && s.gate.HeldByOp? && !Owner(s.gate.op) && t in s.executors && OpOk(s, op)
    requires op.Leave? || op.CancelPersist?
    ensures Inv(s.(canceled := s.canceled + {t}, gate := HeldByOp(op)))
  {
    var s' := s.(canceled := s.canceled + {t}, gate := HeldByOp(op));
    TokenExecutors(s, s', t);
    TokenRows(s, s', t);
    TokenHistory(s, s', t);
    TokenVolatile(s, s', t);
    TokenOp(s, s', t, op);
  }

  /** When no executor is registered for the row, it has ended or waits: nobody else would own it. */
  lemma UnregisteredIsIdle(s: State, a: Activity)
    requires OpOk(s, CancelLookup(a)) && RowsOk(s) && s.gate == HeldByOp(CancelLookup(a))
    requires a.id !in s.active || a.status.AwaitingConfirmation?
    ensures OpOk(s, CancelPersist(a.(status := Canceled)))
  {
    if a.id in s.rows { assert RowOk(s, a.id); }
  }

  lemma AfterLookupOk(s: State, a: Activity)
    requires RowsOk(s) && GateOk(s) && s.gate == HeldByOp(CancelLookup(a))
    ensures OpOk(s, AfterLookup(s, a))
  {
    assert OpOk(s, s.gate.op);
    if a.id !in s.active || a.status.AwaitingConfirmation? {
      UnregisteredIsIdle(s, a);
    }
  }

  lemma RegisteredKeeps(s: State, a: Activity)
    requires Inv(s) && s.gate == HeldByOp(CancelLookup(a)) && a.id in s.active
    ensures Inv(s.(canceled := s.canceled + {s.active[a.id]}, gate := HeldByOp(AfterLookup(s, a))))
  {
    AfterLookupOk(s, a);
    TokenKeeps(s, s.active[a.id], AfterLookup(s, a));
  }

  lemma UnregisteredKeeps(s: State, a: Activity)
    requires Inv(s) && s.gate == HeldByOp(CancelLookup(a)) && a.id !in s.active
    ensures Inv(ToOp(s, AfterLookup(s, a)))
  {
    AfterLookupOk(s, a);
    TurnFreely(s, AfterLookup(s, a));
  }

  lemma CancelLookupKeeps(s: State)
    requires Inv(s) && s.gate.HeldByOp? && s.gate.op.CancelLookup?
    ensures Inv(CancelApply(s, s.gate.op))
  {
    var a := s.gate.op.a;
    if a.id in s.active {
      RegisteredKeeps(s, a);
    } else {
      UnregisteredKeeps(s, a);
    }
  }

  lemma CancelPersistGood(s: State)
    requires s.gate.HeldByOp? && s.gate.op.CancelPersist? && OpLocal(s, s.gate.op.a.id)
    ensures OpGood(s, CancelApply(s, s.gate.op), s.gate.op.a.id)
  {
    assert OpOk(s, s.gate.op);
    SaveGood(s, CancelApply(s, s.gate.op), s.gate.op.a);
  }

  lemma CancelPersistKeeps(s: State)
    requires Inv(s) && s.gate.HeldByOp? && s.gate.op.CancelPersist?
    ensures Inv(CancelApply(s, s.gate.op))
  {
    var a := s.gate.op.a;
    assert OpOk(s, s.gate.op);
    NobodyWrites(s, a.id);
    InvOpLocal(s, a.id);
    CancelPersistGood(s);
    OpGoodKeepsInv(s, CancelApply(s, s.gate.op), a.id);
  }

  // ----- pruning -----

  lemma PruneExecutors(s: State, s': State, gone: set<Uuid>)
    requires ExecutorsOk(s) && Prunable(s.rows, gone) && s' == s.(rows := s.rows - gone)
    ensures ExecutorsOk(s')
  {
    forall t | t in s'.executors ensures ExecutorOk(s', t) {
      assert ExecutorOk(s, t);
    }
  }

  lemma PruneRows(s: State, s': State, gone: set<Uuid>)
    requires RowsOk(s) && s' == s.(rows := s.rows - gone)
    ensures RowsOk(s')
  {
    forall k | k in s'.rows ensures RowOk(s', k) { assert RowOk(s, k); }
  }

  lemma PruneHistory(s: State, s': State, gone: set<Uuid>)
    requires HistoriesOk(s) && s' == s.(rows := s.rows - gone)
    ensures HistoriesOk(s')
  {
    forall k | k in s'.journal ensures HistoryOk(s', k) { assert HistoryOk(s, k); }
  }

  lemma PruneOp(s: State, s': State, gone: set<Uuid>, op: Op)
    requires OpOk(s, op) && Prunable(s.rows, gone) && s' == s.(rows := s.rows - gone)
    requires |Live(s'.rows)| <= |Live(s.rows)|
    requires forall name: string :: Busy(s'.rows, name) ==> Busy(s.rows, name)
    ensures OpOk(s', op)
  {
    if op.RecoverLoop? {
      forall k | 0 <= k < |op.todo| ensures op.todo[k].id in s'.rows { assert op.todo[k].id in s.rows; }
    }
  }

  /** Removing ended rows never takes a row anybody still relies on. */
  lemma PruneKeeps(s: State, gone: set<Uuid>)
    requires Inv(s) && Prunable(s.rows, gone)
    ensures Inv(s.(rows := s.rows - gone))
  {
    var s' := s.(rows := s.rows - gone);
    TableShrinks(s.rows, s'.rows);
    PruneExecutors(s, s', gone);
    PruneRows(s, s', gone);
    PruneHistory(s, s', gone);
    if s.gate.HeldByOp? { PruneOp(s, s', gone, s.gate.op); }
  }

  lemma EnqueuePruneKeeps(s: State, env: Env)
    requires Inv(s) && OpEnabled(s, env) && s.gate.op.EnqueuePrune?
    ensures Inv(EnqueueApply(s, s.gate.op, env))
  {
    hide Inv;
    PruneKeeps(s, env.pruned);
    TurnFreely(s.(rows := s.rows - env.pruned), Leave(Ok(Some(s.gate.op.id))));
  }

  // ----- crash and recovery -----

  lemma InterruptKeeps(a: Activity)
    ensures SameRun(Interrupt(a), a)
    ensures Interrupt(a).confirmedSteps == a.confirmedSteps && Interrupt(a).runConfirmed == a.runConfirmed
    ensures LiveShape(a) ==> InterruptedShape(Interrupt(a))
  {
    DoneIs(Interrupt(a).steps, Done(a.steps));
  }

  lemma InterruptedOk(s: State, s': State, r: Activity, next: Op)
    requires r.id in s.rows && s.rows[r.id] == r && RowOk(s, r.id) && r.Live()
    requires s' == ToOp(s.(rows := Save(s.rows, Interrupt(r))), next)
    ensures RowOk(s', r.id)
  {
    InterruptKeeps(r);
    if r.id in s.accepted {
      SameRunTransitive(Interrupt(r), r, s.accepted[r.id]);
    }
  }

  lemma RecoverNextOk(s: State, s': State, todo: seq<Activity>)
    requires OpOk(s, RecoverLoop(todo)) && todo != []
    requires s' == ToOp(s.(rows := Save(s.rows, Interrupt(todo[0]))), RecoverLoop(todo[1..]))
    ensures OpOk(s', RecoverLoop(todo[1..]))
  {
    forall id | id in s'.rows && (s'.rows[id].status.Queued? || s'.rows[id].status.Running?)
      ensures exists k :: 0 <= k < |todo[1..]| && todo[1..][k].id == id
    {
      var k :| 0 <= k < |todo| && todo[k].id == id;
      assert k > 0 && todo[1..][k - 1].id == id;
    }
  }

  lemma RecoverSkipOk(s: State, todo: seq<Activity>)
    requires GateOk(s) && s.gate == HeldByOp(RecoverLoop(todo)) && todo != [] && todo[0].status.AwaitingConfirmation?
    ensures OpOk(s, RecoverLoop(todo[1..]))
  {
    forall id | id in s.rows && (s.rows[id].status.Queued? || s.rows[id].status.Running?)
      ensures exists k :: 0 <= k < |todo[1..]| && todo[1..][k].id == id
    {
      var k :| 0 <= k < |todo| && todo[k].id == id;
      assert todo[0].id in s.rows && s.rows[todo[0].id] == todo[0];
      assert k > 0 && todo[1..][k - 1].id == id;
    }
  }

  lemma RecoverMoves(s: State, s': State, r: Activity, next: Op)
    requires s.gate.HeldByOp? && RecoverOp(s.gate.op) && RecoverOp(next)
    requires s' == ToOp(s.(rows := Save(s.rows, Interrupt(r))), next)
    requires r.id in s.accepted ==> r.id in s.journal
    ensures OpMoves(s, s', r.id)
  {
  }

  lemma InterruptGood(s: State, todo: seq<Activity>)
    requires s.gate == HeldByOp(RecoverLoop(todo)) && todo != [] && OpOk(s, RecoverLoop(todo))
    requires OpLocal(s, todo[0].id)
    ensures OpGood(s, ToOp(s.(rows := Save(s.rows, Interrupt(todo[0]))), RecoverLoop(todo[1..])), todo[0].id)
  {
    var s' := ToOp(s.(rows := Save(s.rows, Interrupt(todo[0]))), RecoverLoop(todo[1..]));
    InterruptedOk(s, s', todo[0], RecoverLoop(todo[1..]));
    RecoverNextOk(s, s', todo);
    RecoverMoves(s, s', todo[0], RecoverLoop(todo[1..]));
    InterruptKeeps(todo[0]);
    SaveTable(s.rows, Interrupt(todo[0]));
  }

  lemma RecoverHolds(s: State, todo: seq<Activity>)
    requires GateOk(s) && s.gate == HeldByOp(RecoverLoop(todo))
    ensures OpOk(s, RecoverLoop(todo)) && forall id :: NoWriter(s, id)
  {
    assert OpOk(s, s.gate.op);
  }

  lemma RecoverLocal(s: State, todo: seq<Activity>)
    requires Inv(s) && s.gate == HeldByOp(RecoverLoop(todo)) && todo != []
    ensures OpOk(s, RecoverLoop(todo)) && OpLocal(s, todo[0].id)
  {
    RecoverHolds(s, todo);
    InvOpLocal(s, todo[0].id);
  }

  lemma InterruptRowKeeps(s: State, todo: seq<Activity>)
    requires Inv(s) && s.gate == HeldByOp(RecoverLoop(todo)) && todo != []
    ensures Inv(ToOp(s.(rows := Save(s.rows, Interrupt(todo[0]))), RecoverLoop(todo[1..])))
  {
    hide Inv;
    RecoverLocal(s, todo);
    InterruptGood(s, todo);
    OpGoodKeepsInv(s, ToOp(s.(rows := Save(s.rows, Interrupt(todo[0]))), RecoverLoop(todo[1..])), todo[0].id);
  }

  lemma RecoverTurn(s: State, op: Op)
    requires Inv(s) && s.gate.HeldByOp? && RecoverOp(s.gate.op) && RecoverOp(op) && OpOk(s, op)
    ensures Inv(ToOp(s, op))
  {
    hide Inv;
    TurnKeeps(s, op);
  }

  lemma RecoverSkipKeeps(s: State, todo: seq<Activity>)
    requires Inv(s) && s.gate == HeldByOp(RecoverLoop(todo)) && todo != [] && todo[0].status.AwaitingConfirmation?
    ensures Inv(ToOp(s, RecoverLoop(todo[1..])))
  {
    RecoverSkipOk(s, todo);
    RecoverTurn(s, RecoverLoop(todo[1..]));
  }

  lemma RecoverEndKeeps(s: State)
    requires Inv(s) && s.gate == HeldByOp(RecoverLoop([]))
    ensures Inv(ToOp(s, Leave(Ok(None))))
  {
    assert OpOk(s, RecoverLoop([]));
    TurnKeeps(s, Leave(Ok(None)));
  }

  lemma RecoverLoopKeeps(s: State, env: Env)
    requires Inv(s) && OpEnabled(s, env) && s.gate.op.RecoverLoop?
    ensures Inv(RecoverApply(s, s.gate.op, env))
  {
    hide Inv;
    var todo := s.gate.op.todo;
    if todo == [] {
      RecoverEndKeeps(s);
    } else if todo[0].status.AwaitingConfirmation? {
      RecoverSkipKeeps(s, todo);
    } else {
      InterruptRowKeeps(s, todo);
    }
  }

  lemma CrashRows(s: State)
    requires RowsOk(s)
    ensures RowsOk(Crashed(s))
  {
    forall k | k in s.rows ensures RowOk(Crashed(s), k) { assert RowOk(s, k); }
  }

  lemma CrashHistory(s: State)
    requires HistoriesOk(s)
    ensures HistoriesOk(Crashed(s))
  {
    forall k | k in s.journal ensures HistoryOk(Crashed(s), k) { assert HistoryOk(s, k); }
  }

  lemma CrashKeeps(s: State)
    requires Inv(s)
    ensures Inv(Crashed(s))
  {
    CrashRows(s);
    CrashHistory(s);
  }

  // ----- all of them -----

  lemma EnqueueStepKeeps(s: State, env: Env)
    requires Inv(s) && OpEnabled(s, env) && EnqueueOp(s.gate.op)
    ensures Inv(EnqueueApply(s, s.gate.op, env))
  {
    hide Inv;
    hide Inv;
    match s.gate.op
    case EnqueueRead(_, _, _) => EnqueueReadKeeps(s, env);
    case EnqueueDecide(_, _, _, _, _) => DecideKeeps(s, env);
    case EnqueueInsert(_) => InsertKeeps(s, env);
    case EnqueueLookup(_) => EnqueueLookupKeeps(s, env);
    case EnqueueSnapshot(_) => EnqueueSnapshotKeeps(s, env);
    case EnqueuePersist(_) => EnqueuePersistKeeps(s, env);
    case EnqueueLaunch(id) => LaunchKeeps(s, EnqueuePrune(id), id, env.uuid);
    case EnqueuePrune(_) => EnqueuePruneKeeps(s, env);
  }

  lemma ConfirmStepKeeps(s: State, env: Env)
    requires Inv(s) && OpEnabled(s, env) && ConfirmOp(s.gate.op)
    ensures Inv(ConfirmApply(s, s.gate.op, env))
  {
    hide Inv;
    hide Inv;
    match s.gate.op
    case ConfirmRead(_) => ConfirmReadKeeps(s, env);
    case ConfirmEnvironment(_) => if env.locked { ConfirmLockedKeeps(s, env); } else { ConfirmUnlockedKeeps(s, env); }
    case ConfirmPersist(_, _, _) => ConfirmPersistKeeps(s, env);
    case ConfirmLaunch(id) => LaunchKeeps(s, Leave(Ok(None)), id, env.uuid);
  }

  lemma CancelStepKeeps(s: State)
    requires Inv(s) && s.gate.HeldByOp? && CancelOp(s.gate.op)
    ensures Inv(CancelApply(s, s.gate.op))
  {
    hide Inv;
    match s.gate.op
    case CancelRead(_) => CancelReadKeeps(s);
    case CancelLookup(_) => CancelLookupKeeps(s);
    case CancelPersist(_) => CancelPersistKeeps(s);
  }

  lemma OpStepKeepsInv(s: State, env: Env)
    requires Inv(s) && OpEnabled(s, env)
    ensures Inv(OpApply(s, env))
  {
    hide Inv;
    hide Inv;
    var op := s.gate.op;
    if EnqueueOp(op) {
      EnqueueStepKeeps(s, env);
    } else if ConfirmOp(op) {
      ConfirmStepKeeps(s, env);
    } else if CancelOp(op) {
      CancelStepKeeps(s);
    } else {
      match op
      case MissedInsert(_, _) => MissedInsertKeeps(s, env);
      case MissedPersist(_) => MissedPersistKeeps(s, env);
      case RecoverRead => RecoverReadKeeps(s, env);
      case RecoverLoop(_) => RecoverLoopKeeps(s, env);
      case Leave(_) => LeaveKeepsInv(s);
    }
  }

  lemma NobodyRegistered(s: State)
    requires VolatileOk(s) && s.executors == map[]
    ensures s.active == map[]
  {
  }

  lemma BeginKeeps(s: State, op: Op)
    requires Inv(s) && Enabled(s, Begin(op))
    ensures Inv(ToOp(s, op))
  {
    if op.RecoverRead? { NobodyRegistered(s); }
    GateTurnKeepsInv(s, HeldByOp(op));
  }

  /** Every action of the system keeps the invariant. */
  lemma StepKeepsInv(s: State, action: Action)
    requires Inv(s) && Enabled(s, action)
    ensures Inv(Apply(s, action))
  {
    hide Inv;
    hide Inv;
    match action
    case Begin(op) => BeginKeeps(s, op);
    case OpStep(env) => OpStepKeepsInv(s, env);
    case ExecutorStep(t, env) => ExecutorStepKeepsInv(s, t, env);
    case ClearActivities(gone) => PruneKeeps(s, gone);
    case Crash => CrashKeeps(s);
  }

  lemma InitialOk()
    ensures Inv(INITIAL)
  {
  }

  lemma {:induction false} RunKeepsInv(s: State, actions: seq<Action>)
    requires Inv(s) && Possible(s, actions)
    ensures Inv(After(s, actions))
    decreases |actions|
  {
    hide Inv;
    if actions != [] {
      StepKeepsInv(s, actions[0]);
      RunKeepsInv(Apply(s, actions[0]), actions[1..]);
    }
  }

  /** Reachable states: every state the engine can be in after any number of steps, by anybody, with
      crashes anywhere. */
  ghost predicate Reachable(s: State) {
    exists actions :: Possible(INITIAL, actions) && After(INITIAL, actions) == s
  }

  lemma ReachableOk(s: State)
    requires Reachable(s)
    ensures Inv(s)
  {
    var actions :| Possible(INITIAL, actions) && After(INITIAL, actions) == s;
    InitialOk();
    RunKeepsInv(INITIAL, actions);
  }

  lemma KeyedById(s: State)
    requires Reachable(s)
    ensures forall id :: id in s.rows ==> s.rows[id].id == id
  {
    ReachableOk(s);
  }

  lemma {:induction false} PossibleConcat(s: State, first: seq<Action>, second: seq<Action>)
    requires Possible(s, first) && Possible(After(s, first), second)
    ensures Possible(s, first + second) && After(s, first + second) == After(After(s, first), second)
    decreases |first|
  {
    if first == [] {
      assert first + second == second;
    } else {
      PossibleConcat(Apply(s, first[0]), first[1..], second);
      assert (first + second)[1..] == first[1..] + second;
    }
  }

  lemma OneStep(s: State, action: Action)
    requires Enabled(s, action)
    ensures Possible(s, [action]) && After(s, [action]) == Apply(s, action)
  {
    var actions := [action];
    assert actions[1..] == [] && Possible(Apply(s, action), []);
  }

  lemma ReachNext(s: State, action: Action)
    requires Reachable(s) && Enabled(s, action)
    ensures Reachable(Apply(s, action))
  {
    var actions :| Possible(INITIAL, actions) && After(INITIAL, actions) == s;
    OneStep(s, action);
    PossibleConcat(INITIAL, actions, [action]);
  }

  // ----- steps beside the operation that holds the gate -----

  /** Steps of executors and prunes. */
  predicate BesideOps(actions: seq<Action>) {
    forall k :: 0 <= k < |actions| ==> actions[k].ExecutorStep? || actions[k].ClearActivities?
  }

  lemma ExecutorKeepsGate(s: State, t: Uuid, env: Env)
    requires Inv(s) && ExecutorEnabled(s, t, env)
    ensures s.gate.HeldByOp? ==> ExecutorApply(s, t, env).gate == s.gate
    ensures !s.gate.HeldByOp? ==> !ExecutorApply(s, t, env).gate.HeldByOp?
  {
    if !s.executors[t].pc.Cleanup? {
      InvLocal(s, t);
      StepKeepsLocal(s, t, env);
    }
  }

  lemma {:induction false} OpGateKept(s: State, actions: seq<Action>)
    requires Inv(s) && s.gate.HeldByOp? && Possible(s, actions) && BesideOps(actions)
    ensures After(s, actions).gate == s.gate
    decreases |actions|
  {
    hide Inv;
    if actions != [] {
      var action, rest := actions[0], actions[1..];
      assert BesideOps(rest) by {
        assert forall k :: 0 <= k < |rest| ==> rest[k] == actions[k + 1];
      }
      StepKeepsInv(s, action);
      if action.ExecutorStep? { ExecutorKeepsGate(s, action.ticket, action.env); }
      OpGateKept(Apply(s, action), rest);
    }
  }

  /** No other operation begins, and nothing crashes. */
  predicate OneOperation(actions: seq<Action>) {
    forall k :: 0 <= k < |actions| ==> !actions[k].Begin? && !actions[k].Crash?
  }

  lemma OneOperationNext(actions: seq<Action>)
    requires OneOperation(actions) && actions != []
    ensures !actions[0].Begin? && !actions[0].Crash? && OneOperation(actions[1..])
  {
    forall k | 0 <= k < |actions[1..]| ensures !actions[1..][k].Begin? && !actions[1..][k].Crash? {
      assert actions[1..][k] == actions[k + 1];
    }
  }

  /** The state in which the operation under the gate takes its first step. */
  ghost function AtFirst(s: State, actions: seq<Action>): State
    requires Possible(s, actions)
    decreases |actions|
  {
    if actions == [] || actions[0].OpStep? then s else AtFirst(Apply(s, actions[0]), actions[1..])
  }

  // ----- what others leave of an executor -----

  predicate NoCrash(actions: seq<Action>) {
    forall k :: 0 <= k < |actions| ==> !actions[k].Crash?
  }

  predicate ByOthers(actions: seq<Action>, t: Uuid) {
    NoCrash(actions) && forall k :: 0 <= k < |actions| && actions[k].ExecutorStep? ==> actions[k].ticket != t
  }

  lemma OtherExecutorKeeps(s: State, u: Uuid, env: Env, t: Uuid)
    requires Inv(s) && ExecutorEnabled(s, u, env) && t in s.executors && u != t
    ensures t in ExecutorApply(s, u, env).executors && ExecutorApply(s, u, env).executors[t] == s.executors[t]
  {
    hide Inv;
    if !s.executors[u].pc.Cleanup? {
      InvLocal(s, u);
      StepKeepsLocal(s, u, env);
    }
  }

  lemma EnqueueKeeps(s: State, env: Env, t: Uuid)
    requires OpEnabled(s, env) && EnqueueOp(s.gate.op) && t in s.executors && t in s.tickets
    ensures t in OpApply(s, env).executors && OpApply(s, env).executors[t] == s.executors[t]
  {
    match s.gate.op
    case EnqueueLaunch(id) =>
    case EnqueueRead(_, _, _) =>
    case EnqueueDecide(_, _, _, _, _) =>
    case EnqueueInsert(_) =>
    case EnqueueLookup(_) =>
    case EnqueueSnapshot(_) =>
    case EnqueuePersist(_) =>
    case EnqueuePrune(_) =>
  }

  lemma OpKeeps(s: State, env: Env, t: Uuid)
    requires OpEnabled(s, env) && t in s.executors && t in s.tickets
    ensures t in OpApply(s, env).executors && OpApply(s, env).executors[t] == s.executors[t]
  {
    if EnqueueOp(s.gate.op) {
      EnqueueKeeps(s, env, t);
    } else if ConfirmOp(s.gate.op) {
      assert OpApply(s, env).executors == s.executors || s.gate.op.ConfirmLaunch?;
    } else {
      assert OpApply(s, env).executors == s.executors;
    }
  }
}
