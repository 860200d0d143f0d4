/**
 What one enqueue does, from its first step to its end with executors acting in between; and that an
 automation's event is accepted at most once while its row is stored.
 */
module Slots {
  import opened Model
  import opened Protocol
  import opened Invariant
  import opened ExecutorSteps
  import opened OpSteps
  import opened Endings
  import opened Recovery

  // ----- rows keep their slot, and do not come back -----

  /** A stored row stays, unless it has ended and is pruned; it keeps its automation and event. */
  ghost predicate SlotKept(s: State, s': State, id: Uuid)
    requires id in s.rows
  {
    if id in s'.rows then SameSlot(s.rows[id], s'.rows[id]) else s.rows[id].status.Terminal()
  }

  lemma EnqueueKeepsSlot(s: State, env: Env, id: Uuid)
    requires OpEnabled(s, env) && EnqueueOp(s.gate.op) && OpOk(s, s.gate.op) && id in s.rows
    ensures SlotKept(s, EnqueueApply(s, s.gate.op, env), id)
  {
    match s.gate.op
    case EnqueueLaunch(_) =>
    case EnqueueRead(_, _, _) =>
    case EnqueueDecide(_, _, _, _, _) =>
    case EnqueueInsert(_) =>
    case EnqueueLookup(_) =>
    case EnqueueSnapshot(_) =>
    case EnqueuePersist(_) =>
    case EnqueuePrune(_) =>
  }

  lemma MissedKeepsSlot(s: State, env: Env, id: Uuid)
    requires OpEnabled(s, env) && MissedOp(s.gate.op) && OpOk(s, s.gate.op) && id in s.rows
    ensures SlotKept(s, MissedApply(s, s.gate.op, env), id)
  {
  }

  lemma ConfirmKeepsSlot(s: State, env: Env, id: Uuid)
    requires OpEnabled(s, env) && ConfirmOp(s.gate.op) && OpOk(s, s.gate.op) && id in s.rows
    ensures SlotKept(s, ConfirmApply(s, s.gate.op, env), id)
  {
  }

  lemma CancelKeepsSlot(s: State, id: Uuid)
    requires s.gate.HeldByOp? && CancelOp(s.gate.op) && OpOk(s, s.gate.op) && id in s.rows && RowOk(s, id)
    ensures SlotKept(s, CancelApply(s, s.gate.op), id)
  {
  }

  lemma RecoverKeepsSlot(s: State, env: Env, id: Uuid)
    requires OpEnabled(s, env) && RecoverOp(s.gate.op) && OpOk(s, s.gate.op) && id in s.rows
    ensures SlotKept(s, RecoverApply(s, s.gate.op, env), id)
  {
  }

  lemma OpKeepsSlot(s: State, env: Env, id: Uuid)
    requires Inv(s) && OpEnabled(s, env) && id in s.rows
    ensures SlotKept(s, OpApply(s, env), id)
  {
    assert OpOk(s, s.gate.op) && RowOk(s, id);
    if EnqueueOp(s.gate.op) {
      EnqueueKeepsSlot(s, env, id);
    } else if MissedOp(s.gate.op) {
      MissedKeepsSlot(s, env, id);
    } else if ConfirmOp(s.gate.op) {
      ConfirmKeepsSlot(s, env, id);
    } else if CancelOp(s.gate.op) {
      CancelKeepsSlot(s, id);
    } else if RecoverOp(s.gate.op) {
      RecoverKeepsSlot(s, env, id);
    }
  }

  lemma MovesKeepSlot(s: State, s': State, t: Uuid, id: Uuid)
    requires t in s.executors && Moves(s, s', t) && id in s.rows
    ensures SlotKept(s, s', id)
  {
  }

  lemma StepKeepsSlot(s: State, action: Action, id: Uuid)
    requires Inv(s) && Enabled(s, action) && id in s.rows
    ensures SlotKept(s, Apply(s, action), id)
  {
    hide Inv;
    match action
    case OpStep(env) => OpKeepsSlot(s, env, id);
    case ExecutorStep(t, env) =>
      if !s.executors[t].pc.Cleanup? {
        InvLocal(s, t);
        StepKeepsLocal(s, t, env);
        MovesKeepSlot(s, ExecutorApply(s, t, env), t, id);
      }
    case _ =>
  }

  /** A row stored before and after was stored all along. */
  lemma StoredThroughout(s: State, actions: seq<Action>, id: Uuid)
    requires Inv(s) && Possible(s, actions) && actions != []
    requires id in s.rows && id in After(s, actions).rows
    ensures id in Apply(s, actions[0]).rows && SameSlot(s.rows[id], Apply(s, actions[0]).rows[id])
  {
    hide Inv;
    var s1 := Apply(s, actions[0]);
    StepKeepsSlot(s, actions[0], id);
    if id !in s1.rows {
      EndedIsOver(s, id);
      TerminalAbsorbing(s, actions[0], id);
      StepKeepsInv(s, actions[0]);
      OverForever(s1, actions[1..], id);
    }
  }

  // ----- accepted once -----

  /** A record newly accepted is that of the enqueue in progress, whose row is stored. */
  lemma NewlyAccepted(s: State, action: Action, x: Uuid)
    requires Inv(s) && Enabled(s, action) && x !in s.accepted && x in Apply(s, action).accepted
    ensures s.gate.HeldByOp? && s.gate.op.EnqueuePersist? && s.gate.op.a.id == x && Apply(s, action).accepted[x] == s.gate.op.a
    ensures x in s.rows && SameSlot(s.gate.op.a, s.rows[x])
  {
    assert GateOk(s);
    hide Inv, Local, ExecutorApply, OpApply;
    match action
    case OpStep(env) => AcceptedByOp(s, env, x);
    case ExecutorStep(t, env) =>
      InvLocal(s, t);
      ExecutorAcceptsNothing(s, t, env);
    case _ =>
  }

  lemma ExecutorAcceptsNothing(s: State, t: Uuid, env: Env)
    requires VolatileOk(s) && ExecutorEnabled(s, t, env) && Local(s, t)
    ensures ExecutorApply(s, t, env).accepted == s.accepted
  {
    hide Local;
    if !s.executors[t].pc.Cleanup? { StepKeepsLocal(s, t, env); }
  }

  lemma AcceptedByEnqueue(s: State, env: Env, x: Uuid)
    requires OpEnabled(s, env) && EnqueueOp(s.gate.op) && !s.gate.op.EnqueuePersist?
    ensures EnqueueApply(s, s.gate.op, env).accepted == s.accepted
  {
    match s.gate.op
    case EnqueueLaunch(_) =>
    case EnqueueRead(_, _, _) =>
    case EnqueueDecide(_, _, _, _, _) =>
    case EnqueueInsert(_) =>
    case EnqueueLookup(_) =>
    case EnqueueSnapshot(_) =>
    case EnqueuePrune(_) =>
  }

  lemma AcceptedByOp(s: State, env: Env, x: Uuid)
    requires GateOk(s) && OpEnabled(s, env) && x !in s.accepted && x in OpApply(s, env).accepted
    ensures s.gate.op.EnqueuePersist? && s.gate.op.a.id == x && OpApply(s, env).accepted[x] == s.gate.op.a
    ensures x in s.rows && SameSlot(s.gate.op.a, s.rows[x])
  {
    if EnqueueOp(s.gate.op) {
      if s.gate.op.EnqueuePersist? {
        assert OpOk(s, s.gate.op);
      } else {
        AcceptedByEnqueue(s, env, x);
      }
    } else {
      OthersAcceptNothing(s, env);
    }
  }

  lemma ConfirmAcceptsNothing(s: State, env: Env)
    requires OpEnabled(s, env) && ConfirmOp(s.gate.op)
    ensures ConfirmApply(s, s.gate.op, env).accepted == s.accepted
  {
  }

  lemma MissedAcceptsNothing(s: State, env: Env)
    requires OpEnabled(s, env) && MissedOp(s.gate.op)
    ensures MissedApply(s, s.gate.op, env).accepted == s.accepted
  {
  }

  lemma CancelAcceptsNothing(s: State)
    requires s.gate.HeldByOp? && CancelOp(s.gate.op)
    ensures CancelApply(s, s.gate.op).accepted == s.accepted
  {
  }

  lemma RecoverAcceptsNothing(s: State, env: Env)
    requires OpEnabled(s, env) && RecoverOp(s.gate.op)
    ensures RecoverApply(s, s.gate.op, env).accepted == s.accepted
  {
  }

  lemma OthersAcceptNothing(s: State, env: Env)
    requires OpEnabled(s, env) && !EnqueueOp(s.gate.op)
    ensures OpApply(s, env).accepted == s.accepted
  {
    if MissedOp(s.gate.op) {
      MissedAcceptsNothing(s, env);
    } else if ConfirmOp(s.gate.op) {
      ConfirmAcceptsNothing(s, env);
    } else if CancelOp(s.gate.op) {
      CancelAcceptsNothing(s);
    } else if RecoverOp(s.gate.op) {
      RecoverAcceptsNothing(s, env);
    }
  }

  /** Over every run in which a row stays stored, no other record of its automation and event is accepted. */
  lemma {:induction false} AcceptedOnce(s: State, actions: seq<Action>, id: Uuid, x: Uuid)
    requires Inv(s) && Possible(s, actions) && id in s.rows && id in After(s, actions).rows
    requires x != id && x !in s.accepted && x in After(s, actions).accepted
    ensures !SameSlot(After(s, actions).accepted[x], s.rows[id])
    decreases |actions|
  {
    var s1 := Apply(s, actions[0]);
    StoredThroughout(s, actions, id);
    StepKeepsInv(s, actions[0]);
    if x in s1.accepted {
      NewlyAccepted(s, actions[0], x);
      HistoryGrows(s1, actions[1..]);
    } else {
      AcceptedOnce(s1, actions[1..], id, x);
    }
  }

  // ----- one enqueue from its first step to its end -----

  /** The gate is held for the enqueue of one definition and event, or by nobody else's operation. */
  predicate Carries(gate: Gate, d: Definition, e: Event) {
    gate.HeldByOp? ==>
      match gate.op
      case EnqueueRead(d', e', _) => d' == d && e' == e
      case EnqueueDecide(d', e', _, _, _) => d' == d && e' == e
      case EnqueueInsert(a) => a.definition == d && a.event == e
      case EnqueueLookup(a) => a.definition == d && a.event == e
      case EnqueueSnapshot(a) => a.definition == d && a.event == e
      case EnqueuePersist(a) => a.definition == d && a.event == e
      case EnqueueLaunch(_) => true
      case EnqueuePrune(_) => true
      case Leave(_) => true
      case _ => false
  }

  lemma EnqueueCarries(s: State, env: Env, d: Definition, e: Event)
    requires OpEnabled(s, env) && EnqueueOp(s.gate.op) && Carries(s.gate, d, e)
    ensures Carries(EnqueueApply(s, s.gate.op, env).gate, d, e)
  {
    match s.gate.op
    case EnqueueSnapshot(a) => assert Carries(HeldByOp(SnapshotOp(a, env.snapshot)), d, e);
    case EnqueueLaunch(id) => assert EnqueueApply(s, s.gate.op, env).gate == HeldByOp(EnqueuePrune(id));
    case EnqueueRead(_, _, _) =>
    case EnqueueDecide(_, _, _, _, _) =>
    case EnqueueInsert(_) =>
    case EnqueueLookup(_) =>
    case EnqueuePersist(_) =>
    case EnqueuePrune(_) =>
  }

  lemma StepCarries(s: State, action: Action, d: Definition, e: Event)
    requires Inv(s) && Enabled(s, action) && !action.Begin? && !action.Crash? && Carries(s.gate, d, e)
    ensures Carries(Apply(s, action).gate, d, e)
  {
    hide Inv;
    match action
    case OpStep(env) => if EnqueueOp(s.gate.op) { EnqueueCarries(s, env, d, e); }
    case ExecutorStep(t, env) => ExecutorKeepsGate(s, t, env);
    case _ =>
  }

  /** The record an enqueue has accepted is that of the definition and event it was called with. */
  lemma {:induction false} AcceptedAsEnqueued(s: State, actions: seq<Action>, d: Definition, e: Event, x: Uuid)
    requires Inv(s) && Possible(s, actions) && OneOperation(actions) && Carries(s.gate, d, e)
    requires x !in s.accepted && x in After(s, actions).accepted
    ensures After(s, actions).accepted[x].definition == d && After(s, actions).accepted[x].event == e
    decreases |actions|
  {
    hide Inv;
    var s1 := Apply(s, actions[0]);
    OneOperationNext(actions);
    StepCarries(s, actions[0], d, e);
    StepKeepsInv(s, actions[0]);
    if x in s1.accepted {
      NewlyAccepted(s, actions[0], x);
      HistoryGrows(s1, actions[1..]);
    } else {
      AcceptedAsEnqueued(s1, actions[1..], d, e, x);
    }
  }

  /** The row of an automation's event is stored. */
  ghost predicate Stored(rows: map<Uuid, Activity>, d: Definition, e: Event, id: Uuid) {
    id in rows && rows[id].automationId == d.id && rows[id].event.id == e.id
  }

  // ----- a duplicate -----

  /** The enqueue has not yet tried its insertion, has found a duplicate, or is over. */
  predicate Unentered(gate: Gate) {
    gate.HeldByOp? ==>
      gate.op.EnqueueRead? || gate.op.EnqueueDecide? || gate.op.EnqueueInsert? || gate.op.EnqueueLookup? || gate.op.Leave?
  }

  ghost predicate NothingAdded(s: State, s': State) {
    && s'.rows.Keys <= s.rows.Keys && s'.tickets == s.tickets && s'.accepted == s.accepted
    && forall x :: x in s'.active ==> x in s.active && s'.active[x] == s.active[x]
  }

  lemma DuplicateOpStep(s: State, env: Env, d: Definition, e: Event, id: Uuid)
    requires OpEnabled(s, env) && OpOk(s, s.gate.op) && Carries(s.gate, d, e) && Unentered(s.gate) && Stored(s.rows, d, e, id)
    ensures Unentered(OpApply(s, env).gate) && NothingAdded(s, OpApply(s, env))
  {
    match s.gate.op
    case EnqueueInsert(a) => assert SameSlot(s.rows[id], a);
    case EnqueueRead(_, _, _) =>
    case EnqueueDecide(_, _, _, _, _) =>
    case EnqueueLookup(_) =>
    case Leave(_) =>
  }

  lemma ExecutorAddsNothing(s: State, t: Uuid, env: Env)
    requires Inv(s) && ExecutorEnabled(s, t, env)
    ensures NothingAdded(s, ExecutorApply(s, t, env))
  {
    hide Inv;
    if !s.executors[t].pc.Cleanup? {
      InvLocal(s, t);
      StepKeepsLocal(s, t, env);
    }
  }

  lemma DuplicateStep(s: State, action: Action, d: Definition, e: Event, id: Uuid)
    requires Inv(s) && Enabled(s, action) && !action.Begin? && !action.Crash?
    requires Carries(s.gate, d, e) && Unentered(s.gate) && Stored(s.rows, d, e, id)
    ensures Unentered(Apply(s, action).gate) && NothingAdded(s, Apply(s, action))
  {
    match action
    case OpStep(env) =>
      assert OpOk(s, s.gate.op);
      DuplicateOpStep(s, env, d, e, id);
    case ExecutorStep(t, env) =>
      ExecutorKeepsGate(s, t, env);
      ExecutorAddsNothing(s, t, env);
    case _ =>
  }

  /** From its first step to its end, with executors and prunes in between: the enqueue of an event that is on record
      for the automation adds no row, registers and launches nothing, and accepts nothing. */
  lemma {:induction false} DuplicateEnqueue(s: State, actions: seq<Action>, d: Definition, e: Event, id: Uuid)
    requires Inv(s) && Possible(s, actions) && OneOperation(actions)
    requires Carries(s.gate, d, e) && Unentered(s.gate)
    requires Stored(s.rows, d, e, id) && id in After(s, actions).rows
    ensures Unentered(After(s, actions).gate) && NothingAdded(s, After(s, actions))
    decreases |actions|
  {
    hide Inv;
    if actions != [] {
      OneOperationNext(actions);
      StepCarries(s, actions[0], d, e);
      DuplicateStep(s, actions[0], d, e, id);
      StepKeepsInv(s, actions[0]);
      StoredThroughout(s, actions, id);
      DuplicateEnqueue(Apply(s, actions[0]), actions[1..], d, e, id);
    }
  }

  // ----- the one row an enqueue adds -----

  lemma InsertStores(s: State, env: Env, d: Definition, e: Event)
    requires OpEnabled(s, env) && OpOk(s, s.gate.op) && s.gate.op.EnqueueInsert? && Carries(s.gate, d, e)
    ensures exists id :: Stored(s.rows, d, e, id) || Stored(OpApply(s, env).rows, d, e, id)
  {
    var a := s.gate.op.a;
    if Duplicate(s.rows, a) {
      var id :| id in s.rows && SameSlot(s.rows[id], a);
      assert Stored(s.rows, d, e, id);
    } else {
      assert Stored(OpApply(s, env).rows, d, e, a.id);
    }
  }

  predicate Inserting(gate: Gate) {
    gate.HeldByOp? && (gate.op.EnqueueRead? || gate.op.EnqueueDecide? || gate.op.EnqueueInsert?)
  }

  /** An enqueue that has come to its end stored the row of its event, or found it stored. */
  lemma {:induction false} EnqueueStores(s: State, actions: seq<Action>, d: Definition, e: Event) returns (k: nat, id: Uuid)
    requires Inv(s) && Possible(s, actions) && OneOperation(actions) && Carries(s.gate, d, e) && Inserting(s.gate)
    requires !Inserting(After(s, actions).gate)
    ensures k <= |actions| && Possible(s, actions[..k]) && Stored(After(s, actions[..k]).rows, d, e, id)
    decreases |actions|
  {
    hide Inv;
    var s1 := Apply(s, actions[0]);
    OneOperationNext(actions);
    StepCarries(s, actions[0], d, e);
    StepKeepsInv(s, actions[0]);
    if Inserting(s1.gate) {
      k, id := EnqueueStores(s1, actions[1..], d, e);
      assert actions[..k + 1][1..] == actions[1..][..k];
      k := k + 1;
    } else {
      k, id := InsertionStores(s, actions, d, e);
    }
  }

  /** The step that tries the insertion. */
  lemma InsertionStores(s: State, actions: seq<Action>, d: Definition, e: Event) returns (k: nat, id: Uuid)
    requires Inv(s) && Possible(s, actions) && OneOperation(actions) && Carries(s.gate, d, e) && Inserting(s.gate)
    requires actions != [] && !Inserting(Apply(s, actions[0]).gate)
    ensures k <= |actions| && Possible(s, actions[..k]) && Stored(After(s, actions[..k]).rows, d, e, id)
  {
    hide Inv;
    OneOperationNext(actions);
    InsertingEnds(s, actions[0]);
    InsertStores(s, actions[0].env, d, e);
    id :| Stored(s.rows, d, e, id) || Stored(OpApply(s, actions[0].env).rows, d, e, id);
    if Stored(s.rows, d, e, id) {
      assert actions[..0] == [];
      return 0, id;
    } else {
      OneStep(s, actions[0]);
      assert actions[..1] == [actions[0]];
      return 1, id;
    }
  }

  lemma StillInserting(s: State, env: Env)
    requires OpEnabled(s, env) && (s.gate.op.EnqueueRead? || s.gate.op.EnqueueDecide?)
    ensures Inserting(OpApply(s, env).gate)
  {
  }

  lemma InsertingEnds(s: State, action: Action)
    requires Inv(s) && Enabled(s, action) && !action.Begin? && !action.Crash?
    requires Inserting(s.gate) && !Inserting(Apply(s, action).gate)
    ensures action.OpStep? && s.gate.op.EnqueueInsert? && OpOk(s, s.gate.op)
  {
    if action.ExecutorStep? {
      ExecutorKeepsGate(s, action.ticket, action.env);
    } else if action.OpStep? && !s.gate.op.EnqueueInsert? {
      StillInserting(s, action.env);
    }
  }

  /** A row an enqueue adds is that of its automation and event. */
  lemma {:induction false} EnqueueAddsOnlyItsRow(s: State, actions: seq<Action>, d: Definition, e: Event, x: Uuid)
    requires Inv(s) && Possible(s, actions) && OneOperation(actions) && Carries(s.gate, d, e)
    requires x !in s.rows && x in After(s, actions).rows
    ensures Stored(After(s, actions).rows, d, e, x)
    decreases |actions|
  {
    hide Inv;
    var s1 := Apply(s, actions[0]);
    OneOperationNext(actions);
    StepCarries(s, actions[0], d, e);
    StepKeepsInv(s, actions[0]);
    if x in s1.rows {
      RowAdded(s, actions[0], d, e, x);
      SlotStays(s1, actions[1..], x);
    } else {
      EnqueueAddsOnlyItsRow(s1, actions[1..], d, e, x);
    }
  }

  lemma {:induction false} SlotStays(s: State, actions: seq<Action>, id: Uuid)
    requires Inv(s) && Possible(s, actions) && id in s.rows && id in After(s, actions).rows
    ensures SameSlot(s.rows[id], After(s, actions).rows[id])
    decreases |actions|
  {
    hide Inv;
    if actions != [] {
      StoredThroughout(s, actions, id);
      StepKeepsInv(s, actions[0]);
      SlotStays(Apply(s, actions[0]), actions[1..], id);
    }
  }

  lemma RowAdded(s: State, action: Action, d: Definition, e: Event, x: Uuid)
    requires Inv(s) && Enabled(s, action) && !action.Begin? && !action.Crash? && Carries(s.gate, d, e)
    requires x !in s.rows && x in Apply(s, action).rows
    ensures Stored(Apply(s, action).rows, d, e, x)
  {
    match action
    case OpStep(env) =>
      assert OpOk(s, s.gate.op);
      RowAddedByOp(s, env, d, e, x);
    case ExecutorStep(t, env) => ExecutorAddsNothing(s, t, env);
    case _ =>
  }

  lemma RowAddedByOp(s: State, env: Env, d: Definition, e: Event, x: Uuid)
    requires OpEnabled(s, env) && OpOk(s, s.gate.op) && Carries(s.gate, d, e)
    requires x !in s.rows && x in OpApply(s, env).rows
    ensures Stored(OpApply(s, env).rows, d, e, x)
  {
    if EnqueueOp(s.gate.op) {
      if s.gate.op.EnqueueInsert? { InsertAdds(s, env, d, e, x); } else { OthersAddNoRow(s, env); }
    }
  }

  lemma InsertAdds(s: State, env: Env, d: Definition, e: Event, x: Uuid)
    requires OpEnabled(s, env) && s.gate.op.EnqueueInsert? && OpOk(s, s.gate.op) && Carries(s.gate, d, e)
    requires x !in s.rows && x in EnqueueApply(s, s.gate.op, env).rows
    ensures Stored(EnqueueApply(s, s.gate.op, env).rows, d, e, x)
  {
  }

  lemma OthersAddNoRow(s: State, env: Env)
    requires OpEnabled(s, env) && EnqueueOp(s.gate.op) && !s.gate.op.EnqueueInsert?
    ensures EnqueueApply(s, s.gate.op, env).rows.Keys <= s.rows.Keys
  {
    match s.gate.op
    case EnqueueRead(_, _, _) =>
    case EnqueueDecide(_, _, _, _, _) =>
    case EnqueueLookup(_) =>
    case EnqueueSnapshot(_) =>
    case EnqueuePersist(_) =>
    case EnqueueLaunch(_) =>
    case EnqueuePrune(_) =>
  }
}
