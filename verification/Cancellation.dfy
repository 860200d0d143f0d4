/**
 A cancellation is decisive: whatever happens afterwards, the run asks for nothing more, and at most
 the one step already past its last check is still handed over.
 */
module Cancellation {
  import opened Model
  import opened Protocol
  import opened Invariant
  import opened ExecutorSteps
  import opened OpSteps
  import opened Ownership
  import opened Endings
  import opened Confirmations

  /** The run's executor may still write, but its token is set. */
  ghost predicate Doomed(s: State, t: Uuid, id: Uuid) {
    t in s.executors && s.executors[t].id == id && Writer(s.executors[t].pc) && t in s.canceled
  }

  /** A crash has cut the run off; recovery will interrupt it. */
  ghost predicate CutOff(s: State, id: Uuid) {
    && Recovering(s.gate) && id in s.journal && id in s.rows
    && (s.rows[id].status.Queued? || s.rows[id].status.Running?)
  }

  ghost predicate Sealed(s: State, t: Uuid, id: Uuid) {
    Over(s, id) || CutOff(s, id) || Doomed(s, t, id)
  }

  /** The executor has passed the check after `Running` was stored (src/engine.rs:536) and has not
      handed the step over yet. */
  ghost predicate PastCheck(s: State, t: Uuid, id: Uuid) {
    Doomed(s, t, id) && s.executors[t].pc.Checked?
  }

  ghost function Entries(s: State, id: Uuid): seq<Entry> {
    if id in s.journal then s.journal[id] else []
  }

  /** Nothing new, or the one step that was past its check. */
  ghost predicate AtMostThatStep(s: State, s': State, t: Uuid, id: Uuid) {
    || Entries(s', id) == Entries(s, id)
    || (&& PastCheck(s, t, id) && !PastCheck(s', t, id)
        && exists e: Entry :: e.Handed? && e.index == s.executors[t].pc.i && Entries(s', id) == Entries(s, id) + [e])
  }

  /** What a step of the doomed executor itself leads to. */
  ghost predicate DoomedNext(s: State, s': State, t: Uuid, id: Uuid) {
    && (Doomed(s', t, id) || (id in s'.rows && s'.rows[id].status.Terminal()))
    && !PastCheck(s', t, id) && AtMostThatStep(s, s', t, id)
    && id in s'.journal && (s'.gate.HeldByOp? ==> s'.gate == s.gate)
  }

  /** A set token lets no step newly pass its check. */
  ghost predicate NoNewCheck(s: State, s': State, t: Uuid, id: Uuid) {
    PastCheck(s', t, id) ==>
      PastCheck(s, t, id) && s'.executors[t].pc == s.executors[t].pc && Entries(s', id) == Entries(s, id)
  }

  /** Moving on without a journal entry, to anything but the last check. */
  lemma DoomedGoto(s: State, s': State, t: Uuid)
    requires t in s.executors && Local(s, t) && t in s.canceled && Writer(s.executors[t].pc)
    requires t in s'.executors && s'.executors == s.executors[t := s.executors[t].(pc := s'.executors[t].pc)]
    requires s'.journal == s.journal && s'.canceled == s.canceled && (s'.gate == s.gate || !s'.gate.HeldByOp?)
    requires Writer(s'.executors[t].pc) && !s'.executors[t].pc.Checked?
    ensures DoomedNext(s, s', t, s.executors[t].id)
  {
    hide Local;
    WriterFacts(s, t);
  }

  lemma DoomedLoopStep(s: State, t: Uuid, env: Env)
    requires ExecutorEnabled(s, t, env) && Local(s, t) && t in s.canceled && s.executors[t].pc.Loop?
    ensures DoomedNext(s, ExecutorApply(s, t, env), t, s.executors[t].id)
  {
    hide Local;
    var s' := ExecutorApply(s, t, env);
    assert s' == Goto(s, t, LoopPc(s.executors[t].pc.a, s.executors[t].pc.i, true));
    DoomedGoto(s, s', t);
  }

  lemma DoomedQuietStep(s: State, t: Uuid, env: Env)
    requires ExecutorEnabled(s, t, env) && Local(s, t) && t in s.canceled && Writer(s.executors[t].pc)
    requires var pc := s.executors[t].pc;
      pc.Start? || pc.Acquire? || pc.WaitGate? || pc.PostCheck? || pc.Executing? || pc.Gated?
    ensures DoomedNext(s, ExecutorApply(s, t, env), t, s.executors[t].id)
  {
    hide Local;
    var s' := ExecutorApply(s, t, env);
    match s.executors[t].pc
    case Start => DoomedGoto(s, s', t);
    case Acquire(_) => DoomedGoto(s, s', t);
    case WaitGate(_, _) => DoomedGoto(s, s', t);
    case PostCheck(_, _) => DoomedGoto(s, s', t);
    case Executing(_, _) => DoomedGoto(s, s', t);
    case Gated(_, _) => DoomedGoto(s, s', t);
  }

  lemma DoomedSaveStep(s: State, t: Uuid, env: Env)
    requires ExecutorEnabled(s, t, env) && Local(s, t) && t in s.canceled && Writer(s.executors[t].pc)
    requires var pc := s.executors[t].pc; pc.PersistRunning? || pc.PersistStep? || pc.PersistFinal?
    ensures DoomedNext(s, ExecutorApply(s, t, env), t, s.executors[t].id)
  {
    var s' := ExecutorApply(s, t, env);
    assert s'.journal == s.journal;
    WriterFacts(s, t);
  }

  lemma DoomedRefusedStep(s: State, t: Uuid, env: Env)
    requires ExecutorEnabled(s, t, env) && Local(s, t) && t in s.canceled && s.executors[t].pc.Checked?
    requires LockRefuses(s.executors[t].pc, env.locked)
    ensures DoomedNext(s, ExecutorApply(s, t, env), t, s.executors[t].id)
  {
    hide Local;
    var s' := ExecutorApply(s, t, env);
    WriterFacts(s, t);
    assert s' == Goto(s, t, Stopped(s.executors[t].pc.a, s.executors[t].pc.i, Canceled));
  }

  lemma DoomedHandOver(s: State, t: Uuid, env: Env)
    requires ExecutorEnabled(s, t, env) && Local(s, t) && t in s.canceled && s.executors[t].pc.Checked?
    requires !LockRefuses(s.executors[t].pc, env.locked)
    ensures DoomedNext(s, ExecutorApply(s, t, env), t, s.executors[t].id)
  {
    hide Local;
    var a, i, id := s.executors[t].pc.a, s.executors[t].pc.i, s.executors[t].id;
    var e := Handed(i, a.steps[i].step, a.steps[i].action);
    WriterFacts(s, t);
    assert SnapshotTaken(s.accepted[id], i) && SameStep(a.steps[i], s.accepted[id].steps[i]);
    assert ExecutorApply(s, t, env) == Goto(s.(journal := Record(s.journal, id, e)), t, Executing(a, i));
    assert Entries(ExecutorApply(s, t, env), id) == Entries(s, id) + [e];
  }

  lemma DoomedOwnStep(s: State, t: Uuid, env: Env)
    requires ExecutorEnabled(s, t, env) && Local(s, t) && t in s.canceled && Writer(s.executors[t].pc)
    ensures DoomedNext(s, ExecutorApply(s, t, env), t, s.executors[t].id)
  {
    hide Local;
    match s.executors[t].pc
    case Checked(_, _) =>
      if LockRefuses(s.executors[t].pc, env.locked) { DoomedRefusedStep(s, t, env); } else { DoomedHandOver(s, t, env); }
    case Loop(_, _) => DoomedLoopStep(s, t, env);
    case PersistRunning(_, _) => DoomedSaveStep(s, t, env);
    case PersistStep(_, _) => DoomedSaveStep(s, t, env);
    case PersistFinal(_) => DoomedSaveStep(s, t, env);
    case GatedPersist(_) => WriterFacts(s, t);
    case ErrorRead => WriterFacts(s, t);
    case ErrorPersist(_) => WriterFacts(s, t);
    case _ => DoomedQuietStep(s, t, env);
  }

  /** Everybody else leaves the doomed run alone; a crash cuts it off. */
  lemma DoomedStep(s: State, action: Action, t: Uuid, id: Uuid)
    requires Inv(s) && Enabled(s, action) && Doomed(s, t, id)
    ensures Sealed(Apply(s, action), t, id) && AtMostThatStep(s, Apply(s, action), t, id)
    ensures NoNewCheck(s, Apply(s, action), t, id)
  {
    InvLocal(s, t);
    WriterRow(s, t);
    if OwnStep(action, t) {
      DoomedOwnStep(s, t, action.env);
      OwnStepSeals(s, t, action.env);
    } else if action.Crash? {
      assert CutOff(Apply(s, action), id);
    } else {
      WriterLeftAlone(s, action, t);
    }
  }

  lemma OwnStepSeals(s: State, t: Uuid, env: Env)
    requires GateOk(s) && ExecutorEnabled(s, t, env) && Local(s, t) && Writer(s.executors[t].pc)
    requires DoomedNext(s, ExecutorApply(s, t, env), t, s.executors[t].id)
    ensures Sealed(ExecutorApply(s, t, env), t, s.executors[t].id)
  {
    hide Local;
    WriterRow(s, t);
  }

  lemma CutOffStep(s: State, action: Action, id: Uuid)
    requires Inv(s) && Enabled(s, action) && CutOff(s, id)
    ensures Over(Apply(s, action), id) || CutOff(Apply(s, action), id)
    ensures Entries(Apply(s, action), id) == Entries(s, id)
  {
    RecoveringIsAlone(s);
    if action.OpStep? {
      CutOffFacts(s, id);
      CutOffOpStep(s, action.env, id);
    }
  }

  lemma CutOffFacts(s: State, id: Uuid)
    requires RowsOk(s) && GateOk(s) && CutOff(s, id)
    ensures OpOk(s, s.gate.op) && s.rows[id].id == id
  {
    assert RowOk(s, id);
  }

  lemma CutOffOpStep(s: State, env: Env, id: Uuid)
    requires OpEnabled(s, env) && CutOff(s, id) && OpOk(s, s.gate.op) && s.rows[id].id == id
    ensures Over(OpApply(s, env), id) || CutOff(OpApply(s, env), id)
    ensures Entries(OpApply(s, env), id) == Entries(s, id)
  {
    match s.gate.op
    case RecoverRead =>
    case RecoverLoop(todo) =>
      if todo != [] && todo[0].id != id { assert Save(s.rows, Interrupt(todo[0]))[id] == s.rows[id]; }
  }

  lemma RecoveringIsAlone(s: State)
    requires GateOk(s) && Recovering(s.gate)
    ensures s.executors == map[]
  {
    assert OpOk(s, s.gate.op);
  }

  lemma OverIsNotDoomed(s: State, t: Uuid, id: Uuid)
    requires Inv(s) && (Over(s, id) || CutOff(s, id))
    ensures !Doomed(s, t, id)
  {
    if CutOff(s, id) {
      RecoveringIsAlone(s);
    } else if Doomed(s, t, id) {
      InvLocal(s, t);
      WriterRow(s, t);
    }
  }

  lemma SealedStep(s: State, action: Action, t: Uuid, id: Uuid)
    requires Inv(s) && Enabled(s, action) && Sealed(s, t, id)
    ensures Sealed(Apply(s, action), t, id) && AtMostThatStep(s, Apply(s, action), t, id)
    ensures NoNewCheck(s, Apply(s, action), t, id)
  {
    hide Inv;
    StepKeepsInv(s, action);
    if Over(s, id) {
      TerminalAbsorbing(s, action, id);
      OverIsNotDoomed(Apply(s, action), t, id);
    } else if CutOff(s, id) {
      CutOffStep(s, action, id);
      OverIsNotDoomed(Apply(s, action), t, id);
    } else {
      DoomedStep(s, action, t, id);
    }
  }

  lemma {:induction false} SealedRun(s: State, actions: seq<Action>, t: Uuid, id: Uuid)
    requires Inv(s) && Possible(s, actions) && Sealed(s, t, id)
    ensures Sealed(After(s, actions), t, id)
    ensures AtMostThatStep(s, After(s, actions), t, id) && NoNewCheck(s, After(s, actions), t, id)
    decreases |actions|
  {
    hide Inv;
    if actions != [] {
      SealedStep(s, actions[0], t, id);
      StepKeepsInv(s, actions[0]);
      SealedRun(Apply(s, actions[0]), actions[1..], t, id);
    }
  }

  /** Once a cancellation has set the token of a live run, then after any further actions, by anybody
      and with any crashes: at most the one step already past its check has been handed over since,
      nothing has been granted, the run does not wait for the user, and a confirmation of it fails. */
  lemma CancelIsDecisive(s: State, actions: seq<Action>, t: Uuid, id: Uuid, env: Env)
    requires Reachable(s) && Possible(s, actions) && Doomed(s, t, id)
    ensures var s' := After(s, actions);
      && AtMostThatStep(s, s', t, id)
      && (id in s'.rows ==> !s'.rows[id].status.AwaitingConfirmation?)
      && (s'.gate == HeldByOp(ConfirmRead(id)) ==>
            OpEnabled(s', env) && OpApply(s', env).gate.HeldByOp?
            && OpApply(s', env).gate.op.Leave? && OpApply(s', env).gate.op.outcome.Err?)
  {
    hide Inv, Possible, AtMostThatStep;
    var s' := After(s, actions);
    ReachableOk(s);
    SealedRun(s, actions, t, id);
    RunKeepsInv(s, actions);
    if Doomed(s', t, id) {
      InvLocal(s', t);
      WriterRow(s', t);
    }
    if s'.gate == HeldByOp(ConfirmRead(id)) { ConfirmRefused(s', id, env); }
  }

  lemma ConfirmRefused(s: State, id: Uuid, env: Env)
    requires s.gate == HeldByOp(ConfirmRead(id)) && (id in s.rows ==> !s.rows[id].status.AwaitingConfirmation?)
    ensures OpEnabled(s, env) && OpApply(s, env).gate.HeldByOp?
    ensures OpApply(s, env).gate.op.Leave? && OpApply(s, env).gate.op.outcome.Err?
  {
  }

  /** The lookup of a cancellation on a registered run either sets the token of its live executor or
      finds the run over; in every other case the write that follows ends the run. */
  lemma LookupSeals(s: State)
    requires Reachable(s) && s.gate.HeldByOp? && s.gate.op.CancelLookup?
    requires s.gate.op.a.id in s.active && !s.gate.op.a.status.AwaitingConfirmation?
    ensures var a := s.gate.op.a;
      Sealed(CancelApply(s, s.gate.op), s.active[a.id], a.id)
  {
    var id := s.gate.op.a.id;
    ReachableOk(s);
    LookupFinds(s);
    assert CancelApply(s, s.gate.op) == ToOp(s.(canceled := s.canceled + {s.active[id]}), Leave(Ok(None)));
  }

  lemma LookupFinds(s: State)
    requires RowsOk(s) && HistoriesOk(s) && VolatileOk(s) && GateOk(s) && s.gate.HeldByOp? && s.gate.op.CancelLookup?
    requires s.gate.op.a.id in s.active && !s.gate.op.a.status.AwaitingConfirmation?
    ensures var id := s.gate.op.a.id; var t := s.active[id];
      && id in s.journal && t in s.executors && s.executors[t].id == id
      && (Writer(s.executors[t].pc) || (id in s.rows ==> s.rows[id].status.Terminal()))
  {
    var a := s.gate.op.a;
    assert OpOk(s, s.gate.op);
    if a.id in s.rows { assert RowOk(s, a.id); }
  }

  lemma WriteSeals(s: State)
    requires Reachable(s) && s.gate.HeldByOp? && s.gate.op.CancelPersist?
    ensures Over(CancelApply(s, s.gate.op), s.gate.op.a.id)
  {
    ReachableOk(s);
    assert OpOk(s, s.gate.op);
  }

  // ----- what a cancellation answers -----

  /** The operation under the gate is the cancellation of `id`, or its end, and is to answer `outcome`. */
  ghost predicate Cancels(s: State, id: Uuid, outcome: Result<Option<Uuid>>) {
    s.gate.HeldByOp? &&
      match s.gate.op
      case CancelRead(x) => x == id && outcome == if id in s.rows then Ok(None) else Err(NotFound)
      case CancelLookup(_) => outcome == Ok(None)
      case CancelPersist(_) => outcome == Ok(None)
      case Leave(o) => outcome == o
      case _ => false
  }

  lemma CancelTurn(s: State, at: State, id: Uuid, outcome: Result<Option<Uuid>>)
    requires s.gate.HeldByOp? && CancelOp(s.gate.op) && (s.gate.op.CancelRead? ==> s.gate.op.id == id)
    ensures var s' := CancelApply(s, s.gate.op); s'.gate.HeldByOp? && !s'.gate.op.CancelRead?
    ensures var s' := CancelApply(s, s.gate.op);
      (CancelOp(s'.gate.op) || s'.gate.op.Leave?) && (at.gate == s'.gate && Cancels(at, id, outcome) ==> Cancels(s, id, outcome))
  {
    match s.gate.op
    case CancelRead(_) =>
    case CancelLookup(_) =>
    case CancelPersist(_) =>
  }

  lemma {:induction false} CancelRun(s: State, actions: seq<Action>, id: Uuid, outcome: Result<Option<Uuid>>)
    requires Reachable(s) && s.gate.HeldByOp? && (CancelOp(s.gate.op) || s.gate.op.Leave?)
    requires s.gate.op.CancelRead? ==> s.gate.op.id == id
    requires Possible(s, actions) && OneOperation(actions) && After(s, actions).gate == HeldByOp(Leave(outcome))
    ensures AtFirst(s, actions).gate == s.gate && Cancels(AtFirst(s, actions), id, outcome)
    decreases |actions|
  {
    if actions != [] {
      var s1, rest := Apply(s, actions[0]), actions[1..];
      OneOperationNext(actions);
      if !actions[0].OpStep? {
        StepBeside(s, actions[0], id);
        CancelRun(s1, rest, id, outcome);
      } else if s.gate.op.Leave? {
        LeavesOnce(s, actions);
      } else {
        ReachNext(s, actions[0]);
        CancelTurn(s, AtFirst(s1, rest), id, outcome);
        CancelRun(s1, rest, id, outcome);
      }
    }
  }

  /** A cancellation, with executors and prunes in between, reports a missing row if and only if there is none as it
      reads; every other it answers with success. */
  lemma CancelExactly(s: State, actions: seq<Action>, id: Uuid, outcome: Result<Option<Uuid>>)
    requires Reachable(s) && s.gate == HeldByOp(CancelRead(id)) && Possible(s, actions) && OneOperation(actions)
    requires After(s, actions).gate == HeldByOp(Leave(outcome))
    ensures outcome == if id in AtFirst(s, actions).rows then Ok(None) else Err(NotFound)
  {
    CancelRun(s, actions, id, outcome);
  }
}
