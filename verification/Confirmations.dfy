/**
 What a confirmation answers and what it grants, from its first step to its end, with executors and prunes acting in
 between.
 */
module Confirmations {
  import opened Model
  import opened Protocol
  import opened Invariant
  import opened ExecutorSteps
  import opened OpSteps
  import opened Interleavings

  ghost predicate Waits(s: State, id: Uuid) {
    id in s.rows && s.rows[id].status.AwaitingConfirmation?
  }

  // ----- beside a confirmation -----

  /** Executors and prunes add no row, and under an operation none of them makes a row wait or changes one that does. */
  ghost predicate LeavesWaits(s: State, s': State, id: Uuid) {
    && (id !in s.rows ==> id !in s'.rows) && (Waits(s', id) ==> Waits(s, id)) && s.tickets <= s'.tickets
    && (Waits(s, id) ==> Waits(s', id) && s'.rows[id] == s.rows[id])
    && (Waits(s, id) && id in s.journal ==> id in s'.journal && s'.journal[id] == s.journal[id])
  }

  lemma MovesLeaveWaits(s: State, s': State, t: Uuid, id: Uuid)
    requires s.gate.HeldByOp? && t in s.executors && Moves(s, s', t)
    requires Writer(s.executors[t].pc) ==> !Waits(s, s.executors[t].id)
    ensures LeavesWaits(s, s', id)
  {
  }

  lemma ExecutorLeavesWaits(s: State, t: Uuid, env: Env, id: Uuid)
    requires Inv(s) && s.gate.HeldByOp? && ExecutorEnabled(s, t, env)
    ensures LeavesWaits(s, ExecutorApply(s, t, env), id) && ExecutorApply(s, t, env).gate == s.gate
  {
    hide Inv;
    ExecutorKeepsGate(s, t, env);
    InvLocal(s, t);
    if !s.executors[t].pc.Cleanup? {
      StepKeepsLocal(s, t, env);
      if Writer(s.executors[t].pc) { WriterFacts(s, t); }
      MovesLeaveWaits(s, ExecutorApply(s, t, env), t, id);
    }
  }

  lemma BesideLeavesWaits(s: State, action: Action, id: Uuid)
    requires Inv(s) && s.gate.HeldByOp? && Enabled(s, action) && (action.ExecutorStep? || action.ClearActivities?)
    ensures LeavesWaits(s, Apply(s, action), id) && Apply(s, action).gate == s.gate
  {
    hide Inv;
    if action.ExecutorStep? { ExecutorLeavesWaits(s, action.ticket, action.env, id); }
  }

  // ----- its answer -----

  /** The operation under the gate is the confirmation of `id`, or its end. */
  predicate Confirming(gate: Gate, id: Uuid) {
    gate.HeldByOp? &&
      match gate.op
      case ConfirmRead(x) => x == id
      case ConfirmEnvironment(a) => a.id == id
      case ConfirmPersist(a, _, _) => a.id == id
      case ConfirmLaunch(x) => x == id
      case Leave(_) => true
      case _ => false
  }

  /** The answer as it follows from where the confirmation stands. */
  ghost predicate Answers(s: State, id: Uuid, locked: bool, outcome: Result<Option<Uuid>>)
    requires Confirming(s.gate, id)
  {
    match s.gate.op
    case ConfirmRead(_) =>
      outcome == if id !in s.rows then Err(NotFound) else if Waits(s, id) && !locked then Ok(None) else Err(Invalid)
    case ConfirmEnvironment(_) => outcome == if locked then Err(Invalid) else Ok(None)
    case Leave(o) => outcome == o
    case _ => outcome == Ok(None)
  }

  /** A step of the confirmation touches row, journal and registration of `id` only, and nothing when it is refused. */
  ghost predicate Touches(s: State, s': State, id: Uuid, outcome: Result<Option<Uuid>>) {
    && (outcome.Err? ==> s' == s.(gate := s'.gate))
    && (forall x :: x != id ==> (x in s.rows <==> x in s'.rows) && (x in s.rows ==> s'.rows[x] == s.rows[x]))
    && (forall x :: x != id ==> (x in s.journal <==> x in s'.journal) && (x in s.journal ==> s'.journal[x] == s.journal[x]))
    && (forall x :: x != id ==> (x in s.active <==> x in s'.active) && (x in s.active ==> s'.active[x] == s.active[x]))
    && s'.canceled == s.canceled && s'.permits == s.permits && s'.accepted == s.accepted
  }

  ghost predicate TouchesOnly(s: State, actions: seq<Action>, id: Uuid, outcome: Result<Option<Uuid>>)
    requires Possible(s, actions)
    decreases |actions|
  {
    actions == [] ||
    (&& (actions[0].OpStep? ==> Touches(s, Apply(s, actions[0]), id, outcome))
     && TouchesOnly(Apply(s, actions[0]), actions[1..], id, outcome))
  }

  lemma ConfirmAnswers(s: State, env: Env, id: Uuid, locked: bool, outcome: Result<Option<Uuid>>)
    requires OpEnabled(s, env) && Confirming(s.gate, id) && !s.gate.op.Leave? && (id in s.rows ==> s.rows[id].id == id)
    requires s.gate.op.ConfirmEnvironment? ==> env.locked == locked
    ensures var s' := ConfirmApply(s, s.gate.op, env);
      Confirming(s'.gate, id) && !s'.gate.op.ConfirmRead?
      && (Answers(s', id, locked, outcome) ==> Answers(s, id, locked, outcome))
  {
    match s.gate.op
    case ConfirmRead(_) =>
    case ConfirmEnvironment(a) => assert Confirmed(a).id == a.id;
    case ConfirmPersist(a, _, _) => assert ConfirmApply(s, s.gate.op, env).gate == HeldByOp(ConfirmLaunch(a.id));
    case ConfirmLaunch(_) => assert ConfirmApply(s, s.gate.op, env).gate == HeldByOp(Leave(Ok(None)));
  }

  lemma ConfirmTouches(s: State, env: Env, id: Uuid, locked: bool, outcome: Result<Option<Uuid>>)
    requires OpEnabled(s, env) && Confirming(s.gate, id) && !s.gate.op.Leave? && Answers(s, id, locked, outcome)
    ensures Touches(s, ConfirmApply(s, s.gate.op, env), id, outcome)
  {
    match s.gate.op
    case ConfirmRead(_) =>
    case ConfirmEnvironment(a) =>
    case ConfirmPersist(a, _, _) =>
    case ConfirmLaunch(_) =>
  }

  lemma StepBeside(s: State, action: Action, id: Uuid)
    requires Reachable(s) && s.gate.HeldByOp? && Enabled(s, action) && (action.ExecutorStep? || action.ClearActivities?)
    ensures Reachable(Apply(s, action)) && Apply(s, action).gate == s.gate && LeavesWaits(s, Apply(s, action), id)
  {
    ReachableOk(s);
    BesideLeavesWaits(s, action, id);
    ReachNext(s, action);
  }

  lemma {:induction false} BesideFirst(s: State, actions: seq<Action>, id: Uuid)
    requires Reachable(s) && s.gate.HeldByOp? && Possible(s, actions) && OneOperation(actions)
    ensures LeavesWaits(s, AtFirst(s, actions), id) && AtFirst(s, actions).gate == s.gate && Reachable(AtFirst(s, actions))
    decreases |actions|
  {
    if actions != [] && !actions[0].OpStep? {
      OneOperationNext(actions);
      StepBeside(s, actions[0], id);
      BesideFirst(Apply(s, actions[0]), actions[1..], id);
    }
  }

  /** Without a new operation a gate that no operation holds stays so. */
  lemma {:induction false} GateStaysFree(s: State, actions: seq<Action>)
    requires Reachable(s) && !s.gate.HeldByOp? && Possible(s, actions) && OneOperation(actions)
    ensures !After(s, actions).gate.HeldByOp?
    decreases |actions|
  {
    if actions != [] {
      OneOperationNext(actions);
      ReachableOk(s);
      if actions[0].ExecutorStep? { ExecutorKeepsGate(s, actions[0].ticket, actions[0].env); }
      ReachNext(s, actions[0]);
      GateStaysFree(Apply(s, actions[0]), actions[1..]);
    }
  }

  /** After its last step an operation does not end again. */
  lemma LeavesOnce(s: State, actions: seq<Action>)
    requires Reachable(s) && s.gate.HeldByOp? && s.gate.op.Leave? && Possible(s, actions) && OneOperation(actions)
    requires actions != [] && actions[0].OpStep?
    ensures !After(s, actions).gate.HeldByOp?
  {
    OneOperationNext(actions);
    ReachNext(s, actions[0]);
    GateStaysFree(Apply(s, actions[0]), actions[1..]);
  }

  lemma {:induction false} ObservesOne(g: Grip, s: State, actions: seq<Action>)
    requires Possible(s, actions) && Observes(g, s, actions)
    ensures OneOperation(actions)
    decreases |actions|
  {
    if actions != [] {
      ObservesOne(g, Apply(s, actions[0]), actions[1..]);
      assert forall k :: 0 < k < |actions| ==> actions[k] == actions[1..][k - 1];
    }
  }

  /** One step of a confirmation that will answer `outcome`. */
  lemma ConfirmStep(s: State, env: Env, id: Uuid, locked: bool, outcome: Result<Option<Uuid>>)
    requires Reachable(s) && OpEnabled(s, env) && Confirming(s.gate, id) && !s.gate.op.Leave?
    requires s.gate.op.ConfirmEnvironment? ==> env.locked == locked
    ensures var s' := OpApply(s, env);
      && Reachable(s') && Confirming(s'.gate, id) && !s'.gate.op.ConfirmRead?
      && (Answers(s', id, locked, outcome) ==> Answers(s, id, locked, outcome))
  {
    KeyedById(s);
    ReachNext(s, OpStep(env));
    ConfirmAnswers(s, env, id, locked, outcome);
  }

  lemma SameAnswers(s: State, s': State, id: Uuid, locked: bool, outcome: Result<Option<Uuid>>)
    requires s.gate == s'.gate && Confirming(s.gate, id) && !s.gate.op.ConfirmRead?
    ensures Answers(s, id, locked, outcome) <==> Answers(s', id, locked, outcome)
  {
  }

  lemma {:induction false} ConfirmRun(g: Grip, s: State, actions: seq<Action>, id: Uuid, outcome: Result<Option<Uuid>>)
    requires Reachable(s) && Confirming(s.gate, id) && Possible(s, actions) && Observes(g, s, actions)
    requires After(s, actions).gate == HeldByOp(Leave(outcome))
    ensures AtFirst(s, actions).gate == s.gate && Answers(AtFirst(s, actions), id, g.locked, outcome)
    decreases |actions|
  {
    if actions != [] {
      var action, rest := actions[0], actions[1..];
      ObservesOne(g, s, actions);
      OneOperationNext(actions);
      if !action.OpStep? {
        StepBeside(s, action, id);
        ConfirmRun(g, Apply(s, action), rest, id, outcome);
      } else if s.gate.op.Leave? {
        LeavesOnce(s, actions);
      } else {
        ConfirmStep(s, action.env, id, g.locked, outcome);
        ConfirmRun(g, Apply(s, action), rest, id, outcome);
        SameAnswers(AtFirst(Apply(s, action), rest), Apply(s, action), id, g.locked, outcome);
      }
    }
  }

  lemma {:induction false} ConfirmRunTouches(g: Grip, s: State, actions: seq<Action>, id: Uuid, outcome: Result<Option<Uuid>>)
    requires Reachable(s) && Confirming(s.gate, id) && Possible(s, actions) && Observes(g, s, actions)
    requires After(s, actions).gate == HeldByOp(Leave(outcome))
    ensures TouchesOnly(s, actions, id, outcome)
    decreases |actions|
  {
    if actions != [] {
      var action, rest := actions[0], actions[1..];
      ObservesOne(g, s, actions);
      OneOperationNext(actions);
      if !action.OpStep? {
        StepBeside(s, action, id);
      } else if s.gate.op.Leave? {
        LeavesOnce(s, actions);
      } else {
        ConfirmStep(s, action.env, id, g.locked, outcome);
        ConfirmRun(g, s, actions, id, outcome);
        ConfirmTouches(s, action.env, id, g.locked, outcome);
      }
      ConfirmRunTouches(g, Apply(s, action), rest, id, outcome);
    }
  }

  /** A confirmation succeeds if and only if the row is stored, waits for confirmation and the session is unlocked; it
      reports a missing row if and only if there is none as it reads, and refuses every other.  Its own steps touch
      nothing but row, journal and registration of the run, and when it fails nothing at all. */
  lemma ConfirmExactly(g: Grip, s: State, actions: seq<Action>, id: Uuid, outcome: Result<Option<Uuid>>)
    requires Reachable(s) && s.gate == HeldByOp(ConfirmRead(id)) && Possible(s, actions) && Observes(g, s, actions)
    requires After(s, actions).gate == HeldByOp(Leave(outcome))
    ensures outcome == Ok(None) <==> id in s.rows && s.rows[id].status.AwaitingConfirmation? && !g.locked
    ensures outcome == Err(NotFound) <==> id !in AtFirst(s, actions).rows
    ensures outcome in {Ok(None), Err(NotFound), Err(Invalid)}
    ensures id !in s.rows ==> outcome == Err(NotFound)
    ensures TouchesOnly(s, actions, id, outcome)
  {
    ObservesOne(g, s, actions);
    BesideFirst(s, actions, id);
    ConfirmRun(g, s, actions, id, outcome);
    ConfirmRunTouches(g, s, actions, id, outcome);
  }

  // ----- what it grants -----

  /** The run itself if it asks and has not been confirmed, else the first step that has not succeeded. */
  function NextGrant(r: Activity): Grant {
    if r.Asks() && !r.runConfirmed then RunGrant else StepGrant(Done(r.steps))
  }

  function WithGrant(r: Activity): Activity {
    match NextGrant(r)
    case RunGrant => r.(runConfirmed := true, status := Queued)
    case StepGrant(p) => r.(confirmedSteps := r.confirmedSteps + [p], status := Queued)
  }

  /** The row that waits and its journal, carried through a confirmation up to its launch. */
  ghost predicate Granting(s: State, id: Uuid, r: Activity, j: seq<Entry>)
    requires Confirming(s.gate, id)
  {
    && id in s.rows && id in s.journal
    && match s.gate.op
       case ConfirmLaunch(_) => s.rows[id] == WithGrant(r) && s.journal[id] == j + [Granted(NextGrant(r), false)]
       case Leave(_) => false
       case ConfirmPersist(a, what, locked) =>
         && s.rows[id] == r && s.journal[id] == j && r.status.AwaitingConfirmation?
         && a == WithGrant(r) && what == Some(NextGrant(r)) && !locked
       case ConfirmEnvironment(a) => a == r && s.rows[id] == r && s.journal[id] == j && r.status.AwaitingConfirmation?
       case _ => s.rows[id] == r && s.journal[id] == j && r.status.AwaitingConfirmation?
  }

  /** A waiting row has something to grant: the run, or the step that waits. */
  lemma GrantWaits(s: State, id: Uuid)
    requires Reachable(s) && Waits(s, id)
    ensures id in s.journal
    ensures var r := s.rows[id];
      && GrantOf(r) == Some(NextGrant(r)) && Confirmed(r) == WithGrant(r)
      && (NextGrant(r).StepGrant? ==>
            var p := Done(r.steps); p < |r.steps| && r.steps[p].status.AwaitingConfirmation? && r.steps[p].Dangerous())
  {
    ReachableOk(s);
    assert RowOk(s, id) && HistoryOk(s, id);
    var r, a, j := s.rows[id], s.accepted[id], s.journal[id];
    if NextGrant(r).RunGrant? { GrantRun(r, a, j); } else { GrantStep(r, a, j); }
  }

  lemma GrantTurn(s: State, env: Env, id: Uuid, r: Activity, j: seq<Entry>)
    requires OpEnabled(s, env) && Confirming(s.gate, id) && ConfirmOp(s.gate.op) && !s.gate.op.ConfirmLaunch?
    requires Granting(s, id, r, j) && r.id == id && GrantOf(r) == Some(NextGrant(r)) && Confirmed(r) == WithGrant(r)
    ensures var s' := ConfirmApply(s, s.gate.op, env);
      Confirming(s'.gate, id) && (s'.gate.op.Leave? || Granting(s', id, r, j)) && s'.tickets == s.tickets
  {
    match s.gate.op
    case ConfirmRead(_) =>
    case ConfirmEnvironment(a) =>
    case ConfirmPersist(a, _, _) =>
  }

  lemma MovesKeepGranting(s: State, s': State, t: Uuid, id: Uuid, r: Activity, j: seq<Entry>)
    requires Confirming(s.gate, id) && t in s.executors && Moves(s, s', t) && Granting(s, id, r, j)
    requires Writer(s.executors[t].pc) ==> s.executors[t].id != id
    ensures Confirming(s'.gate, id) && Granting(s', id, r, j) && s'.tickets == s.tickets
  {
  }

  lemma NotItsWriter(s: State, t: Uuid, id: Uuid, r: Activity, j: seq<Entry>)
    requires GateOk(s) && t in s.executors && Local(s, t) && Confirming(s.gate, id) && Granting(s, id, r, j)
    ensures Writer(s.executors[t].pc) ==> s.executors[t].id != id
  {
    hide Local;
    assert OpOk(s, s.gate.op);
    if Writer(s.executors[t].pc) { WriterFacts(s, t); }
  }

  lemma ExecutorKeepsGranting(s: State, t: Uuid, env: Env, id: Uuid, r: Activity, j: seq<Entry>)
    requires VolatileOk(s) && GateOk(s) && ExecutorEnabled(s, t, env) && Local(s, t)
    requires Confirming(s.gate, id) && Granting(s, id, r, j)
    ensures var s' := ExecutorApply(s, t, env); Confirming(s'.gate, id) && Granting(s', id, r, j) && s'.tickets == s.tickets
  {
    hide Local;
    if !s.executors[t].pc.Cleanup? {
      StepKeepsLocal(s, t, env);
      NotItsWriter(s, t, id, r, j);
      MovesKeepGranting(s, ExecutorApply(s, t, env), t, id, r, j);
    }
  }

  lemma BesideKeepsGranting(s: State, action: Action, id: Uuid, r: Activity, j: seq<Entry>)
    requires Reachable(s) && Confirming(s.gate, id) && Granting(s, id, r, j)
    requires Enabled(s, action) && (action.ExecutorStep? || action.ClearActivities?)
    ensures var s' := Apply(s, action); Confirming(s'.gate, id) && Granting(s', id, r, j) && s'.tickets == s.tickets
  {
    if action.ExecutorStep? {
      ReachableOk(s);
      InvLocal(s, action.ticket);
      ExecutorKeepsGranting(s, action.ticket, action.env, id, r, j);
    }
  }

  lemma {:induction false} NeverLaunches(s: State, actions: seq<Action>, id: Uuid)
    requires Reachable(s) && s.gate.HeldByOp? && s.gate.op.Leave? && Possible(s, actions) && OneOperation(actions)
    ensures After(s, actions).gate != HeldByOp(ConfirmLaunch(id))
    decreases |actions|
  {
    if actions != [] {
      OneOperationNext(actions);
      if actions[0].OpStep? {
        LeavesOnce(s, actions);
      } else {
        StepBeside(s, actions[0], id);
        NeverLaunches(Apply(s, actions[0]), actions[1..], id);
      }
    }
  }

  lemma {:induction false} GrantingRun(s: State, actions: seq<Action>, id: Uuid, r: Activity, j: seq<Entry>)
    requires Reachable(s) && Confirming(s.gate, id) && Granting(s, id, r, j)
    requires r.id == id && GrantOf(r) == Some(NextGrant(r)) && Confirmed(r) == WithGrant(r)
    requires Possible(s, actions) && OneOperation(actions) && After(s, actions).gate == HeldByOp(ConfirmLaunch(id))
    ensures Granting(After(s, actions), id, r, j) && s.tickets <= After(s, actions).tickets
    decreases |actions|
  {
    if actions != [] && !(s.gate.op.ConfirmLaunch? && actions[0].OpStep?) {
      var s1 := Apply(s, actions[0]);
      OneOperationNext(actions);
      ReachNext(s, actions[0]);
      if actions[0].OpStep? {
        GrantTurn(s, actions[0].env, id, r, j);
      } else {
        BesideKeepsGranting(s, actions[0], id, r, j);
      }
      if s1.gate.op.Leave? { NeverLaunches(s1, actions[1..], id); }
      GrantingRun(s1, actions[1..], id, r, j);
    } else if actions != [] {
      OneOperationNext(actions);
      ReachNext(s, actions[0]);
      assert Apply(s, actions[0]).gate == HeldByOp(Leave(Ok(None)));
      NeverLaunches(Apply(s, actions[0]), actions[1..], id);
    }
  }

  /** A successful confirmation grants one thing: the run itself if it asks and has not been confirmed, else the
      dangerous step that waits.  It adds that one entry to the journal, queues the row, and its last step registers a
      fresh ticket with an executor at its start. */
  lemma ConfirmGrantsOne(g: Grip, s: State, actions: seq<Action>, id: Uuid, env: Env)
    requires Reachable(s) && s.gate == HeldByOp(ConfirmRead(id)) && Possible(s, actions) && Observes(g, s, actions)
    requires After(s, actions).gate == HeldByOp(ConfirmLaunch(id)) && OpEnabled(After(s, actions), env)
    ensures Waits(s, id) && id in s.journal
    ensures var r := s.rows[id]; var s' := OpApply(After(s, actions), env);
      && s'.gate == HeldByOp(Leave(Ok(None)))
      && id in s'.rows && s'.rows[id] == WithGrant(r)
      && id in s'.journal && s'.journal[id] == s.journal[id] + [Granted(NextGrant(r), false)]
      && (NextGrant(r).StepGrant? ==>
            var p := Done(r.steps); p < |r.steps| && r.steps[p].status.AwaitingConfirmation? && r.steps[p].Dangerous())
      && id in s'.active && s'.active[id] == env.uuid && env.uuid !in s.tickets
      && env.uuid in s'.executors && s'.executors[env.uuid] == Executor(id, Start)
  {
    ObservesOne(g, s, actions);
    if !Waits(s, id) {
      NotGranted(s, actions, id);
    }
    GrantWaits(s, id);
    KeyedById(s);
    GrantingRun(s, actions, id, s.rows[id], s.journal[id]);
  }

  /** A row that does not wait is not granted anything. */
  lemma {:induction false} NotGranted(s: State, actions: seq<Action>, id: Uuid)
    requires Reachable(s) && s.gate == HeldByOp(ConfirmRead(id)) && !Waits(s, id)
    requires Possible(s, actions) && OneOperation(actions)
    ensures After(s, actions).gate != HeldByOp(ConfirmLaunch(id))
    decreases |actions|
  {
    if actions != [] {
      OneOperationNext(actions);
      if actions[0].OpStep? {
        ReachNext(s, actions[0]);
        NeverLaunches(Apply(s, actions[0]), actions[1..], id);
      } else {
        StepBeside(s, actions[0], id);
        NotGranted(Apply(s, actions[0]), actions[1..], id);
      }
    }
  }

  /** The same for a confirmation that takes the free gate and runs to its end. */
  lemma ConfirmPerformed(s: State, id: Uuid, locked: bool, outcome: Result<Option<Uuid>>, s': State)
    requires Reachable(s) && Performed(s, ConfirmRead(id), locked, outcome, s')
    ensures outcome == Ok(None) <==> id in s.rows && s.rows[id].status.AwaitingConfirmation? && !locked
    ensures outcome in {Ok(None), Err(NotFound), Err(Invalid)}
    ensures id !in s.rows ==> outcome == Err(NotFound)
  {
    var g := Grip(ToOp(s, ConfirmRead(id)), locked);
    var s1 :| Held(g, s1) && s1.gate == HeldByOp(Leave(outcome)) && s' == s1.(gate := Free);
    var actions :| Possible(g.state, actions) && Observes(g, g.state, actions) && After(g.state, actions) == s1;
    ConfirmExactly(g, g.state, actions, id, outcome);
  }
}
