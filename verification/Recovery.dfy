/**
 Histories only grow, and what a crash followed by `recover` leaves behind.
 */
module Recovery {
  import opened Model
  import opened Protocol
  import opened Plan
  import opened Invariant
  import opened Records
  import opened ExecutorSteps
  import opened OpSteps
  import opened Journals

  // ----- histories only grow -----

  /** Accepted records never change, and journals are only appended to. */
  ghost predicate Grows(s: State, s': State) {
    && (forall id :: id in s.accepted ==> id in s'.accepted && s'.accepted[id] == s.accepted[id])
    && (forall id :: id in s.journal ==> id in s'.journal && s.journal[id] <= s'.journal[id])
  }

  lemma ExecutorGrows(s: State, t: Uuid, env: Env)
    requires ExecutorEnabled(s, t, env) && ExecutorOk(s, t)
    ensures Grows(s, ExecutorApply(s, t, env))
  {
    match s.executors[t].pc
    case Checked(a, i) =>
      if LockRefuses(s.executors[t].pc, env.locked) {
        assert ExecutorApply(s, t, env).journal == s.journal;
      }
    case _ => assert ExecutorApply(s, t, env).journal == s.journal;
  }

  lemma EnqueueGrows(s: State, env: Env)
    requires OpEnabled(s, env) && EnqueueOp(s.gate.op) && OpOk(s, s.gate.op)
    ensures Grows(s, EnqueueApply(s, s.gate.op, env))
  {
    match s.gate.op
    case EnqueueDecide(_, _, _, _, _) =>
    case EnqueuePersist(a) => assert EnqueueApply(s, s.gate.op, env).journal == s.journal;
    case EnqueueLaunch(_) => assert EnqueueApply(s, s.gate.op, env).journal == s.journal;
    case _ =>
  }

  lemma OpGrows(s: State, env: Env)
    requires OpEnabled(s, env) && OpOk(s, s.gate.op)
    ensures Grows(s, OpApply(s, env))
  {
    if EnqueueOp(s.gate.op) {
      EnqueueGrows(s, env);
    } else if ConfirmOp(s.gate.op) {
      ConfirmGrows(s, env);
    } else if CancelOp(s.gate.op) {
      CancelGrows(s);
    } else if RecoverOp(s.gate.op) {
      RecoverGrows(s, env);
    }
  }

  lemma CancelGrows(s: State)
    requires s.gate.HeldByOp? && CancelOp(s.gate.op)
    ensures Grows(s, CancelApply(s, s.gate.op))
  {
  }

  lemma RecoverGrows(s: State, env: Env)
    requires OpEnabled(s, env) && RecoverOp(s.gate.op)
    ensures Grows(s, RecoverApply(s, s.gate.op, env))
  {
  }

  lemma ConfirmGrows(s: State, env: Env)
    requires OpEnabled(s, env) && ConfirmOp(s.gate.op) && OpOk(s, s.gate.op)
    ensures Grows(s, ConfirmApply(s, s.gate.op, env))
  {
    match s.gate.op
    case ConfirmLaunch(_) => assert ConfirmApply(s, s.gate.op, env).journal == s.journal;
    case ConfirmPersist(_, _, _) => assert ConfirmApply(s, s.gate.op, env).accepted == s.accepted;
    case _ =>
  }

  lemma StepGrows(s: State, action: Action)
    requires Inv(s) && Enabled(s, action)
    ensures Grows(s, Apply(s, action))
  {
    match action
    case OpStep(env) =>
      assert OpOk(s, s.gate.op);
      OpGrows(s, env);
    case ExecutorStep(t, env) =>
      InvLocal(s, t);
      ExecutorGrows(s, t, env);
    case _ =>
  }

  lemma {:induction false} HistoryGrows(s: State, actions: seq<Action>)
    requires Inv(s) && Possible(s, actions)
    ensures Grows(s, After(s, actions))
    decreases |actions|
  {
    hide Inv;
    if actions != [] {
      StepGrows(s, actions[0]);
      StepKeepsInv(s, actions[0]);
      HistoryGrows(Apply(s, actions[0]), actions[1..]);
    }
  }

  // ----- crash and recovery -----

  predicate InFlight(r: Activity) {
    r.status.Queued? || r.status.Running?
  }

  /** Recovery leaves a row alone or interrupts it. */
  predicate RowRecovers(r: Activity, r': Activity) {
    r' == r || (InFlight(r) && r' == Interrupt(r))
  }

  ghost predicate Recovers(s: State, s': State) {
    && s'.journal == s.journal && s'.accepted == s.accepted
    && (forall id :: id in s'.rows ==> id in s.rows && RowRecovers(s.rows[id], s'.rows[id]))
    && (forall id :: id in s.rows && s.rows[id].status.AwaitingConfirmation? ==> id in s'.rows && s'.rows[id] == s.rows[id])
  }

  /** `recover` is in progress all along `actions`, however often the engine crashes meanwhile. */
  ghost predicate KeepsRecovering(s: State, actions: seq<Action>)
    requires Possible(s, actions)
    decreases |actions|
  {
    Recovering(s.gate) && (actions == [] || KeepsRecovering(Apply(s, actions[0]), actions[1..]))
  }

  lemma RecoverOpRecovers(s: State, env: Env)
    requires OpEnabled(s, env) && Recovering(s.gate) && OpOk(s, s.gate.op)
    ensures Recovers(s, RecoverApply(s, s.gate.op, env))
  {
    match s.gate.op
    case RecoverRead =>
    case RecoverLoop(todo) =>
      if todo != [] && !todo[0].status.AwaitingConfirmation? {
        assert RecoverApply(s, s.gate.op, env).rows == s.rows[todo[0].id := Interrupt(todo[0])];
      }
  }

  lemma RecoveringAlone(s: State)
    requires GateOk(s) && Recovering(s.gate)
    ensures s.executors == map[] && OpOk(s, s.gate.op)
  {
  }

  lemma StepRecovers(s: State, action: Action)
    requires Inv(s) && Enabled(s, action) && Recovering(s.gate)
    ensures Recovers(s, Apply(s, action))
  {
    RecoveringAlone(s);
    if action.OpStep? {
      RecoverOpRecovers(s, action.env);
    }
  }

  lemma RecoversTransitive(s: State, s1: State, s2: State)
    requires Recovers(s, s1) && Recovers(s1, s2)
    ensures Recovers(s, s2)
  {
    forall id | id in s2.rows ensures id in s.rows && RowRecovers(s.rows[id], s2.rows[id]) {
      assert RowRecovers(s1.rows[id], s2.rows[id]) && RowRecovers(s.rows[id], s1.rows[id]);
    }
  }

  lemma {:induction false} RunRecovers(s: State, actions: seq<Action>)
    requires Inv(s) && Possible(s, actions) && KeepsRecovering(s, actions)
    ensures Recovers(s, After(s, actions))
    decreases |actions|
  {
    hide Inv;
    if actions != [] {
      var s1 := Apply(s, actions[0]);
      StepRecovers(s, actions[0]);
      StepKeepsInv(s, actions[0]);
      RunRecovers(s1, actions[1..]);
      RecoversTransitive(s, s1, After(s1, actions[1..]));
    }
  }

  lemma NothingInFlight(s: State)
    requires GateOk(s) && s.gate == HeldByOp(RecoverLoop([]))
    ensures forall id :: id in s.rows ==> !InFlight(s.rows[id])
  {
    assert OpOk(s, s.gate.op);
  }

  /** What a completed recovery leaves of the rows it found. */
  ghost predicate Recovered(rows: map<Uuid, Activity>, rows': map<Uuid, Activity>) {
    && (forall id :: id in rows' && rows'[id].Live() <==> id in rows && rows[id].status.AwaitingConfirmation?)
    && (forall id :: id in rows' && rows'[id].Live() ==> rows'[id] == rows[id])
    && (forall id :: id in rows' && id in rows && InFlight(rows[id]) ==> rows'[id] == Interrupt(rows[id]))
  }

  lemma RecoversCompletely(s: State, s': State)
    requires Recovers(s, s') && forall id :: id in s'.rows ==> !InFlight(s'.rows[id])
    ensures Recovered(s.rows, s'.rows)
  {
    forall id | id in s'.rows ensures id in s.rows && RowRecovers(s.rows[id], s'.rows[id]) {
    }
  }

  /** After a crash at any point, and any further crashes, a completed `recover` leaves as live rows
      exactly those that were waiting for the user, unchanged; every row that was in flight has been
      interrupted (or, once interrupted, pruned); no journal has changed. */
  lemma CrashRecovery(s: State, actions: seq<Action>)
    requires Reachable(s) && Possible(Crashed(s), actions) && KeepsRecovering(Crashed(s), actions)
    requires After(Crashed(s), actions).gate == HeldByOp(RecoverLoop([]))
    ensures Recovered(s.rows, After(Crashed(s), actions).rows)
    ensures After(Crashed(s), actions).journal == s.journal
  {
    ReachableOk(s);
    CrashKeeps(s);
    RunRecovers(Crashed(s), actions);
    RunKeepsInv(Crashed(s), actions);
    NothingInFlight(After(Crashed(s), actions));
    RecoversCompletely(Crashed(s), After(Crashed(s), actions));
  }

  /** With nothing in flight, a further `recover` changes no row. */
  lemma SecondRecoverIsIdle(s: State, actions: seq<Action>)
    requires Reachable(s) && Possible(s, actions) && KeepsRecovering(s, actions)
    requires forall id :: id in s.rows ==> !InFlight(s.rows[id])
    ensures forall id :: id in After(s, actions).rows ==> id in s.rows && After(s, actions).rows[id] == s.rows[id]
  {
    ReachableOk(s);
    RunRecovers(s, actions);
  }

  // ----- resuming -----

  /** Entries of a plan past the point before step `p`. */
  lemma {:induction false} PlanBeyond(a: Activity, p: nat, n: nat, k: nat)
    requires p <= n <= |a.steps| && |PlanUpTo(a, p)| <= k < |PlanUpTo(a, n)|
    ensures PlanUpTo(a, n)[k].Handed? ==> PlanUpTo(a, n)[k].index >= p
    ensures PlanUpTo(a, n)[k].Handed? && PlanUpTo(a, n)[k].index == p ==> k == |PlanUpTo(a, p)| + |GrantEntries(a, p)|
    decreases n
  {
    PlanEntries(a, n);
    if n > p {
      var before := PlanUpTo(a, n - 1);
      assert PlanUpTo(a, n) == before + GrantEntries(a, n - 1) + [HandEntry(a, n - 1)];
      if k < |before| {
        PlanBeyond(a, p, n - 1, k);
      }
    }
  }

  lemma WaitingHistory(s: State, id: Uuid, actions: seq<Action>)
    requires Reachable(s) && id in s.rows && s.rows[id].status.AwaitingConfirmation? && Possible(s, actions)
    ensures id in s.accepted && id in s.journal && id in After(s, actions).journal
    ensures Waiting(s.rows[id], s.accepted[id], s.journal[id])
    ensures s.journal[id] <= After(s, actions).journal[id] <= FullPlan(s.accepted[id])
  {
    ReachableOk(s);
    RunKeepsInv(s, actions);
    HistoryGrows(s, actions);
    assert RowOk(s, id) && HistoryOk(s, id) && HistoryOk(After(s, actions), id);
  }

  /** A run waiting for the user resumes at its first step that has not succeeded: whatever happens
      afterwards, every later hand-over is of that step or a later one, that step first. */
  lemma ResumesWhereItStopped(s: State, id: Uuid, actions: seq<Action>, k: nat)
    requires Reachable(s) && id in s.rows && s.rows[id].status.AwaitingConfirmation?
    requires Possible(s, actions)
    requires id in s.journal && id in After(s, actions).journal
    requires |s.journal[id]| <= k < |After(s, actions).journal[id]| && After(s, actions).journal[id][k].Handed?
    ensures var p := Done(s.rows[id].steps); var j' := After(s, actions).journal[id];
      && s.journal[id] <= j' && p <= j'[k].index
      && (j'[k].index > p ==> exists l :: |s.journal[id]| <= l < k && j'[l].Handed? && j'[l].index == p)
  {
    var s' := After(s, actions);
    WaitingHistory(s, id, actions);
    var a := s.accepted[id];
    var r := s.rows[id];
    if r.Asks() && !r.runConfirmed {
      DoneIs(r.steps, 0);
      FirstIsZero(a, s'.journal[id], k);
    } else {
      NextIsDone(a, s'.journal[id], Done(r.steps), k);
    }
  }

  lemma NextIsDone(a: Activity, j: seq<Entry>, p: nat, k: nat)
    requires p < |a.steps| && j <= FullPlan(a) && |PlanUpTo(a, p)| <= k < |j| && j[k].Handed?
    ensures p <= j[k].index
    ensures j[k].index > p ==> exists l :: |PlanUpTo(a, p)| <= l < k && j[l].Handed? && j[l].index == p
  {
    PlanBeyond(a, p, |a.steps|, k);
    PlanGrowsWithGrant(a, p);
    var l := |PlanUpTo(a, p)| + |GrantEntries(a, p)|;
    assert PlanUpTo(a, p + 1) == PlanUpTo(a, p) + GrantEntries(a, p) + [HandEntry(a, p)];
    assert FullPlan(a)[l] == HandEntry(a, p);
    PrefixEntries(a, FullPlan(a));
    if j[k].index > p {
      assert FullPlan(a)[k].Handed? && FullPlan(a)[l].Handed?;
      assert l < k;
      assert j[l] == FullPlan(a)[l];
    }
  }

  lemma FirstIsZero(a: Activity, j: seq<Entry>, k: nat)
    requires j <= FullPlan(a) && k < |j| && j[k].Handed?
    ensures j[k].index > 0 ==> exists l :: 0 <= l < k && j[l].Handed? && j[l].index == 0
  {
    PlanEntries(a, |a.steps|);
    PlanGrows(a, 0, |a.steps|);
    assert j[k] == FullPlan(a)[k];
    NextIsDone(a, j, 0, k);
  }
}
