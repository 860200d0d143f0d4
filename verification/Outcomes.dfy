/**
 What an executor stores.  Every write of an executor is determined by the row it finds and by what the
 executor saw at its last look: whether its token was set, and whether the step in hand failed or was refused.
 */
module Outcomes {
  import opened Model
  import opened Protocol
  import opened Plan
  import opened Invariant
  import opened Records
  import opened ExecutorSteps
  import opened OpSteps
  import opened Ownership

  // ----- what an executor sees -----

  datatype Look = Look(token: bool, bad: bool)

  const FINE: Look := Look(false, false)

  /** The session lock refuses the step. */
  predicate Refuses(r: StepRun, locked: bool) {
    locked && r.action.Some? && r.action.value.requiresUnlockedSession
  }

  /** Where an executor looks at its token, and where it learns that the step in hand failed or is refused. */
  function Seen(s: State, t: Uuid, env: Env, look: Look): Look
    requires ExecutorEnabled(s, t, env)
  {
    match s.executors[t].pc
    case Start => FINE
    case Acquire(_) => Look(env.cancelFirst, false)
    case Loop(a, i) => if i < |a.steps| && !a.steps[i].status.Succeeded? then Look(t in s.canceled, false) else look
    case Gated(_, _) => Look(t in s.canceled, false)
    case PostCheck(_, _) => Look(t in s.canceled, false)
    case Checked(a, i) => if Refuses(a.steps[i], env.locked) then Look(t in s.canceled, true) else look
    case Executing(_, _) => Look(t in s.canceled, env.failed)
    case _ => look
  }

  /** What executor `t` has seen last, after a run in which it had seen `look` before. */
  ghost function LastLook(s: State, actions: seq<Action>, t: Uuid, look: Look): Look
    requires Possible(s, actions)
    decreases |actions|
  {
    if actions == [] then look
    else LastLook(Apply(s, actions[0]), actions[1..], t,
                  if OwnStep(actions[0], t) then Seen(s, t, actions[0].env, look) else look)
  }

  // ----- what it stores -----

  /** Two versions of a row that differ in statuses only. */
  predicate OnlyStatuses(r: Activity, l: Activity) {
    && l.(status := r.status, steps := r.steps) == r && |l.steps| == |r.steps|
    && forall k :: 0 <= k < |r.steps| ==> l.steps[k].(status := r.steps[k].status) == r.steps[k]
  }

  /** A canceled run keeps its finished and waiting steps; the others are canceled. */
  predicate EndsCanceled(r: Activity, l: Activity) {
    && OnlyStatuses(r, l) && l.status.Canceled?
    && forall k :: 0 <= k < |r.steps| ==>
         l.steps[k].status == if r.steps[k].status.Queued? || r.steps[k].status.Running? then Canceled else r.steps[k].status
  }

  /** The first step that has not succeeded is the one that failed; the steps behind it are skipped. */
  predicate EndsFailed(r: Activity, l: Activity) {
    var p := Done(r.steps);
    && OnlyStatuses(r, l) && l.status.Failed? && p < |r.steps| && r.steps[p].status.Running?
    && (forall k :: p < k < |r.steps| ==> r.steps[k].status.Queued?)
    && forall k :: 0 <= k < |r.steps| ==> l.steps[k].status == if k < p then Succeeded else if k == p then Failed else Skipped
  }

  /** The last write of a run: canceled with the token seen set, else failed with a failed or refused step, else
      succeeded, with all steps.  Without a permit a canceled run keeps all its steps. */
  predicate Concludes(r: Activity, l: Activity, look: Look, permit: bool) {
    if look.token then (if permit then EndsCanceled(r, l) else l == r.(status := Canceled))
    else permit && if look.bad then EndsFailed(r, l) else Done(r.steps) == |r.steps| && l == r.(status := Succeeded)
  }

  function WithStep(r: Activity, p: nat, status: Status): Activity
    requires p < |r.steps|
  {
    r.(steps := r.steps[p := r.steps[p].(status := status)])
  }

  /** One write of an executor, from the row it finds: the end of the run; or, for the first step that has not
      succeeded, its success if it ran, the request for its confirmation if it needs one, or its start. */
  predicate Stores(r: Activity, l: Activity, look: Look, permit: bool) {
    var p := Done(r.steps);
    if look != FINE || p == |r.steps| then Concludes(r, l, look, permit)
    else if r.steps[p].status.Running? then l == WithStep(r.(status := Running), p, Succeeded)
    else if r.steps[p].Dangerous() && p !in r.confirmedSteps then
      l == WithStep(r.(status := AwaitingConfirmation), p, AwaitingConfirmation)
    else l == WithStep(r.(status := Running), p, Running)
  }

  // ----- the invariant -----

  /** Every step that still waits has been confirmed. */
  predicate WaitsConfirmed(r: Activity) {
    forall k :: 0 <= k < |r.steps| && r.steps[k].status.AwaitingConfirmation? ==> k in r.confirmedSteps
  }

  lemma IdleWaits(r: Activity, a: Activity, j: seq<Entry>)
    requires Idle(r, a, j)
    ensures WaitsConfirmed(r)
  {
    var p := Done(r.steps);
    if p < |r.steps| && r.steps[p].status.AwaitingConfirmation? {
      SameDanger(r, a, p);
      DangerousBelowExact(a, p + 1);
    }
  }

  lemma RunningWaits(r: Activity, a: Activity, i: nat)
    requires Progress(r, a, i) && i < |r.steps| && r.steps[i].status.Running?
    ensures WaitsConfirmed(r)
  {
  }

  /** Executor `t` stands before its last write only when the last look calls for it; before that it has seen nothing
      wrong. */
  ghost predicate Track(s: State, t: Uuid, look: Look) {
    t in s.executors ==>
      var e := s.executors[t];
      match e.pc
      case Start => t !in s.permits
      case Acquire(_) => look == FINE && t !in s.permits
      case PersistFinal(l) =>
        && e.id in s.rows && Concludes(s.rows[e.id], l, look, t in s.permits) && WaitsConfirmed(s.rows[e.id])
        && (look.token ==> t in s.canceled)
      case _ => Writer(e.pc) ==> look == FINE
  }

  lemma CanceledFinish(r: Activity)
    ensures EndsCanceled(r, Finish(r.(status := Canceled)))
  {
  }

  lemma CompleteFinish(r: Activity)
    requires (r.status.Queued? || r.status.Running?) && Done(r.steps) == |r.steps|
    ensures Finish(r) == r.(status := Succeeded)
  {
  }

  lemma StoppedFinish(r: Activity, a: Activity, i: nat, status: Status)
    requires Progress(r, a, i) && i < |r.steps| && r.steps[i].status.Running?
    requires status.Canceled? || status.Failed?
    ensures Done(r.steps) == i && Stopped(r, i, status).PersistFinal?
    ensures if status.Canceled? then EndsCanceled(r, Stopped(r, i, status).a) else EndsFailed(r, Stopped(r, i, status).a)
  {
    DoneIs(r.steps, i);
  }

  // ----- the executor's own steps -----

  lemma SeenAtLoop(s: State, t: Uuid, env: Env)
    requires ExecutorEnabled(s, t, env) && Local(s, t) && s.executors[t].pc.Loop?
    ensures Track(ExecutorApply(s, t, env), t, Seen(s, t, env, FINE))
  {
    var id, i := s.executors[t].id, s.executors[t].pc.i;
    WriterFacts(s, t);
    var r := s.rows[id];
    assert t in s.permits;
    IdleWaits(r, s.accepted[id], s.journal[id]);
    CanceledFinish(r);
    if i >= |r.steps| { CompleteFinish(r); }
  }

  lemma SeenAtGate(s: State, t: Uuid, env: Env)
    requires ExecutorEnabled(s, t, env) && Local(s, t) && (s.executors[t].pc.Gated? || s.executors[t].pc.PostCheck?)
    ensures Track(ExecutorApply(s, t, env), t, Seen(s, t, env, FINE))
  {
    var id := s.executors[t].id;
    WriterFacts(s, t);
    if s.executors[t].pc.Gated? {
      IdleWaits(s.rows[id], s.accepted[id], s.journal[id]);
    } else {
      RunningWaits(s.rows[id], s.accepted[id], s.executors[t].pc.i);
    }
    CanceledFinish(s.rows[id]);
  }

  lemma SeenAtResult(s: State, t: Uuid, env: Env)
    requires ExecutorEnabled(s, t, env) && Local(s, t) && s.executors[t].pc.Executing?
    ensures Track(ExecutorApply(s, t, env), t, Seen(s, t, env, FINE))
  {
    var id, i := s.executors[t].id, s.executors[t].pc.i;
    WriterFacts(s, t);
    RunningWaits(s.rows[id], s.accepted[id], i);
    StoppedFinish(s.rows[id], s.accepted[id], i, if t in s.canceled then Canceled else Failed);
  }

  lemma SeenAtRefusal(s: State, t: Uuid, env: Env)
    requires ExecutorEnabled(s, t, env) && Local(s, t) && s.executors[t].pc.Checked?
    requires LockRefuses(s.executors[t].pc, env.locked)
    ensures Track(ExecutorApply(s, t, env), t, Look(t in s.canceled, true))
  {
    var id, i := s.executors[t].id, s.executors[t].pc.i;
    WriterFacts(s, t);
    RunningWaits(s.rows[id], s.accepted[id], i);
    StoppedFinish(s.rows[id], s.accepted[id], i, if t in s.canceled then Canceled else Failed);
  }

  lemma SeenAtHandOver(s: State, t: Uuid, env: Env)
    requires ExecutorEnabled(s, t, env) && Local(s, t) && s.executors[t].pc.Checked?
    ensures Track(ExecutorApply(s, t, env), t, Seen(s, t, env, FINE))
  {
    hide Local;
    var id, i := s.executors[t].id, s.executors[t].pc.i;
    WriterFacts(s, t);
    if LockRefuses(s.executors[t].pc, env.locked) {
      SeenAtRefusal(s, t, env);
    } else {
      assert SameStep(s.rows[id].steps[i], s.accepted[id].steps[i]) && SnapshotTaken(s.accepted[id], i);
    }
  }

  lemma SeenAtAcquire(s: State, t: Uuid, env: Env)
    requires ExecutorEnabled(s, t, env) && Local(s, t) && s.executors[t].pc.Acquire? && t !in s.permits
    ensures Track(ExecutorApply(s, t, env), t, Seen(s, t, env, FINE))
  {
    hide Local;
    var id := s.executors[t].id;
    WriterFacts(s, t);
    IdleWaits(s.rows[id], s.accepted[id], s.journal[id]);
  }

  lemma OwnStepTracks(s: State, t: Uuid, env: Env, look: Look)
    requires ExecutorEnabled(s, t, env) && Local(s, t) && Track(s, t, look)
    ensures Track(ExecutorApply(s, t, env), t, Seen(s, t, env, look))
  {
    hide Local, Concludes, WaitsConfirmed;
    match s.executors[t].pc
    case Start => WriterFacts(s, t);
    case Acquire(_) => SeenAtAcquire(s, t, env);
    case Loop(_, _) => SeenAtLoop(s, t, env);
    case Gated(_, _) => SeenAtGate(s, t, env);
    case PostCheck(_, _) => SeenAtGate(s, t, env);
    case Checked(_, _) => SeenAtHandOver(s, t, env);
    case Executing(_, _) => SeenAtResult(s, t, env);
    case ErrorRead => WriterFacts(s, t);
    case ErrorPersist(_) => WriterFacts(s, t);
    case _ =>
  }

  // ----- steps of others -----

  lemma OthersKeepTrack(s: State, action: Action, t: Uuid, look: Look)
    requires Inv(s) && Enabled(s, action) && !OwnStep(action, t) && Track(s, t, look)
    ensures Track(Apply(s, action), t, look)
  {
    hide Inv;
    if t in Apply(s, action).executors {
      if t !in s.executors {
        NewExecutor(s, action, t);
      } else {
        ExecutorKept(s, action, t);
        PermitsKept(s, action, t);
        if Writer(s.executors[t].pc) { WriterLeftAlone(s, action, t); }
      }
    }
  }

  lemma {:induction false} RunTracks(s: State, actions: seq<Action>, t: Uuid, look: Look)
    requires Inv(s) && Possible(s, actions) && Track(s, t, look)
    ensures Inv(After(s, actions)) && Track(After(s, actions), t, LastLook(s, actions, t, look))
    decreases |actions|
  {
    hide Inv;
    if actions != [] {
      StepKeepsInv(s, actions[0]);
      if OwnStep(actions[0], t) {
        InvLocal(s, t);
        OwnStepTracks(s, t, actions[0].env, look);
        RunTracks(Apply(s, actions[0]), actions[1..], t, Seen(s, t, actions[0].env, look));
      } else {
        OthersKeepTrack(s, actions[0], t, look);
        RunTracks(Apply(s, actions[0]), actions[1..], t, look);
      }
    }
  }

  lemma ReachableTrack(s: State, t: Uuid) returns (look: Look)
    requires Reachable(s)
    ensures Track(s, t, look)
  {
    var actions :| Possible(INITIAL, actions) && After(INITIAL, actions) == s;
    InitialOk();
    RunTracks(INITIAL, actions, t, FINE);
    look := LastLook(INITIAL, actions, t, FINE);
  }

  // ----- every write -----

  /** The executor is about to store a version of its row. */
  predicate Storing(pc: Pc) {
    pc.PersistRunning? || pc.PersistStep? || pc.PersistFinal? || pc.GatedPersist? || pc.ErrorPersist?
  }

  /** What is stored, and that the executor goes on exactly while the run is running. */
  lemma StoreIs(s: State, t: Uuid, env: Env, look: Look)
    requires ExecutorEnabled(s, t, env) && Local(s, t) && Track(s, t, look) && Storing(s.executors[t].pc)
    ensures var id := s.executors[t].id; var s' := ExecutorApply(s, t, env);
      && id in s.rows && id in s'.rows && t in s'.executors
      && Stores(s.rows[id], s'.rows[id], look, t in s.permits)
      && (Writer(s'.executors[t].pc) <==> s'.rows[id].status.Running?)
  {
    hide Local;
    var id := s.executors[t].id;
    WriterFacts(s, t);
    match s.executors[t].pc
    case PersistStep(l, i) => DoneIs(s.rows[id].steps, i);
    case PersistFinal(l) =>
    case _ =>
  }

  lemma StoredAs(s: State, t: Uuid, env: Env, look: Look)
    requires Inv(s) && ExecutorEnabled(s, t, env) && Track(s, t, look) && Storing(s.executors[t].pc)
    ensures var id := s.executors[t].id; var s' := ExecutorApply(s, t, env);
      && id in s.rows && id in s'.rows && t in s'.executors
      && Stores(s.rows[id], s'.rows[id], look, t in s.permits)
      && (Writer(s'.executors[t].pc) <==> s'.rows[id].status.Running?)
      && (s.executors[t].pc.PersistStep? ==> s'.executors[t].pc == Loop(s'.rows[id], s.executors[t].pc.i + 1))
      && (s.executors[t].pc.PersistFinal? && look.token ==> t in s'.canceled)
  {
    hide Inv;
    InvLocal(s, t);
    WriterFacts(s, t);
    StoreIs(s, t, env, look);
  }

  /** Over every run: each write of an executor is determined by the row it finds and by what it saw last. */
  lemma EveryWrite(s: State, actions: seq<Action>, t: Uuid, env: Env)
    requires Reachable(s) && Possible(s, actions) && (t in s.executors ==> s.executors[t].pc.Start?)
    requires ExecutorEnabled(After(s, actions), t, env) && Storing(After(s, actions).executors[t].pc)
    ensures var s1 := After(s, actions); var s2 := ExecutorApply(s1, t, env); var id := s1.executors[t].id;
      && id in s1.rows && id in s2.rows && t in s2.executors
      && Stores(s1.rows[id], s2.rows[id], LastLook(s, actions, t, FINE), t in s1.permits)
      && (Writer(s2.executors[t].pc) <==> s2.rows[id].status.Running?)
      && (LastLook(s, actions, t, FINE).token ==> t in s2.canceled)
  {
    ReachableOk(s);
    var look := ReachableTrack(s, t);
    RunTracks(s, actions, t, FINE);
    StoredAs(After(s, actions), t, env, LastLook(s, actions, t, FINE));
  }

  // ----- results -----

  /** Others leave a writing executor, its row and its permit alone. */
  lemma {:induction false} OthersLeave(s: State, actions: seq<Action>, t: Uuid, look: Look)
    requires Inv(s) && t in s.executors && Writer(s.executors[t].pc) && s.executors[t].id in s.rows && Track(s, t, look)
    requires Possible(s, actions) && ByOthers(actions, t)
    ensures var s' := After(s, actions); var id := s.executors[t].id;
      && Inv(s') && t in s'.executors && s'.executors[t] == s.executors[t] && (t in s'.permits <==> t in s.permits)
      && id in s'.rows && s'.rows[id] == s.rows[id] && Track(s', t, look)
    decreases |actions|
  {
    hide Inv;
    if actions != [] {
      var action, rest := actions[0], actions[1..];
      assert !action.Crash? && !OwnStep(action, t);
      assert ByOthers(rest, t) by {
        assert forall k :: 0 <= k < |rest| ==> rest[k] == actions[k + 1];
      }
      WriterLeftAlone(s, action, t);
      PermitsKept(s, action, t);
      OthersKeepTrack(s, action, t, look);
      StepKeepsInv(s, action);
      OthersLeave(Apply(s, action), rest, t, look);
    }
  }

  /** The executor learns what became of the step in hand: its result has arrived, or the lock refuses it. */
  predicate Learns(pc: Pc, locked: bool) {
    pc.Executing? || (pc.Checked? && pc.i < |pc.a.steps| && Refuses(pc.a.steps[pc.i], locked))
  }

  /** What is stored of a step is decided as its result arrives: canceled if the token is set then, else failed if the
      result is an error or the lock refused the step, else succeeded, and the loop goes on. */
  lemma ResultStored(s: State, t: Uuid, env: Env, actions: seq<Action>, env': Env)
    requires Reachable(s) && ExecutorEnabled(s, t, env) && Learns(s.executors[t].pc, env.locked)
    requires Possible(ExecutorApply(s, t, env), actions) && ByOthers(actions, t)
    requires ExecutorEnabled(After(ExecutorApply(s, t, env), actions), t, env')
    ensures var id := s.executors[t].id; var i := s.executors[t].pc.i;
      var s' := ExecutorApply(After(ExecutorApply(s, t, env), actions), t, env');
      && id in s.rows && id in s'.rows && t in s'.executors
      && var r := s.rows[id]; var r' := s'.rows[id];
      && i == Done(r.steps) && i < |r.steps| == |r'.steps| && r.steps[i].status.Running?
      && if t in s.canceled then EndsCanceled(r, r') && r'.steps[i].status.Canceled?
         else if s.executors[t].pc.Checked? || env.failed then EndsFailed(r, r') && r'.steps[i].status.Failed?
         else r' == WithStep(r.(status := Running), i, Succeeded) && s'.executors[t].pc == Loop(r', i + 1)
  {
    LearnsAt(s, t, env);
    LearntStored(ExecutorApply(s, t, env), actions, t, env', Seen(s, t, env, FINE), s.executors[t].pc.i);
  }

  lemma LearntStored(s: State, actions: seq<Action>, t: Uuid, env: Env, look: Look, i: nat)
    requires Reachable(s) && t in s.executors && Learnt(s, t, look, i)
    requires Possible(s, actions) && ByOthers(actions, t) && ExecutorEnabled(After(s, actions), t, env)
    ensures var id := s.executors[t].id; var s' := ExecutorApply(After(s, actions), t, env);
      && id in s'.rows && t in s'.executors
      && var r := s.rows[id]; var r' := s'.rows[id];
      && |r'.steps| == |r.steps|
      && if look.token then EndsCanceled(r, r') && r'.steps[i].status.Canceled?
         else if look.bad then EndsFailed(r, r') && r'.steps[i].status.Failed?
         else r' == WithStep(r.(status := Running), i, Succeeded) && s'.executors[t].pc == Loop(r', i + 1)
  {
    var id := s.executors[t].id;
    StoredNext(s, actions, t, env, look);
    ResultIs(s.rows[id], ExecutorApply(After(s, actions), t, env).rows[id], look);
  }

  /** The result of step `i` has been seen and is about to be stored. */
  ghost predicate Learnt(s: State, t: Uuid, look: Look, i: nat)
    requires t in s.executors
  {
    var e := s.executors[t];
    && Track(s, t, look) && t in s.permits && (if look == FINE then e.pc.PersistStep? && e.pc.i == i else e.pc.PersistFinal?)
    && e.id in s.rows && i < |s.rows[e.id].steps| && s.rows[e.id].steps[i].status.Running? && Done(s.rows[e.id].steps) == i
  }

  lemma StoringRow(s: State, t: Uuid)
    requires Inv(s) && t in s.executors && Writer(s.executors[t].pc)
    ensures s.executors[t].id in s.rows
  {
    InvLocal(s, t);
    WriterFacts(s, t);
  }

  /** What an executor is about to store is stored, whatever others do before. */
  lemma StoredNext(s: State, actions: seq<Action>, t: Uuid, env: Env, look: Look)
    requires Reachable(s) && t in s.executors && Storing(s.executors[t].pc) && Track(s, t, look)
    requires Possible(s, actions) && ByOthers(actions, t) && ExecutorEnabled(After(s, actions), t, env)
    ensures var id := s.executors[t].id; var s' := ExecutorApply(After(s, actions), t, env);
      && id in s.rows && id in s'.rows && t in s'.executors
      && Stores(s.rows[id], s'.rows[id], look, t in s.permits)
      && (s.executors[t].pc.PersistStep? ==> s'.executors[t].pc == Loop(s'.rows[id], s.executors[t].pc.i + 1))
  {
    hide Inv, Track, Stores;
    ReachableOk(s);
    StoringRow(s, t);
    OthersLeave(s, actions, t, look);
    StoredAs(After(s, actions), t, env, look);
  }

  /** What the write of a running step stores. */
  lemma ResultIs(r: Activity, l: Activity, look: Look)
    requires Stores(r, l, look, true) && Done(r.steps) < |r.steps| && r.steps[Done(r.steps)].status.Running?
    ensures var p := Done(r.steps);
      |l.steps| == |r.steps|
      && if look.token then EndsCanceled(r, l) && l.steps[p].status.Canceled?
         else if look.bad then EndsFailed(r, l) && l.steps[p].status.Failed?
         else l == WithStep(r.(status := Running), p, Succeeded)
  {
  }

  lemma LearnsAt(s: State, t: Uuid, env: Env)
    requires Reachable(s) && ExecutorEnabled(s, t, env) && Learns(s.executors[t].pc, env.locked)
    ensures var id := s.executors[t].id; var i := s.executors[t].pc.i; var s1 := ExecutorApply(s, t, env);
      && Reachable(s1) && t in s1.executors && s1.executors[t].id == id && s1.rows == s.rows
      && Learnt(s1, t, Seen(s, t, env, FINE), i)
  {
    ReachableOk(s);
    ReachNext(s, ExecutorStep(t, env));
    InvLocal(s, t);
    WriterFacts(s, t);
    OwnStepTracks(s, t, env, FINE);
    DoneIs(s.rows[s.executors[t].id].steps, s.executors[t].pc.i);
  }

  /** The first step that has not succeeded waits for the confirmation it needs. */
  predicate Requests(r: Activity) {
    var p := Done(r.steps);
    && r.status.AwaitingConfirmation? && p < |r.steps|
    && r.steps[p].status.AwaitingConfirmation? && r.steps[p].Dangerous() && p !in r.confirmedSteps
  }

  /** How an executor leaves its run: failed if and only if the last step failed or was refused and the token was not
      seen set; canceled if and only if it was, and then it is set; else succeeded, or asking for the next step that
      must be confirmed. */
  lemma LastWrite(s: State, actions: seq<Action>, t: Uuid, env: Env)
    requires Reachable(s) && Possible(s, actions) && (t in s.executors ==> s.executors[t].pc.Start?)
    requires ExecutorEnabled(After(s, actions), t, env) && Storing(After(s, actions).executors[t].pc)
    requires !Writer(ExecutorApply(After(s, actions), t, env).executors[t].pc)
    ensures var s' := ExecutorApply(After(s, actions), t, env); var id := After(s, actions).executors[t].id;
      var look := LastLook(s, actions, t, FINE);
      && id in s'.rows && (look.token ==> t in s'.canceled)
      && (s'.rows[id].status.Failed? <==> look.bad && !look.token)
      && (s'.rows[id].status.Canceled? <==> look.token)
      && (look == FINE ==> (s'.rows[id].status.Succeeded? && AllSucceeded(s'.rows[id])) || Requests(s'.rows[id]))
  {
    var s1 := After(s, actions);
    var s' := ExecutorApply(s1, t, env);
    EveryWrite(s, actions, t, env);
    LeftAs(s1.rows[s1.executors[t].id], s'.rows[s1.executors[t].id], LastLook(s, actions, t, FINE), t in s1.permits);
  }

  lemma LeftAs(r: Activity, l: Activity, look: Look, permit: bool)
    requires Stores(r, l, look, permit) && !l.status.Running?
    ensures (l.status.Failed? <==> look.bad && !look.token) && (l.status.Canceled? <==> look.token)
    ensures look == FINE ==> (l.status.Succeeded? && AllSucceeded(l)) || Requests(l)
  {
    if l.status.AwaitingConfirmation? { DoneIs(l.steps, Done(r.steps)); }
  }
}
