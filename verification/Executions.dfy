/**
 What `execute` makes of the answers it is given: whether the session is locked and whether the step fails, for
 every step of the run.
 */
module Executions {
  import opened Model
  import opened Protocol
  import opened Invariant
  import opened Records
  import opened ExecutorSteps
  import opened OpSteps
  import opened Ownership
  import opened Outcomes
  import opened Interleavings

  /** The outside world lets step `k` fail, or locks the session it needs unlocked. */
  predicate Bad(o: Origin, r: Activity, k: nat) {
    k < |r.steps| && (o.failed(k) || Refuses(r.steps[k], o.locked(k)))
  }

  /** Every step carried out since step `from` was good; the one in hand is bad if the run is about to be failed. */
  ghost predicate Answered(o: Origin, s: State, t: Uuid, from: nat, look: Look) {
    && t in s.executors && t in o.state.executors && s.executors[t].id == o.state.executors[t].id
    && var e := s.executors[t];
       Writer(e.pc) && e.id in s.rows ==>
         var r := s.rows[e.id];
         && from <= Done(r.steps) && (e.pc.Start? || e.pc.Acquire? ==> from == Done(r.steps))
         && (forall k :: from <= k < Done(r.steps) ==> !Bad(o, r, k))
         && match e.pc
            case Executing(_, i) => i < |r.steps| && !Refuses(r.steps[i], o.locked(i))
            case PersistStep(_, i) => !Bad(o, r, i)
            case PersistFinal(_) => look.bad ==> Bad(o, r, Done(r.steps))
            case _ => true
  }

  lemma SameBad(o: Origin, r: Activity, i: nat, status: Status)
    requires i < |r.steps|
    ensures forall k :: Bad(o, SetStep(r, i, status), k) <==> Bad(o, r, k)
    ensures forall k :: Bad(o, SetStep(r.(status := Running), i, status), k) <==> Bad(o, r, k)
  {
  }

  lemma AnsweredResult(o: Origin, s: State, t: Uuid, env: Env, from: nat, look: Look)
    requires ExecutorEnabled(s, t, env) && Local(s, t) && Fits(o, s, t, env) && Answered(o, s, t, from, look)
    requires s.executors[t].pc.Executing?
    ensures Answered(o, ExecutorApply(s, t, env), t, from, Seen(s, t, env, look))
  {
    hide Local;
    WriterFacts(s, t);
    DoneIs(s.rows[s.executors[t].id].steps, s.executors[t].pc.i);
    assert ExecutorApply(s, t, env).rows == s.rows;
  }

  lemma AnsweredRefusal(o: Origin, s: State, t: Uuid, env: Env, from: nat, look: Look)
    requires ExecutorEnabled(s, t, env) && Local(s, t) && Fits(o, s, t, env) && Answered(o, s, t, from, look)
    requires s.executors[t].pc.Checked? && LockRefuses(s.executors[t].pc, env.locked)
    ensures Answered(o, ExecutorApply(s, t, env), t, from, Seen(s, t, env, look))
  {
    hide Local;
    WriterFacts(s, t);
    DoneIs(s.rows[s.executors[t].id].steps, s.executors[t].pc.i);
    assert ExecutorApply(s, t, env) == Goto(s, t, ResultPc(s.executors[t].pc.a, s.executors[t].pc.i, t in s.canceled, true));
  }

  lemma AnsweredHandOver(o: Origin, s: State, t: Uuid, env: Env, from: nat, look: Look)
    requires ExecutorEnabled(s, t, env) && Local(s, t) && Fits(o, s, t, env) && Answered(o, s, t, from, look)
    requires s.executors[t].pc.Checked? && !LockRefuses(s.executors[t].pc, env.locked)
    ensures Answered(o, ExecutorApply(s, t, env), t, from, Seen(s, t, env, look))
  {
    hide Local;
    var id, i := s.executors[t].id, s.executors[t].pc.i;
    WriterFacts(s, t);
    assert SameStep(s.rows[id].steps[i], s.accepted[id].steps[i]) && SnapshotTaken(s.accepted[id], i);
    assert ExecutorApply(s, t, env).executors[t].pc == Executing(s.rows[id], i);
  }

  lemma AnsweredSuccess(o: Origin, s: State, t: Uuid, env: Env, from: nat, look: Look)
    requires ExecutorEnabled(s, t, env) && Local(s, t) && Answered(o, s, t, from, look) && s.executors[t].pc.PersistStep?
    ensures Answered(o, ExecutorApply(s, t, env), t, from, Seen(s, t, env, look))
  {
    hide Local;
    var id, l, i := s.executors[t].id, s.executors[t].pc.a, s.executors[t].pc.i;
    WriterFacts(s, t);
    DoneIs(s.rows[id].steps, i);
    DoneIs(l.steps, i + 1);
    SameBad(o, s.rows[id], i, Succeeded);
    assert ExecutorApply(s, t, env).rows[id] == l;
  }

  lemma AnsweredQuietly(o: Origin, s: State, t: Uuid, env: Env, from: nat, look: Look)
    requires ExecutorEnabled(s, t, env) && Local(s, t) && Answered(o, s, t, from, look)
    requires var pc := s.executors[t].pc; pc.Start? || pc.Acquire? || pc.Loop? || pc.WaitGate? || pc.Gated? || pc.PostCheck?
    requires look == FINE || s.executors[t].pc.Start?
    ensures Answered(o, ExecutorApply(s, t, env), t, from, Seen(s, t, env, look))
  {
    WriterFacts(s, t);
    assert ExecutorApply(s, t, env).rows == s.rows;
  }

  lemma AnsweredStart(o: Origin, s: State, t: Uuid, env: Env, from: nat, look: Look)
    requires ExecutorEnabled(s, t, env) && Local(s, t) && Answered(o, s, t, from, look) && s.executors[t].pc.PersistRunning?
    ensures Answered(o, ExecutorApply(s, t, env), t, from, Seen(s, t, env, look))
  {
    hide Local;
    var id, l, i := s.executors[t].id, s.executors[t].pc.a, s.executors[t].pc.i;
    WriterFacts(s, t);
    DoneIs(l.steps, i);
    SameBad(o, s.rows[id], i, Running);
    assert ExecutorApply(s, t, env).rows[id] == l;
  }

  /** Its own step keeps it, unless that was its last. */
  lemma OwnStepAnswered(o: Origin, s: State, t: Uuid, env: Env, from: nat, look: Look)
    requires ExecutorEnabled(s, t, env) && Local(s, t) && Track(s, t, look) && Fits(o, s, t, env)
    requires Answered(o, s, t, from, look) && !s.executors[t].pc.Cleanup?
    ensures Answered(o, ExecutorApply(s, t, env), t, from, Seen(s, t, env, look))
  {
    hide Local;
    match s.executors[t].pc
    case Checked(_, _) =>
      if LockRefuses(s.executors[t].pc, env.locked) {
        AnsweredRefusal(o, s, t, env, from, look);
      } else {
        AnsweredHandOver(o, s, t, env, from, look);
      }
    case Executing(_, _) => AnsweredResult(o, s, t, env, from, look);
    case PersistStep(_, _) => AnsweredSuccess(o, s, t, env, from, look);
    case PersistRunning(_, _) => AnsweredStart(o, s, t, env, from, look);
    case ErrorRead => WriterFacts(s, t);
    case ErrorPersist(_) => WriterFacts(s, t);
    case Start => AnsweredQuietly(o, s, t, env, from, look);
    case Acquire(_) => AnsweredQuietly(o, s, t, env, from, look);
    case Loop(_, _) => AnsweredQuietly(o, s, t, env, from, look);
    case WaitGate(_, _) => AnsweredQuietly(o, s, t, env, from, look);
    case Gated(_, _) => AnsweredQuietly(o, s, t, env, from, look);
    case PostCheck(_, _) => AnsweredQuietly(o, s, t, env, from, look);
    case _ =>
  }

  lemma OthersKeepAnswered(o: Origin, s: State, action: Action, t: Uuid, from: nat, look: Look)
    requires Inv(s) && Enabled(s, action) && !OwnStep(action, t) && !action.Crash? && Answered(o, s, t, from, look)
    ensures Answered(o, Apply(s, action), t, from, look)
  {
    hide Inv;
    ExecutorKept(s, action, t);
    if Writer(s.executors[t].pc) {
      StoringRow(s, t);
      WriterLeftAlone(s, action, t);
    }
  }

  lemma StepAnswered(o: Origin, s: State, action: Action, t: Uuid, from: nat, look: Look)
    requires Inv(s) && Enabled(s, action) && !action.Crash? && (OwnStep(action, t) ==> Fits(o, s, t, action.env))
    requires Track(s, t, look) && Answered(o, s, t, from, look)
    ensures var s' := Apply(s, action);
      var look' := if OwnStep(action, t) then Seen(s, t, action.env, look) else look;
      t in s'.executors ==> Track(s', t, look') && Answered(o, s', t, from, look')
  {
    hide Inv;
    if !OwnStep(action, t) {
      OthersKeepTrack(s, action, t, look);
      OthersKeepAnswered(o, s, action, t, from, look);
    } else if !s.executors[t].pc.Cleanup? {
      InvLocal(s, t);
      OwnStepTracks(s, t, action.env, look);
      OwnStepAnswered(o, s, t, action.env, from, look);
    }
  }

  lemma GoneStaysGone(s: State, action: Action, t: Uuid)
    requires Inv(s) && Enabled(s, action) && t !in s.executors && t in s.tickets
    ensures t !in Apply(s, action).executors && t in Apply(s, action).tickets
  {
    if t in Apply(s, action).executors { NewExecutor(s, action, t); }
    TicketsGrow(s, action);
  }

  lemma TicketsGrow(s: State, action: Action)
    requires Inv(s) && Enabled(s, action)
    ensures s.tickets <= Apply(s, action).tickets
  {
    hide Inv;
    match action
    case OpStep(env) => OpOnlyLaunches(s, env);
    case ExecutorStep(u, env) =>
      if !s.executors[u].pc.Cleanup? {
        InvLocal(s, u);
        StepKeepsLocal(s, u, env);
      }
    case _ =>
  }

  lemma {:induction false} GoneForGood(s: State, actions: seq<Action>, t: Uuid)
    requires Reachable(s) && Possible(s, actions) && t !in s.executors && t in s.tickets
    ensures t !in After(s, actions).executors
    decreases |actions|
  {
    if actions != [] {
      ReachableOk(s);
      GoneStaysGone(s, actions[0], t);
      ReachNext(s, actions[0]);
      GoneForGood(Apply(s, actions[0]), actions[1..], t);
    }
  }

  lemma TookAnswer(o: Origin, s: State, action: Action, t: Uuid, from: nat, look: Look)
    requires Reachable(s) && Enabled(s, action) && !action.Crash? && (OwnStep(action, t) ==> Fits(o, s, t, action.env))
    requires Track(s, t, look) && Answered(o, s, t, from, look)
    ensures Reachable(Apply(s, action)) && t in Apply(s, action).tickets
    ensures var s' := Apply(s, action);
      var look' := if OwnStep(action, t) then Seen(s, t, action.env, look) else look;
      t in s'.executors ==> Track(s', t, look') && Answered(o, s', t, from, look')
  {
    ReachableOk(s);
    ReachNext(s, action);
    StepAnswered(o, s, action, t, from, look);
    TicketsGrow(s, action);
  }

  lemma {:induction false} RunAnswered(o: Origin, s: State, actions: seq<Action>, t: Uuid, from: nat, look: Look)
    requires Reachable(s) && Possible(s, actions) && NoCrash(actions) && Obeys(o, t, s, actions)
    requires Track(s, t, look) && Answered(o, s, t, from, look) && t in After(s, actions).executors
    ensures Track(After(s, actions), t, LastLook(s, actions, t, look))
    ensures Answered(o, After(s, actions), t, from, LastLook(s, actions, t, look))
    decreases |actions|
  {
    if actions != [] {
      var action, rest := actions[0], actions[1..];
      assert NoCrash(rest) by {
        assert forall k :: 0 <= k < |rest| ==> rest[k] == actions[k + 1];
      }
      TookAnswer(o, s, action, t, from, look);
      if t !in Apply(s, action).executors { GoneForGood(Apply(s, action), rest, t); }
      RunAnswered(o, Apply(s, action), rest, t, from, if OwnStep(action, t) then Seen(s, t, action.env, look) else look);
    }
  }

  /** How an execution ends, from its start to its last write: up to the step it stops at every step it carried out was
      good; unless its token was set it has succeeded with all steps, or failed at a bad one, or asks for the next
      dangerous step that is not confirmed. */
  lemma ExecutionEnds(o: Origin, t: Uuid, actions: seq<Action>, env: Env)
    requires Reachable(o.state) && t in o.state.executors && o.state.executors[t].pc.Start?
    requires Possible(o.state, actions) && NoCrash(actions) && Obeys(o, t, o.state, actions)
    requires ExecutorEnabled(After(o.state, actions), t, env) && Storing(After(o.state, actions).executors[t].pc)
    requires !Writer(ExecutorApply(After(o.state, actions), t, env).executors[t].pc)
    ensures var s' := ExecutorApply(After(o.state, actions), t, env);
      var id := o.state.executors[t].id;
      && id in o.state.rows && id in s'.rows
      && var r' := s'.rows[id]; var from := Done(o.state.rows[id].steps); var p := Done(r'.steps);
      && from <= p && (forall k :: from <= k < p ==> !Bad(o, r', k))
      && (r'.status.Canceled? ==> t in s'.canceled)
      && (t !in s'.canceled ==>
            (r'.status.Succeeded? && p == |r'.steps|) || (r'.status.Failed? && Bad(o, r', p)) || Requests(r'))
  {
    hide Reachable, Possible, Obeys, Stores, LastLook, ExecutorApply;
    var s1, id := After(o.state, actions), o.state.executors[t].id;
    var from := ExecutionBegins(o, t);
    RunAnswered(o, o.state, actions, t, from, FINE);
    LastWrite(o.state, actions, t, env);
    EveryWrite(o.state, actions, t, env);
    EndsAt(o, s1.rows[id], ExecutorApply(s1, t, env).rows[id], LastLook(o.state, actions, t, FINE), t in s1.permits, from);
  }

  lemma ExecutionBegins(o: Origin, t: Uuid) returns (from: nat)
    requires Reachable(o.state) && t in o.state.executors && o.state.executors[t].pc.Start?
    ensures o.state.executors[t].id in o.state.rows && from == Done(o.state.rows[o.state.executors[t].id].steps)
    ensures Track(o.state, t, FINE) && Answered(o, o.state, t, from, FINE)
  {
    ReachableOk(o.state);
    var look := ReachableTrack(o.state, t);
    StoringRow(o.state, t);
    from := Done(o.state.rows[o.state.executors[t].id].steps);
  }

  lemma EndsAt(o: Origin, r: Activity, l: Activity, look: Look, permit: bool, from: nat)
    requires Stores(r, l, look, permit) && !l.status.Running?
    requires from <= Done(r.steps) && (look.bad ==> Bad(o, r, Done(r.steps)))
    requires forall k :: from <= k < Done(r.steps) ==> !Bad(o, r, k)
    ensures Done(l.steps) == Done(r.steps) && (look.bad ==> Bad(o, l, Done(l.steps)))
    ensures forall k :: from <= k < Done(l.steps) ==> !Bad(o, l, k)
  {
    DoneIs(l.steps, Done(r.steps));
    forall k: nat ensures Bad(o, l, k) <==> Bad(o, r, k) {
      if k < |r.steps| { assert l.steps[k].action == r.steps[k].action; }
    }
  }
}
