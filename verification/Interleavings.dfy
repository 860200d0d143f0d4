/**
 Runs of the protocol as one executor, or one operation under the gate, takes part in them: its own steps get the
 answers that the outside world gives to it, everybody else acts at will in between.
 */
module Interleavings {
  import opened Model
  import opened Protocol
  import opened Invariant
  import opened OpSteps
  import opened Recovery

  // ----- an executor -----

  /** Where an execution began, and what the outside world answers it: whether the session is locked and whether the
      step fails, for every step, and which side wins when both a permit and the token are there. */
  datatype Origin = Origin(state: State, locked: nat -> bool, failed: nat -> bool, cancelFirst: bool)

  /** The environment of a step of executor `t` is the one the outside world answers with. */
  ghost predicate Fits(o: Origin, s: State, t: Uuid, env: Env) {
    t in s.executors ==>
      match s.executors[t].pc
      case Acquire(_) => t in s.canceled && |s.permits| < PERMITS ==> env.cancelFirst == o.cancelFirst
      case Checked(_, i) => env.locked == o.locked(i)
      case Executing(_, i) => env.failed == o.failed(i)
      case _ => true
  }

  ghost predicate Obeys(o: Origin, t: Uuid, s: State, actions: seq<Action>)
    requires Possible(s, actions)
    decreases |actions|
  {
    actions == [] ||
    (&& (actions[0].ExecutorStep? && actions[0].ticket == t ==> Fits(o, s, t, actions[0].env))
     && Obeys(o, t, Apply(s, actions[0]), actions[1..]))
  }

  /** The protocol can go on to a state without a crash, with executor `t` given the answers of its origin. */
  ghost predicate Leads(o: Origin, t: Uuid, s': State) {
    && Reachable(o.state)
    && exists actions :: Possible(o.state, actions) && NoCrash(actions) && Obeys(o, t, o.state, actions)
                         && After(o.state, actions) == s'
  }

  /** Others than one executor took some steps. */
  ghost predicate OthersRan(s: State, s': State, t: Uuid) {
    exists actions :: Possible(s, actions) && ByOthers(actions, t) && After(s, actions) == s'
  }

  lemma {:induction false} ObeysConcat(o: Origin, t: Uuid, s: State, first: seq<Action>, second: seq<Action>)
    requires Possible(s, first) && Obeys(o, t, s, first)
    requires Possible(After(s, first), second) && Obeys(o, t, After(s, first), second)
    ensures Possible(s, first + second) && Obeys(o, t, s, first + second)
    decreases |first|
  {
    PossibleConcat(s, first, second);
    if first == [] {
      assert first + second == second;
    } else {
      ObeysConcat(o, t, Apply(s, first[0]), first[1..], second);
      assert (first + second)[1..] == first[1..] + second;
    }
  }

  lemma {:induction false} OthersObey(o: Origin, t: Uuid, s: State, actions: seq<Action>)
    requires Possible(s, actions) && ByOthers(actions, t)
    ensures Obeys(o, t, s, actions)
    decreases |actions|
  {
    if actions != [] {
      assert ByOthers(actions[1..], t) by {
        assert forall k :: 0 <= k < |actions[1..]| ==> actions[1..][k] == actions[k + 1];
      }
      OthersObey(o, t, Apply(s, actions[0]), actions[1..]);
    }
  }

  lemma LeadsOn(o: Origin, t: Uuid, s: State, actions: seq<Action>)
    requires Leads(o, t, s) && Possible(s, actions) && NoCrash(actions) && Obeys(o, t, s, actions)
    ensures Leads(o, t, After(s, actions))
  {
    var first :| Possible(o.state, first) && NoCrash(first) && Obeys(o, t, o.state, first) && After(o.state, first) == s;
    PossibleConcat(o.state, first, actions);
    ObeysConcat(o, t, o.state, first, actions);
    assert NoCrash(first + actions);
  }

  lemma LeadsNowhere(o: Origin, t: Uuid)
    requires Reachable(o.state)
    ensures Leads(o, t, o.state)
  {
    assert Possible(o.state, []) && NoCrash([]) && Obeys(o, t, o.state, []) && After(o.state, []) == o.state;
  }

  lemma StaysReachable(o: Origin, t: Uuid, s: State)
    requires Leads(o, t, s)
    ensures Reachable(s)
  {
    var first :| Possible(INITIAL, first) && After(INITIAL, first) == o.state;
    var second :| Possible(o.state, second) && NoCrash(second) && Obeys(o, t, o.state, second) && After(o.state, second) == s;
    PossibleConcat(INITIAL, first, second);
  }

  function Choice(locked: bool, failed: bool, cancelFirst: bool): Env {
    Env(locked, failed, cancelFirst, false, Uuid(0), 0, 0, None, {}, [])
  }

  /** The executor took one step. */
  lemma Took(o: Origin, t: Uuid, s: State, env: Env, s': State)
    requires Leads(o, t, s) && ExecutorEnabled(s, t, env) && s' == ExecutorApply(s, t, env) && Fits(o, s, t, env)
    ensures Leads(o, t, s') && Reachable(s')
  {
    var action := ExecutorStep(t, env);
    OneStep(s, action);
    assert [action][1..] == [] && Obeys(o, t, s, [action]) && NoCrash([action]);
    LeadsOn(o, t, s, [action]);
    StaysReachable(o, t, s');
  }

  lemma TookHandOver(o: Origin, t: Uuid, s: State, a: Activity, i: nat, s': State)
    requires Leads(o, t, s) && t in s.executors && s.executors[t].pc == Checked(a, i) && i < |a.steps|
    requires s' == HandOver(s, t, a, i, o.locked(i))
    ensures Leads(o, t, s') && Reachable(s')
  {
    Took(o, t, s, Choice(o.locked(i), false, false), s');
  }

  // ----- what others leave alone -----

  lemma {:induction false} OthersKeep(s: State, actions: seq<Action>, t: Uuid)
    requires Inv(s) && t in s.executors && Possible(s, actions) && ByOthers(actions, t)
    ensures t in After(s, actions).executors && After(s, actions).executors[t] == s.executors[t]
    decreases |actions|
  {
    if actions != [] {
      var action, rest := actions[0], actions[1..];
      assert !action.Crash? && (action.ExecutorStep? ==> action.ticket != t);
      assert ByOthers(rest, t) by {
        assert forall k :: 0 <= k < |rest| ==> rest[k] == actions[k + 1];
      }
      StepKeepsInv(s, action);
      match action {
        case ExecutorStep(u, env) => OtherExecutorKeeps(s, u, env, t);
        case OpStep(env) => OpKeeps(s, env, t);
        case _ =>
      }
      OthersKeep(Apply(s, action), rest, t);
    }
  }

  /** Whatever the others do, an executor stays where it is. */
  lemma StandsStill(o: Origin, t: Uuid, s: State, s': State)
    requires Leads(o, t, s) && t in s.executors && OthersRan(s, s', t)
    ensures Leads(o, t, s') && t in s'.executors && s'.executors[t] == s.executors[t]
  {
    var actions :| Possible(s, actions) && ByOthers(actions, t) && After(s, actions) == s';
    StaysReachable(o, t, s);
    ReachableOk(s);
    OthersKeep(s, actions, t);
    OthersObey(o, t, s, actions);
    LeadsOn(o, t, s, actions);
  }

  /** Between taking and releasing it, an executor holds the gate. */
  lemma GateIsMine(s: State, t: Uuid)
    requires Reachable(s) && t in s.executors && GatePc(s.executors[t].pc)
    ensures s.gate == HeldByExecutor(t)
  {
    ReachableOk(s);
    assert ExecutorOk(s, t);
  }

  // ----- what others leave alone while an operation holds the gate -----

  /** Executors and prunes took some steps, but no operation did. */
  ghost predicate BesideOpRan(s: State, s': State) {
    exists actions :: Possible(s, actions) && BesideOps(actions) && After(s, actions) == s'
  }

  /** An operation's hold on the gate: where it began, and the session lock it observes. */
  datatype Grip = Grip(state: State, locked: bool)

  ghost predicate Observes(g: Grip, s: State, actions: seq<Action>)
    requires Possible(s, actions)
    decreases |actions|
  {
    actions == [] ||
    (&& !actions[0].Crash? && !actions[0].Begin?
     && (actions[0].OpStep? && s.gate.HeldByOp? && s.gate.op.ConfirmEnvironment? ==> actions[0].env.locked == g.locked)
     && Observes(g, Apply(s, actions[0]), actions[1..]))
  }

  /** The operation has gone on to a state; no other operation has begun since. */
  ghost predicate Held(g: Grip, s': State) {
    && Reachable(g.state)
    && exists actions :: Possible(g.state, actions) && Observes(g, g.state, actions) && After(g.state, actions) == s'
  }

  /** The operation has come to an end with an outcome and has released the gate. */
  ghost predicate Finished(g: Grip, outcome: Result<Option<Uuid>>, s': State) {
    exists s :: Held(g, s) && s.gate == HeldByOp(Leave(outcome)) && s' == s.(gate := Free)
  }

  /** The operation took the free gate and came to its end. */
  ghost predicate Performed(s: State, op: Op, locked: bool, outcome: Result<Option<Uuid>>, s': State) {
    s.gate.Free? && Finished(Grip(ToOp(s, op), locked), outcome, s')
  }

  lemma {:induction false} ObservesConcat(g: Grip, s: State, first: seq<Action>, second: seq<Action>)
    requires Possible(s, first) && Observes(g, s, first)
    requires Possible(After(s, first), second) && Observes(g, After(s, first), second)
    ensures Possible(s, first + second) && Observes(g, s, first + second)
    decreases |first|
  {
    PossibleConcat(s, first, second);
    if first == [] {
      assert first + second == second;
    } else {
      ObservesConcat(g, Apply(s, first[0]), first[1..], second);
      assert (first + second)[1..] == first[1..] + second;
    }
  }

  lemma {:induction false} BesideObserves(g: Grip, s: State, actions: seq<Action>)
    requires Possible(s, actions) && BesideOps(actions)
    ensures Observes(g, s, actions)
    decreases |actions|
  {
    if actions != [] {
      assert actions[0].ExecutorStep? || actions[0].ClearActivities?;
      assert BesideOps(actions[1..]) by {
        assert forall k :: 0 <= k < |actions[1..]| ==> actions[1..][k] == actions[k + 1];
      }
      BesideObserves(g, Apply(s, actions[0]), actions[1..]);
    }
  }

  lemma HeldOn(g: Grip, s: State, actions: seq<Action>)
    requires Held(g, s) && Possible(s, actions) && Observes(g, s, actions)
    ensures Held(g, After(s, actions)) && Reachable(After(s, actions))
  {
    var first :| Possible(g.state, first) && Observes(g, g.state, first) && After(g.state, first) == s;
    var before :| Possible(INITIAL, before) && After(INITIAL, before) == g.state;
    PossibleConcat(g.state, first, actions);
    ObservesConcat(g, g.state, first, actions);
    PossibleConcat(INITIAL, before, first + actions);
  }

  lemma HeldNowhere(g: Grip)
    requires Reachable(g.state)
    ensures Held(g, g.state)
  {
    assert Possible(g.state, []) && Observes(g, g.state, []) && After(g.state, []) == g.state;
  }

  lemma HeldIsReachable(g: Grip, s: State)
    requires Held(g, s)
    ensures Reachable(s)
  {
    assert Possible(s, []) && Observes(g, s, []) && After(s, []) == s;
    HeldOn(g, s, []);
  }

  lemma GateUndisturbed(g: Grip, s: State, s': State)
    requires Held(g, s) && s.gate.HeldByOp? && BesideOpRan(s, s')
    ensures Held(g, s') && s'.gate == s.gate
    ensures Recovering(s.gate) ==> Recovers(s, s')
  {
    var actions :| Possible(s, actions) && BesideOps(actions) && After(s, actions) == s';
    HeldIsReachable(g, s);
    ReachableOk(s);
    OpGateKept(s, actions);
    BesideObserves(g, s, actions);
    HeldOn(g, s, actions);
    if Recovering(s.gate) {
      StillRecovering(s, actions);
      RunRecovers(s, actions);
    }
  }

  lemma {:induction false} StillRecovering(s: State, actions: seq<Action>)
    requires Inv(s) && Recovering(s.gate) && Possible(s, actions) && BesideOps(actions)
    ensures KeepsRecovering(s, actions)
    decreases |actions|
  {
    hide Inv;
    if actions != [] {
      var action, rest := actions[0], actions[1..];
      assert BesideOps(rest) by {
        assert forall k :: 0 <= k < |rest| ==> rest[k] == actions[k + 1];
      }
      assert action.ExecutorStep? || action.ClearActivities?;
      StepKeepsInv(s, action);
      if action.ExecutorStep? { ExecutorKeepsGate(s, action.ticket, action.env); }
      StillRecovering(Apply(s, action), rest);
    }
  }

  /** The operation under the gate took one step. */
  lemma TookOp(g: Grip, s: State, env: Env, s': State)
    requires Held(g, s) && OpEnabled(s, env) && s' == OpApply(s, env)
    requires s.gate.op.ConfirmEnvironment? ==> env.locked == g.locked
    ensures Held(g, s') && Reachable(s')
  {
    var action := OpStep(env);
    OneStep(s, action);
    assert [action][1..] == [] && Observes(g, s, [action]);
    HeldOn(g, s, [action]);
  }

  lemma TookConfirm(g: Grip, s: State, env: Env, s': State)
    requires Held(g, s) && OpEnabled(s, env) && ConfirmOp(s.gate.op) && s' == ConfirmApply(s, s.gate.op, env)
    requires s.gate.op.ConfirmEnvironment? ==> env.locked == g.locked
    ensures Held(g, s') && Reachable(s')
  {
    TookOp(g, s, env, s');
  }

  lemma TookCancel(g: Grip, s: State, s': State)
    requires Held(g, s) && s.gate.HeldByOp? && CancelOp(s.gate.op) && s' == CancelApply(s, s.gate.op)
    ensures Held(g, s') && Reachable(s')
  {
    TookOp(g, s, Choice(false, false, false), s');
  }

  lemma TookRecover(g: Grip, s: State, env: Env, s': State)
    requires Held(g, s) && OpEnabled(s, env) && RecoverOp(s.gate.op) && s' == RecoverApply(s, s.gate.op, env)
    ensures Held(g, s') && Reachable(s') && Recovers(s, s')
  {
    TookOp(g, s, env, s');
    HeldIsReachable(g, s);
    ReachableOk(s);
    StepRecovers(s, OpStep(env));
  }
}
