/**
 How concrete runs of the protocol begin: one record of a definition with a single step is enqueued in
 an empty engine.  The runs in which an expected property fails start from here.
 */
module Scenario {
  import opened Model
  import opened Protocol
  import opened OpSteps

  const RUN: Uuid := Uuid(1)
  const TICKET: Uuid := Uuid(2)
  const EVENT: Event := Event("e", map[], None)
  const ENV: Env := Env(false, false, false, false, RUN, 1, 0, None, {}, [])

  /** The definition has one step, and `action` is the snapshot taken of it. */
  predicate OneStepped(d: Definition, action: Option<Snapshot>) {
    |d.steps| == 1 && (d.steps[0].QuickAction? <==> action.Some?)
  }

  function Row(d: Definition, action: Option<Snapshot>, status: Status, step: Status, confirmed: seq<nat>): Activity
    requires OneStepped(d, action)
  {
    Activity(RUN, 1, d.id, d, EVENT, status, 0, [StepRun(0, d.steps[0], action, step)], confirmed, false)
  }

  /** The record as it is accepted. */
  function Entered(d: Definition, action: Option<Snapshot>): Activity
    requires OneStepped(d, action)
  {
    Row(d, action, if d.runMode.AskBeforeRun? then AwaitingConfirmation else Queued, Queued, [])
  }

  function Bare(d: Definition): Activity {
    Activity(RUN, 1, d.id, d, EVENT, Queued, 0, [], [], false)
  }

  /** The engine while the record is being enqueued. */
  function Entering(rows: map<Uuid, Activity>, op: Op): State {
    ToOp(INITIAL.(journal := map[RUN := []], rows := rows), op)
  }

  lemma OpTo(s: State, env: Env, s': State)
    requires Reachable(s) && OpEnabled(s, env) && OpApply(s, env) == s'
    ensures Reachable(s')
  {
    ReachNext(s, OpStep(env));
  }

  lemma ExecutorTo(s: State, t: Uuid, env: Env, s': State)
    requires Reachable(s) && ExecutorEnabled(s, t, env) && ExecutorApply(s, t, env) == s'
    ensures Reachable(s')
  {
    ReachNext(s, ExecutorStep(t, env));
  }

  lemma Inserted(d: Definition)
    ensures Reachable(Entering(map[RUN := Bare(d)], EnqueueSnapshot(Bare(d))))
  {
    var read, decide := EnqueueRead(d, EVENT, true), EnqueueDecide(d, EVENT, true, false, false);
    assert Possible(INITIAL, []) && After(INITIAL, []) == INITIAL;
    assert Live(INITIAL.rows) == {};
    ReachNext(INITIAL, Begin(read));
    OpTo(ToOp(INITIAL, read), ENV, ToOp(INITIAL, decide));
    OpTo(ToOp(INITIAL, decide), ENV, Entering(map[], EnqueueInsert(Bare(d).(rowid := 0))));
    OpTo(Entering(map[], EnqueueInsert(Bare(d).(rowid := 0))), ENV,
         Entering(map[RUN := Bare(d)], EnqueueSnapshot(Bare(d))));
  }

  lemma Snapshotted(d: Definition, action: Option<Snapshot>)
    requires OneStepped(d, action)
    ensures Reachable(Entering(map[RUN := Bare(d)], EnqueuePersist(Entered(d, action))))
  {
    var env, queued := ENV.(snapshot := action), Row(d, action, Queued, Queued, []);
    Inserted(d);
    assert Bare(d).steps + [StepRun(0, d.steps[0], action, Queued)] == queued.steps;
    OpTo(Entering(map[RUN := Bare(d)], EnqueueSnapshot(Bare(d))), env,
         Entering(map[RUN := Bare(d)], EnqueueSnapshot(queued)));
    OpTo(Entering(map[RUN := Bare(d)], EnqueueSnapshot(queued)), env,
         Entering(map[RUN := Bare(d)], EnqueuePersist(Entered(d, action))));
  }

  /** The record is stored and accepted. */
  lemma Persisted(d: Definition, action: Option<Snapshot>)
    requires OneStepped(d, action)
    ensures var a := Entered(d, action);
      Reachable(Entering(map[RUN := a], if d.runMode.AskBeforeRun? then EnqueuePrune(RUN) else EnqueueLaunch(RUN))
                  .(accepted := map[RUN := a]))
  {
    var a := Entered(d, action);
    Snapshotted(d, action);
    OpTo(Entering(map[RUN := Bare(d)], EnqueuePersist(a)), ENV,
         Entering(map[RUN := a], if d.runMode.AskBeforeRun? then EnqueuePrune(RUN) else EnqueueLaunch(RUN))
             .(accepted := map[RUN := a]));
  }

  /** The end of an enqueue. */
  lemma Left(s: State, id: Uuid)
    requires Reachable(s) && s.gate == HeldByOp(EnqueuePrune(id))
    ensures Reachable(s.(gate := Free))
  {
    assert s.rows - {} == s.rows;
    OpTo(s, ENV, ToOp(s, Leave(Ok(Some(id)))));
    OpTo(ToOp(s, Leave(Ok(Some(id)))), ENV, s.(gate := Free));
  }

  /** The engine with the one run and the executor of its first launch. */
  function First(d: Definition, action: Option<Snapshot>, row: Activity, pc: Pc, permits: set<Uuid>, gate: Gate,
                 j: seq<Entry>): State
    requires OneStepped(d, action)
  {
    State(map[RUN := row], map[RUN := TICKET], {}, permits, map[TICKET := Executor(RUN, pc)], gate,
          map[RUN := j], map[RUN := Entered(d, action)], {TICKET})
  }

  /** The run has been launched and the gate is free. */
  lemma Launched(d: Definition, action: Option<Snapshot>)
    requires OneStepped(d, action) && d.runMode.Automatic?
    ensures Reachable(First(d, action, Entered(d, action), Start, {}, Free, []))
  {
    var s := Entering(map[RUN := Entered(d, action)], EnqueueLaunch(RUN)).(accepted := map[RUN := Entered(d, action)]);
    Persisted(d, action);
    OpTo(s, ENV.(uuid := TICKET), First(d, action, Entered(d, action), Start, {}, HeldByOp(EnqueuePrune(RUN)), []));
    Left(First(d, action, Entered(d, action), Start, {}, HeldByOp(EnqueuePrune(RUN)), []), RUN);
  }
}
