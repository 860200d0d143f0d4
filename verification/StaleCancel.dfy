/**
 The one way a terminal row is rewritten does occur: a concrete run in which a cancellation reads the
 row before its step starts, the executor then succeeds and deregisters, and the cancellation writes
 the row as it read it, but `Canceled`, over `Succeeded`.
 */
module StaleCancel {
  import opened Model
  import opened Protocol
  import opened OpSteps
  import opened Leftovers
  import opened Scenario

  const DELAY: Definition := Definition("a", true, Manual, [Delay(1)], Automatic, 1, 0, 0, None)
  const QUEUED: Activity := Row(DELAY, None, Queued, Queued, [])
  const STARTED: Activity := Row(DELAY, None, Running, Running, [])
  const DONE: Activity := Row(DELAY, None, Running, Succeeded, [])
  const SUCCEEDED: Activity := Row(DELAY, None, Succeeded, Succeeded, [])
  const HANDED: seq<Entry> := [Handed(0, Delay(1), None)]
  const READ: Gate := HeldByOp(CancelLookup(QUEUED))

  /** The run with its executor, while the cancellation stands between its read and its lookup. */
  function Reading(row: Activity, pc: Pc, permits: set<Uuid>, j: seq<Entry>): State {
    First(DELAY, None, row, pc, permits, READ, j)
  }

  /** The cancellation has read the row. */
  lemma HasRead()
    ensures Reachable(Reading(QUEUED, Start, {}, []))
  {
    var s := First(DELAY, None, QUEUED, Start, {}, Free, []);
    Launched(DELAY, None);
    ReachNext(s, Begin(CancelRead(RUN)));
    OpTo(ToOp(s, CancelRead(RUN)), ENV, Reading(QUEUED, Start, {}, []));
  }

  /** The executor has its permit. */
  lemma Permitted()
    ensures Reachable(Reading(QUEUED, Loop(QUEUED, 0), {TICKET}, []))
  {
    HasRead();
    ExecutorTo(Reading(QUEUED, Start, {}, []), TICKET, ENV, Reading(QUEUED, Acquire(QUEUED), {}, []));
    ExecutorTo(Reading(QUEUED, Acquire(QUEUED), {}, []), TICKET, ENV, Reading(QUEUED, Loop(QUEUED, 0), {TICKET}, []));
  }

  /** The step is marked running. */
  lemma Starts()
    ensures Reachable(Reading(STARTED, PostCheck(STARTED, 0), {TICKET}, []))
  {
    Permitted();
    assert SetStep(QUEUED.(status := Running), 0, Running) == STARTED;
    ExecutorTo(Reading(QUEUED, Loop(QUEUED, 0), {TICKET}, []), TICKET, ENV,
               Reading(QUEUED, PersistRunning(STARTED, 0), {TICKET}, []));
    ExecutorTo(Reading(QUEUED, PersistRunning(STARTED, 0), {TICKET}, []), TICKET, ENV,
               Reading(STARTED, PostCheck(STARTED, 0), {TICKET}, []));
  }

  /** The step is handed over. */
  lemma Hands()
    ensures Reachable(Reading(STARTED, Executing(STARTED, 0), {TICKET}, HANDED))
  {
    Starts();
    assert [] + HANDED == HANDED;
    ExecutorTo(Reading(STARTED, PostCheck(STARTED, 0), {TICKET}, []), TICKET, ENV,
               Reading(STARTED, Checked(STARTED, 0), {TICKET}, []));
    ExecutorTo(Reading(STARTED, Checked(STARTED, 0), {TICKET}, []), TICKET, ENV,
               Reading(STARTED, Executing(STARTED, 0), {TICKET}, HANDED));
  }

  /** It succeeds. */
  lemma Executed()
    ensures Reachable(Reading(DONE, Loop(DONE, 1), {TICKET}, HANDED))
  {
    Hands();
    assert SetStep(STARTED, 0, Succeeded) == DONE;
    ExecutorTo(Reading(STARTED, Executing(STARTED, 0), {TICKET}, HANDED), TICKET, ENV,
               Reading(STARTED, PersistStep(DONE, 0), {TICKET}, HANDED));
    ExecutorTo(Reading(STARTED, PersistStep(DONE, 0), {TICKET}, HANDED), TICKET, ENV,
               Reading(DONE, Loop(DONE, 1), {TICKET}, HANDED));
  }

  /** The run succeeds and its executor is about to leave. */
  lemma Succeeds()
    ensures Reachable(Reading(SUCCEEDED, Cleanup, {}, HANDED))
  {
    Executed();
    assert Finish(DONE) == SUCCEEDED;
    ExecutorTo(Reading(DONE, Loop(DONE, 1), {TICKET}, HANDED), TICKET, ENV,
               Reading(DONE, PersistFinal(SUCCEEDED), {TICKET}, HANDED));
    ExecutorTo(Reading(DONE, PersistFinal(SUCCEEDED), {TICKET}, HANDED), TICKET, ENV,
               Reading(SUCCEEDED, LeavePermit, {TICKET}, HANDED));
    ExecutorTo(Reading(SUCCEEDED, LeavePermit, {TICKET}, HANDED), TICKET, ENV, Reading(SUCCEEDED, Cleanup, {}, HANDED));
  }

  const GONE: State := Reading(SUCCEEDED, Cleanup, {}, HANDED).(active := map[], executors := map[])

  /** The executor has left, and the lookup does not find the run. */
  lemma Misses()
    ensures Reachable(ToOp(GONE, CancelPersist(QUEUED.(status := Canceled))))
  {
    Succeeds();
    ExecutorTo(Reading(SUCCEEDED, Cleanup, {}, HANDED), TICKET, ENV, GONE);
    OpTo(GONE, ENV, ToOp(GONE, CancelPersist(QUEUED.(status := Canceled))));
  }

  /** A reachable state whose next step writes `Canceled` over a run that succeeded, and brings back a `Queued` step. */
  lemma StaleWriteOccurs()
    ensures exists s: State, env: Env :: Overwrites(s, env)
  {
    Misses();
    assert QUEUED.steps[0].status.Queued?;
    assert Overwrites(ToOp(GONE, CancelPersist(QUEUED.(status := Canceled))), ENV);
  }

  ghost predicate Overwrites(s: State, env: Env) {
    && Reachable(s) && OpEnabled(s, env) && s.gate.op.CancelPersist?
    && var id := s.gate.op.a.id;
       && id in s.rows && s.rows[id].status.Succeeded? && !HasQueued(s.rows[id])
       && id in OpApply(s, env).rows && OpApply(s, env).rows[id].status.Canceled? && HasQueued(OpApply(s, env).rows[id])
  }
}
