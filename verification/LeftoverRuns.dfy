/**
 Runs that end with steps left over do occur: one canceled before it had a permit, with its step still
 `Queued`; one canceled between the confirmation of its step and the start of that step, with the step
 still `AwaitingConfirmation`; and one whose step had succeeded, until a late write of a cancellation
 made it wait again.
 */
module LeftoverRuns {
  import opened Model
  import opened Protocol
  import opened OpSteps
  import opened Leftovers
  import opened Scenario

  // ----- canceled before it had a permit -----

  const DELAY: Definition := Definition("a", true, Manual, [Delay(1)], Automatic, 1, 0, 0, None)
  const WAITING: Activity := Row(DELAY, None, Queued, Queued, [])
  const ENDED: Activity := Row(DELAY, None, Canceled, Queued, [])
  const EARLY: Env := ENV.(cancelFirst := true)

  /** The run with its token set. */
  function Marked(row: Activity, pc: Pc, gate: Gate): State {
    First(DELAY, None, row, pc, {}, gate, []).(canceled := {TICKET})
  }

  /** The run has just been launched; a cancellation reads its row. */
  lemma RowRead()
    ensures Reachable(First(DELAY, None, WAITING, Start, {}, HeldByOp(CancelLookup(WAITING)), []))
  {
    var s := First(DELAY, None, WAITING, Start, {}, Free, []);
    Launched(DELAY, None);
    ReachNext(s, Begin(CancelRead(RUN)));
    OpTo(ToOp(s, CancelRead(RUN)), ENV, ToOp(s, CancelLookup(WAITING)));
  }

  /** Its token is set. */
  lemma TokenSet()
    ensures Reachable(Marked(WAITING, Start, HeldByOp(Leave(Ok(None)))))
  {
    var s := First(DELAY, None, WAITING, Start, {}, Free, []);
    RowRead();
    OpTo(ToOp(s, CancelLookup(WAITING)), ENV, Marked(WAITING, Start, HeldByOp(Leave(Ok(None)))));
  }

  lemma StopsEarly()
    ensures Reachable(Marked(WAITING, PersistFinal(ENDED), HeldByOp(Leave(Ok(None)))))
  {
    var leave := HeldByOp(Leave(Ok(None)));
    TokenSet();
    ExecutorTo(Marked(WAITING, Start, leave), TICKET, EARLY, Marked(WAITING, Acquire(WAITING), leave));
    ExecutorTo(Marked(WAITING, Acquire(WAITING), leave), TICKET, EARLY, Marked(WAITING, PersistFinal(ENDED), leave));
  }

  /** It ends before it had a permit. */
  lemma EndsEarly()
    ensures Reachable(Marked(ENDED, LeavePermit, HeldByOp(Leave(Ok(None)))))
  {
    var leave := HeldByOp(Leave(Ok(None)));
    StopsEarly();
    ExecutorTo(Marked(WAITING, PersistFinal(ENDED), leave), TICKET, EARLY, Marked(ENDED, LeavePermit, leave));
  }

  /** A reachable state in which a canceled run has a queued step. */
  lemma QueuedStepOccurs()
    ensures exists s: State, id: Uuid :: QueuedAndCanceled(s, id)
  {
    EndsEarly();
    assert ENDED.steps[0].status.Queued?;
    assert QueuedAndCanceled(Marked(ENDED, LeavePermit, HeldByOp(Leave(Ok(None)))), RUN);
  }

  ghost predicate QueuedAndCanceled(s: State, id: Uuid) {
    Reachable(s) && id in s.rows && s.rows[id].status.Canceled? && HasQueued(s.rows[id])
  }

  // ----- canceled after its step was confirmed -----

  const SECOND: Uuid := Uuid(3)
  const SNAPSHOT: Option<Snapshot> := Some(Snapshot("q", "", true, false))
  const QUICK: Definition := Definition("a", true, Manual, [QuickAction("q")], Automatic, 1, 0, 0, None)
  const QUEUED: Activity := Row(QUICK, SNAPSHOT, Queued, Queued, [])
  const ASKED: Activity := Row(QUICK, SNAPSHOT, AwaitingConfirmation, AwaitingConfirmation, [])
  const CONFIRMED: Activity := Row(QUICK, SNAPSHOT, Queued, AwaitingConfirmation, [0])
  const CANCELED: Activity := Row(QUICK, SNAPSHOT, Canceled, AwaitingConfirmation, [0])
  const GRANTED: seq<Entry> := [Granted(StepGrant(0), false)]

  /** The run with the executor of its first launch. */
  function Once(row: Activity, pc: Pc, permits: set<Uuid>, gate: Gate): State {
    First(QUICK, SNAPSHOT, row, pc, permits, gate, [])
  }

  /** The run between its launches. */
  function Between(row: Activity, gate: Gate, j: seq<Entry>): State {
    State(map[RUN := row], map[], {}, {}, map[], gate, map[RUN := j], map[RUN := QUEUED], {TICKET})
  }

  /** The run with the executor of its second launch. */
  function Again(row: Activity, pc: Pc, permits: set<Uuid>, canceled: set<Uuid>, gate: Gate): State {
    State(map[RUN := row], map[RUN := SECOND], canceled, permits, map[SECOND := Executor(RUN, pc)], gate,
          map[RUN := GRANTED], map[RUN := QUEUED], {TICKET, SECOND})
  }

  lemma Enters()
    ensures Reachable(Once(QUEUED, Loop(QUEUED, 0), {TICKET}, Free))
  {
    Launched(QUICK, SNAPSHOT);
    ExecutorTo(Once(QUEUED, Start, {}, Free), TICKET, ENV, Once(QUEUED, Acquire(QUEUED), {}, Free));
    ExecutorTo(Once(QUEUED, Acquire(QUEUED), {}, Free), TICKET, ENV, Once(QUEUED, Loop(QUEUED, 0), {TICKET}, Free));
  }

  /** The executor reaches its dangerous step. */
  lemma Reaches()
    ensures Reachable(Once(QUEUED, Gated(QUEUED, 0), {TICKET}, HeldByExecutor(TICKET)))
  {
    Enters();
    ExecutorTo(Once(QUEUED, Loop(QUEUED, 0), {TICKET}, Free), TICKET, ENV,
               Once(QUEUED, WaitGate(QUEUED, 0), {TICKET}, Free));
    ExecutorTo(Once(QUEUED, WaitGate(QUEUED, 0), {TICKET}, Free), TICKET, ENV,
          Once(QUEUED, Gated(QUEUED, 0), {TICKET}, HeldByExecutor(TICKET)));
  }

  /** It asks for confirmation. */
  lemma Asks()
    ensures Reachable(Once(ASKED, LeavePermit, {TICKET}, Free))
  {
    var held := HeldByExecutor(TICKET);
    Reaches();
    assert SetStep(QUEUED.(status := AwaitingConfirmation), 0, AwaitingConfirmation) == ASKED;
    ExecutorTo(Once(QUEUED, Gated(QUEUED, 0), {TICKET}, held), TICKET, ENV,
               Once(QUEUED, GatedPersist(ASKED), {TICKET}, held));
    ExecutorTo(Once(QUEUED, GatedPersist(ASKED), {TICKET}, held), TICKET, ENV, Once(ASKED, LeaveGate, {TICKET}, held));
    ExecutorTo(Once(ASKED, LeaveGate, {TICKET}, held), TICKET, ENV, Once(ASKED, LeavePermit, {TICKET}, Free));
  }

  /** And leaves. */
  lemma Waits()
    ensures Reachable(Between(ASKED, Free, []))
  {
    Asks();
    ExecutorTo(Once(ASKED, LeavePermit, {TICKET}, Free), TICKET, ENV, Once(ASKED, Cleanup, {}, Free));
    ExecutorTo(Once(ASKED, Cleanup, {}, Free), TICKET, ENV, Between(ASKED, Free, []));
  }

  lemma Confirming()
    ensures Reachable(Between(ASKED, HeldByOp(ConfirmEnvironment(ASKED)), []))
  {
    Waits();
    ReachNext(Between(ASKED, Free, []), Begin(ConfirmRead(RUN)));
    OpTo(Between(ASKED, HeldByOp(ConfirmRead(RUN)), []), ENV, Between(ASKED, HeldByOp(ConfirmEnvironment(ASKED)), []));
  }

  const PERSIST: Gate := HeldByOp(ConfirmPersist(CONFIRMED, Some(StepGrant(0)), false))

  lemma Granting()
    ensures Reachable(Between(ASKED, PERSIST, []))
  {
    Confirming();
    assert GrantOf(ASKED) == Some(StepGrant(0)) && Confirmed(ASKED) == CONFIRMED;
    OpTo(Between(ASKED, HeldByOp(ConfirmEnvironment(ASKED)), []), ENV, Between(ASKED, PERSIST, []));
  }

  /** The step is confirmed. */
  lemma Grants()
    ensures Reachable(Between(CONFIRMED, HeldByOp(ConfirmLaunch(RUN)), GRANTED))
  {
    Granting();
    assert [] + GRANTED == GRANTED;
    OpTo(Between(ASKED, PERSIST, []), ENV, Between(CONFIRMED, HeldByOp(ConfirmLaunch(RUN)), GRANTED));
  }

  /** The confirmed run is launched again. */
  lemma Relaunched()
    ensures Reachable(Again(CONFIRMED, Start, {}, {}, Free))
  {
    var leave := HeldByOp(Leave(Ok(None)));
    Grants();
    OpTo(Between(CONFIRMED, HeldByOp(ConfirmLaunch(RUN)), GRANTED), ENV.(uuid := SECOND),
         Again(CONFIRMED, Start, {}, {}, leave));
    OpTo(Again(CONFIRMED, Start, {}, {}, leave), ENV, Again(CONFIRMED, Start, {}, {}, Free));
  }

  /** It has its permit. */
  lemma Resumed()
    ensures Reachable(Again(CONFIRMED, Loop(CONFIRMED, 0), {SECOND}, {}, Free))
  {
    Relaunched();
    ExecutorTo(Again(CONFIRMED, Start, {}, {}, Free), SECOND, ENV, Again(CONFIRMED, Acquire(CONFIRMED), {}, {}, Free));
    ExecutorTo(Again(CONFIRMED, Acquire(CONFIRMED), {}, {}, Free), SECOND, ENV,
               Again(CONFIRMED, Loop(CONFIRMED, 0), {SECOND}, {}, Free));
  }

  lemma FoundAgain()
    ensures Reachable(Again(CONFIRMED, Loop(CONFIRMED, 0), {SECOND}, {}, HeldByOp(CancelLookup(CONFIRMED))))
  {
    var pc := Loop(CONFIRMED, 0);
    Resumed();
    ReachNext(Again(CONFIRMED, pc, {SECOND}, {}, Free), Begin(CancelRead(RUN)));
    OpTo(Again(CONFIRMED, pc, {SECOND}, {}, HeldByOp(CancelRead(RUN))), ENV,
           Again(CONFIRMED, pc, {SECOND}, {}, HeldByOp(CancelLookup(CONFIRMED))));
  }

  lemma TokenSetAgain()
    ensures Reachable(Again(CONFIRMED, Loop(CONFIRMED, 0), {SECOND}, {SECOND}, HeldByOp(Leave(Ok(None)))))
  {
    var s := Again(CONFIRMED, Loop(CONFIRMED, 0), {SECOND}, {}, HeldByOp(CancelLookup(CONFIRMED)));
    FoundAgain();
    assert AfterLookup(s, CONFIRMED) == Leave(Ok(None));
    OpTo(s, ENV, Again(CONFIRMED, Loop(CONFIRMED, 0), {SECOND}, {SECOND}, HeldByOp(Leave(Ok(None)))));
  }

  /** Then it is canceled. */
  lemma CanceledBeforeStep()
    ensures Reachable(Again(CONFIRMED, Loop(CONFIRMED, 0), {SECOND}, {SECOND}, Free))
  {
    TokenSetAgain();
    OpTo(Again(CONFIRMED, Loop(CONFIRMED, 0), {SECOND}, {SECOND}, HeldByOp(Leave(Ok(None)))), ENV,
           Again(CONFIRMED, Loop(CONFIRMED, 0), {SECOND}, {SECOND}, Free));
  }

  /** A reachable state in which a canceled run has a confirmed step that still waits for confirmation. */
  lemma WaitingStepOccurs()
    ensures exists s: State, id: Uuid, k: nat :: WaitingAndCanceled(s, id, k)
  {
    var s := Again(CANCELED, LeavePermit, {SECOND}, {SECOND}, Free);
    CanceledBeforeStep();
    assert Finish(CONFIRMED.(status := Canceled)) == CANCELED;
    ExecutorTo(Again(CONFIRMED, Loop(CONFIRMED, 0), {SECOND}, {SECOND}, Free), SECOND, ENV,
               Again(CONFIRMED, PersistFinal(CANCELED), {SECOND}, {SECOND}, Free));
    ExecutorTo(Again(CONFIRMED, PersistFinal(CANCELED), {SECOND}, {SECOND}, Free), SECOND, ENV, s);
    assert WaitingAndCanceled(s, RUN, 0);
  }

  ghost predicate WaitingAndCanceled(s: State, id: Uuid, k: nat) {
    && Reachable(s) && id in s.rows && s.rows[id].status.Canceled?
    && k < |s.rows[id].steps| && s.rows[id].steps[k].status.AwaitingConfirmation? && k in s.rows[id].confirmedSteps
  }

  // ----- made to wait again by a late write -----

  const RUNNING: Activity := Row(QUICK, SNAPSHOT, Running, Running, [0])
  const DONE: Activity := Row(QUICK, SNAPSHOT, Running, Succeeded, [0])
  const SUCCEEDED: Activity := Row(QUICK, SNAPSHOT, Succeeded, Succeeded, [0])
  const HANDED: seq<Entry> := GRANTED + [Handed(0, QuickAction("q"), SNAPSHOT)]

  /** The second launch, while a cancellation that has read the confirmed row stands before its lookup. */
  function Late(row: Activity, pc: Pc, permits: set<Uuid>, j: seq<Entry>): State {
    Again(row, pc, permits, {}, HeldByOp(CancelLookup(CONFIRMED))).(journal := map[RUN := j])
  }

  lemma LateStarts()
    ensures Reachable(Late(RUNNING, PostCheck(RUNNING, 0), {SECOND}, GRANTED))
  {
    FoundAgain();
    assert SetStep(CONFIRMED.(status := Running), 0, Running) == RUNNING;
    ExecutorTo(Late(CONFIRMED, Loop(CONFIRMED, 0), {SECOND}, GRANTED), SECOND, ENV,
               Late(CONFIRMED, PersistRunning(RUNNING, 0), {SECOND}, GRANTED));
    ExecutorTo(Late(CONFIRMED, PersistRunning(RUNNING, 0), {SECOND}, GRANTED), SECOND, ENV,
               Late(RUNNING, PostCheck(RUNNING, 0), {SECOND}, GRANTED));
  }

  lemma LateHands()
    ensures Reachable(Late(RUNNING, Executing(RUNNING, 0), {SECOND}, HANDED))
  {
    LateStarts();
    ExecutorTo(Late(RUNNING, PostCheck(RUNNING, 0), {SECOND}, GRANTED), SECOND, ENV,
               Late(RUNNING, Checked(RUNNING, 0), {SECOND}, GRANTED));
    ExecutorTo(Late(RUNNING, Checked(RUNNING, 0), {SECOND}, GRANTED), SECOND, ENV,
               Late(RUNNING, Executing(RUNNING, 0), {SECOND}, HANDED));
  }

  lemma LateExecutes()
    ensures Reachable(Late(DONE, Loop(DONE, 1), {SECOND}, HANDED))
  {
    LateHands();
    assert SetStep(RUNNING, 0, Succeeded) == DONE;
    ExecutorTo(Late(RUNNING, Executing(RUNNING, 0), {SECOND}, HANDED), SECOND, ENV,
               Late(RUNNING, PersistStep(DONE, 0), {SECOND}, HANDED));
    ExecutorTo(Late(RUNNING, PersistStep(DONE, 0), {SECOND}, HANDED), SECOND, ENV,
               Late(DONE, Loop(DONE, 1), {SECOND}, HANDED));
  }

  /** The run succeeds. */
  lemma LateSucceeds()
    ensures Reachable(Late(DONE, PersistFinal(SUCCEEDED), {SECOND}, HANDED))
  {
    LateExecutes();
    assert Finish(DONE) == SUCCEEDED;
    ExecutorTo(Late(DONE, Loop(DONE, 1), {SECOND}, HANDED), SECOND, ENV,
               Late(DONE, PersistFinal(SUCCEEDED), {SECOND}, HANDED));
  }

  lemma LateEnds()
    ensures Reachable(Late(SUCCEEDED, LeavePermit, {SECOND}, HANDED))
  {
    LateSucceeds();
    ExecutorTo(Late(DONE, PersistFinal(SUCCEEDED), {SECOND}, HANDED), SECOND, ENV,
               Late(SUCCEEDED, LeavePermit, {SECOND}, HANDED));
  }

  lemma LateLeaves()
    ensures Reachable(Late(SUCCEEDED, Cleanup, {}, HANDED))
  {
    LateEnds();
    ExecutorTo(Late(SUCCEEDED, LeavePermit, {SECOND}, HANDED), SECOND, ENV, Late(SUCCEEDED, Cleanup, {}, HANDED));
  }

  const GONE: State := Late(SUCCEEDED, Cleanup, {}, HANDED).(active := map[], executors := map[])

  /** A reachable state whose next step makes a step of an ended run wait again that had succeeded. */
  lemma WaitingAgainOccurs()
    ensures exists s: State, env: Env, id: Uuid, k: nat :: WaitsAgain(s, env, id, k)
  {
    var s := ToOp(GONE, CancelPersist(CANCELED));
    LateLeaves();
    ExecutorTo(Late(SUCCEEDED, Cleanup, {}, HANDED), SECOND, ENV, GONE);
    OpTo(GONE, ENV, s);
    assert WaitsAgain(s, ENV, RUN, 0);
  }

  ghost predicate WaitsAgain(s: State, env: Env, id: Uuid, k: nat) {
    && Reachable(s) && OpEnabled(s, env) && s.gate.op.CancelPersist?
    && id in s.rows && s.rows[id].status.Succeeded? && k < |s.rows[id].steps| && s.rows[id].steps[k].status.Succeeded?
    && id in OpApply(s, env).rows && OpApply(s, env).rows[id].status.Canceled?
    && k < |OpApply(s, env).rows[id].steps| && OpApply(s, env).rows[id].steps[k].status.AwaitingConfirmation?
  }
}
