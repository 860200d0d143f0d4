/**
 `execute`, `confirm`, `cancel` and `recover` of src/engine.rs as the program writes them: methods
 over the engine's fields.  Wherever the program awaits, everybody else may take any number of steps.  Each
 method is proved to take only steps of the protocol, whatever the others do in between, so every
 property of the protocol's runs holds of it.
 */
module Runs {
  import opened Model
  import opened Protocol
  import opened Invariant
  import opened OpSteps
  import opened Interleavings
  import Confirmations
  import opened Recovery

  // ----- loops over a record -----

  /** The loop over the steps of a run that stopped (src/engine.rs:629-652). */
  method CloseSteps(a: Activity) returns (r: Activity)
    ensures r == Finish(a)
  {
    r := a;
    if r.status.Running? || r.status.Queued? {
      r := r.(status := Succeeded);
    }
    var k := 0;
    while k < |r.steps|
      invariant k <= |r.steps| == |a.steps|
      invariant forall i :: 0 <= i < k ==> r.steps[i] == CloseStep(a.steps[i], r.status.Canceled?)
      invariant forall i :: k <= i < |a.steps| ==> r.steps[i] == a.steps[i]
      invariant r == a.(status := r.status, steps := r.steps) && r.status == Finish(a).status
    {
      var s := r.steps[k];
      if s.status.Queued? || s.status.Running? {
        var closed := s.(status := if r.status.Canceled? then Canceled else Skipped);
        r := r.(steps := r.steps[k := closed]);
      }
      k := k + 1;
    }
  }

  /** The loop over the steps of an interrupted run (src/engine.rs:667-672). */
  method InterruptSteps(a: Activity) returns (r: Activity)
    ensures r == Interrupt(a)
  {
    r := a.(status := Interrupted);
    var k := 0;
    while k < |r.steps|
      invariant k <= |r.steps| == |a.steps|
      invariant forall i :: 0 <= i < k ==> r.steps[i] == InterruptStep(a.steps[i])
      invariant forall i :: k <= i < |a.steps| ==> r.steps[i] == a.steps[i]
      invariant r == a.(status := Interrupted, steps := r.steps)
    {
      if r.steps[k].status.Running? {
        r := r.(steps := r.steps[k := r.steps[k].(status := Interrupted)]);
      }
      k := k + 1;
    }
  }

  /** The live rows, in some order (src/store.rs:165-170). */
  method ListActive(rows: map<Uuid, Activity>) returns (todo: seq<Activity>)
    requires forall id :: id in rows ==> rows[id].id == id
    ensures ListsLive(rows, todo)
  {
    todo := [];
    var left := rows.Keys;
    while left != {}
      invariant left <= rows.Keys
      invariant forall k :: 0 <= k < |todo| ==>
        todo[k].id in rows && todo[k].id !in left && rows[todo[k].id] == todo[k] && todo[k].Live()
      invariant forall k, l :: 0 <= k < l < |todo| ==> todo[k].id != todo[l].id
      invariant forall id :: id in rows && id !in left && rows[id].Live() ==> exists k :: 0 <= k < |todo| && todo[k].id == id
      decreases left
    {
      var id :| id in left;
      left := left - {id};
      ghost var before := todo;
      if rows[id].Live() {
        todo := todo + [rows[id]];
        assert todo[|before|].id == id;
      }
      assert forall k :: 0 <= k < |before| ==> todo[k] == before[k];
    }
  }

  /** An identifier that was never drawn before. */
  method FreshTicket(drawn: set<Uuid>) returns (ticket: Uuid)
    ensures ticket !in drawn
  {
    var bits := 0;
    ghost var left := drawn;
    while Uuid(bits) in drawn
      invariant forall u :: u in drawn && u.bits >= bits ==> u in left
      decreases |left|
    {
      left := left - {Uuid(bits)};
      bits := bits + 1;
    }
    return Uuid(bits);
  }

  /** Where an executor stands after the head of a round (src/engine.rs:506-534). */
  function TurnPc(turn: Turn, after: Activity, index: nat): Pc {
    match turn
    case Next => PersistRunning(after, index)
    case Break => PersistFinal(Finish(after))
    case Return(_) => WaitGate(after, index)
  }

  /** The head of a round, up to its first await. */
  method DecideStep(activity: Activity, index: nat, canceled: bool) returns (turn: Turn, after: Activity)
    requires index < |activity.steps| && !activity.steps[index].status.Succeeded?
    ensures TurnPc(turn, after, index) == LoopPc(activity, index, canceled) && |after.steps| == |activity.steps|
  {
    after := activity;
    var action := activity.steps[index].action;
    if canceled {
      after := after.(status := Canceled);
      turn := Break;
    } else if action.Some? && action.value.requiresConfirmation && index !in activity.confirmedSteps {
      turn := Return(AtGate(after, index));
    } else {
      after := after.(status := Running);
      after := SetStep(after, index, Running);
      turn := Next;
    }
  }

  // ----- the engine -----

  /** Where an execution stands between two calls: not begun, waiting for a permit, for the gate or for the map, or
      done.  The waiting ones keep the local variables of the source. */
  datatype Stage = Begun | AtPermit(a: Activity) | AtGate(a: Activity, i: nat) | AtMap | Done

  /** How one round of the loop over the steps ends. */
  datatype Turn = Next | Break | Return(stage: Stage)

  /** The step can be handed over: the lock does not forbid it, and a quick action has its snapshot. */
  predicate Ready(r: StepRun, locked: bool) {
    && !(r.action.Some? && r.action.value.requiresUnlockedSession && locked)
    && !(r.step.QuickAction? && r.action.None?)
  }

  datatype Handing = Given | Refused(stop: bool) | Missing

  class RunEngine {
    var rows: map<Uuid, Activity>
    /** The ticket of the latest launch of every registered run. */
    var active: map<Uuid, Uuid>
    /** The tickets whose token is set. */
    var canceled: set<Uuid>
    var permits: set<Uuid>
    var gateHeld: bool
    var mapHeld: bool
    ghost var gate: Gate
    ghost var executors: map<Uuid, Executor>
    ghost var journal: map<Uuid, seq<Entry>>
    ghost var accepted: map<Uuid, Activity>
    var tickets: set<Uuid>

    ghost function View(): State
      reads this
    {
      State(rows, active, canceled, permits, executors, gate, journal, accepted, tickets)
    }

    ghost predicate Valid()
      reads this
    {
      Reachable(View()) && (gateHeld <==> !gate.Free?) && (mapHeld <==> HoldsMap(gate))
    }

    constructor ()
      ensures Valid() && View() == INITIAL
    {
      rows, active, canceled, permits, gateHeld, mapHeld := map[], map[], {}, {}, false, false;
      gate, executors, journal, accepted, tickets := Free, map[], map[], map[], {};
      new;
      assert Possible(INITIAL, []) && After(INITIAL, []) == INITIAL;
    }

    /** An await.  Its contract is all a caller knows: others may have taken any number of steps. */
    method Await(t: Uuid)
      requires Valid() && t in executors
      modifies this
      ensures Valid() && OthersRan(old(View()), View(), t)
    {
      assert Possible(View(), []) && ByOthers([], t) && After(View(), []) == View();
    }

    /** An await of executor `t`, which stands where it stood when the others are done. */
    method Pause(t: Uuid, ghost from: Origin)
      requires Valid() && t in executors && Leads(from, t, View())
      modifies this
      ensures Valid() && t in executors && executors[t] == old(executors[t]) && Leads(from, t, View())
    {
      ghost var s := View();
      Await(t);
      StandsStill(from, t, s, View());
    }

    /** What an executor does after its last write: return its permit and leave the map, unless a newer launch owns
        the entry.  It waits when an operation holds the map. */
    method LeaveRun(id: Uuid, t: Uuid, ghost from: Origin) returns (stage: Stage)
      requires Valid() && Leads(from, t, View())
      requires t in executors && executors[t] == Executor(id, LeavePermit)
      modifies this
      ensures Valid() && Leads(from, t, View())
      ensures Rests(id, t, stage)
    {
      Pause(t, from);
      ghost var s := View();
      permits := permits - {t};
      executors := executors[t := executors[t].(pc := Cleanup)];
      Took(from, t, s, Choice(false, false, false), View());
      stage := Unregister(id, t, from);
    }

    method Unregister(id: Uuid, t: Uuid, ghost from: Origin) returns (stage: Stage)
      requires Valid() && Leads(from, t, View())
      requires t in executors && executors[t] == Executor(id, Cleanup)
      modifies this
      ensures Valid() && Leads(from, t, View())
      ensures Rests(id, t, stage)
    {
      Pause(t, from);
      if mapHeld {
        return AtMap;
      }
      ghost var s := View();
      if id in active && active[id] == t {
        active := active - {id};
      }
      executors := executors - {t};
      Took(from, t, s, Choice(false, false, false), View());
      return Done;
    }

    /** Writes the record of a run. */
    method Persist(id: Uuid, t: Uuid, a: Activity, ghost next: Pc, ghost from: Origin)
      requires Valid() && Leads(from, t, View())
      requires t in executors && executors[t].id == id && Writes(executors[t].pc, a, next)
      modifies this
      ensures Valid() && Leads(from, t, View())
      ensures t in executors && executors[t] == Executor(id, next)
    {
      Pause(t, from);
      ghost var s := View();
      rows := Save(rows, a);
      executors := executors[t := executors[t].(pc := next)];
      Took(from, t, s, Choice(false, false, false), View());
    }

    method LockGate(id: Uuid, t: Uuid, a: Activity, i: nat, ghost from: Origin) returns (locked: bool)
      requires Valid() && Leads(from, t, View())
      requires t in executors && executors[t] == Executor(id, WaitGate(a, i))
      modifies this
      ensures Valid() && Leads(from, t, View()) && t in executors
      ensures if locked then executors[t] == Executor(id, Gated(a, i)) else executors[t] == old(executors[t]) && gateHeld
    {
      Pause(t, from);
      if gateHeld {
        return false;
      }
      ghost var s := View();
      gateHeld, gate := true, HeldByExecutor(t);
      executors := executors[t := executors[t].(pc := Gated(a, i))];
      Took(from, t, s, Choice(false, false, false), View());
      return true;
    }

    method UnlockGate(id: Uuid, t: Uuid, ghost from: Origin)
      requires Valid() && Leads(from, t, View())
      requires t in executors && executors[t] == Executor(id, LeaveGate)
      modifies this
      ensures Valid() && Leads(from, t, View())
      ensures t in executors && executors[t] == Executor(id, LeavePermit)
    {
      Pause(t, from);
      ghost var s := View();
      GateIsMine(s, t);
      gateHeld, gate := false, Free;
      executors := executors[t := executors[t].(pc := LeavePermit)];
      Took(from, t, s, Choice(false, false, false), View());
    }

    /** The wrapper's answer to an error of `execute` (src/engine.rs:427-433). */
    method RecordFailure(id: Uuid, t: Uuid, ghost from: Origin) returns (stage: Stage)
      requires Valid() && Leads(from, t, View())
      requires t in executors && executors[t] == Executor(id, ErrorRead)
      modifies this
      ensures Valid() && Leads(from, t, View())
      ensures Rests(id, t, stage)
    {
      Pause(t, from);
      ghost var s := View();
      if id in rows {
        var activity := rows[id].(status := Failed);
        executors := executors[t := executors[t].(pc := ErrorPersist(activity))];
        Took(from, t, s, Choice(false, false, false), View());
        Persist(id, t, activity, Cleanup, from);
      } else {
        executors := executors[t := executors[t].(pc := Cleanup)];
        Took(from, t, s, Choice(false, false, false), View());
      }
      stage := Unregister(id, t, from);
    }

    /** The last write of a run, and its leave. */
    method Conclude(id: Uuid, t: Uuid, activity: Activity, ghost from: Origin) returns (stage: Stage)
      requires Valid() && Leads(from, t, View())
      requires t in executors && executors[t] == Executor(id, PersistFinal(activity))
      modifies this
      ensures Valid() && Leads(from, t, View())
      ensures Rests(id, t, stage)
    {
      Persist(id, t, activity, LeavePermit, from);
      stage := LeaveRun(id, t, from);
    }

    /** Under the gate: the run becomes a request for confirmation, unless it has been canceled. */
    method RequestConfirmation(id: Uuid, t: Uuid, activity: Activity, index: nat, ghost from: Origin)
      returns (turn: Turn, after: Activity)
      requires Valid() && Leads(from, t, View()) && index < |activity.steps|
      requires t in executors && executors[t] == Executor(id, Gated(activity, index))
      modifies this
      ensures Valid() && Leads(from, t, View()) && t in executors && |after.steps| == |activity.steps|
      ensures turn == Break || turn == Next
      ensures executors[t] == Executor(id, if turn.Break? then PersistFinal(Finish(after)) else GatedPersist(after))
    {
      after := activity;
      Pause(t, from);
      ghost var s := View();
      GateIsMine(s, t);
      if t in canceled {
        after := after.(status := Canceled);
        gateHeld, gate := false, Free;
        executors := executors[t := executors[t].(pc := PersistFinal(Finish(after)))];
        turn := Break;
      } else {
        after := after.(status := AwaitingConfirmation);
        after := SetStep(after, index, AwaitingConfirmation);
        executors := executors[t := executors[t].(pc := GatedPersist(after))];
        turn := Next;
      }
      Took(from, t, s, Choice(false, false, false), View());
    }

    /** A dangerous step that is not confirmed (src/engine.rs:511-530). */
    method AskForStep(id: Uuid, t: Uuid, activity: Activity, index: nat, ghost from: Origin) returns (turn: Turn, after: Activity)
      requires Valid() && Leads(from, t, View()) && index < |activity.steps|
      requires t in executors && executors[t] == Executor(id, WaitGate(activity, index))
      modifies this
      ensures Valid() && Leads(from, t, View())
      ensures !turn.Next? && RoundEnds(turn, id, t, after) && |after.steps| == |activity.steps|
    {
      after := activity;
      var locked := LockGate(id, t, activity, index, from);
      if !locked {
        return Return(AtGate(activity, index)), after;
      }
      turn, after := RequestConfirmation(id, t, after, index, from);
      if turn.Break? {
        return;
      }
      Persist(id, t, after, LeaveGate, from);
      UnlockGate(id, t, from);
      var stage := LeaveRun(id, t, from);
      return Return(stage), after;
    }

    /** The last check of the token before a step is handed over (src/engine.rs:536-539). */
    method CheckToken(id: Uuid, t: Uuid, activity: Activity, index: nat, ghost from: Origin) returns (turn: Turn, after: Activity)
      requires Valid() && Leads(from, t, View()) && index < |activity.steps|
      requires t in executors && executors[t] == Executor(id, PostCheck(activity, index))
      modifies this
      ensures Valid() && Leads(from, t, View()) && t in executors
      ensures (turn == Break || turn == Next) && |after.steps| == |activity.steps| && (turn.Next? ==> after == activity)
      ensures if turn.Next? then executors[t] == Executor(id, Checked(activity, index)) else RoundEnds(turn, id, t, after)
    {
      after := activity;
      Pause(t, from);
      ghost var s := View();
      turn := Next;
      if t in canceled {
        after := after.(status := Canceled);
        turn := Break;
      }
      executors := executors[t := executors[t].(pc := if turn.Next? then Checked(after, index) else PersistFinal(Finish(after)))];
      Took(from, t, s, Choice(false, false, false), View());
    }

    method GiveStep(id: Uuid, t: Uuid, activity: Activity, index: nat, ghost locked: bool, ghost from: Origin)
      requires Valid() && Leads(from, t, View()) && index < |activity.steps|
      requires t in executors && executors[t] == Executor(id, Checked(activity, index))
      requires Ready(activity.steps[index], locked)
      requires locked == from.locked(index)
      modifies this`journal, this`executors
      ensures Valid() && Leads(from, t, View()) && t in executors && executors[t] == Executor(id, Executing(activity, index))
    {
      ghost var s := View();
      ghost var r := activity.steps[index];
      journal := Record(journal, id, Handed(index, r.step, r.action));
      executors := executors[t := executors[t].(pc := Executing(activity, index))];
      TookHandOver(from, t, s, activity, index, View());
    }

    /** Hands a step over (src/engine.rs:547-611).  The session may be locked; then, for a step that needs it unlocked,
        the result is an error at once.  The action of a quick action may be missing. */
    method HandStep(id: Uuid, t: Uuid, activity: Activity, index: nat, locked: bool, ghost from: Origin) returns (handing: Handing)
      requires Valid() && Leads(from, t, View()) && index < |activity.steps|
      requires t in executors && executors[t] == Executor(id, Checked(activity, index))
      requires locked == from.locked(index)
      modifies this
      ensures Valid() && Leads(from, t, View()) && t in executors
      ensures match handing
        case Given => executors[t] == Executor(id, Executing(activity, index))
        case Refused(stop) => executors[t] == Executor(id, ResultPc(activity, index, stop, true))
        case Missing => executors[t] == Executor(id, ErrorRead)
    {
      hide Leads, Reachable;
      Pause(t, from);
      if Ready(activity.steps[index], locked) {
        GiveStep(id, t, activity, index, locked, from);
        return Given;
      }
      ghost var s := View();
      var r := activity.steps[index];
      if r.action.Some? && r.action.value.requiresUnlockedSession && locked {
        handing := Refused(t in canceled);
        executors := executors[t := executors[t].(pc := ResultPc(activity, index, handing.stop, true))];
      } else {
        handing := Missing;
        permits := permits - {t};
        executors := executors[t := executors[t].(pc := ErrorRead)];
      }
      TookHandOver(from, t, s, activity, index, View());
    }

    /** The result of a step that ran (src/engine.rs:612). */
    method AwaitResult(id: Uuid, t: Uuid, activity: Activity, index: nat, failed: bool, ghost from: Origin) returns (stop: bool)
      requires Valid() && Leads(from, t, View()) && index < |activity.steps|
      requires t in executors && executors[t] == Executor(id, Executing(activity, index))
      requires failed == from.failed(index)
      modifies this
      ensures Valid() && Leads(from, t, View()) && t in executors
      ensures executors[t] == Executor(id, ResultPc(activity, index, stop, failed))
    {
      Pause(t, from);
      ghost var s := View();
      stop := t in canceled;
      executors := executors[t := executors[t].(pc := ResultPc(activity, index, stop, failed))];
      Took(from, t, s, Choice(false, failed, false), View());
    }

    /** The status of a step that was handed over or refused; none when its action is missing. */
    method Perform(id: Uuid, t: Uuid, activity: Activity, index: nat, locked: bool, failed: bool, ghost from: Origin)
      returns (status: Option<Status>)
      requires Valid() && Leads(from, t, View()) && index < |activity.steps|
      requires t in executors && executors[t] == Executor(id, Checked(activity, index))
      requires locked == from.locked(index) && failed == from.failed(index)
      modifies this
      ensures Valid() && Leads(from, t, View()) && t in executors
      ensures status in [None, Some(Canceled), Some(Failed), Some(Succeeded)]
      ensures executors[t].id == id
      ensures executors[t].pc == if status.None? then ErrorRead
                                 else ResultPc(activity, index, status == Some(Canceled), status == Some(Failed))
    {
      var handing := HandStep(id, t, activity, index, locked, from);
      match handing
      case Given =>
        var stop := AwaitResult(id, t, activity, index, failed, from);
        status := Some(if stop then Canceled else if failed then Failed else Succeeded);
      case Refused(stop) =>
        status := Some(if stop then Canceled else Failed);
      case Missing =>
        status := None;
    }

    /** A step marked running, up to its result. */
    method RunMarked(id: Uuid, t: Uuid, activity: Activity, index: nat, locked: bool, failed: bool, ghost from: Origin)
      returns (turn: Turn, after: Activity)
      requires Valid() && Leads(from, t, View()) && index < |activity.steps|
      requires t in executors && executors[t] == Executor(id, Checked(activity, index))
      requires locked == from.locked(index) && failed == from.failed(index)
      modifies this
      ensures Valid() && Leads(from, t, View()) && |after.steps| == |activity.steps|
      ensures if turn.Next? then t in executors && executors[t] == Executor(id, Loop(after, index + 1)) else RoundEnds(turn, id, t, after)
    {
      after := activity;
      var status := Perform(id, t, activity, index, locked, failed, from);
      if status.None? {
        var stage := RecordFailure(id, t, from);
        return Return(stage), after;
      }
      after := SetStep(after, index, status.value);
      if status.value != Succeeded {
        after := after.(status := status.value);
        return Break, after;
      }
      Persist(id, t, after, Loop(after, index + 1), from);
      return Next, after;
    }

    /** One round of the loop over the steps, for a step that has not succeeded. */
    method RunStep(id: Uuid, t: Uuid, activity: Activity, index: nat, locked: bool, failed: bool, ghost from: Origin)
      returns (turn: Turn, after: Activity)
      requires Valid() && Leads(from, t, View()) && index < |activity.steps|
      requires t in executors && executors[t] == Executor(id, Loop(activity, index)) && !activity.steps[index].status.Succeeded?
      requires locked == from.locked(index) && failed == from.failed(index)
      modifies this
      ensures Valid() && Leads(from, t, View()) && |after.steps| == |activity.steps|
      ensures if turn.Next? then t in executors && executors[t] == Executor(id, Loop(after, index + 1)) else RoundEnds(turn, id, t, after)
    {
      turn, after := BeginStep(id, t, activity, index, from);
      match turn
      case Return(_) =>
        turn, after := AskForStep(id, t, after, index, from);
      case Break =>
      case Next =>
        Persist(id, t, after, PostCheck(after, index), from);
        turn, after := CheckToken(id, t, after, index, from);
        if turn.Next? {
          turn, after := RunMarked(id, t, after, index, locked, failed, from);
        }
    }

    /** Up to the first write of a step: stop when canceled, ask when it must be confirmed, else mark it running. */
    method BeginStep(id: Uuid, t: Uuid, activity: Activity, index: nat, ghost from: Origin) returns (turn: Turn, after: Activity)
      requires Valid() && Leads(from, t, View()) && index < |activity.steps|
      requires t in executors && executors[t] == Executor(id, Loop(activity, index)) && !activity.steps[index].status.Succeeded?
      modifies this
      ensures Valid() && Leads(from, t, View()) && t in executors && |after.steps| == |activity.steps|
      ensures executors[t] == Executor(id, TurnPc(turn, after, index))
    {
      Pause(t, from);
      ghost var s := View();
      turn, after := DecideStep(activity, index, t in canceled);
      executors := executors[t := executors[t].(pc := TurnPc(turn, after, index))];
      Took(from, t, s, Choice(false, false, false), View());
    }

    /** Reads the row the run starts from. */
    method ReadRow(id: Uuid, t: Uuid, ghost from: Origin) returns (found: Option<Activity>)
      requires Valid() && Leads(from, t, View())
      requires t in executors && executors[t] == Executor(id, Start)
      modifies this
      ensures Valid() && Leads(from, t, View()) && t in executors
      ensures executors[t] == Executor(id, if found.Some? then Acquire(found.value) else ErrorRead)
    {
      Pause(t, from);
      ghost var s := View();
      found := if id in rows then Some(rows[id]) else None;
      executors := executors[t := executors[t].(pc := if found.Some? then Acquire(found.value) else ErrorRead)];
      Took(from, t, s, Choice(false, false, false), View());
    }

    /** Waits for a permit or for the token; when both are there either may win. */
    method AcquirePermit(id: Uuid, t: Uuid, activity: Activity, cancelFirst: bool, ghost from: Origin) returns (turn: Turn)
      requires Valid() && Leads(from, t, View())
      requires t in executors && executors[t] == Executor(id, Acquire(activity))
      requires cancelFirst == from.cancelFirst
      modifies this
      ensures Valid() && Leads(from, t, View()) && t in executors
      ensures match turn
        case Next => executors[t] == Executor(id, Loop(activity, 0))
        case Break => executors[t] == Executor(id, PersistFinal(activity.(status := Canceled)))
        case Return(stage) => stage == AtPermit(activity) && Rests(id, t, stage)
    {
      Pause(t, from);
      ghost var s := View();
      var full := |permits| >= PERMITS;
      if full && t !in canceled {
        return Return(AtPermit(activity));
      }
      if t in canceled && (cancelFirst || full) {
        executors := executors[t := executors[t].(pc := PersistFinal(activity.(status := Canceled)))];
        Took(from, t, s, Choice(false, false, true), View());
        return Break;
      }
      permits := permits + {t};
      executors := executors[t := executors[t].(pc := Loop(activity, 0))];
      Took(from, t, s, Choice(false, false, false), View());
      return Next;
    }

    /** The loop goes past a step that has succeeded, or ends after the last one. */
    method PassStep(id: Uuid, t: Uuid, activity: Activity, index: nat, ghost from: Origin)
      requires Valid() && Leads(from, t, View())
      requires t in executors && executors[t] == Executor(id, Loop(activity, index))
      requires index < |activity.steps| ==> activity.steps[index].status.Succeeded?
      modifies this
      ensures Valid() && Leads(from, t, View()) && t in executors
      ensures executors[t] == Executor(id, if index < |activity.steps| then Loop(activity, index + 1) else PersistFinal(Finish(activity)))
    {
      ghost var s := View();
      executors := executors[t := executors[t].(pc := LoopPc(activity, index, t in canceled))];
      Took(from, t, s, Choice(false, false, false), View());
    }

    /** The end of `execute` behind its loop (src/engine.rs:629-654). */
    method FinishRun(id: Uuid, t: Uuid, activity: Activity, ghost from: Origin) returns (stage: Stage)
      requires Valid() && Leads(from, t, View())
      requires t in executors && executors[t] == Executor(id, PersistFinal(Finish(activity)))
      modifies this
      ensures Valid() && Leads(from, t, View())
      ensures Rests(id, t, stage)
    {
      var finished := CloseSteps(activity);
      stage := Conclude(id, t, finished, from);
    }

    /** The loop over the steps, and the end behind it. */
    method RunSteps(id: Uuid, t: Uuid, a: Activity, locked: nat -> bool, failed: nat -> bool, ghost from: Origin) returns (stage: Stage)
      requires Valid() && Leads(from, t, View()) && locked == from.locked && failed == from.failed
      requires t in executors && executors[t] == Executor(id, Loop(a, 0))
      modifies this
      ensures Valid() && Leads(from, t, View())
      ensures Rests(id, t, stage)
    {
      var activity, index, turn := a, 0, Next;
      while index < |activity.steps|
        invariant index <= |activity.steps| && turn.Next?
        invariant Valid() && Leads(from, t, View())
        invariant t in executors && executors[t] == Executor(id, Loop(activity, index))
        decreases |activity.steps| - index
      {
        if activity.steps[index].status == Succeeded {
          PassStep(id, t, activity, index, from);
        } else {
          turn, activity := RunStep(id, t, activity, index, locked(index), failed(index), from);
          if turn.Return? {
            return turn.stage;
          }
          if turn.Break? {
            break;
          }
        }
        index := index + 1;
      }
      if !turn.Break? {
        PassStep(id, t, activity, index, from);
      }
      stage := FinishRun(id, t, activity, from);
    }

    /** From the wait for a permit on. */
    method RunFromPermit(id: Uuid, t: Uuid, a: Activity, cancelFirst: bool, locked: nat -> bool, failed: nat -> bool, ghost from: Origin)
      returns (stage: Stage)
      requires Valid() && Leads(from, t, View())
      requires cancelFirst == from.cancelFirst && locked == from.locked && failed == from.failed
      requires t in executors && executors[t] == Executor(id, Acquire(a))
      modifies this
      ensures Valid() && Leads(from, t, View())
      ensures Rests(id, t, stage)
    {
      var turn := AcquirePermit(id, t, a, cancelFirst, from);
      match turn
      case Return(rest) => return rest;
      case Break => stage := Conclude(id, t, a.(status := Canceled), from);
      case Next => stage := RunSteps(id, t, a, locked, failed, from);
    }

    /** `execute` with the wrapper of `launch`, from its start or from where an earlier call had to wait.  The session
        lock and the outcome of every step come from outside.  Every change is a step of the protocol, taken by this
        executor or by others in between; in the end the executor is gone, or it waits for something that others hold,
        and a later call goes on from there. */
    method Execute(id: Uuid, t: Uuid, stage: Stage, cancelFirst: bool, locked: nat -> bool, failed: nat -> bool) returns (next: Stage)
      requires Valid() && !stage.Done? && Stands(id, t, stage)
      modifies this
      ensures Valid() && Leads(Origin(old(View()), locked, failed, cancelFirst), t, View())
      ensures Rests(id, t, next)
    {
      ghost var from := Origin(View(), locked, failed, cancelFirst);
      LeadsNowhere(from, t);
      match stage
      case Begun =>
        var found := ReadRow(id, t, from);
        if found.None? {
          next := RecordFailure(id, t, from);
        } else {
          next := RunFromPermit(id, t, found.value, cancelFirst, locked, failed, from);
        }
      case AtPermit(a) =>
        next := RunFromPermit(id, t, a, cancelFirst, locked, failed, from);
      case AtGate(a, i) =>
        var turn, activity := AskForStep(id, t, a, i, from);
        if turn.Return? {
          next := turn.stage;
        } else {
          next := FinishRun(id, t, activity, from);
        }
      case AtMap =>
        next := Unregister(id, t, from);
    }

    // ----- operations under the gate -----

    /** An await of the operation that holds the gate: executors may take any number of steps. */
    method AwaitOp()
      requires Valid() && gate.HeldByOp?
      modifies this
      ensures Valid() && BesideOpRan(old(View()), View())
    {
      assert Possible(View(), []) && BesideOps([]) && After(View(), []) == View();
    }

    method PauseOp(ghost from: Grip)
      requires Valid() && gate.HeldByOp? && Held(from, View())
      modifies this
      ensures Valid() && gate == old(gate) && Held(from, View())
      ensures Recovering(gate) ==> Recovers(old(View()), View())
    {
      ghost var s := View();
      AwaitOp();
      GateUndisturbed(from, s, View());
    }

    method TakeGate(ghost op: Op, ghost locked: bool) returns (taken: bool)
      requires Valid() && Opening(op)
      modifies this`gateHeld, this`gate
      ensures Valid() && taken == !old(gateHeld)
      ensures if taken then View() == ToOp(old(View()), op) && Held(Grip(View(), locked), View())
              else View() == old(View()) && gateHeld
    {
      if gateHeld {
        return false;
      }
      ghost var s := View();
      gateHeld, gate := true, HeldByOp(op);
      ReachNext(s, Begin(op));
      HeldNowhere(Grip(View(), locked));
      return true;
    }

    method DropGate()
      requires Valid() && gate.HeldByOp? && gate.op.Leave?
      modifies this`gateHeld, this`gate
      ensures Valid() && View() == old(View()).(gate := Free)
    {
      ghost var s := View();
      gateHeld, gate := false, Free;
      ReachNext(s, OpStep(Choice(false, false, false)));
    }

    /** The read at the start of `cancel`; None when there is nothing to do. */
    method ReadForCancel(id: Uuid, ghost from: Grip) returns (r: Result<Option<Activity>>)
      requires Valid() && Held(from, View()) && gate == HeldByOp(CancelRead(id))
      modifies this
      ensures Valid() && Held(from, View()) && gate.HeldByOp?
      ensures gate.op == match r
        case Ok(Some(a)) => CancelLookup(a)
        case Ok(None) => Leave(Ok(None))
        case Err(e) => Leave(Err(e))
    {
      PauseOp(from);
      ghost var s := View();
      if id !in rows {
        r := Err(NotFound);
        gate := HeldByOp(Leave(Err(NotFound)));
      } else if rows[id].status.Terminal() {
        r := Ok(None);
        gate := HeldByOp(Leave(Ok(None)));
      } else {
        r := Ok(Some(rows[id]));
        gate := HeldByOp(CancelLookup(rows[id]));
      }
      TookCancel(from, s, View());
    }

    /** Looks the run up and sets its token.  A row that waits, or whose run is not registered, is then written here,
        with the map still locked. */
    method SetToken(activity: Activity, ghost from: Grip) returns (write: bool)
      requires Valid() && Held(from, View()) && gate == HeldByOp(CancelLookup(activity))
      modifies this
      ensures Valid() && Held(from, View()) && gate.HeldByOp?
      ensures gate.op == if write then CancelPersist(activity.(status := Canceled)) else Leave(Ok(None))
    {
      PauseOp(from);
      ghost var s := View();
      write := true;
      if activity.id in active {
        canceled := canceled + {active[activity.id]};
        write := activity.status.AwaitingConfirmation?;
      }
      mapHeld, gate := write, HeldByOp(if write then CancelPersist(activity.(status := Canceled)) else Leave(Ok(None)));
      TookCancel(from, s, View());
    }

    method WriteCanceled(activity: Activity, ghost from: Grip)
      requires Valid() && Held(from, View()) && gate == HeldByOp(CancelPersist(activity))
      modifies this
      ensures Valid() && Held(from, View()) && gate == HeldByOp(Leave(Ok(None)))
    {
      PauseOp(from);
      ghost var s := View();
      rows := Save(rows, activity);
      mapHeld, gate := false, HeldByOp(Leave(Ok(None)));
      TookCancel(from, s, View());
    }

    /** `cancel` (src/engine.rs:471-492).  None means that it still waits for the gate. */
    method Cancel(id: Uuid) returns (r: Option<Result<()>>)
      requires Valid()
      modifies this
      ensures Valid()
      ensures match r
        case None => View() == old(View()) && gateHeld
        case Some(Ok(_)) => Performed(old(View()), CancelRead(id), false, Ok(None), View())
        case Some(Err(e)) => Performed(old(View()), CancelRead(id), false, Err(e), View())
    {
      var taken := TakeGate(CancelRead(id), false);
      if !taken {
        return None;
      }
      ghost var from := Grip(View(), false);
      var read := ReadForCancel(id, from);
      r := Some(if read.Ok? then Ok(()) else Err(read.error));
      if read.Ok? && read.value.Some? {
        var activity := read.value.value;
        var write := SetToken(activity, from);
        if write {
          WriteCanceled(activity.(status := Canceled), from);
        }
      }
      DropGate();
    }

    /** Registers a launch and spawns its executor (src/engine.rs:415-424). */
    method LaunchConfirmed(id: Uuid, ghost from: Grip) returns (ticket: Uuid)
      requires Valid() && Held(from, View()) && gate == HeldByOp(ConfirmLaunch(id))
      modifies this
      ensures Valid() && Held(from, View()) && gate == HeldByOp(Leave(Ok(None)))
      ensures ticket in executors && executors[ticket] == Executor(id, Start)
    {
      PauseOp(from);
      ghost var s := View();
      ticket := FreshTicket(tickets);
      tickets := tickets + {ticket};
      active := active[id := ticket];
      executors := executors[ticket := Executor(id, Start)];
      gate := HeldByOp(Leave(Ok(None)));
      TookConfirm(from, s, Choice(false, false, false).(uuid := ticket), View());
    }

    /** The read at the start of `confirm`: the row must wait for confirmation. */
    method ReadForConfirm(id: Uuid, ghost from: Grip) returns (r: Result<Activity>)
      requires Valid() && Held(from, View()) && gate == HeldByOp(ConfirmRead(id))
      modifies this
      ensures Valid() && Held(from, View()) && gate.HeldByOp?
      ensures if r.Ok? then gate.op == ConfirmEnvironment(r.value) && r.value.id == id else gate.op == Leave(Err(r.error))
    {
      PauseOp(from);
      ghost var s := View();
      KeyedById(s);
      r := if id !in rows then Err(NotFound)
           else if rows[id].status != AwaitingConfirmation then Err(Invalid)
           else Ok(rows[id]);
      gate := HeldByOp(if r.Ok? then ConfirmEnvironment(r.value) else Leave(Err(r.error)));
      TookConfirm(from, s, Choice(false, false, false), View());
    }

    /** With an unlocked session one thing is granted: the run, or the step that waits. */
    method GrantOne(activity: Activity, locked: bool, ghost from: Grip) returns (r: Result<Activity>)
      requires Valid() && Held(from, View()) && gate == HeldByOp(ConfirmEnvironment(activity))
      requires locked == from.locked
      modifies this
      ensures Valid() && Held(from, View()) && gate.HeldByOp?
      ensures if r.Ok? then !locked && gate.op == ConfirmPersist(r.value, GrantOf(activity), locked) && r.value.id == activity.id
              else gate.op == Leave(Err(r.error))
    {
      PauseOp(from);
      ghost var s := View();
      if locked {
        r := Err(Invalid);
        gate := HeldByOp(Leave(Err(Invalid)));
      } else {
        var granted := activity;
        if !activity.runConfirmed && activity.definition.runMode == AskBeforeRun {
          granted := granted.(runConfirmed := true);
        } else {
          var waiting := FirstAwaiting(activity.steps);
          if waiting.Some? {
            granted := granted.(confirmedSteps := granted.confirmedSteps + [waiting.value]);
          }
        }
        granted := granted.(status := Queued);
        r := Ok(granted);
        gate := HeldByOp(ConfirmPersist(granted, GrantOf(activity), locked));
      }
      TookConfirm(from, s, Choice(locked, false, false), View());
    }

    method WriteGrant(activity: Activity, ghost what: Option<Grant>, ghost locked: bool, ghost from: Grip)
      requires Valid() && Held(from, View()) && gate == HeldByOp(ConfirmPersist(activity, what, locked))
      modifies this
      ensures Valid() && Held(from, View()) && gate == HeldByOp(ConfirmLaunch(activity.id))
    {
      PauseOp(from);
      ghost var s := View();
      rows := Save(rows, activity);
      journal := if what.Some? then Record(journal, activity.id, Granted(what.value, locked)) else journal;
      gate := HeldByOp(ConfirmLaunch(activity.id));
      TookConfirm(from, s, Choice(false, false, false), View());
    }

    /** Everything of `confirm` up to the launch. */
    method GrantWaiting(id: Uuid, locked: bool, ghost from: Grip) returns (r: Result<()>)
      requires Valid() && Held(from, View()) && gate == HeldByOp(ConfirmRead(id))
      requires locked == from.locked
      modifies this
      ensures Valid() && Held(from, View()) && gate.HeldByOp?
      ensures if r.Ok? then gate.op == ConfirmLaunch(id) else gate.op == Leave(Err(r.error))
    {
      var read := ReadForConfirm(id, from);
      if read.Err? {
        return Err(read.error);
      }
      var granted := GrantOne(read.value, locked, from);
      if granted.Err? {
        return Err(granted.error);
      }
      WriteGrant(granted.value, GrantOf(read.value), locked, from);
      return Ok(());
    }

    /** `confirm` (src/engine.rs:443-470).  None means that it still waits for the gate; success gives the ticket of
        the executor it spawned, ready to `Execute`. */
    method Confirm(id: Uuid, locked: bool) returns (r: Option<Result<Uuid>>)
      requires Valid()
      modifies this
      ensures Valid()
      ensures match r
        case None => View() == old(View()) && gateHeld
        case Some(Err(e)) => Performed(old(View()), ConfirmRead(id), locked, Err(e), View())
        case Some(Ok(ticket)) =>
          && Performed(old(View()), ConfirmRead(id), locked, Ok(None), View())
          && ticket in executors && executors[ticket] == Executor(id, Start)
      ensures r.Some? ==> (r.value.Ok? <==> id in old(rows) && old(rows)[id].status.AwaitingConfirmation? && !locked)
      ensures r.Some? && id !in old(rows) ==> r.value == Err(NotFound)
    {
      ghost var s := View();
      var taken := TakeGate(ConfirmRead(id), locked);
      if !taken {
        return None;
      }
      ghost var from := Grip(View(), locked);
      var granted := GrantWaiting(id, locked, from);
      if granted.Err? {
        r := Some(Err(granted.error));
      } else {
        var ticket := LaunchConfirmed(id, from);
        r := Some(Ok(ticket));
      }
      DropGate();
      Confirmations.ConfirmPerformed(s, id, locked, if granted.Ok? then Ok(None) else Err(granted.error), View());
    }

    /** One round of the loop of `recover`. */
    method RecoverRow(activity: Activity, ghost rest: seq<Activity>, ghost from: Grip)
      requires Valid() && Held(from, View()) && gate == HeldByOp(RecoverLoop([activity] + rest))
      modifies this
      ensures Valid() && Held(from, View()) && gate == HeldByOp(RecoverLoop(rest))
      ensures Recovers(old(View()), View())
    {
      ghost var before := View();
      PauseOp(from);
      ghost var s := View();
      assert ([activity] + rest)[0] == activity && ([activity] + rest)[1..] == rest;
      if !activity.status.AwaitingConfirmation? {
        var interrupted := InterruptSteps(activity);
        rows := Save(rows, interrupted);
      }
      gate := HeldByOp(RecoverLoop(rest));
      TookRecover(from, s, Choice(false, false, false), View());
      RecoversTransitive(before, s, View());
    }

    method BeginRecovery(ghost from: Grip) returns (todo: seq<Activity>)
      requires Valid() && Held(from, View()) && gate == HeldByOp(RecoverRead)
      modifies this
      ensures Valid() && Held(from, View()) && gate == HeldByOp(RecoverLoop(todo))
      ensures Recovers(old(View()), View())
    {
      ghost var before := View();
      PauseOp(from);
      ghost var s := View();
      KeyedById(s);
      todo := ListActive(rows);
      gate := HeldByOp(RecoverLoop(todo));
      TookRecover(from, s, Choice(false, false, false).(todo := todo), View());
      RecoversTransitive(before, s, View());
    }

    method EndRecovery(ghost from: Grip)
      requires Valid() && Held(from, View()) && gate == HeldByOp(RecoverLoop([]))
      modifies this`gate
      ensures Valid() && Held(from, View()) && gate == HeldByOp(Leave(Ok(None)))
      ensures forall id :: id in rows ==> !InFlight(rows[id])
    {
      ghost var s := View();
      ReachableOk(s);
      NothingInFlight(s);
      gate := HeldByOp(Leave(Ok(None)));
      TookRecover(from, s, Choice(false, false, false), View());
    }

    method RecoverRows(todo: seq<Activity>, ghost from: Grip)
      requires Valid() && Held(from, View()) && gate == HeldByOp(RecoverLoop(todo))
      modifies this
      ensures Valid() && Held(from, View()) && gate == HeldByOp(RecoverLoop([]))
      ensures Recovers(old(View()), View())
    {
      ghost var begun := View();
      var k := 0;
      while k < |todo|
        invariant k <= |todo|
        invariant Valid() && Held(from, View()) && gate == HeldByOp(RecoverLoop(todo[k..]))
        invariant Recovers(begun, View())
      {
        ghost var s := View();
        assert todo[k..] == [todo[k]] + todo[k + 1..];
        RecoverRow(todo[k], todo[k + 1..], from);
        RecoversTransitive(begun, s, View());
        k := k + 1;
      }
    }

    /** The process ends and starts anew: rows stay, everything else is lost, and `recover` comes first. */
    method Crash()
      requires Valid()
      modifies this
      ensures Valid() && View() == Crashed(old(View()))
    {
      ghost var s := View();
      active, canceled, permits := map[], {}, {};
      gateHeld, mapHeld := true, false;
      gate, executors := HeldByOp(RecoverRead), map[];
      ReachNext(s, Action.Crash);
    }

    /** `recover` (src/engine.rs:656-677), after a crash or at any time when no executor is alive and the gate is free:
        the rows in flight are interrupted, those waiting for the user stay as they are. */
    method Recover()
      requires Valid() && (gate == HeldByOp(RecoverRead) || (gate.Free? && executors == map[]))
      modifies this
      ensures Valid() && Finished(Grip(old(View()).(gate := HeldByOp(RecoverRead)), false), Ok(None), View())
      ensures Recovered(old(rows), rows)
    {
      ghost var before := View();
      if !gateHeld {
        gateHeld, gate := true, HeldByOp(RecoverRead);
        ReachNext(before, Begin(RecoverRead));
      }
      ghost var begun := View();
      ghost var from := Grip(begun, false);
      HeldNowhere(from);
      var todo := BeginRecovery(from);
      ghost var s := View();
      RecoverRows(todo, from);
      RecoversTransitive(begun, s, View());
      s := View();
      EndRecovery(from);
      RecoversCompletely(begun, s);
      DropGate();
    }

    /** How a round that does not go on leaves its executor. */
    ghost predicate RoundEnds(turn: Turn, id: Uuid, t: Uuid, after: Activity)
      reads this
    {
      match turn
      case Next => false
      case Break => t in executors && executors[t] == Executor(id, PersistFinal(Finish(after)))
      case Return(stage) => Rests(id, t, stage)
    }

    /** Executor `t` stands where the stage says. */
    ghost predicate Stands(id: Uuid, t: Uuid, stage: Stage)
      reads this
    {
      match stage
      case Begun => t in executors && executors[t] == Executor(id, Start)
      case AtPermit(a) => t in executors && executors[t] == Executor(id, Acquire(a))
      case AtGate(a, i) => t in executors && executors[t] == Executor(id, WaitGate(a, i)) && i < |a.steps|
      case AtMap => t in executors && executors[t] == Executor(id, Cleanup)
      case Done => t !in executors
    }

    /** The execution is done, or cannot go on from its stage: others hold the permits, the gate or the map. */
    ghost predicate Rests(id: Uuid, t: Uuid, stage: Stage)
      reads this
    {
      && Stands(id, t, stage) && !stage.Begun?
      && (stage.AtPermit? ==> |permits| >= PERMITS && t !in canceled)
      && (stage.AtGate? ==> gateHeld)
      && (stage.AtMap? ==> mapHeld)
    }
  }

  /** The write of `a` an executor is about to make, and where it stands afterwards. */
  predicate Writes(pc: Pc, a: Activity, next: Pc) {
    match pc
    case GatedPersist(b) => a == b && next == LeaveGate
    case PersistRunning(b, i) => a == b && next == PostCheck(b, i)
    case PersistStep(b, i) => a == b && next == Loop(b, i + 1)
    case PersistFinal(b) => a == b && next == LeavePermit
    case ErrorPersist(b) => a == b && next == Cleanup
    case _ => false
  }
}
