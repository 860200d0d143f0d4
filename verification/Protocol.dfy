/**
 The run lifecycle of src/engine.rs over the activity table of src/store.rs, as a labelled
 transition system.  One action is one atomic step between two awaits of the source.  The API
 operations run under `gate`, so the gate's holder carries the program counter of the one
 operation in progress; every spawned executor has its own program counter and local copy of
 the row.  Whatever the outside world decides (fresh identifiers, runner results, the session
 lock, which terminal rows a prune drops) arrives in `Env`.
 */
module Protocol {
  import opened Model

  const PERMITS: nat := 16
  const OUTSTANDING: nat := 128
  const RECENT: nat := 100

  // ----- journals: what happened to one run, in order -----

  datatype Grant = RunGrant | StepGrant(index: nat)

  /** `Granted` is written when a confirmation becomes durable, with the session lock it observed;
      `Handed` when a step is handed to the runner, the shell, the timer or the notifier. */
  datatype Entry =
    | Granted(what: Grant, locked: bool)
    | Handed(index: nat, step: Step, action: Option<Snapshot>)

  // ----- executors -----

  /** Program counter of a spawned executor, with its local copy of the row. */
  datatype Pc =
    | Start
    | Acquire(a: Activity)
    | Loop(a: Activity, i: nat)
    | WaitGate(a: Activity, i: nat)
    | Gated(a: Activity, i: nat)
    | GatedPersist(a: Activity)
    | LeaveGate
    | PersistRunning(a: Activity, i: nat)
    | PostCheck(a: Activity, i: nat)
    | Checked(a: Activity, i: nat)
    | Executing(a: Activity, i: nat)
    | PersistStep(a: Activity, i: nat)
    | PersistFinal(a: Activity)
    | LeavePermit
    | ErrorRead
    | ErrorPersist(a: Activity)
    | Cleanup

  datatype Executor = Executor(id: Uuid, pc: Pc)

  // ----- operations under the gate -----

  datatype Op =
    | EnqueueRead(definition: Definition, event: Event, manual: bool)
    | EnqueueDecide(definition: Definition, event: Event, manual: bool, busy: bool, full: bool)
    | EnqueueInsert(a: Activity)
    | EnqueueLookup(a: Activity)
    | EnqueueSnapshot(a: Activity)
    | EnqueuePersist(a: Activity)
    | EnqueueLaunch(id: Uuid)
    | EnqueuePrune(id: Uuid)
    | MissedInsert(definition: Definition, event: Event)
    | MissedPersist(a: Activity)
    | ConfirmRead(id: Uuid)
    | ConfirmEnvironment(a: Activity)
    | ConfirmPersist(a: Activity, what: Option<Grant>, locked: bool)
    | ConfirmLaunch(id: Uuid)
    | CancelRead(id: Uuid)
    | CancelLookup(a: Activity)
    | CancelPersist(a: Activity)
    | RecoverRead
    | RecoverLoop(todo: seq<Activity>)
    | Leave(outcome: Result<Option<Uuid>>)

  datatype Gate = Free | HeldByOp(op: Op) | HeldByExecutor(ticket: Uuid)

  /** `rows` is durable.  `active`, `canceled`, `permits`, `executors` and `gate` are lost in a
      crash.  `journal`, `accepted` and `tickets` are history: which identifiers were drawn, what
      happened to each run, and the record each run was launched or queued for confirmation with. */
  datatype State = State(
    rows: map<Uuid, Activity>,
    active: map<Uuid, Uuid>,
    canceled: set<Uuid>,
    permits: set<Uuid>,
    executors: map<Uuid, Executor>,
    gate: Gate,
    journal: map<Uuid, seq<Entry>>,
    accepted: map<Uuid, Activity>,
    tickets: set<Uuid>)

  const INITIAL: State := State(map[], map[], {}, {}, map[], Free, map[], map[], {})

  datatype Env = Env(
    locked: bool,
    failed: bool,
    cancelFirst: bool,
    suppressed: bool,
    uuid: Uuid,
    rowid: nat,
    now: int,
    snapshot: Option<Snapshot>,
    pruned: set<Uuid>,
    todo: seq<Activity>)

  datatype Action =
    | Begin(op: Op)
    | OpStep(env: Env)
    | ExecutorStep(ticket: Uuid, env: Env)
    | ClearActivities(pruned: set<Uuid>)
    | Crash

  // ----- the activity table -----

  function Live(rows: map<Uuid, Activity>): set<Uuid> {
    set id | id in rows && rows[id].Live()
  }

  predicate Busy(rows: map<Uuid, Activity>, automationId: string) {
    exists id :: id in rows && rows[id].Live() && rows[id].automationId == automationId
  }

  predicate SameSlot(a: Activity, b: Activity) {
    a.automationId == b.automationId && a.event.id == b.event.id
  }

  predicate Duplicate(rows: map<Uuid, Activity>, a: Activity) {
    a.id in rows || exists id :: id in rows && SameSlot(rows[id], a)
  }

  /** UPDATE ... WHERE id=?: a row that is gone stays gone. */
  function Save(rows: map<Uuid, Activity>, a: Activity): map<Uuid, Activity> {
    if a.id in rows then rows[a.id := a] else rows
  }

  /** Only terminal rows are ever pruned; which ones depends on age, count and the caller. */
  predicate Prunable(rows: map<Uuid, Activity>, gone: set<Uuid>) {
    forall id :: id in gone && id in rows ==> rows[id].status.Terminal()
  }

  /** ORDER BY created_at DESC, rowid DESC. */
  predicate Newer(a: Activity, b: Activity) {
    a.createdAt > b.createdAt || (a.createdAt == b.createdAt && a.rowid > b.rowid)
  }

  /** Rows of the same automation listed before row `id`. */
  function Ahead(rows: map<Uuid, Activity>, id: Uuid): set<Uuid>
    requires id in rows
  {
    set o | o in rows && rows[o].automationId == rows[id].automationId && Newer(rows[o], rows[id])
  }

  predicate Listed(rows: map<Uuid, Activity>, id: Uuid, limit: nat) {
    id in rows && |Ahead(rows, id)| < limit
  }

  predicate FoundBy(rows: map<Uuid, Activity>, a: Activity, id: Uuid) {
    id in rows && SameSlot(rows[id], a) && Listed(rows, id, RECENT)
  }

  /** The id a duplicate insertion reports: a listed row of the same slot, else the id just drawn. */
  ghost function DuplicateId(rows: map<Uuid, Activity>, a: Activity): Uuid {
    if exists id :: FoundBy(rows, a, id) then
      var id :| FoundBy(rows, a, id);
      id
    else a.id
  }

  // ----- steps of a record -----

  function SetStep(a: Activity, i: nat, status: Status): Activity
    requires i < |a.steps|
  {
    a.(steps := a.steps[i := a.steps[i].(status := status)])
  }

  /** src/engine.rs:632-652: what is left of a run that stopped. */
  function CloseStep(s: StepRun, canceled: bool): StepRun {
    if s.status.Queued? || s.status.Running? then
      s.(status := if canceled then Canceled else Skipped)
    else s
  }

  function Finish(a: Activity): Activity {
    var status := if a.status.Running? || a.status.Queued? then Succeeded else a.status;
    a.(status := status,
       steps := seq(|a.steps|, k requires 0 <= k < |a.steps| => CloseStep(a.steps[k], status.Canceled?)))
  }

  function InterruptStep(s: StepRun): StepRun {
    if s.status.Running? then s.(status := Interrupted) else s
  }

  function Interrupt(a: Activity): Activity {
    a.(status := Interrupted,
       steps := seq(|a.steps|, k requires 0 <= k < |a.steps| => InterruptStep(a.steps[k])))
  }

  function FirstAwaiting(steps: seq<StepRun>): Option<nat> {
    if steps == [] then None
    else if steps[0].status.AwaitingConfirmation? then Some(steps[0].index)
    else FirstAwaiting(steps[1..])
  }

  /** What one confirmation grants: the run itself, or the step that waits. */
  function GrantOf(a: Activity): Option<Grant> {
    if !a.runConfirmed && a.Asks() then Some(RunGrant)
    else match FirstAwaiting(a.steps)
      case Some(i) => Some(StepGrant(i))
      case None => None
  }

  function Confirmed(a: Activity): Activity {
    var granted := match GrantOf(a)
      case Some(RunGrant) => a.(runConfirmed := true)
      case Some(StepGrant(i)) => a.(confirmedSteps := a.confirmedSteps + [i])
      case None => a;
    granted.(status := Queued)
  }

  // ----- executor steps -----

  predicate HoldsMap(gate: Gate) {
    gate.HeldByOp? && gate.op.CancelPersist?
  }

  predicate ExecutorEnabled(s: State, t: Uuid, env: Env) {
    t in s.executors &&
    match s.executors[t].pc
    case Acquire(_) => if env.cancelFirst then t in s.canceled else |s.permits| < PERMITS
    case WaitGate(_, _) => s.gate.Free?
    case Cleanup => !HoldsMap(s.gate)
    // Indices are checked where the source would panic; the invariant shows they are in range.
    case Gated(a, i) => i < |a.steps|
    case PostCheck(a, i) => i < |a.steps|
    case Checked(a, i) => i < |a.steps|
    case Executing(a, i) => i < |a.steps|
    case _ => true
  }

  function Goto(s: State, t: Uuid, pc: Pc): State
    requires t in s.executors
  {
    s.(executors := s.executors[t := s.executors[t].(pc := pc)])
  }

  function Stopped(a: Activity, i: nat, status: Status): Pc
    requires i < |a.steps|
  {
    PersistFinal(Finish(SetStep(a.(status := status), i, status)))
  }

  /** The head of the loop over the steps, up to its next await (src/engine.rs:502-535). */
  function LoopPc(a: Activity, i: nat, canceled: bool): Pc {
    if i >= |a.steps| then PersistFinal(Finish(a))
    else if a.steps[i].status.Succeeded? then Loop(a, i + 1)
    else if canceled then PersistFinal(Finish(a.(status := Canceled)))
    else if a.steps[i].Dangerous() && i !in a.confirmedSteps then WaitGate(a, i)
    else PersistRunning(SetStep(a.(status := Running), i, Running), i)
  }

  /** A result has arrived (src/engine.rs:612-628). */
  function ResultPc(a: Activity, i: nat, canceled: bool, failed: bool): Pc
    requires i < |a.steps|
  {
    if canceled then Stopped(a, i, Canceled)
    else if failed then Stopped(a, i, Failed)
    else PersistStep(SetStep(a, i, Succeeded), i)
  }

  function Record(journal: map<Uuid, seq<Entry>>, id: Uuid, entry: Entry): map<Uuid, seq<Entry>> {
    journal[id := (if id in journal then journal[id] else []) + [entry]]
  }

  /** Past the last cancellation check: refuse on a locked session, or hand the step over. */
  function HandOver(s: State, t: Uuid, a: Activity, i: nat, locked: bool): State
    requires t in s.executors && i < |a.steps|
  {
    var r := a.steps[i];
    if r.action.Some? && r.action.value.requiresUnlockedSession && locked then
      Goto(s, t, ResultPc(a, i, t in s.canceled, true))
    else if r.step.QuickAction? && r.action.None? then
      Goto(s.(permits := s.permits - {t}), t, ErrorRead)
    else
      Goto(s.(journal := Record(s.journal, s.executors[t].id, Handed(i, r.step, r.action))),
           t, Executing(a, i))
  }

  function ExecutorApply(s: State, t: Uuid, env: Env): State
    requires ExecutorEnabled(s, t, env)
  {
    var id := s.executors[t].id;
    var canceled := t in s.canceled;
    match s.executors[t].pc
    case Start =>
      Goto(s, t, if id in s.rows then Acquire(s.rows[id]) else ErrorRead)
    case Acquire(a) =>
      if env.cancelFirst then Goto(s, t, PersistFinal(a.(status := Canceled)))
      else Goto(s.(permits := s.permits + {t}), t, Loop(a, 0))
    case Loop(a, i) =>
      Goto(s, t, LoopPc(a, i, canceled))
    case WaitGate(a, i) =>
      Goto(s.(gate := HeldByExecutor(t)), t, Gated(a, i))
    case Gated(a, i) =>
      if canceled then Goto(s.(gate := Free), t, PersistFinal(Finish(a.(status := Canceled))))
      else Goto(s, t, GatedPersist(SetStep(a.(status := AwaitingConfirmation), i, AwaitingConfirmation)))
    case GatedPersist(a) =>
      Goto(s.(rows := Save(s.rows, a)), t, LeaveGate)
    case LeaveGate =>
      Goto(s.(gate := Free), t, LeavePermit)
    case PersistRunning(a, i) =>
      Goto(s.(rows := Save(s.rows, a)), t, PostCheck(a, i))
    case PostCheck(a, i) =>
      Goto(s, t, if canceled then PersistFinal(Finish(a.(status := Canceled))) else Checked(a, i))
    case Checked(a, i) =>
      HandOver(s, t, a, i, env.locked)
    case Executing(a, i) =>
      Goto(s, t, ResultPc(a, i, canceled, env.failed))
    case PersistStep(a, i) =>
      Goto(s.(rows := Save(s.rows, a)), t, Loop(a, i + 1))
    case PersistFinal(a) =>
      Goto(s.(rows := Save(s.rows, a)), t, LeavePermit)
    case LeavePermit =>
      Goto(s.(permits := s.permits - {t}), t, Cleanup)
    case ErrorRead =>
      Goto(s, t, if id in s.rows then ErrorPersist(s.rows[id].(status := Failed)) else Cleanup)
    case ErrorPersist(a) =>
      Goto(s.(rows := Save(s.rows, a)), t, Cleanup)
    case Cleanup =>
      s.(executors := s.executors - {t},
         active := if id in s.active && s.active[id] == t then s.active - {id} else s.active)
  }

  // ----- steps of the operation that holds the gate -----

  predicate Opening(op: Op) {
    op.EnqueueRead? || op.MissedInsert? || op.ConfirmRead? || op.CancelRead? || op.Leave?
  }

  predicate ListsLive(rows: map<Uuid, Activity>, todo: seq<Activity>) {
    && (forall k :: 0 <= k < |todo| ==> todo[k].id in rows && rows[todo[k].id] == todo[k] && todo[k].Live())
    && (forall k, l :: 0 <= k < l < |todo| ==> todo[k].id != todo[l].id)
    && (forall id :: id in rows && rows[id].Live() ==> exists k :: 0 <= k < |todo| && todo[k].id == id)
  }

  predicate NewRowid(rows: map<Uuid, Activity>, rowid: nat) {
    forall id :: id in rows ==> rows[id].rowid < rowid
  }

  predicate OpEnabled(s: State, env: Env) {
    s.gate.HeldByOp? &&
    match s.gate.op
    case EnqueueDecide(_, _, _, _, _) => env.uuid !in s.journal
    case EnqueueInsert(_) => NewRowid(s.rows, env.rowid)
    case MissedInsert(_, _) => env.uuid !in s.journal && NewRowid(s.rows, env.rowid)
    case EnqueueLaunch(_) => env.uuid !in s.tickets
    case ConfirmLaunch(_) => env.uuid !in s.tickets
    case EnqueuePrune(_) => Prunable(s.rows, env.pruned)
    case RecoverRead => ListsLive(s.rows, env.todo)
    case _ => true
  }

  function ToOp(s: State, op: Op): State {
    s.(gate := HeldByOp(op))
  }

  function NewActivity(definition: Definition, event: Event, status: Status, env: Env): Activity {
    Activity(env.uuid, 0, definition.id, definition, event, status, env.now, [], [], false)
  }

  /** One round of the snapshot loop, or the decision after it (src/engine.rs:378-407). */
  function SnapshotOp(a: Activity, snapshot: Option<Snapshot>): Op {
    var k := |a.steps|;
    if a.status.Terminal() || k >= |a.definition.steps| then
      EnqueuePersist(if a.Live() && a.Asks() then a.(status := AwaitingConfirmation) else a)
    else
      var step := a.definition.steps[k];
      if step.QuickAction? && snapshot.None? then
        EnqueuePersist(a.(status := Failed))
      else
        var action := if step.QuickAction? then snapshot else None;
        EnqueueSnapshot(a.(steps := a.steps + [StepRun(k, step, action, Queued)]))
  }

  function Launch(s: State, id: Uuid, ticket: Uuid): State {
    s.(active := s.active[id := ticket],
       executors := s.executors[ticket := Executor(id, Start)],
       tickets := s.tickets + {ticket})
  }

  predicate EnqueueOp(op: Op) {
    op.EnqueueRead? || op.EnqueueDecide? || op.EnqueueInsert? || op.EnqueueLookup? || op.EnqueueSnapshot?
    || op.EnqueuePersist? || op.EnqueueLaunch? || op.EnqueuePrune?
  }

  /** src/engine.rs:322-414. */
  ghost function EnqueueApply(s: State, op: Op, env: Env): State
    requires EnqueueOp(op)
  {
    match op
    case EnqueueRead(d, event, manual) =>
      ToOp(s, EnqueueDecide(d, event, manual, Busy(s.rows, d.id), |Live(s.rows)| >= OUTSTANDING))
    case EnqueueDecide(d, event, manual, busy, full) =>
      // Cooldown and conditions only ever skip a run that is not manual; both are opaque here.
      var skip := event.origin.Some? || busy || full || (!manual && env.suppressed);
      ToOp(s.(journal := s.journal[env.uuid := []]),
           EnqueueInsert(NewActivity(d, event, if skip then Skipped else Queued, env)))
    case EnqueueInsert(a) =>
      if Duplicate(s.rows, a) then ToOp(s, EnqueueLookup(a))
      else
        var row := a.(rowid := env.rowid);
        ToOp(s.(rows := s.rows[a.id := row]), EnqueueSnapshot(row))
    case EnqueueLookup(a) =>
      ToOp(s, Leave(Ok(Some(DuplicateId(s.rows, a)))))
    case EnqueueSnapshot(a) =>
      ToOp(s, SnapshotOp(a, env.snapshot))
    case EnqueuePersist(a) =>
      var s' := s.(rows := Save(s.rows, a),
                   accepted := if a.Live() then s.accepted[a.id := a] else s.accepted);
      ToOp(s', if a.status.Queued? then EnqueueLaunch(a.id) else EnqueuePrune(a.id))
    case EnqueueLaunch(id) =>
      ToOp(Launch(s, id, env.uuid), EnqueuePrune(id))
    case EnqueuePrune(id) =>
      ToOp(s.(rows := s.rows - env.pruned), Leave(Ok(Some(id))))
  }

  predicate MissedOp(op: Op) {
    op.MissedInsert? || op.MissedPersist?
  }

  /** src/engine.rs:704-722: the record of a slot that was missed. */
  function MissedApply(s: State, op: Op, env: Env): State
    requires MissedOp(op)
  {
    match op
    case MissedInsert(d, event) =>
      var row := NewActivity(d, event, Skipped, env).(rowid := env.rowid);
      var s' := s.(journal := s.journal[env.uuid := []]);
      if Duplicate(s.rows, row) then ToOp(s', Leave(Ok(None)))
      else ToOp(s'.(rows := s.rows[row.id := row]), MissedPersist(row))
    case MissedPersist(a) =>
      ToOp(s.(rows := Save(s.rows, a)), Leave(Ok(None)))
  }

  predicate ConfirmOp(op: Op) {
    op.ConfirmRead? || op.ConfirmEnvironment? || op.ConfirmPersist? || op.ConfirmLaunch?
  }

  /** src/engine.rs:443-470. */
  function ConfirmApply(s: State, op: Op, env: Env): State
    requires ConfirmOp(op)
  {
    match op
    case ConfirmRead(id) =>
      ToOp(s, if id !in s.rows then Leave(Err(NotFound))
              else if !s.rows[id].status.AwaitingConfirmation? then Leave(Err(Invalid))
              else ConfirmEnvironment(s.rows[id]))
    case ConfirmEnvironment(a) =>
      ToOp(s, if env.locked then Leave(Err(Invalid))
              else ConfirmPersist(Confirmed(a), GrantOf(a), env.locked))
    case ConfirmPersist(a, what, locked) =>
      ToOp(s.(rows := Save(s.rows, a),
              journal := if what.Some? then Record(s.journal, a.id, Granted(what.value, locked)) else s.journal),
           ConfirmLaunch(a.id))
    case ConfirmLaunch(id) =>
      ToOp(Launch(s, id, env.uuid), Leave(Ok(None)))
  }

  predicate CancelOp(op: Op) {
    op.CancelRead? || op.CancelLookup? || op.CancelPersist?
  }

  /** A registered run that does not wait is left to its executor; any other row is written here. */
  function AfterLookup(s: State, a: Activity): Op {
    if a.id in s.active && !a.status.AwaitingConfirmation? then Leave(Ok(None))
    else CancelPersist(a.(status := Canceled))
  }

  /** src/engine.rs:471-492.  The map lock taken for the lookup is held until the operation is done. */
  function CancelApply(s: State, op: Op): State
    requires CancelOp(op)
  {
    match op
    case CancelRead(id) =>
      ToOp(s, if id !in s.rows then Leave(Err(NotFound))
              else if s.rows[id].status.Terminal() then Leave(Ok(None))
              else CancelLookup(s.rows[id]))
    case CancelLookup(a) =>
      var s' := if a.id in s.active then s.(canceled := s.canceled + {s.active[a.id]}) else s;
      ToOp(s', AfterLookup(s, a))
    case CancelPersist(a) =>
      ToOp(s.(rows := Save(s.rows, a)), Leave(Ok(None)))
  }

  predicate RecoverOp(op: Op) {
    op.RecoverRead? || op.RecoverLoop?
  }

  /** src/engine.rs:656-677. */
  function RecoverApply(s: State, op: Op, env: Env): State
    requires RecoverOp(op)
  {
    match op
    case RecoverRead =>
      ToOp(s, RecoverLoop(env.todo))
    case RecoverLoop(todo) =>
      if todo == [] then ToOp(s, Leave(Ok(None)))
      else if todo[0].status.AwaitingConfirmation? then ToOp(s, RecoverLoop(todo[1..]))
      else ToOp(s.(rows := Save(s.rows, Interrupt(todo[0]))), RecoverLoop(todo[1..]))
  }

  ghost function OpApply(s: State, env: Env): State
    requires OpEnabled(s, env)
  {
    var op := s.gate.op;
    if EnqueueOp(op) then EnqueueApply(s, op, env)
    else if MissedOp(op) then MissedApply(s, op, env)
    else if ConfirmOp(op) then ConfirmApply(s, op, env)
    else if CancelOp(op) then CancelApply(s, op)
    else if RecoverOp(op) then RecoverApply(s, op, env)
    else s.(gate := Free)
  }

  // ----- the transition system -----

  predicate Enabled(s: State, action: Action) {
    match action
    // `recover` is meant for a start: it is not begun while an executor is alive.
    case Begin(op) => s.gate.Free? && (Opening(op) || (op.RecoverRead? && s.executors == map[]))
    case OpStep(env) => OpEnabled(s, env)
    case ExecutorStep(t, env) => ExecutorEnabled(s, t, env)
    case ClearActivities(gone) => Prunable(s.rows, gone)
    case Crash => true
  }

  /** A crash keeps the rows and the history; `recover` is the first operation afterwards. */
  function Crashed(s: State): State {
    s.(active := map[], canceled := {}, permits := {}, executors := map[], gate := HeldByOp(RecoverRead))
  }

  ghost function Apply(s: State, action: Action): State
    requires Enabled(s, action)
  {
    match action
    case Begin(op) => ToOp(s, op)
    case OpStep(env) => OpApply(s, env)
    case ExecutorStep(t, env) => ExecutorApply(s, t, env)
    case ClearActivities(gone) => s.(rows := s.rows - gone)
    case Crash => Crashed(s)
  }

  /** `actions` is a possible run from `s`. */
  ghost predicate Possible(s: State, actions: seq<Action>)
    decreases |actions|
  {
    actions == [] || (Enabled(s, actions[0]) && Possible(Apply(s, actions[0]), actions[1..]))
  }

  ghost function After(s: State, actions: seq<Action>): State
    requires Possible(s, actions)
    decreases |actions|
  {
    if actions == [] then s else After(Apply(s, actions[0]), actions[1..])
  }
}
