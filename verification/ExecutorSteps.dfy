/**
 Every step of an executor keeps the invariant.
 */
module ExecutorSteps {
  import opened Model
  import opened Protocol
  import opened Invariant
  import opened Records

  // ----- framing: an executor touches its own row, journal, permit and gate only -----

  ghost predicate SameBeside<T>(m: map<Uuid, T>, m': map<Uuid, T>, id: Uuid) {
    m'.Keys == m.Keys && forall k :: k in m && k != id ==> m'[k] == m[k]
  }

  ghost predicate Moves(s: State, s': State, t: Uuid)
    requires t in s.executors
  {
    var id := s.executors[t].id;
    && s'.active == s.active && s'.canceled == s.canceled && s'.tickets == s.tickets && s'.accepted == s.accepted
    && SameBeside(s.executors, s'.executors, t) && s'.executors[t].id == id
    && SameBeside(s.rows, s'.rows, id) && SameBeside(s.journal, s'.journal, id)
    && s'.permits <= s.executors.Keys && |s'.permits| <= PERMITS
    && (forall u :: u != t ==> (u in s.permits <==> u in s'.permits))
    && (s'.gate == s.gate || (s.gate.Free? && s'.gate == HeldByExecutor(t)) || (s.gate == HeldByExecutor(t) && s'.gate.Free?))
    && (Writer(s.executors[t].pc) || (s'.rows == s.rows && s'.journal == s.journal))
    && (id in s.rows ==> SameSlot(s.rows[id], s'.rows[id]) && (s'.rows[id].Live() ==> s.rows[id].Live()))
    && (id in s.rows && s'.rows[id].status.AwaitingConfirmation? ==>
          s'.rows[id] == s.rows[id] || s.gate == HeldByExecutor(t))
  }

  lemma OtherExecutorsKept(s: State, s': State, t: Uuid, u: Uuid)
    requires t in s.executors && Moves(s, s', t) && ExecutorOk(s, t)
    requires u in s.executors && u != t && ExecutorOk(s, u)
    ensures ExecutorOk(s', u)
  {
  }

  lemma OtherRowsKept(s: State, s': State, t: Uuid, k: Uuid)
    requires VolatileOk(s) && t in s.executors && Moves(s, s', t)
    requires k in s.rows && k != s.executors[t].id && RowOk(s, k)
    ensures RowOk(s', k)
  {
    if k in s.active {
      var u := s.active[k];
      assert u in s.executors && s.executors[u].id == k;
      assert s'.executors[u] == s.executors[u];
    }
  }

  lemma LiveShrinks(rows: map<Uuid, Activity>, rows': map<Uuid, Activity>)
    requires forall k :: k in rows' && rows'[k].Live() ==> k in rows && rows[k].Live()
    ensures Live(rows') <= Live(rows) && |Live(rows')| <= |Live(rows)|
  {
    Subset(Live(rows'), Live(rows));
  }

  lemma {:induction false} Subset<T>(x: set<T>, y: set<T>)
    requires x <= y
    ensures |x| <= |y|
  {
    if x != {} {
      var e :| e in x;
      Subset(x - {e}, y - {e});
    }
  }

  /** Rows may end, disappear or change inside their slot: uniqueness and the bounds survive. */
  lemma TableShrinks(rows: map<Uuid, Activity>, rows': map<Uuid, Activity>)
    requires TableOk(rows)
    requires forall k :: k in rows' ==> k in rows && SameSlot(rows[k], rows'[k]) && (rows'[k].Live() ==> rows[k].Live())
    ensures TableOk(rows')
    ensures |Live(rows')| <= |Live(rows)|
    ensures forall name: string :: Busy(rows', name) ==> Busy(rows, name)
  {
    LiveShrinks(rows, rows');
  }

  lemma TableKept(s: State, s': State, t: Uuid)
    requires TableOk(s.rows) && t in s.executors && Moves(s, s', t)
    ensures TableOk(s'.rows)
    ensures |Live(s'.rows)| <= |Live(s.rows)|
    ensures forall name: string :: Busy(s'.rows, name) ==> Busy(s.rows, name)
  {
    forall k | k in s'.rows
      ensures k in s.rows && SameSlot(s.rows[k], s'.rows[k]) && (s'.rows[k].Live() ==> s.rows[k].Live())
    {
      assert k == s.executors[t].id || s'.rows[k] == s.rows[k];
    }
    TableShrinks(s.rows, s'.rows);
  }

  lemma VolatileKept(s: State, s': State, t: Uuid)
    requires VolatileOk(s) && t in s.executors && Moves(s, s', t)
    ensures VolatileOk(s')
  {
    forall id | id in s'.active
      ensures s'.active[id] in s'.executors && s'.executors[s'.active[id]].id == id
    {
      assert s.active[id] == t || s'.executors[s.active[id]] == s.executors[s.active[id]];
    }
  }

  /** Operations that hold a record nobody else can touch yet. */
  lemma EnqueueKept(s: State, s': State, t: Uuid, op: Op)
    requires t in s.executors && Moves(s, s', t) && ExecutorOk(s, t) && OpOk(s, op)
    requires op.EnqueueDecide? || op.EnqueueInsert? || op.EnqueueSnapshot? || op.EnqueuePersist? || op.MissedPersist?
    requires |Live(s'.rows)| <= |Live(s.rows)|
    requires forall name: string :: Busy(s'.rows, name) ==> Busy(s.rows, name)
    ensures OpOk(s', op)
  {
    if !op.EnqueueDecide? {
      UnacceptedKept(s, s', t, op.a);
    }
  }

  lemma LaunchKept(s: State, s': State, t: Uuid, op: Op)
    requires t in s.executors && Moves(s, s', t) && OpOk(s, op)
    requires Writer(s'.executors[t].pc) ==> Writer(s.executors[t].pc)
    requires op.EnqueueLaunch? || op.ConfirmLaunch?
    ensures OpOk(s', op)
  {
    PendingKept(s, s', t, op.id);
  }

  lemma UserOpKept(s: State, s': State, t: Uuid, op: Op)
    requires t in s.executors && Moves(s, s', t) && ExecutorOk(s, t) && OpOk(s, op)
    requires op.ConfirmEnvironment? || op.ConfirmPersist? || op.CancelLookup? || op.CancelPersist?
    requires s.gate == HeldByOp(op)
    ensures OpOk(s', op)
  {
    var k := op.a.id;
    if k in s.rows && (s.rows[k].status.Terminal() || s.rows[k].status.AwaitingConfirmation?) {
      UnownedKept(s, s', t, k);
    }
  }

  /** The one operation in progress keeps its view: it never holds a row an executor still writes. */
  lemma OpKept(s: State, s': State, t: Uuid, op: Op)
    requires t in s.executors && Moves(s, s', t) && ExecutorOk(s, t) && OpOk(s, op) && s.gate == HeldByOp(op)
    requires Writer(s'.executors[t].pc) ==> Writer(s.executors[t].pc)
    requires |Live(s'.rows)| <= |Live(s.rows)|
    requires forall name: string :: Busy(s'.rows, name) ==> Busy(s.rows, name)
    ensures OpOk(s', op)
  {
    if op.EnqueueDecide? || op.EnqueueInsert? || op.EnqueueSnapshot? || op.EnqueuePersist? || op.MissedPersist? {
      EnqueueKept(s, s', t, op);
    } else if op.EnqueueLaunch? || op.ConfirmLaunch? {
      LaunchKept(s, s', t, op);
    } else if op.ConfirmEnvironment? || op.ConfirmPersist? || op.CancelLookup? || op.CancelPersist? {
      UserOpKept(s, s', t, op);
    }
  }

  lemma UnacceptedKept(s: State, s': State, t: Uuid, a: Activity)
    requires t in s.executors && Moves(s, s', t) && ExecutorOk(s, t) && Unaccepted(s, a)
    ensures Unaccepted(s', a) && (a.id in s.rows <==> a.id in s'.rows) && (a.id in s.rows ==> s'.rows[a.id] == s.rows[a.id])
  {
  }

  lemma UnownedKept(s: State, s': State, t: Uuid, k: Uuid)
    requires t in s.executors && Moves(s, s', t) && ExecutorOk(s, t)
    requires k in s.rows && (s.rows[k].status.Terminal() || s.rows[k].status.AwaitingConfirmation?)
    ensures k in s'.rows && s'.rows[k] == s.rows[k]
  {
  }

  lemma PendingKept(s: State, s': State, t: Uuid, k: Uuid)
    requires t in s.executors && Moves(s, s', t) && NoWriter(s, k)
    requires Writer(s'.executors[t].pc) ==> Writer(s.executors[t].pc)
    ensures NoWriter(s', k)
    ensures s'.rows.Keys == s.rows.Keys && (k in s.rows ==> s'.rows[k] == s.rows[k])
    ensures s'.journal.Keys == s.journal.Keys && (k in s.journal ==> s'.journal[k] == s.journal[k])
  {
  }

  lemma ExecutorsKept(s: State, s': State, t: Uuid)
    requires t in s.executors && Moves(s, s', t) && ExecutorOk(s', t)
    requires ExecutorsOk(s)
    ensures ExecutorsOk(s')
  {
    forall u | u in s'.executors ensures ExecutorOk(s', u) {
      if u != t { OtherExecutorsKept(s, s', t, u); }
    }
  }

  lemma RowsKept(s: State, s': State, t: Uuid)
    requires VolatileOk(s) && t in s.executors && Moves(s, s', t)
    requires RowsOk(s)
    requires s.executors[t].id in s.rows ==> RowOk(s', s.executors[t].id)
    ensures RowsOk(s')
  {
    forall k | k in s'.rows ensures RowOk(s', k) {
      if k != s.executors[t].id { OtherRowsKept(s, s', t, k); }
    }
  }

  lemma HistoryKept(s: State, s': State, t: Uuid)
    requires t in s.executors && Moves(s, s', t)
    requires HistoriesOk(s)
    requires s.executors[t].id in s.journal ==> HistoryOk(s', s.executors[t].id)
    ensures HistoriesOk(s')
  {
    forall k | k in s'.journal ensures HistoryOk(s', k) {
      if k != s.executors[t].id { assert HistoryOk(s, k); }
    }
  }

  lemma GateKept(s: State, s': State, t: Uuid)
    requires t in s.executors && Moves(s, s', t) && ExecutorOk(s, t) && GateOk(s)
    requires Writer(s'.executors[t].pc) ==> Writer(s.executors[t].pc)
    requires |Live(s'.rows)| <= |Live(s.rows)|
    requires forall name: string :: Busy(s'.rows, name) ==> Busy(s.rows, name)
    ensures GateOk(s')
  {
    if s'.gate.HeldByOp? {
      OpKept(s, s', t, s.gate.op);
    }
  }

  /** One executor with its row, its journal and its accepted record. */
  ghost predicate Local(s: State, t: Uuid)
    requires t in s.executors
  {
    var id := s.executors[t].id;
    ExecutorOk(s, t) && (id in s.rows ==> RowOk(s, id)) && (id in s.journal ==> HistoryOk(s, id))
  }

  /** A step that only moves one executor, and leaves that executor and its row in order, keeps the invariant. */
  lemma MovesKeepInv(s: State, s': State, t: Uuid)
    requires Inv(s) && t in s.executors && Moves(s, s', t) && Local(s', t)
    requires Writer(s'.executors[t].pc) ==> Writer(s.executors[t].pc)
    ensures Inv(s')
  {
    TableKept(s, s', t);
    VolatileKept(s, s', t);
    GateKept(s, s', t);
    ExecutorsKept(s, s', t);
    RowsKept(s, s', t);
    HistoryKept(s, s', t);
  }

  // ----- the steps -----

  /** What a writing executor finds. */
  lemma WriterFacts(s: State, t: Uuid)
    requires t in s.executors && Writer(s.executors[t].pc) && Local(s, t)
    ensures var id := s.executors[t].id;
      && id in s.rows && id in s.accepted && id in s.journal
      && s.rows[id].id == id && s.accepted[id].id == id && AcceptedOk(s.accepted[id])
      && Linked(s.rows[id], s.accepted[id], s.journal[id]) && LiveShape(s.rows[id])
      && PcOk(s.executors[t].pc, s.rows[id], s.accepted[id], s.journal[id], t in s.canceled)
  {
  }

  lemma PermitCount(s: State, t: Uuid)
    requires |s.permits| < PERMITS
    ensures |s.permits + {t}| <= PERMITS
  {
    if t in s.permits { assert s.permits + {t} == s.permits; }
  }

  /** Moving on with row, journal, permits and gate as they are. */
  lemma GotoKeeps(s: State, t: Uuid, pc: Pc)
    requires t in s.executors && Writer(s.executors[t].pc) && Writer(pc)
    requires VolatileOk(s) && Local(s, t)
    requires var id := s.executors[t].id;
      PcOk(pc, s.rows[id], s.accepted[id], s.journal[id], t in s.canceled)
    requires (GatePc(pc) <==> GatePc(s.executors[t].pc)) && (NeedsPermit(pc) ==> t in s.permits)
    ensures Moves(s, Goto(s, t, pc), t) && Local(Goto(s, t, pc), t)
  {
    var s' := Goto(s, t, pc);
    assert Moves(s, s', t);
    assert ExecutorOk(s', t);
  }

  /** Storing a new version `l` of the row and moving on. */
  lemma SaveKeeps(s: State, t: Uuid, l: Activity, pc: Pc)
    requires t in s.executors && Writer(s.executors[t].pc) && !pc.Cleanup?
    requires VolatileOk(s) && Local(s, t)
    requires var id := s.executors[t].id;
      && Linked(l, s.accepted[id], s.journal[id])
      && (l.status.Terminal() ==> Ended(l, s.accepted[id], s.journal[id]))
      && (l.status.AwaitingConfirmation? ==> Waiting(l, s.accepted[id], s.journal[id]))
      && (l.Live() ==> LiveShape(l))
      && (l.status.Queued? || l.status.Running? ==> Writer(pc))
      && (Writer(pc) ==> PcOk(pc, l, s.accepted[id], s.journal[id], t in s.canceled))
    requires (GatePc(pc) <==> GatePc(s.executors[t].pc)) && (NeedsPermit(pc) ==> t in s.permits)
    requires l.status.AwaitingConfirmation? ==> GatePc(pc)
    ensures Moves(s, Goto(s.(rows := Save(s.rows, l)), t, pc), t)
    ensures Local(Goto(s.(rows := Save(s.rows, l)), t, pc), t)
  {
    var id := s.executors[t].id;
    var s' := Goto(s.(rows := Save(s.rows, l)), t, pc);
    SaveMoves(s, t, l, pc);
    assert ExecutorOk(s', t);
    assert RowOk(s', id);
  }

  lemma SaveMoves(s: State, t: Uuid, l: Activity, pc: Pc)
    requires t in s.executors && Writer(s.executors[t].pc)
    requires VolatileOk(s)
    requires var id := s.executors[t].id;
      id in s.rows && l.id == id && SameSlot(s.rows[id], l) && s.rows[id].Live()
    requires l.status.AwaitingConfirmation? ==> s.gate == HeldByExecutor(t)
    ensures Moves(s, Goto(s.(rows := Save(s.rows, l)), t, pc), t)
  {
  }

  lemma StartKeeps(s: State, t: Uuid, env: Env)
    requires ExecutorEnabled(s, t, env) && s.executors[t].pc.Start?
    requires VolatileOk(s) && Local(s, t)
    ensures Moves(s, ExecutorApply(s, t, env), t) && Local(ExecutorApply(s, t, env), t)
  {
    hide Local;
    var id := s.executors[t].id;
    WriterFacts(s, t);
    GotoKeeps(s, t, Acquire(s.rows[id]));
  }

  lemma AcquireCanceledKeeps(s: State, t: Uuid, env: Env)
    requires ExecutorEnabled(s, t, env) && s.executors[t].pc.Acquire? && env.cancelFirst
    requires VolatileOk(s) && Local(s, t)
    ensures Moves(s, ExecutorApply(s, t, env), t) && Local(ExecutorApply(s, t, env), t)
  {
    hide Local;
    WriterFacts(s, t);
    GotoKeeps(s, t, PersistFinal(s.executors[t].pc.a.(status := Canceled)));
  }

  lemma AcquirePermitKeeps(s: State, t: Uuid, env: Env)
    requires ExecutorEnabled(s, t, env) && s.executors[t].pc.Acquire? && !env.cancelFirst
    requires VolatileOk(s) && Local(s, t)
    ensures Moves(s, ExecutorApply(s, t, env), t) && Local(ExecutorApply(s, t, env), t)
  {
    PermitCount(s, t);
    assert ExecutorOk(ExecutorApply(s, t, env), t);
  }

  lemma LoopEndOk(r: Activity, a: Activity, j: seq<Entry>, i: nat, canceled: bool)
    requires Linked(r, a, j) && Idle(r, a, j) && |r.steps| <= i <= Done(r.steps)
    ensures PcOk(LoopPc(r, i, canceled), r, a, j, canceled)
  {
    CompleteEnds(r, a, j);
  }

  lemma LoopStopOk(r: Activity, a: Activity, j: seq<Entry>, i: nat)
    requires Linked(r, a, j) && LiveShape(r) && Idle(r, a, j) && i == Done(r.steps) && i < |r.steps|
    ensures PcOk(LoopPc(r, i, true), r, a, j, true)
  {
    CanceledEnds(r, a, j);
  }

  lemma LoopSkipOk(r: Activity, a: Activity, j: seq<Entry>, i: nat, canceled: bool)
    requires Idle(r, a, j) && i < Done(r.steps)
    ensures PcOk(LoopPc(r, i, canceled), r, a, j, canceled) && LoopPc(r, i, canceled).Loop?
  {
  }

  lemma LoopStartOk(r: Activity, a: Activity, j: seq<Entry>, i: nat)
    requires Idle(r, a, j) && i == Done(r.steps) && i < |r.steps|
    ensures PcOk(LoopPc(r, i, false), r, a, j, false)
  {
    if r.steps[i].Dangerous() && i !in r.confirmedSteps {
      assert LoopPc(r, i, false) == WaitGate(r, i);
    } else {
      assert LoopPc(r, i, false) == PersistRunning(SetStep(r.(status := Running), i, Running), i);
    }
  }

  lemma LoopPcOk(r: Activity, a: Activity, j: seq<Entry>, i: nat, canceled: bool)
    requires Linked(r, a, j) && LiveShape(r) && Idle(r, a, j) && i <= Done(r.steps)
    ensures PcOk(LoopPc(r, i, canceled), r, a, j, canceled)
    ensures Writer(LoopPc(r, i, canceled)) && !GatePc(LoopPc(r, i, canceled))
  {
    if i >= |r.steps| {
      LoopEndOk(r, a, j, i, canceled);
    } else if i < Done(r.steps) {
      LoopSkipOk(r, a, j, i, canceled);
    } else if canceled {
      LoopStopOk(r, a, j, i);
    } else {
      LoopStartOk(r, a, j, i);
    }
  }

  lemma LoopKeeps(s: State, t: Uuid, env: Env)
    requires ExecutorEnabled(s, t, env) && s.executors[t].pc.Loop?
    requires VolatileOk(s) && Local(s, t)
    ensures Moves(s, ExecutorApply(s, t, env), t) && Local(ExecutorApply(s, t, env), t)
  {
    var id := s.executors[t].id;
    WriterFacts(s, t);
    LoopPcOk(s.rows[id], s.accepted[id], s.journal[id], s.executors[t].pc.i, t in s.canceled);
    GotoKeeps(s, t, LoopPc(s.rows[id], s.executors[t].pc.i, t in s.canceled));
  }

  lemma WaitGateKeeps(s: State, t: Uuid, env: Env)
    requires ExecutorEnabled(s, t, env) && s.executors[t].pc.WaitGate?
    requires VolatileOk(s) && Local(s, t)
    ensures Moves(s, ExecutorApply(s, t, env), t) && Local(ExecutorApply(s, t, env), t)
  {
    var id := s.executors[t].id;
    var s' := ExecutorApply(s, t, env);
    WriterFacts(s, t);
    assert Moves(s, s', t);
    assert ExecutorOk(s', t);
  }

  /** Leaving the gate on a set token: the run is about to end. */
  lemma UngatedKeeps(s: State, t: Uuid, l: Activity)
    requires t in s.executors && s.executors[t].pc.Gated? && VolatileOk(s) && Local(s, t)
    requires Ended(l, s.accepted[s.executors[t].id], s.journal[s.executors[t].id])
    ensures Moves(s, Goto(s.(gate := Free), t, PersistFinal(l)), t)
    ensures Local(Goto(s.(gate := Free), t, PersistFinal(l)), t)
  {
    WriterFacts(s, t);
    assert ExecutorOk(Goto(s.(gate := Free), t, PersistFinal(l)), t);
  }

  lemma GatedCanceledKeeps(s: State, t: Uuid, env: Env)
    requires ExecutorEnabled(s, t, env) && s.executors[t].pc.Gated? && t in s.canceled
    requires VolatileOk(s) && Local(s, t)
    ensures Moves(s, ExecutorApply(s, t, env), t) && Local(ExecutorApply(s, t, env), t)
  {
    hide Local;
    var id := s.executors[t].id;
    WriterFacts(s, t);
    CanceledEnds(s.rows[id], s.accepted[id], s.journal[id]);
    UngatedKeeps(s, t, Finish(s.rows[id].(status := Canceled)));
  }

  lemma GatedAsksKeeps(s: State, t: Uuid, env: Env)
    requires ExecutorEnabled(s, t, env) && s.executors[t].pc.Gated? && t !in s.canceled
    requires VolatileOk(s) && Local(s, t)
    ensures Moves(s, ExecutorApply(s, t, env), t) && Local(ExecutorApply(s, t, env), t)
  {
    var a, i := s.executors[t].pc.a, s.executors[t].pc.i;
    WriterFacts(s, t);
    GotoKeeps(s, t, GatedPersist(SetStep(a.(status := AwaitingConfirmation), i, AwaitingConfirmation)));
  }

  lemma GatedPersistKeeps(s: State, t: Uuid, env: Env)
    requires ExecutorEnabled(s, t, env) && s.executors[t].pc.GatedPersist?
    requires VolatileOk(s) && Local(s, t)
    ensures Moves(s, ExecutorApply(s, t, env), t) && Local(ExecutorApply(s, t, env), t)
  {
    var id := s.executors[t].id;
    WriterFacts(s, t);
    AskStep(s.rows[id], s.accepted[id], s.journal[id]);
    SaveKeeps(s, t, s.executors[t].pc.a, LeaveGate);
  }

  lemma PersistRunningKeeps(s: State, t: Uuid, env: Env)
    requires ExecutorEnabled(s, t, env) && s.executors[t].pc.PersistRunning?
    requires VolatileOk(s) && Local(s, t)
    ensures Moves(s, ExecutorApply(s, t, env), t) && Local(ExecutorApply(s, t, env), t)
  {
    var id := s.executors[t].id;
    WriterFacts(s, t);
    StartStep(s.rows[id], s.accepted[id], s.journal[id]);
    SaveKeeps(s, t, s.executors[t].pc.a, PostCheck(s.executors[t].pc.a, s.executors[t].pc.i));
  }

  lemma PostCheckKeeps(s: State, t: Uuid, env: Env)
    requires ExecutorEnabled(s, t, env) && s.executors[t].pc.PostCheck?
    requires VolatileOk(s) && Local(s, t)
    ensures Moves(s, ExecutorApply(s, t, env), t) && Local(ExecutorApply(s, t, env), t)
  {
    var id := s.executors[t].id;
    WriterFacts(s, t);
    if t in s.canceled { CanceledEnds(s.rows[id], s.accepted[id], s.journal[id]); }
    GotoKeeps(s, t, if t in s.canceled then PersistFinal(Finish(s.executors[t].pc.a.(status := Canceled))) else Checked(s.executors[t].pc.a, s.executors[t].pc.i));
  }

  lemma ResultPcOk(r: Activity, a: Activity, j: seq<Entry>, i: nat, canceled: bool, failed: bool)
    requires Linked(r, a, j) && Progress(r, a, i) && i < |r.steps| && (r.status.Queued? || r.status.Running?)
    requires failed || HandedOver(r, a, j, i)
    ensures PcOk(ResultPc(r, i, canceled, failed), r, a, j, canceled)
    ensures Writer(ResultPc(r, i, canceled, failed)) && !GatePc(ResultPc(r, i, canceled, failed))
  {
    if canceled {
      StoppedEnds(r, a, j, i, Canceled);
    } else if failed {
      StoppedEnds(r, a, j, i, Failed);
    }
  }

  predicate LockRefuses(pc: Pc, locked: bool)
    requires pc.Checked? && pc.i < |pc.a.steps|
  {
    var r := pc.a.steps[pc.i];
    r.action.Some? && r.action.value.requiresUnlockedSession && locked
  }

  lemma RefusedKeeps(s: State, t: Uuid, env: Env)
    requires ExecutorEnabled(s, t, env) && s.executors[t].pc.Checked?
    requires VolatileOk(s) && Local(s, t)
    requires LockRefuses(s.executors[t].pc, env.locked)
    ensures Moves(s, ExecutorApply(s, t, env), t) && Local(ExecutorApply(s, t, env), t)
  {
    hide Local;
    var id := s.executors[t].id;
    WriterFacts(s, t);
    ResultPcOk(s.rows[id], s.accepted[id], s.journal[id], s.executors[t].pc.i, t in s.canceled, true);
    GotoKeeps(s, t, ResultPc(s.rows[id], s.executors[t].pc.i, t in s.canceled, true));
  }

  /** The hand-over itself. */
  lemma RecordKeeps(s: State, t: Uuid, i: nat)
    requires t in s.executors && VolatileOk(s) && Local(s, t)
    requires s.executors[t].pc.Checked? && s.executors[t].pc.i == i && i < |s.executors[t].pc.a.steps|
    ensures var id := s.executors[t].id; var a := s.executors[t].pc.a;
      var s' := Goto(s.(journal := Record(s.journal, id, Handed(i, a.steps[i].step, a.steps[i].action))), t, Executing(a, i));
      Moves(s, s', t) && Local(s', t)
  {
    var id := s.executors[t].id;
    var a := s.executors[t].pc.a;
    var s' := Goto(s.(journal := Record(s.journal, id, Handed(i, a.steps[i].step, a.steps[i].action))), t, Executing(a, i));
    WriterFacts(s, t);
    HandsOver(s.rows[id], s.accepted[id], s.journal[id], i);
    assert ExecutorOk(s', t);
  }

  lemma HandOverKeeps(s: State, t: Uuid, env: Env)
    requires ExecutorEnabled(s, t, env) && s.executors[t].pc.Checked?
    requires VolatileOk(s) && Local(s, t)
    requires !LockRefuses(s.executors[t].pc, env.locked)
    ensures Moves(s, ExecutorApply(s, t, env), t) && Local(ExecutorApply(s, t, env), t)
  {
    hide Local;
    var id := s.executors[t].id;
    var i := s.executors[t].pc.i;
    WriterFacts(s, t);
    assert SameStep(s.rows[id].steps[i], s.accepted[id].steps[i]) && SnapshotTaken(s.accepted[id], i);
    RecordKeeps(s, t, i);
  }

  lemma ExecutingKeeps(s: State, t: Uuid, env: Env)
    requires ExecutorEnabled(s, t, env) && s.executors[t].pc.Executing?
    requires VolatileOk(s) && Local(s, t)
    ensures Moves(s, ExecutorApply(s, t, env), t) && Local(ExecutorApply(s, t, env), t)
  {
    var id := s.executors[t].id;
    WriterFacts(s, t);
    ResultPcOk(s.rows[id], s.accepted[id], s.journal[id], s.executors[t].pc.i, t in s.canceled, env.failed);
    GotoKeeps(s, t, ResultPc(s.rows[id], s.executors[t].pc.i, t in s.canceled, env.failed));
  }

  /** What is stored when step `i` has succeeded, and where the loop goes on. */
  lemma SucceededOk(r: Activity, a: Activity, j: seq<Entry>, i: nat, canceled: bool)
    requires Linked(r, a, j) && HandedOver(r, a, j, i)
    ensures var n := SetStep(r, i, Succeeded);
      Linked(n, a, j) && LiveShape(n) && n.status.Running? && PcOk(Loop(n, i + 1), n, a, j, canceled)
  {
    SucceedStep(r, a, j, i);
  }

  lemma PersistStepKeeps(s: State, t: Uuid, env: Env)
    requires ExecutorEnabled(s, t, env) && s.executors[t].pc.PersistStep?
    requires VolatileOk(s) && Local(s, t)
    ensures Moves(s, ExecutorApply(s, t, env), t) && Local(ExecutorApply(s, t, env), t)
  {
    var id := s.executors[t].id;
    var l, i := s.executors[t].pc.a, s.executors[t].pc.i;
    WriterFacts(s, t);
    SucceededOk(s.rows[id], s.accepted[id], s.journal[id], i, t in s.canceled);
    SaveKeeps(s, t, l, Loop(l, i + 1));
  }

  lemma PersistFinalKeeps(s: State, t: Uuid, env: Env)
    requires ExecutorEnabled(s, t, env) && s.executors[t].pc.PersistFinal?
    requires VolatileOk(s) && Local(s, t)
    ensures Moves(s, ExecutorApply(s, t, env), t) && Local(ExecutorApply(s, t, env), t)
  {
    hide Local;
    var id := s.executors[t].id;
    WriterFacts(s, t);
    SaveKeeps(s, t, s.executors[t].pc.a, LeavePermit);
  }

  lemma LeaveGateKeeps(s: State, t: Uuid, env: Env)
    requires ExecutorEnabled(s, t, env) && s.executors[t].pc.LeaveGate?
    requires VolatileOk(s) && Local(s, t)
    ensures Moves(s, ExecutorApply(s, t, env), t) && Local(ExecutorApply(s, t, env), t)
  {
    hide Local;
    LeftKeeps(s, s.(gate := Free), t, LeavePermit);
  }

  lemma LeavePermitKeeps(s: State, t: Uuid, env: Env)
    requires ExecutorEnabled(s, t, env) && s.executors[t].pc.LeavePermit?
    requires VolatileOk(s) && Local(s, t)
    ensures Moves(s, ExecutorApply(s, t, env), t) && Local(ExecutorApply(s, t, env), t)
  {
    hide Local;
    Subset(s.permits - {t}, s.permits);
    LeftKeeps(s, s.(permits := s.permits - {t}), t, Cleanup);
  }

  /** An executor that writes no more gives back the gate or its permit. */
  lemma LeftKeeps(s: State, s1: State, t: Uuid, pc: Pc)
    requires t in s.executors && VolatileOk(s) && Local(s, t)
    requires if s.executors[t].pc.LeaveGate? then pc.LeavePermit? && s1 == s.(gate := Free)
             else s.executors[t].pc.LeavePermit? && pc.Cleanup? && s1 == s.(permits := s.permits - {t}) && |s1.permits| <= PERMITS
    ensures Moves(s, Goto(s1, t, pc), t) && Local(Goto(s1, t, pc), t)
  {
    var s' := Goto(s1, t, pc);
    assert ExecutorOk(s', t);
    if s.executors[t].id in s.rows { LeftRowKept(s, s', t); }
  }

  lemma LeftRowKept(s: State, s': State, t: Uuid)
    requires t in s.executors && !Writer(s.executors[t].pc) && s.executors[t].id in s.rows && RowOk(s, s.executors[t].id)
    requires SameBeside(s.executors, s'.executors, t) && s'.executors[t].id == s.executors[t].id
    requires s'.rows == s.rows && s'.accepted == s.accepted && s'.journal == s.journal && s'.active == s.active
    requires s'.gate == s.gate || s.gate == HeldByExecutor(t)
    ensures RowOk(s', s.executors[t].id)
  {
  }

  lemma CleanupExecutors(s: State, s': State, t: Uuid, env: Env)
    requires ExecutorsOk(s) && ExecutorEnabled(s, t, env) && s.executors[t].pc.Cleanup?
    requires s' == ExecutorApply(s, t, env)
    ensures ExecutorsOk(s')
  {
    forall u | u in s'.executors ensures ExecutorOk(s', u) {
      assert ExecutorOk(s, u);
    }
  }

  lemma CleanupRows(s: State, s': State, t: Uuid, env: Env)
    requires RowsOk(s) && ExecutorEnabled(s, t, env) && s.executors[t].pc.Cleanup?
    requires s' == ExecutorApply(s, t, env)
    ensures RowsOk(s')
  {
    forall k | k in s'.rows ensures RowOk(s', k) {
      assert RowOk(s, k);
    }
  }

  lemma CleanupVolatile(s: State, s': State, t: Uuid, env: Env)
    requires VolatileOk(s) && ExecutorEnabled(s, t, env) && s.executors[t].pc.Cleanup? && ExecutorOk(s, t)
    requires s' == ExecutorApply(s, t, env)
    ensures VolatileOk(s')
  {
  }

  lemma CleanupGate(s: State, s': State, t: Uuid, env: Env)
    requires GateOk(s) && ExecutorEnabled(s, t, env) && s.executors[t].pc.Cleanup? && ExecutorOk(s, t)
    requires s' == ExecutorApply(s, t, env)
    ensures GateOk(s')
  {
    if s.gate.HeldByOp? { assert OpOk(s, s.gate.op) && OpOk(s', s.gate.op); }
  }

  lemma CleanupHistory(s: State, s': State, t: Uuid, env: Env)
    requires HistoriesOk(s) && ExecutorEnabled(s, t, env) && s.executors[t].pc.Cleanup?
    requires s' == ExecutorApply(s, t, env)
    ensures HistoriesOk(s')
  {
    forall k | k in s'.journal ensures HistoryOk(s', k) {
      assert HistoryOk(s, k);
    }
  }

  /** The executor is gone; the entry in `active` goes with it only if it is still its own. */
  lemma CleanupKeeps(s: State, t: Uuid, env: Env)
    requires Inv(s) && ExecutorEnabled(s, t, env) && s.executors[t].pc.Cleanup?
    ensures Inv(ExecutorApply(s, t, env))
  {
    var s' := ExecutorApply(s, t, env);
    InvLocal(s, t);
    CleanupExecutors(s, s', t, env);
    CleanupRows(s, s', t, env);
    CleanupHistory(s, s', t, env);
    CleanupVolatile(s, s', t, env);
    CleanupGate(s, s', t, env);
  }

  // ----- all of them -----

  lemma StepKeepsLocal(s: State, t: Uuid, env: Env)
    requires ExecutorEnabled(s, t, env) && !s.executors[t].pc.Cleanup?
    requires VolatileOk(s) && Local(s, t)
    ensures Moves(s, ExecutorApply(s, t, env), t) && Local(ExecutorApply(s, t, env), t)
    ensures Writer(ExecutorApply(s, t, env).executors[t].pc) ==> Writer(s.executors[t].pc)
  {
    hide Local;
    match s.executors[t].pc
    case Start => StartKeeps(s, t, env);
    case Acquire(_) =>
      if env.cancelFirst { AcquireCanceledKeeps(s, t, env); } else { AcquirePermitKeeps(s, t, env); }
    case Loop(_, _) => LoopKeeps(s, t, env);
    case WaitGate(_, _) => WaitGateKeeps(s, t, env);
    case Gated(_, _) =>
      if t in s.canceled { GatedCanceledKeeps(s, t, env); } else { GatedAsksKeeps(s, t, env); }
    case GatedPersist(_) => GatedPersistKeeps(s, t, env);
    case LeaveGate => LeaveGateKeeps(s, t, env);
    case PersistRunning(_, _) => PersistRunningKeeps(s, t, env);
    case PostCheck(_, _) => PostCheckKeeps(s, t, env);
    case Checked(_, _) =>
      if LockRefuses(s.executors[t].pc, env.locked) { RefusedKeeps(s, t, env); } else { HandOverKeeps(s, t, env); }
    case Executing(_, _) => ExecutingKeeps(s, t, env);
    case PersistStep(_, _) => PersistStepKeeps(s, t, env);
    case PersistFinal(_) => PersistFinalKeeps(s, t, env);
    case LeavePermit => LeavePermitKeeps(s, t, env);
    case ErrorRead => WriterFacts(s, t);
    case ErrorPersist(_) => WriterFacts(s, t);
  }

  lemma ExecutorStepKeepsInv(s: State, t: Uuid, env: Env)
    requires Inv(s) && ExecutorEnabled(s, t, env)
    ensures Inv(ExecutorApply(s, t, env))
  {
    hide Inv;
    if s.executors[t].pc.Cleanup? {
      CleanupKeeps(s, t, env);
    } else {
      InvLocal(s, t);
      StepKeepsLocal(s, t, env);
      MovesKeepInv(s, ExecutorApply(s, t, env), t);
    }
  }

  lemma InvLocal(s: State, t: Uuid)
    requires Inv(s) && t in s.executors
    ensures VolatileOk(s) && Local(s, t)
  {
    var id := s.executors[t].id;
    assert ExecutorOk(s, t);
    if id in s.rows { assert RowOk(s, id); }
    assert HistoryOk(s, id);
  }
}
