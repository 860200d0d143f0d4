/**
 The scheduler loop (src/engine.rs:678-729), and the engine's `save` and `delete` over the store.
 */
module Scheduler {
  import opened Model
  import opened Store
  import opened Text
  import Calendar
  import Template

  const GRACE_SECONDS: int := 90

  // ----- one due row -----

  function EventId(id: string, revision: nat, at: int): string {
    "schedule:" + id + ":" + (Decimal(revision) + ":" + Signed(at))
  }

  function ScheduleEvent(d: Definition, id: string, at: int, now: int, w: World): Event {
    Event(EventId(id, d.revision, at),
          map["event.schedule.plannedAt" := w.stamp(at), "event.schedule.actualAt" := w.stamp(now)],
          None)
  }

  /** A slot is run late only within the grace period, or when the schedule catches up. */
  predicate Missed(d: Definition, at: int, now: int) {
    now - at > GRACE_SECONDS && !(d.trigger.Schedule? && d.trigger.catchUp)
  }

  function RunOf(d: Definition, id: string, at: int, now: int, w: World): Run {
    Run(d, ScheduleEvent(d, id, at, now, w), Missed(d, at, now))
  }

  /** One round of the loop. */
  function Fire(t: Tables, id: string, at: int, now: int, w: World): Result<Tables> {
    if id !in t.definitions then Err(NotFound)
    else
      var d := t.definitions[id];
      if !d.enabled then Ok(t)
      else
        var next := Calendar.Next(d.trigger, now, w.zones);
        var recorded := Inserted(t, RunOf(d, id, at, now, w));
        Ok(if next.Some? then Advanced(recorded, id, next.value) else recorded)
  }

  function Ticked(t: Tables, rows: seq<(string, int)>, clock: seq<int>, w: World): (Tables, Result<()>)
    requires |rows| == |clock|
    decreases |rows|
  {
    if rows == [] then (t, Ok(()))
    else
      match Fire(t, rows[0].0, rows[0].1, clock[0], w)
      case Err(e) => (t, Err(e))
      case Ok(t') => Ticked(t', rows[1..], clock[1..], w)
  }

  /** The same with the prunes that go on meanwhile: an enqueue prunes at its end, and the user may clear the records. */
  function TickedPruning(t: Tables, rows: seq<(string, int)>, clock: seq<int>, gones: seq<set<(string, string)>>,
                         w: World)
    : (Tables, Result<()>)
    requires |rows| == |clock| == |gones|
    decreases |rows|
  {
    if rows == [] then (t, Ok(()))
    else
      match Fire(t, rows[0].0, rows[0].1, clock[0], w)
      case Err(e) => (t, Err(e))
      case Ok(t') => TickedPruning(Pruned(t', gones[0]), rows[1..], clock[1..], gones[1..], w)
  }

  /** The clock does not run backwards within a tick. */
  predicate Monotone(now: int, clock: seq<int>) {
    (clock != [] ==> now <= clock[0]) && forall k :: 0 < k < |clock| ==> clock[k - 1] <= clock[k]
  }

  // ----- what a tick does -----

  lemma EventIdInjective(id: string, r: nat, a: int, q: nat, b: int)
    requires EventId(id, r, a) == EventId(id, q, b)
    ensures r == q && a == b
  {
    var head := "schedule:" + id + ":";
    var x, y := Decimal(r) + ":" + Signed(a), Decimal(q) + ":" + Signed(b);
    assert x == EventId(id, r, a)[|head|..] && y == EventId(id, q, b)[|head|..];
    SplitAtSeparator(Decimal(r), Signed(a), Decimal(q), Signed(b));
    DecimalInjective(r, q);
    SignedInjective(a, b);
  }

  /** Where a row stands after its round. */
  function NewSlot(t: Tables, id: string, now: int, w: World): int
    requires id in t.schedule && id in t.definitions
  {
    var next := Calendar.Next(t.definitions[id].trigger, now, w.zones);
    if next.Some? then next.value else t.schedule[id]
  }

  /** Slot and records of one automation are the same. */
  ghost predicate SameFor(t: Tables, t': Tables, id: string) {
    && (id in t.schedule <==> id in t'.schedule) && (id in t.schedule ==> t.schedule[id] == t'.schedule[id])
    && SameRuns(t, t', id)
  }

  ghost predicate SameRuns(t: Tables, t': Tables, id: string) {
    forall e :: ((id, e) in t.runs <==> (id, e) in t'.runs) && ((id, e) in t.runs ==> t.runs[(id, e)] == t'.runs[(id, e)])
  }

  /** Nothing but schedule rows of the same automations and records changes. */
  ghost predicate OnlyScheduling(t: Tables, t': Tables) {
    t'.definitions == t.definitions && t'.tombstones == t.tombstones && t'.schedule.Keys == t.schedule.Keys
  }

  lemma SchedulingKeepsOk(t: Tables, t': Tables, w: World)
    requires TablesOk(t, w) && OnlyScheduling(t, t')
    ensures TablesOk(t', w)
  {
    forall id | id in t'.definitions ensures DefinitionOk(t', id, w) {
      assert DefinitionOk(t, id, w);
    }
    forall id | id in t'.schedule ensures id in t.schedule {
      assert id in t'.schedule.Keys;
    }
  }

  lemma FireSchedules(t: Tables, id: string, at: int, now: int, w: World)
    requires id in t.schedule && id in t.definitions
    ensures Fire(t, id, at, now, w).Ok? && OnlyScheduling(t, Fire(t, id, at, now, w).value)
  {
    var t' := Fire(t, id, at, now, w).value;
    assert t'.schedule.Keys == t.schedule.Keys;
  }

  lemma FireElsewhere(t: Tables, id: string, at: int, now: int, w: World, other: string)
    requires Fire(t, id, at, now, w).Ok? && other != id && id in t.definitions && t.definitions[id].id == id
    ensures SameFor(t, Fire(t, id, at, now, w).value, other)
  {
  }

  lemma FireKeeps(t: Tables, id: string, at: int, now: int, w: World)
    requires TablesOk(t, w) && id in t.schedule
    ensures Fire(t, id, at, now, w).Ok?
    ensures TablesOk(Fire(t, id, at, now, w).value, w) && OnlyScheduling(t, Fire(t, id, at, now, w).value)
    ensures forall other :: other != id ==> SameFor(t, Fire(t, id, at, now, w).value, other)
  {
    assert id in t.definitions && DefinitionOk(t, id, w);
    FireSchedules(t, id, at, now, w);
    SchedulingKeepsOk(t, Fire(t, id, at, now, w).value, w);
    forall other | other != id ensures SameFor(t, Fire(t, id, at, now, w).value, other) {
      FireElsewhere(t, id, at, now, w, other);
    }
  }

  lemma SameTwice(t: Tables, t1: Tables, t2: Tables, id: string)
    requires SameFor(t, t1, id) && SameFor(t1, t2, id)
    ensures SameFor(t, t2, id)
  {
  }

  /** Every due row is one of the table, and each is listed once. */
  ghost predicate Listing(t: Tables, rows: seq<(string, int)>, clock: seq<int>) {
    && |rows| == |clock|
    && (forall k :: 0 <= k < |rows| ==> rows[k].0 in t.schedule && rows[k].1 == t.schedule[rows[k].0])
    && (forall k, l :: 0 <= k < l < |rows| ==> rows[k].0 != rows[l].0)
  }

  lemma ListingNext(t: Tables, rows: seq<(string, int)>, clock: seq<int>, w: World)
    requires TablesOk(t, w) && Listing(t, rows, clock) && rows != []
    ensures Fire(t, rows[0].0, rows[0].1, clock[0], w).Ok?
    ensures Listing(Fire(t, rows[0].0, rows[0].1, clock[0], w).value, rows[1..], clock[1..])
  {
    FireKeeps(t, rows[0].0, rows[0].1, clock[0], w);
    var t' := Fire(t, rows[0].0, rows[0].1, clock[0], w).value;
    forall k | 0 <= k < |rows| - 1
      ensures rows[1..][k].0 in t'.schedule && rows[1..][k].1 == t'.schedule[rows[1..][k].0]
    {
      assert rows[k + 1].0 != rows[0].0 && SameFor(t, t', rows[k + 1].0);
    }
  }

  /** The first round of a tick, and what it leaves to the others. */
  lemma FirstRound(t: Tables, rows: seq<(string, int)>, clock: seq<int>, w: World) returns (t1: Tables)
    requires TablesOk(t, w) && Listing(t, rows, clock) && rows != []
    ensures Fire(t, rows[0].0, rows[0].1, clock[0], w) == Ok(t1)
    ensures TablesOk(t1, w) && OnlyScheduling(t, t1) && Listing(t1, rows[1..], clock[1..])
    ensures Ticked(t, rows, clock, w) == Ticked(t1, rows[1..], clock[1..], w)
  {
    t1 := Fire(t, rows[0].0, rows[0].1, clock[0], w).value;
    FireKeeps(t, rows[0].0, rows[0].1, clock[0], w);
    ListingNext(t, rows, clock, w);
  }

  lemma FirstRoundElsewhere(t: Tables, rows: seq<(string, int)>, clock: seq<int>, w: World, id: string)
    requires TablesOk(t, w) && Listing(t, rows, clock) && rows != [] && id != rows[0].0
    ensures Fire(t, rows[0].0, rows[0].1, clock[0], w).Ok?
    ensures SameFor(t, Fire(t, rows[0].0, rows[0].1, clock[0], w).value, id)
  {
    FireKeeps(t, rows[0].0, rows[0].1, clock[0], w);
  }

  /** A tick succeeds: no due row lacks its definition.  It keeps the invariant and all definitions. */
  lemma {:induction false} TickKeeps(t: Tables, rows: seq<(string, int)>, clock: seq<int>, w: World)
    requires TablesOk(t, w) && Listing(t, rows, clock)
    ensures Ticked(t, rows, clock, w).1 == Ok(())
    ensures TablesOk(Ticked(t, rows, clock, w).0, w) && OnlyScheduling(t, Ticked(t, rows, clock, w).0)
    decreases |rows|
  {
    if rows != [] {
      var t1 := FirstRound(t, rows, clock, w);
      TickKeeps(t1, rows[1..], clock[1..], w);
    }
  }

  lemma {:induction false} TickOther(t: Tables, rows: seq<(string, int)>, clock: seq<int>, w: World, id: string)
    requires TablesOk(t, w) && Listing(t, rows, clock)
    requires forall k :: 0 <= k < |rows| ==> rows[k].0 != id
    ensures SameFor(t, Ticked(t, rows, clock, w).0, id)
    decreases |rows|
  {
    if rows != [] {
      var t1 := FirstRound(t, rows, clock, w);
      FirstRoundElsewhere(t, rows, clock, w, id);
      TickOther(t1, rows[1..], clock[1..], w, id);
      SameTwice(t, t1, Ticked(t, rows, clock, w).0, id);
    }
  }

  /** The round of one row: its slot moves on if there is a next one, and exactly its own record is added,
      unless that is stored already. */
  ghost predicate Handled(t: Tables, t': Tables, id: string, at: int, now: int, w: World)
    requires id in t.schedule && id in t.definitions
  {
    var run := RunOf(t.definitions[id], id, at, now, w);
    && id in t'.schedule && t'.schedule[id] == NewSlot(t, id, now, w)
    && (forall e :: (id, e) in t'.runs <==> (id, e) in t.runs || e == run.event.id)
    && (forall e :: (id, e) in t'.runs ==> t'.runs[(id, e)] == if (id, e) in t.runs then t.runs[(id, e)] else run)
  }

  lemma FireHandles(t: Tables, id: string, at: int, now: int, w: World)
    requires TablesOk(t, w) && id in t.schedule
    ensures Fire(t, id, at, now, w).Ok? && Handled(t, Fire(t, id, at, now, w).value, id, at, now, w)
  {
    assert DefinitionOk(t, id, w);
  }

  lemma HandledFirst(t: Tables, t1: Tables, t2: Tables, id: string, at: int, now: int, w: World)
    requires id in t.schedule && id in t.definitions
    requires Handled(t, t1, id, at, now, w) && SameFor(t1, t2, id)
    ensures Handled(t, t2, id, at, now, w)
  {
  }

  lemma HandledLater(t: Tables, t1: Tables, t2: Tables, id: string, at: int, now: int, w: World)
    requires id in t.schedule && id in t.definitions && t1.definitions == t.definitions
    requires SameFor(t, t1, id) && Handled(t1, t2, id, at, now, w)
    ensures Handled(t, t2, id, at, now, w)
  {
  }

  lemma TickFirstRow(t: Tables, rows: seq<(string, int)>, clock: seq<int>, w: World)
    requires TablesOk(t, w) && Listing(t, rows, clock) && rows != []
    ensures Handled(t, Ticked(t, rows, clock, w).0, rows[0].0, rows[0].1, clock[0], w)
  {
    var t1 := FirstRound(t, rows, clock, w);
    FireHandles(t, rows[0].0, rows[0].1, clock[0], w);
    TickOther(t1, rows[1..], clock[1..], w, rows[0].0);
    HandledFirst(t, t1, Ticked(t, rows, clock, w).0, rows[0].0, rows[0].1, clock[0], w);
  }

  /** What a tick does to each of the rows it finds due, when nothing is pruned meanwhile. */
  lemma {:induction false} RowWithoutPrunes(t: Tables, rows: seq<(string, int)>, clock: seq<int>, w: World, k: nat)
    requires TablesOk(t, w) && Listing(t, rows, clock) && k < |rows|
    ensures Handled(t, Ticked(t, rows, clock, w).0, rows[k].0, rows[k].1, clock[k], w)
    decreases |rows|
  {
    if k == 0 {
      TickFirstRow(t, rows, clock, w);
    } else {
      var (id, at) := rows[k];
      var t1 := FirstRound(t, rows, clock, w);
      assert id != rows[0].0 && rows[1..][k - 1] == (id, at) && clock[1..][k - 1] == clock[k];
      FirstRoundElsewhere(t, rows, clock, w, id);
      RowWithoutPrunes(t1, rows[1..], clock[1..], w, k - 1);
      var t2 := Ticked(t1, rows[1..], clock[1..], w).0;
      assert Handled(t1, t2, id, at, clock[k], w);
      HandledLater(t, t1, t2, id, at, clock[k], w);
    }
  }

  // ----- the engine -----

  class Engine {
    const store: AutomationStore

    constructor ()
      ensures fresh(store) && store.View() == EMPTY
    {
      store := new AutomationStore();
    }

    method Save(definition: Definition, preflight: bool, limits: bool, now: int, w: World) returns (r: Result<Definition>)
      modifies store
      ensures (store.View(), r) == EngineSaved(old(store.View()), definition, preflight, limits, now, w)
    {
      if definition.revision == 0 && |store.definitions| >= DEFINITIONS {
        return Err(Invalid);
      }
      if definition.enabled {
        if !preflight {
          return Err(Invalid);
        }
        if definition.trigger.Hotkey? {
          var shortcut := definition.trigger.shortcut;
          if exists id :: id in store.definitions && HotkeyOf(store.definitions[id], shortcut) && id != definition.id {
            return Err(Invalid);
          }
        }
      }
      r := store.Save(definition, limits, now, w);
    }

    method Delete(id: string)
      modifies store
      ensures store.View() == Deleted(old(store.View()), id)
    {
      store.Delete(id);
    }

    /** `clock` gives the time of the query for due rows and of every round of the loop, `gone` the records that are
        pruned during a round. */
    method Tick(clock: nat -> int, gone: nat -> set<(string, string)>, w: World)
      returns (r: Result<()>, ghost rows: seq<(string, int)>)
      modifies store
      ensures Lists(old(store.View()), clock(0), rows)
      ensures (store.View(), r) == TickedPruning(old(store.View()), rows, Times(clock, |rows|), Prunes(gone, |rows|), w)
    {
      var due := store.Due(clock(0));
      rows := due;
      ghost var times, prunes := Times(clock, |due|), Prunes(gone, |due|);
      var k := 0;
      while k < |due|
        invariant k <= |due|
        invariant TickedPruning(old(store.View()), due, times, prunes, w) ==
                  TickedPruning(store.View(), due[k..], times[k..], prunes[k..], w)
      {
        var (id, at) := due[k];
        ghost var before := store.View();
        PruningRound(before, due, times, prunes, w, k);
        var found := store.Get(id);
        if found.Err? {
          return Err(found.error), rows;
        }
        var definition := found.value;
        if definition.enabled {
          var now := clock(k + 1);
          var catchUp := definition.trigger.Schedule? && definition.trigger.catchUp;
          var event := ScheduleEvent(definition, id, at, now, w);
          var added := store.InsertActivity(Run(definition, event, !(now - at <= GRACE_SECONDS || catchUp)));
          var next := Calendar.NextSchedule(definition.trigger, now, w.zones);
          if next.Some? {
            store.AdvanceSchedule(id, next.value);
          }
        }
        assert Fire(before, id, at, clock(k + 1), w) == Ok(store.View());
        store.Prune(gone(k));
        k := k + 1;
      }
      return Ok(()), rows;
    }
  }

  lemma PruningRound(
      t: Tables, rows: seq<(string, int)>, clock: seq<int>, gones: seq<set<(string, string)>>, w: World, k: nat)
    requires |rows| == |clock| == |gones| && k < |rows|
    ensures TickedPruning(t, rows[k..], clock[k..], gones[k..], w) ==
            match Fire(t, rows[k].0, rows[k].1, clock[k], w)
            case Err(e) => (t, Err(e))
            case Ok(t') => TickedPruning(Pruned(t', gones[k]), rows[k + 1..], clock[k + 1..], gones[k + 1..], w)
  {
    assert rows[k..][1..] == rows[k + 1..] && clock[k..][1..] == clock[k + 1..] && gones[k..][1..] == gones[k + 1..];
  }

  function Times(clock: nat -> int, n: nat): (r: seq<int>)
    ensures |r| == n
  {
    seq(n, k requires 0 <= k < n => clock(k + 1))
  }

  function Prunes(gone: nat -> set<(string, string)>, n: nat): (r: seq<set<(string, string)>>)
    ensures |r| == n
  {
    seq(n, k requires 0 <= k < n => gone(k))
  }

  // ----- consequences -----

  /** The same for each row of the table. */
  lemma StretchWithoutPrunes(t: Tables, now: int, rows: seq<(string, int)>, clock: seq<int>, w: World, id: string)
    requires TablesOk(t, w) && Lists(t, now, rows) && |rows| == |clock| && Monotone(now, clock)
    requires id in t.schedule
    ensures t.schedule[id] > now ==> SameFor(t, Ticked(t, rows, clock, w).0, id)
    ensures t.schedule[id] <= now ==> exists k ::
              && 0 <= k < |rows| && rows[k] == (id, t.schedule[id])
              && Handled(t, Ticked(t, rows, clock, w).0, id, t.schedule[id], clock[k], w)
              && (Ticked(t, rows, clock, w).0.schedule[id] > now
                  || Calendar.Next(t.definitions[id].trigger, clock[k], w.zones).None?)
  {
    if t.schedule[id] > now {
      TickOther(t, rows, clock, w, id);
    } else {
      assert (id, t.schedule[id]) in rows;
      var k :| 0 <= k < |rows| && rows[k] == (id, t.schedule[id]);
      RowWithoutPrunes(t, rows, clock, w, k);
      ClockAhead(now, clock, k);
      Calendar.NextIsLater(t.definitions[id].trigger, clock[k], w.zones);
    }
  }

  lemma {:induction false} ClockAhead(now: int, clock: seq<int>, k: nat)
    requires Monotone(now, clock) && k < |clock|
    ensures now <= clock[k]
  {
    if k > 0 { ClockAhead(now, clock, k - 1); }
  }

  /** The event of a slot supplies what a stored schedule may refer to: every text of the definition renders. */
  lemma SlotTextsRender(t: Tables, id: string, at: int, now: int, w: World, k: nat)
    requires TablesOk(t, w) && id in t.schedule && k < |t.definitions[id].steps|
    ensures var d, v := t.definitions[id], ScheduleEvent(t.definitions[id], id, at, now, w).variables;
      && (d.steps[k].Shell? ==> Template.Rendered(d.steps[k].script, v).Ok? && Template.Prepared(d.steps[k].script, v, true).Ok?
                                && Template.Prepared(d.steps[k].script, v, false).Ok?)
      && (d.steps[k].Notification? ==>
            Template.Rendered(d.steps[k].title, v).Ok? && Template.Rendered(d.steps[k].body, v).Ok?)
  {
    var d, v := t.definitions[id], ScheduleEvent(t.definitions[id], id, at, now, w).variables;
    assert DefinitionOk(t, id, w) && ValidStep(d.steps[k], d.trigger);
    assert Template.Supplies(v, d.trigger);
    match d.steps[k]
    case Shell(script) =>
      Template.AcceptedIsRenderable(script, d.trigger, true);
      Template.AcceptedIsRenderable(script, d.trigger, false);
    case Notification(title, body) =>
      Template.AcceptedIsRenderable(title, d.trigger, true);
      Template.AcceptedIsRenderable(body, d.trigger, true);
    case _ =>
  }

  // ----- prunes during a tick -----

  /** The second tables differ from the first by records that were pruned, at most. */
  ghost predicate LessPruned(t: Tables, u: Tables, gone: set<(string, string)>) {
    && u.definitions == t.definitions && u.schedule == t.schedule && u.tombstones == t.tombstones
    && (forall key :: key in u.runs ==> key in t.runs)
    && (forall key :: key in t.runs && key !in gone ==> key in u.runs && u.runs[key] == t.runs[key])
  }

  lemma InsertedLessPruned(t: Tables, u: Tables, run: Run, gone: set<(string, string)>)
    requires LessPruned(t, u, gone)
    ensures LessPruned(Inserted(t, run), Inserted(u, run), gone)
  {
  }

  lemma PrunedLessPruned(t: Tables, u: Tables, dropped: set<(string, string)>, gone: set<(string, string)>)
    requires LessPruned(t, u, gone) && dropped <= gone
    ensures LessPruned(t, Pruned(u, dropped), gone)
  {
  }

  lemma FireLessPruned(t: Tables, u: Tables, id: string, at: int, now: int, w: World, gone: set<(string, string)>)
    requires LessPruned(t, u, gone)
    ensures Fire(t, id, at, now, w).Ok? <==> Fire(u, id, at, now, w).Ok?
    ensures Fire(t, id, at, now, w).Ok? ==> LessPruned(Fire(t, id, at, now, w).value, Fire(u, id, at, now, w).value, gone)
    ensures Fire(t, id, at, now, w).Err? ==> Fire(t, id, at, now, w) == Fire(u, id, at, now, w)
  {
    if id in t.definitions {
      InsertedLessPruned(t, u, RunOf(t.definitions[id], id, at, now, w), gone);
    }
  }

  /** Prunes during a tick drop the records they name, at most, and change neither slots nor the outcome. */
  lemma {:induction false} PruningTick(
      t: Tables, u: Tables, rows: seq<(string, int)>, clock: seq<int>, gones: seq<set<(string, string)>>, w: World,
      gone: set<(string, string)>)
    requires |rows| == |clock| == |gones| && LessPruned(t, u, gone) && forall k :: 0 <= k < |gones| ==> gones[k] <= gone
    ensures TickedPruning(u, rows, clock, gones, w).1 == Ticked(t, rows, clock, w).1
    ensures LessPruned(Ticked(t, rows, clock, w).0, TickedPruning(u, rows, clock, gones, w).0, gone)
    decreases |rows|
  {
    if rows != [] {
      FireLessPruned(t, u, rows[0].0, rows[0].1, clock[0], w, gone);
      var r, q := Fire(t, rows[0].0, rows[0].1, clock[0], w), Fire(u, rows[0].0, rows[0].1, clock[0], w);
      if r.Ok? {
        PrunedLessPruned(r.value, q.value, gones[0], gone);
        PruningTick(r.value, Pruned(q.value, gones[0]),
                    rows[1..], clock[1..], gones[1..], w, gone);
      }
    }
  }

  /** The record of a slot in a round at `now`: missed if and only if the round is more than 90 seconds late and the
      schedule does not catch up; the definition as stored, and an event of no automation that gives both times. */
  predicate RecordsSlot(r: Run, d: Definition, at: int, now: int, w: World) {
    && (r.missed <==> now > at + 90 && !(d.trigger.Schedule? && d.trigger.catchUp))
    && r.definition == d && r.event.id == EventId(d.id, d.revision, at) && r.event.origin.None?
    && r.event.variables == map["event.schedule.plannedAt" := w.stamp(at), "event.schedule.actualAt" := w.stamp(now)]
  }

  /** What is left of the round of one row: its slot moves on if there is a next one, its own record is added unless
      that is stored already, and nothing else happens to its records but pruning. */
  ghost predicate HandledPruning(t: Tables, t': Tables, id: string, at: int, now: int, w: World, gone: set<(string, string)>)
    requires id in t.schedule && id in t.definitions
  {
    var d := t.definitions[id];
    var own := (id, EventId(id, d.revision, at));
    && id in t'.schedule && t'.schedule[id] == NewSlot(t, id, now, w)
    && (forall e :: (id, e) in t'.runs ==> (id, e) in t.runs || (id, e) == own)
    && (forall e :: (id, e) in t.runs && (id, e) !in gone ==> (id, e) in t'.runs && t'.runs[(id, e)] == t.runs[(id, e)])
    && (own !in t.runs && own !in gone ==> own in t'.runs && RecordsSlot(t'.runs[own], d, at, now, w))
  }

  /** Nothing happens to slot and records of one automation but pruning. */
  ghost predicate SameForPruning(t: Tables, t': Tables, id: string, gone: set<(string, string)>) {
    && (id in t.schedule <==> id in t'.schedule) && (id in t.schedule ==> t.schedule[id] == t'.schedule[id])
    && (forall e :: (id, e) in t'.runs ==> (id, e) in t.runs)
    && (forall e :: (id, e) in t.runs && (id, e) !in gone ==> (id, e) in t'.runs && t'.runs[(id, e)] == t.runs[(id, e)])
  }

  /** What a tick does to each of the rows it finds due. */
  lemma TickRow(t: Tables, rows: seq<(string, int)>, clock: seq<int>, gones: seq<set<(string, string)>>, w: World,
                gone: set<(string, string)>, k: nat)
    requires TablesOk(t, w) && Listing(t, rows, clock) && k < |rows| == |gones|
    requires forall l :: 0 <= l < |gones| ==> gones[l] <= gone
    ensures HandledPruning(t, TickedPruning(t, rows, clock, gones, w).0, rows[k].0, rows[k].1, clock[k], w, gone)
  {
    RowWithoutPrunes(t, rows, clock, w, k);
    PruningTick(t, t, rows, clock, gones, w, gone);
    assert DefinitionOk(t, rows[k].0, w);
  }

  predicate Keyed(definitions: map<string, Definition>) {
    forall id :: id in definitions ==> definitions[id].id == id
  }

  /** The record of row `k`. */
  predicate OfRow(definitions: map<string, Definition>, rows: seq<(string, int)>, clock: seq<int>, w: World,
                  key: (string, string), record: Run, k: nat)
    requires k < |rows| == |clock|
  {
    && rows[k].0 in definitions && key == (rows[k].0, record.event.id)
    && RecordsSlot(record, definitions[rows[k].0], rows[k].1, clock[k], w)
  }

  ghost predicate OfSomeRow(definitions: map<string, Definition>, rows: seq<(string, int)>, clock: seq<int>, w: World,
                            key: (string, string), record: Run)
    requires |rows| == |clock|
  {
    exists k :: 0 <= k < |rows| && OfRow(definitions, rows, clock, w, key, record, k)
  }

  lemma FireRecords(t: Tables, id: string, at: int, now: int, w: World, key: (string, string))
    requires Keyed(t.definitions) && Fire(t, id, at, now, w).Ok? && key in Fire(t, id, at, now, w).value.runs
    ensures var record := Fire(t, id, at, now, w).value.runs[key];
      (key in t.runs && record == t.runs[key])
      || (key == (id, record.event.id) && id in t.definitions && RecordsSlot(record, t.definitions[id], at, now, w))
  {
  }

  lemma LaterRow(definitions: map<string, Definition>, rows: seq<(string, int)>, clock: seq<int>, w: World,
                 key: (string, string), record: Run)
    requires |rows| == |clock| && rows != [] && OfSomeRow(definitions, rows[1..], clock[1..], w, key, record)
    ensures OfSomeRow(definitions, rows, clock, w, key, record)
  {
    var k :| 0 <= k < |rows[1..]| && OfRow(definitions, rows[1..], clock[1..], w, key, record, k);
    assert OfRow(definitions, rows, clock, w, key, record, k + 1);
  }

  /** Every record a tick adds is that of a slot it found due, in the round of that slot. */
  lemma {:induction false} TickRecords(
      t: Tables, rows: seq<(string, int)>, clock: seq<int>, gones: seq<set<(string, string)>>, w: World, key: (string, string))
    requires Keyed(t.definitions) && |rows| == |clock| == |gones|
    requires key in TickedPruning(t, rows, clock, gones, w).0.runs
    ensures var record := TickedPruning(t, rows, clock, gones, w).0.runs[key];
      (key in t.runs && record == t.runs[key]) || OfSomeRow(t.definitions, rows, clock, w, key, record)
    decreases |rows|
  {
    if rows != [] {
      var r := Fire(t, rows[0].0, rows[0].1, clock[0], w);
      if r.Ok? {
        var t1, record := Pruned(r.value, gones[0]), TickedPruning(t, rows, clock, gones, w).0.runs[key];
        assert t1.definitions == t.definitions;
        TickRecords(t1, rows[1..], clock[1..], gones[1..], w, key);
        if OfSomeRow(t.definitions, rows[1..], clock[1..], w, key, record) {
          LaterRow(t.definitions, rows, clock, w, key, record);
        } else {
          FireRecords(t, rows[0].0, rows[0].1, clock[0], w, key);
          if !(key in t.runs && record == t.runs[key]) { assert OfRow(t.definitions, rows, clock, w, key, record, 0); }
        }
      }
    }
  }

  /** A tick treats every stretch of past slots as one: each due automation gets its one record, for the slot it
      was waiting for, and moves to a slot that lies after the tick began; or it has no next slot and stays due.
      Everything else stays as it was, but for the records that are pruned meanwhile. */
  lemma OneRecordPerStretch(t: Tables, now: int, rows: seq<(string, int)>, clock: seq<int>,
                            gones: seq<set<(string, string)>>, w: World, gone: set<(string, string)>, id: string)
    requires TablesOk(t, w) && Lists(t, now, rows) && |rows| == |clock| == |gones| && Monotone(now, clock)
    requires id in t.schedule && forall l :: 0 <= l < |gones| ==> gones[l] <= gone
    ensures var t' := TickedPruning(t, rows, clock, gones, w).0;
      if t.schedule[id] > now then SameForPruning(t, t', id, gone)
      else exists k ::
        && 0 <= k < |rows| && rows[k] == (id, t.schedule[id])
        && HandledPruning(t, t', id, t.schedule[id], clock[k], w, gone)
        && (t'.schedule[id] > now || Calendar.Next(t.definitions[id].trigger, clock[k], w.zones).None?)
  {
    StretchWithoutPrunes(t, now, rows, clock, w, id);
    PruningTick(t, t, rows, clock, gones, w, gone);
    if t.schedule[id] <= now {
      var k :| 0 <= k < |rows| && rows[k] == (id, t.schedule[id])
               && Handled(t, Ticked(t, rows, clock, w).0, id, t.schedule[id], clock[k], w)
               && (Ticked(t, rows, clock, w).0.schedule[id] > now
                   || Calendar.Next(t.definitions[id].trigger, clock[k], w.zones).None?);
      TickRow(t, rows, clock, gones, w, gone, k);
    }
  }
}
