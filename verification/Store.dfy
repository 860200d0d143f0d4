/**
 Saved definitions, schedule rows, migration tombstones and the keys of the activity table
 (src/store.rs), with the checks of the engine's `save` (src/engine.rs:240-265).  Every operation is
 one database statement or one transaction and runs under the engine's gate.
 */
module Store {
  import opened Model
  import opened Text
  import Calendar
  import Detector
  import Template

  const DEFINITIONS: nat := 256

  /** What the outside world provides: the time zone database and the rendering of an instant. */
  datatype World = World(zones: map<string, Calendar.Zone>, stamp: int -> string)

  /** A record of the activity table as far as scheduling sees it: `missed` records are not run. */
  datatype Run = Run(definition: Definition, event: Event, missed: bool)

  datatype Tables = Tables(
    definitions: map<string, Definition>,
    schedule: map<string, int>,
    tombstones: set<string>,
    runs: map<(string, string), Run>)

  const EMPTY: Tables := Tables(map[], map[], {}, map[])

  // ----- validation -----

  predicate ValidStep(step: Step, trigger: Trigger) {
    match step
    case QuickAction(id) => id != ""
    case Shell(script) =>
      Template.Trim(script) != "" && Bytes(script) <= 65_536 && Template.Accepted(script, trigger)
    case Delay(seconds) => seconds <= 86_400
    case Notification(title, body) =>
      && Template.Trim(title) != "" && Bytes(title) <= 256 && Bytes(body) <= 8_192
      && Template.Accepted(title, trigger) && Template.Accepted(body, trigger)
  }

  /** src/validation.rs:5-109, for the fields of the model. */
  predicate Valid(d: Definition, w: World) {
    && d.id != "" && Bytes(d.id) <= 128
    && 0 < |d.steps| <= 64
    && (d.trigger.Bluetooth? ==> Detector.ValidTrigger(d.trigger.config))
    && (d.trigger.Schedule? ==> Calendar.ValidTime(d.trigger.time, d.trigger.weekdays) && d.trigger.zone in w.zones)
    && (d.trigger.Hotkey? ==> Template.Trim(d.trigger.shortcut) != "")
    && forall k :: 0 <= k < |d.steps| ==> ValidStep(d.steps[k], d.trigger)
  }

  // ----- saving and deleting -----

  /** What a save stores: the next revision of what is there, or revision 1. */
  function Revised(t: Tables, d: Definition, now: int): Definition {
    var base :=
      if d.id in t.definitions then
        d.(createdAt := t.definitions[d.id].createdAt, legacyId := t.definitions[d.id].legacyId)
      else d.(createdAt := now);
    base.(revision := d.revision + 1, updatedAt := now)
  }

  /** The revision a save must be based on: 0 when nothing is stored. */
  function Base(t: Tables, id: string): nat {
    if id in t.definitions then t.definitions[id].revision else 0
  }

  /** src/store.rs:63-108.  `limits` stands for the limits on fields outside the model. */
  function Saved(t: Tables, d: Definition, limits: bool, now: int, w: World): (Tables, Result<Definition>) {
    if !limits || !Valid(d, w) then (t, Err(Invalid))
    else if d.revision != Base(t, d.id) then (t, Err(Conflict))
    else
      var saved := Revised(t, d, now);
      var next := if saved.enabled then Calendar.Next(saved.trigger, now, w.zones) else None;
      (Tables(t.definitions[d.id := saved],
              if next.Some? then t.schedule[d.id := next.value] else t.schedule - {d.id},
              if saved.legacyId.Some? then t.tombstones + {saved.legacyId.value} else t.tombstones,
              t.runs),
       Ok(saved))
  }

  predicate HotkeyTaken(t: Tables, d: Definition) {
    d.trigger.Hotkey? && exists id :: id in t.definitions && HotkeyOf(t.definitions[id], d.trigger.shortcut) && id != d.id
  }

  predicate HotkeyOf(d: Definition, shortcut: string) {
    d.enabled && d.trigger.Hotkey? && d.trigger.shortcut == shortcut
  }

  /** The engine's checks before a save; `preflight` stands for the checks of the runner. */
  predicate Admitted(t: Tables, d: Definition, preflight: bool) {
    && !(d.revision == 0 && |t.definitions| >= DEFINITIONS)
    && (d.enabled ==> preflight && !HotkeyTaken(t, d))
  }

  function EngineSaved(t: Tables, d: Definition, preflight: bool, limits: bool, now: int, w: World): (Tables, Result<Definition>) {
    if !Admitted(t, d, preflight) then (t, Err(Invalid)) else Saved(t, d, limits, now, w)
  }

  function Deleted(t: Tables, id: string): Tables {
    t.(definitions := t.definitions - {id}, schedule := t.schedule - {id})
  }

  // ----- activity keys and slots -----

  /** INSERT OR IGNORE, keyed by automation and event. */
  function Inserted(t: Tables, run: Run): Tables {
    var key := (run.definition.id, run.event.id);
    if key in t.runs then t else t.(runs := t.runs[key := run])
  }

  /** UPDATE ... WHERE automation_id=?. */
  function Advanced(t: Tables, id: string, next: int): Tables {
    if id in t.schedule then t.(schedule := t.schedule[id := next]) else t
  }

  /** Some records are dropped; which ones depends on age, count and the caller. */
  function Pruned(t: Tables, gone: set<(string, string)>): Tables {
    t.(runs := t.runs - gone)
  }

  /** The rows with a slot at or before `now`, each once, in some order. */
  ghost predicate Lists(t: Tables, now: int, rows: seq<(string, int)>) {
    && (forall k :: 0 <= k < |rows| ==> rows[k].0 in t.schedule && rows[k].1 == t.schedule[rows[k].0] <= now)
    && (forall k, l :: 0 <= k < l < |rows| ==> rows[k].0 != rows[l].0)
    && (forall id :: id in t.schedule && t.schedule[id] <= now ==> (id, t.schedule[id]) in rows)
  }

  // ----- invariant -----

  ghost predicate DefinitionOk(t: Tables, id: string, w: World)
    requires id in t.definitions
  {
    var d := t.definitions[id];
    && d.id == id && d.revision >= 1 && Valid(d, w)
    && (d.legacyId.Some? ==> d.legacyId.value in t.tombstones)
  }

  /** A schedule row belongs to an enabled schedule. */
  ghost predicate ScheduleOk(t: Tables) {
    forall id :: id in t.schedule ==> id in t.definitions && t.definitions[id].enabled && t.definitions[id].trigger.Schedule?
  }

  ghost predicate HotkeysOk(t: Tables) {
    forall id, other :: id in t.definitions && other in t.definitions && id != other ==>
      !SameHotkey(t.definitions[id], t.definitions[other])
  }

  predicate SameHotkey(d: Definition, e: Definition) {
    d.enabled && d.trigger.Hotkey? && HotkeyOf(e, d.trigger.shortcut)
  }

  ghost predicate TablesOk(t: Tables, w: World) {
    && (forall id :: id in t.definitions ==> DefinitionOk(t, id, w))
    && ScheduleOk(t)
    && |t.definitions| <= DEFINITIONS
    && HotkeysOk(t)
  }

  lemma OnePerKey<K, V>(m: map<K, V>, k: K, v: V)
    ensures |m[k := v]| == if k in m then |m| else |m| + 1
  {
    if k in m {
      assert m[k := v].Keys == m.Keys;
    } else {
      assert m[k := v].Keys == m.Keys + {k};
    }
  }

  lemma SaveKeepsHotkeys(t: Tables, d: Definition, preflight: bool, limits: bool, now: int, w: World)
    requires TablesOk(t, w)
    ensures HotkeysOk(EngineSaved(t, d, preflight, limits, now, w).0)
  {
  }

  lemma SaveKeepsSchedule(t: Tables, d: Definition, limits: bool, now: int, w: World)
    requires ScheduleOk(t)
    ensures ScheduleOk(Saved(t, d, limits, now, w).0)
  {
  }

  lemma ValidRevised(t: Tables, d: Definition, now: int, w: World)
    requires Valid(d, w)
    ensures Valid(Revised(t, d, now), w)
  {
    var saved := Revised(t, d, now);
    assert saved.steps == d.steps && saved.trigger == d.trigger && saved.id == d.id;
  }

  lemma SaveKeepsDefinitions(t: Tables, d: Definition, limits: bool, now: int, w: World)
    requires forall id :: id in t.definitions ==> DefinitionOk(t, id, w)
    ensures var t' := Saved(t, d, limits, now, w).0; forall id :: id in t'.definitions ==> DefinitionOk(t', id, w)
  {
    var t' := Saved(t, d, limits, now, w).0;
    forall id | id in t'.definitions ensures DefinitionOk(t', id, w) {
      if id in t.definitions { assert DefinitionOk(t, id, w); }
      if id == d.id && Saved(t, d, limits, now, w).1.Ok? { ValidRevised(t, d, now, w); }
    }
  }

  lemma SaveKeepsOk(t: Tables, d: Definition, preflight: bool, limits: bool, now: int, w: World)
    requires TablesOk(t, w)
    ensures TablesOk(EngineSaved(t, d, preflight, limits, now, w).0, w)
  {
    SaveKeepsHotkeys(t, d, preflight, limits, now, w);
    SaveKeepsSchedule(t, d, limits, now, w);
    SaveKeepsDefinitions(t, d, limits, now, w);
    OnePerKey(t.definitions, d.id, Revised(t, d, now));
  }

  lemma DeleteKeepsOk(t: Tables, id: string, w: World)
    requires TablesOk(t, w)
    ensures TablesOk(Deleted(t, id), w)
  {
    var t' := Deleted(t, id);
    forall other | other in t'.definitions ensures DefinitionOk(t', other, w) {
      assert DefinitionOk(t, other, w);
    }
    assert t'.definitions.Keys <= t.definitions.Keys;
    FewerKeys(t.definitions.Keys, t'.definitions.Keys);
  }

  lemma {:induction false} FewerKeys<K>(a: set<K>, b: set<K>)
    requires b <= a
    ensures |b| <= |a|
  {
    assert a == b + (a - b);
  }

  // ----- the store -----

  class AutomationStore {
    var definitions: map<string, Definition>
    var schedule: map<string, int>
    var tombstones: set<string>
    var runs: map<(string, string), Run>

    function View(): Tables
      reads this
    {
      Tables(definitions, schedule, tombstones, runs)
    }

    constructor ()
      ensures View() == EMPTY
    {
      definitions, schedule, tombstones, runs := map[], map[], {}, map[];
    }

    method Get(id: string) returns (r: Result<Definition>)
      ensures r == if id in definitions then Ok(definitions[id]) else Err(NotFound)
    {
      if id in definitions {
        return Ok(definitions[id]);
      }
      return Err(NotFound);
    }

    method Save(definition: Definition, limits: bool, now: int, w: World) returns (r: Result<Definition>)
      modifies this
      ensures (View(), r) == Saved(old(View()), definition, limits, now, w)
    {
      if !limits || !Valid(definition, w) {
        return Err(Invalid);
      }
      var saved := definition;
      if definition.id in definitions {
        var previous := definitions[definition.id];
        if previous.revision != definition.revision {
          return Err(Conflict);
        }
        saved := saved.(createdAt := previous.createdAt, legacyId := previous.legacyId);
      } else if definition.revision != 0 {
        return Err(Conflict);
      } else {
        saved := saved.(createdAt := now);
      }
      saved := saved.(revision := saved.revision + 1);
      saved := saved.(updatedAt := now);
      definitions := definitions[definition.id := saved];
      schedule := schedule - {definition.id};
      if saved.enabled {
        var next := Calendar.NextSchedule(saved.trigger, now, w.zones);
        if next.Some? {
          schedule := schedule[definition.id := next.value];
          assert schedule == old(schedule)[definition.id := next.value];
        }
      }
      if saved.legacyId.Some? {
        tombstones := tombstones + {saved.legacyId.value};
      }
      return Ok(saved);
    }

    method Delete(id: string)
      modifies this
      ensures View() == Deleted(old(View()), id)
    {
      definitions := definitions - {id};
      schedule := schedule - {id};
    }

    method Migrated(legacyId: string) returns (r: bool)
      ensures r <==> legacyId in tombstones
    {
      r := legacyId in tombstones;
    }

    /** The flag tells whether a row was added. */
    method InsertActivity(run: Run) returns (added: bool)
      modifies this
      ensures View() == Inserted(old(View()), run)
      ensures added <==> (run.definition.id, run.event.id) !in old(runs)
    {
      var key := (run.definition.id, run.event.id);
      added := key !in runs;
      if added {
        runs := runs[key := run];
      }
    }

    method Prune(gone: set<(string, string)>)
      modifies this
      ensures View() == Pruned(old(View()), gone)
    {
      runs := runs - gone;
    }

    method Due(now: int) returns (rows: seq<(string, int)>)
      ensures Lists(View(), now, rows)
    {
      rows := [];
      var left := schedule.Keys;
      while left != {}
        invariant left <= schedule.Keys
        invariant forall k :: 0 <= k < |rows| ==> rows[k].0 in schedule && rows[k].0 !in left && rows[k].1 == schedule[rows[k].0] <= now
        invariant forall k, l :: 0 <= k < l < |rows| ==> rows[k].0 != rows[l].0
        invariant forall id :: id in schedule && id !in left && schedule[id] <= now ==> (id, schedule[id]) in rows
        decreases left
      {
        var id :| id in left;
        left := left - {id};
        if schedule[id] <= now {
          rows := rows + [(id, schedule[id])];
        }
      }
    }

    method AdvanceSchedule(id: string, next: int)
      modifies this
      ensures View() == Advanced(old(View()), id, next)
    {
      if id in schedule {
        schedule := schedule[id := next];
      }
    }
  }
}
