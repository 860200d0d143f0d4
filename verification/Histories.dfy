/** Properties over every history of saves, deletes, ticks, other records and pruning. */
module Histories {
  import opened Model
  import opened Store
  import opened Text
  import opened Scheduler
  import Calendar

  datatype Change =
    | SaveChange(d: Definition, preflight: bool, limits: bool, now: int)
    | DeleteChange(id: string)
    | TickChange(now: int, rows: seq<(string, int)>, clock: seq<int>, gones: seq<set<(string, string)>>)
    | RecordChange(run: Run)
    | PruneChange(gone: set<(string, string)>)

  ghost predicate Allowed(t: Tables, c: Change) {
    c.TickChange? ==> Lists(t, c.now, c.rows) && |c.rows| == |c.clock| == |c.gones| && Monotone(c.now, c.clock)
  }

  function Changed(t: Tables, c: Change, w: World): Tables
    requires c.TickChange? ==> |c.rows| == |c.clock| == |c.gones|
  {
    match c
    case SaveChange(d, preflight, limits, now) => EngineSaved(t, d, preflight, limits, now, w).0
    case DeleteChange(id) => Deleted(t, id)
    case TickChange(_, rows, clock, gones) => TickedPruning(t, rows, clock, gones, w).0
    case RecordChange(run) => Inserted(t, run)
    case PruneChange(gone) => Pruned(t, gone)
  }

  /** The states between the changes, from empty tables on. */
  datatype History = History(states: seq<Tables>, changes: seq<Change>)

  ghost predicate Actual(h: History, w: World) {
    && |h.states| == |h.changes| + 1 && h.states[0] == EMPTY
    && forall k :: 0 <= k < |h.changes| ==> Step(h, w, k)
  }

  ghost predicate Step(h: History, w: World, k: nat)
    requires k < |h.changes| && |h.states| == |h.changes| + 1
  {
    Allowed(h.states[k], h.changes[k]) && h.states[k + 1] == Changed(h.states[k], h.changes[k], w)
  }

  // ----- the invariant -----

  /** Records and pruning touch neither definitions nor slots. */
  lemma RunsKeepOk(t: Tables, runs: map<(string, string), Run>, w: World)
    requires TablesOk(t, w)
    ensures TablesOk(t.(runs := runs), w)
  {
    SchedulingKeepsOk(t, t.(runs := runs), w);
  }

  /** The change prunes the record. */
  predicate Drops(c: Change, key: (string, string)) {
    match c
    case PruneChange(gone) => key in gone
    case TickChange(_, _, _, gones) => exists k :: 0 <= k < |gones| && key in gones[k]
    case _ => false
  }

  /** What a tick with its prunes does to definitions and slots, and to a record, compared with one without. */
  lemma TickFacts(t: Tables, c: Change, w: World)
    requires TablesOk(t, w) && Allowed(t, c) && c.TickChange?
    ensures var t' := Changed(t, c, w); var u := Ticked(t, c.rows, c.clock, w).0;
      && TablesOk(t', w) && t'.definitions == t.definitions && t'.tombstones == t.tombstones
      && t'.schedule == u.schedule && t'.schedule.Keys == t.schedule.Keys
      && (forall key :: key in t'.runs ==> key in u.runs)
      && (forall key :: key in u.runs && !Drops(c, key) ==> key in t'.runs)
  {
    var gone := set k, key | 0 <= k < |c.gones| && key in c.gones[k] :: key;
    PruningTick(t, t, c.rows, c.clock, c.gones, w, gone);
    TickKeeps(t, c.rows, c.clock, w);
    SchedulingKeepsOk(t, Changed(t, c, w), w);
  }

  lemma ChangeKeepsOk(t: Tables, c: Change, w: World)
    requires TablesOk(t, w) && Allowed(t, c)
    ensures TablesOk(Changed(t, c, w), w)
  {
    match c
    case SaveChange(d, preflight, limits, now) => SaveKeepsOk(t, d, preflight, limits, now, w);
    case DeleteChange(id) => DeleteKeepsOk(t, id, w);
    case TickChange(_, _, _, _) => TickFacts(t, c, w);
    case RecordChange(run) => RunsKeepOk(t, Inserted(t, run).runs, w);
    case PruneChange(gone) => RunsKeepOk(t, t.runs - gone, w);
  }

  /** At every moment: no more than 256 definitions, no hotkey shared by two enabled ones, a tombstone for every
      legacy identifier, and every schedule row belongs to an enabled schedule. */
  lemma {:induction false} AlwaysOk(h: History, w: World, k: nat)
    requires Actual(h, w) && k <= |h.changes|
    ensures TablesOk(h.states[k], w)
  {
    if k > 0 {
      hide TablesOk, Changed;
      AlwaysOk(h, w, k - 1);
      assert Step(h, w, k - 1);
      ChangeKeepsOk(h.states[k - 1], h.changes[k - 1], w);
    }
  }

  lemma NextState(h: History, w: World, k: nat)
    requires Actual(h, w) && k < |h.changes|
    ensures TablesOk(h.states[k], w) && Allowed(h.states[k], h.changes[k])
    ensures h.states[k + 1] == Changed(h.states[k], h.changes[k], w)
  {
    AlwaysOk(h, w, k);
    assert Step(h, w, k);
  }

  // ----- definitions -----

  /** The change is a successful save of one definition. */
  predicate Saves(t: Tables, c: Change, w: World, id: string) {
    c.SaveChange? && c.d.id == id && EngineSaved(t, c.d, c.preflight, c.limits, c.now, w).1.Ok?
  }

  /** A save that succeeds stores and returns the definition as given, with the next revision and the time of the save;
      creation time and legacy identifier are kept if one was stored.  Its slot is the next occurrence if it is enabled
      and there is one; else it has none.  Nothing else changes, and a save that fails changes nothing. */
  lemma SaveExact(t: Tables, c: Change, w: World, id: string)
    requires c.SaveChange?
    ensures var (t', r) := EngineSaved(t, c.d, c.preflight, c.limits, c.now, w);
      if Saves(t, c, w, id) then
        && c.d.revision == Base(t, id) && id in t'.definitions && r == Ok(t'.definitions[id])
        && SavedAs(t, c.d, r.value, c.now)
        && (id in t'.schedule <==> c.d.enabled && Calendar.Next(c.d.trigger, c.now, w.zones).Some?)
        && (id in t'.schedule ==> Calendar.Next(c.d.trigger, c.now, w.zones) == Some(t'.schedule[id]))
        && SameBeside(t, t', id) && t'.runs == t.runs
        && t'.tombstones == t.tombstones + (if r.value.legacyId.Some? then {r.value.legacyId.value} else {})
      else SameDefinition(t, t', id) && (r.Err? ==> t' == t)
  {
    hide Valid, Calendar.Next, Admitted;
    if Saves(t, c, w, id) {
      SaveSlot(t, c, w);
      SaveBeside(t, c, w);
    }
  }

  lemma SaveSlot(t: Tables, c: Change, w: World)
    requires c.SaveChange? && EngineSaved(t, c.d, c.preflight, c.limits, c.now, w).1.Ok?
    ensures var t' := EngineSaved(t, c.d, c.preflight, c.limits, c.now, w).0; var id := c.d.id;
      && (id in t'.schedule <==> c.d.enabled && Calendar.Next(c.d.trigger, c.now, w.zones).Some?)
      && (id in t'.schedule ==> Calendar.Next(c.d.trigger, c.now, w.zones) == Some(t'.schedule[id]))
  {
    hide Valid, Calendar.Next, Admitted;
  }

  lemma SaveBeside(t: Tables, c: Change, w: World)
    requires c.SaveChange?
    ensures SameBeside(t, EngineSaved(t, c.d, c.preflight, c.limits, c.now, w).0, c.d.id)
  {
    hide Valid, Calendar.Next, Admitted;
  }

  predicate SavedAs(t: Tables, d: Definition, saved: Definition, now: int) {
    && saved.id == d.id && saved.enabled == d.enabled && saved.trigger == d.trigger && saved.steps == d.steps
    && saved.runMode == d.runMode && saved.revision == d.revision + 1 && saved.updatedAt == now
    && if d.id in t.definitions then
         saved.createdAt == t.definitions[d.id].createdAt && saved.legacyId == t.definitions[d.id].legacyId
       else saved.createdAt == now && saved.legacyId == d.legacyId
  }

  predicate SameDefinition(t: Tables, t': Tables, id: string) {
    (id in t'.definitions <==> id in t.definitions) && (id in t.definitions ==> t'.definitions[id] == t.definitions[id])
  }

  /** Definitions and slots of all others are the same. */
  ghost predicate SameBeside(t: Tables, t': Tables, id: string) {
    forall other :: other != id ==>
      && SameDefinition(t, t', other)
      && (other in t'.schedule <==> other in t.schedule) && (other in t.schedule ==> t'.schedule[other] == t.schedule[other])
  }

  /** Exactly when a save succeeds, and why it fails: it conflicts if and only if everything but its revision is right. */
  lemma SaveAnswers(t: Tables, c: Change, w: World)
    requires TablesOk(t, w) && c.SaveChange?
    ensures var r := EngineSaved(t, c.d, c.preflight, c.limits, c.now, w).1;
      var fits := c.limits && Valid(c.d, w) && (c.d.revision == 0 ==> |t.definitions| < 256)
        && (c.d.enabled ==> c.preflight && forall id :: id in t.definitions && id != c.d.id && c.d.trigger.Hotkey? ==>
              !HotkeyOf(t.definitions[id], c.d.trigger.shortcut));
      && (r.Ok? <==> fits && c.d.revision == Base(t, c.d.id))
      && (r == Err(Conflict) <==> fits && c.d.revision != Base(t, c.d.id))
      && (r == Err(Invalid) <==> !fits)
  {
  }

  /** What every stored definition satisfies, after any history. */
  lemma StoredIsSound(h: History, w: World, k: nat, id: string)
    requires Actual(h, w) && k <= |h.changes| && id in h.states[k].definitions
    ensures var d := h.states[k].definitions[id];
      && d.id == id && 1 <= Bytes(id) <= 128 && 1 <= |d.steps| <= 64
      && (forall i :: 0 <= i < |d.steps| ==> StepIsSound(d.steps[i]))
      && (d.trigger.Schedule? ==> d.trigger.zone in w.zones && Calendar.ValidTime(d.trigger.time, d.trigger.weekdays))
      && (d.trigger.Bluetooth? ==>
            && 5 <= d.trigger.config.durationSeconds as int <= 300
            && d.trigger.config.calibration.Some?
            && var c := d.trigger.config.calibration.value;
               -110 <= c.farRssi as int <= c.nearRssi as int - 10 <= -30)
  {
    AlwaysOk(h, w, k);
    var d := h.states[k].definitions[id];
    assert DefinitionOk(h.states[k], id, w);
    assert Bytes(id) >= 1;
    forall i | 0 <= i < |d.steps| ensures StepIsSound(d.steps[i]) {
      assert ValidStep(d.steps[i], d.trigger);
    }
  }

  predicate StepIsSound(step: Model.Step) {
    match step
    case QuickAction(action) => action != ""
    case Shell(script) => script != "" && Bytes(script) <= 65_536
    case Delay(seconds) => seconds <= 86_400
    case Notification(title, body) => title != "" && Bytes(title) <= 256 && Bytes(body) <= 8_192
  }

  /** A delete removes the definition and its slot and nothing else. */
  lemma DeleteExact(t: Tables, id: string, w: World)
    ensures var t' := Changed(t, DeleteChange(id), w);
      && id !in t'.definitions && id !in t'.schedule && SameBeside(t, t', id)
      && t'.tombstones == t.tombstones && t'.runs == t.runs
  {
  }

  /** Any other change leaves a definition alone, unless it deletes it. */
  lemma OthersKeepDefinition(t: Tables, c: Change, w: World, id: string)
    requires TablesOk(t, w) && Allowed(t, c) && !c.SaveChange? && c != DeleteChange(id)
    ensures var t' := Changed(t, c, w);
      (id in t'.definitions <==> id in t.definitions) && (id in t.definitions ==> t'.definitions[id] == t.definitions[id])
  {
    if c.TickChange? { TickFacts(t, c, w); }
  }

  predicate Undeleted(h: History, id: string, i: nat, j: nat) {
    i <= j <= |h.changes| && forall k :: i <= k < j ==> h.changes[k] != DeleteChange(id)
  }

  /** How many saves of a definition succeeded from change `i` up to change `j`. */
  function SaveCount(h: History, w: World, id: string, i: nat, j: nat): nat
    requires i <= j <= |h.changes| && |h.states| == |h.changes| + 1
  {
    if i == j then 0
    else SaveCount(h, w, id, i, j - 1) + if Saves(h.states[j - 1], h.changes[j - 1], w, id) then 1 else 0
  }

  lemma {:induction false} RevisionCounts(h: History, w: World, id: string, i: nat, j: nat)
    requires Actual(h, w) && Undeleted(h, id, i, j)
    ensures Base(h.states[j], id) == Base(h.states[i], id) + SaveCount(h, w, id, i, j)
    ensures id in h.states[i].definitions ==> id in h.states[j].definitions
    decreases j
  {
    if i < j {
      RevisionCounts(h, w, id, i, j - 1);
      NextState(h, w, j - 1);
      var t, c := h.states[j - 1], h.changes[j - 1];
      if c.SaveChange? { SaveExact(t, c, w, id); } else { OthersKeepDefinition(t, c, w, id); }
    }
  }

  /** From a state without it, the n-th successful save of a definition returns revision n. */
  lemma NthSaveReturnsN(h: History, w: World, id: string, i: nat, j: nat)
    requires Actual(h, w) && j < |h.changes| && Undeleted(h, id, i, j)
    requires id !in h.states[i].definitions && Saves(h.states[j], h.changes[j], w, id)
    ensures var c := h.changes[j];
      EngineSaved(h.states[j], c.d, c.preflight, c.limits, c.now, w).1.value.revision == SaveCount(h, w, id, i, j + 1)
  {
    RevisionCounts(h, w, id, i, j);
    SaveExact(h.states[j], h.changes[j], w, id);
  }

  /** Of two saves from the same base only one succeeds, unless the definition is deleted in between. */
  lemma SameBaseOnce(h: History, w: World, id: string, i: nat, j: nat)
    requires Actual(h, w) && i < j < |h.changes|
    requires Saves(h.states[i], h.changes[i], w, id) && Saves(h.states[j], h.changes[j], w, id)
    requires h.changes[i].d.revision == h.changes[j].d.revision
    ensures !Undeleted(h, id, i, j)
  {
    hide EngineSaved, SameBeside;
    if Undeleted(h, id, i, j) {
      SaveExact(h.states[i], h.changes[i], w, id);
      SaveExact(h.states[j], h.changes[j], w, id);
      RevisionCounts(h, w, id, i, i + 1);
      RevisionCounts(h, w, id, i + 1, j);
    }
  }

  /** Creation time and legacy identifier are kept for as long as the definition lives. */
  lemma {:induction false} OriginKept(h: History, w: World, id: string, i: nat, j: nat)
    requires Actual(h, w) && Undeleted(h, id, i, j) && id in h.states[i].definitions
    ensures id in h.states[j].definitions
    ensures h.states[j].definitions[id].createdAt == h.states[i].definitions[id].createdAt
    ensures h.states[j].definitions[id].legacyId == h.states[i].definitions[id].legacyId
    decreases j
  {
    if i < j {
      OriginKept(h, w, id, i, j - 1);
      NextState(h, w, j - 1);
      var t, c := h.states[j - 1], h.changes[j - 1];
      if c.SaveChange? { SaveExact(t, c, w, id); } else { OthersKeepDefinition(t, c, w, id); }
    }
  }

  lemma ChangeKeepsTombstones(t: Tables, c: Change, w: World)
    requires TablesOk(t, w) && Allowed(t, c)
    ensures t.tombstones <= Changed(t, c, w).tombstones
  {
    if c.TickChange? { TickFacts(t, c, w); }
  }

  /** A legacy automation that was once migrated is never migrated again, even after its successor is deleted. */
  lemma {:induction false} MigratedForGood(h: History, w: World, id: string, i: nat, j: nat)
    requires Actual(h, w) && i <= j <= |h.changes|
    requires id in h.states[i].definitions && h.states[i].definitions[id].legacyId.Some?
    ensures h.states[i].definitions[id].legacyId.value in h.states[j].tombstones
    decreases j
  {
    if i == j {
      AlwaysOk(h, w, i);
      assert DefinitionOk(h.states[i], id, w);
    } else {
      MigratedForGood(h, w, id, i, j - 1);
      NextState(h, w, j - 1);
      ChangeKeepsTombstones(h.states[j - 1], h.changes[j - 1], w);
    }
  }

  // ----- slots -----

  /** The slot `at` of a revision lies behind: a later revision is stored, or the row has moved past it. */
  predicate Passed(t: Tables, id: string, revision: nat, at: int) {
    && id in t.definitions && t.definitions[id].revision >= revision
    && (t.definitions[id].revision == revision && id in t.schedule ==> t.schedule[id] > at)
  }

  lemma TickMovesOn(t: Tables, c: Change, w: World, id: string)
    requires TablesOk(t, w) && Allowed(t, c) && c.TickChange?
    ensures var t' := Changed(t, c, w);
      t'.definitions == t.definitions && (id in t'.schedule ==> id in t.schedule && t.schedule[id] <= t'.schedule[id])
  {
    TickFacts(t, c, w);
    var t' := Changed(t, c, w);
    if id in t'.schedule {
      assert id in t'.schedule.Keys;
      StretchWithoutPrunes(t, c.now, c.rows, c.clock, w, id);
    }
  }

  lemma ChangeKeepsPassed(t: Tables, c: Change, w: World, id: string, revision: nat, at: int)
    requires TablesOk(t, w) && Allowed(t, c) && c != DeleteChange(id) && Passed(t, id, revision, at)
    ensures Passed(Changed(t, c, w), id, revision, at)
  {
    if c.TickChange? { TickMovesOn(t, c, w, id); }
  }

  lemma {:induction false} PassedForGood(h: History, w: World, id: string, revision: nat, at: int, i: nat, j: nat)
    requires Actual(h, w) && Undeleted(h, id, i, j) && Passed(h.states[i], id, revision, at)
    ensures Passed(h.states[j], id, revision, at)
    decreases j
  {
    if i < j {
      PassedForGood(h, w, id, revision, at, i, j - 1);
      NextState(h, w, j - 1);
      ChangeKeepsPassed(h.states[j - 1], h.changes[j - 1], w, id, revision, at);
    }
  }

  /** The tick found the automation due in this revision for this slot. */
  predicate FindsDue(t: Tables, c: Change, id: string, revision: nat, at: int) {
    && c.TickChange? && (id, at) in c.rows && id in t.definitions && t.definitions[id].revision == revision
  }

  lemma DueIsNotPassed(t: Tables, c: Change, id: string, revision: nat, at: int)
    requires Allowed(t, c) && FindsDue(t, c, id, revision, at)
    ensures !Passed(t, id, revision, at)
  {
    var k :| 0 <= k < |c.rows| && c.rows[k] == (id, at);
  }

  /** A slot left behind is not found due again. */
  lemma PassedIsNotDue(h: History, w: World, id: string, revision: nat, at: int, i: nat, j: nat)
    requires Actual(h, w) && i <= j < |h.changes| && Undeleted(h, id, i, j) && Passed(h.states[i], id, revision, at)
    ensures !FindsDue(h.states[j], h.changes[j], id, revision, at)
  {
    PassedForGood(h, w, id, revision, at, i, j);
    NextState(h, w, j);
    if FindsDue(h.states[j], h.changes[j], id, revision, at) {
      DueIsNotPassed(h.states[j], h.changes[j], id, revision, at);
    }
  }

  /** The tick had no next slot to move the automation to. */
  predicate Stuck(t: Tables, c: Change, w: World, id: string, at: int)
    requires c.TickChange? && |c.rows| == |c.clock| && id in t.definitions
  {
    exists k :: 0 <= k < |c.rows| && c.rows[k] == (id, at) && Calendar.Next(t.definitions[id].trigger, c.clock[k], w.zones).None?
  }

  /** A tick that finds a slot due leaves it behind, unless there is no next one. */
  lemma DueIsPassed(t: Tables, c: Change, w: World, id: string, revision: nat, at: int)
    requires TablesOk(t, w) && Allowed(t, c) && FindsDue(t, c, id, revision, at)
    ensures Stuck(t, c, w, id, at) || Passed(Changed(t, c, w), id, revision, at)
  {
    var k :| 0 <= k < |c.rows| && c.rows[k] == (id, at);
    RowWithoutPrunes(t, c.rows, c.clock, w, k);
    TickFacts(t, c, w);
    ClockAhead(c.now, c.clock, k);
    Calendar.NextIsLater(t.definitions[id].trigger, c.clock[k], w.zones);
  }

  lemma DueMovesOn(h: History, w: World, id: string, revision: nat, at: int, i: nat)
    requires Actual(h, w) && i < |h.changes| && FindsDue(h.states[i], h.changes[i], id, revision, at)
    ensures |h.changes[i].rows| == |h.changes[i].clock|
    ensures Stuck(h.states[i], h.changes[i], w, id, at) || Passed(h.states[i + 1], id, revision, at)
  {
    NextState(h, w, i);
    DueIsPassed(h.states[i], h.changes[i], w, id, revision, at);
  }

  /** Two ticks find the same slot of the same revision only when the earlier one had no next slot to move to. */
  lemma DueTwiceMeansNoNext(h: History, w: World, id: string, revision: nat, at: int, i: nat, j: nat)
    requires Actual(h, w) && i < j < |h.changes| && Undeleted(h, id, i, j)
    requires FindsDue(h.states[i], h.changes[i], id, revision, at) && FindsDue(h.states[j], h.changes[j], id, revision, at)
    ensures |h.changes[i].rows| == |h.changes[i].clock| && Stuck(h.states[i], h.changes[i], w, id, at)
  {
    DueMovesOn(h, w, id, revision, at, i);
    if Passed(h.states[i + 1], id, revision, at) {
      PassedIsNotDue(h, w, id, revision, at, i + 1, j);
    }
  }

  // ----- records -----

  /** The change adds the record of one slot. */
  predicate Adds(t: Tables, t': Tables, key: (string, string)) {
    key !in t.runs && key in t'.runs
  }

  lemma {:induction false} TickKeepsRecords(t: Tables, rows: seq<(string, int)>, clock: seq<int>, w: World,
                                            key: (string, string))
    requires |rows| == |clock| && key in t.runs
    ensures key in Ticked(t, rows, clock, w).0.runs
    decreases |rows|
  {
    if rows != [] {
      var r := Fire(t, rows[0].0, rows[0].1, clock[0], w);
      if r.Ok? { TickKeepsRecords(r.value, rows[1..], clock[1..], w, key); }
    }
  }

  lemma OnlyPruningRemoves(t: Tables, c: Change, w: World, key: (string, string))
    requires TablesOk(t, w) && Allowed(t, c) && key in t.runs && !Drops(c, key)
    ensures key in Changed(t, c, w).runs
  {
    if c.TickChange? {
      TickFacts(t, c, w);
      TickKeepsRecords(t, c.rows, c.clock, w, key);
    }
  }

  predicate Dropped(h: History, key: (string, string), i: nat, j: nat)
    requires i <= j <= |h.changes|
  {
    exists k :: i <= k < j && Drops(h.changes[k], key)
  }

  lemma {:induction false} RecordKept(h: History, w: World, key: (string, string), i: nat, j: nat)
    requires Actual(h, w) && i <= j <= |h.changes| && key in h.states[i].runs && !Dropped(h, key, i, j)
    ensures key in h.states[j].runs
    decreases j
  {
    if i < j {
      NextState(h, w, j - 1);
      RecordKept(h, w, key, i, j - 1);
      OnlyPruningRemoves(h.states[j - 1], h.changes[j - 1], w, key);
    }
  }

  /** While its record is retained, an event of an automation is recorded at most once: between two additions of the
      same key the record was pruned. */
  lemma AddedOncePerRetention(h: History, w: World, key: (string, string), i: nat, j: nat)
    requires Actual(h, w) && i < j < |h.changes|
    requires Adds(h.states[i], h.states[i + 1], key) && Adds(h.states[j], h.states[j + 1], key)
    ensures Dropped(h, key, i + 1, j)
  {
    if !Dropped(h, key, i + 1, j) { RecordKept(h, w, key, i + 1, j); }
  }

  /** A slot that a tick has handled and left behind is never recorded by a later tick, even when its record has been
      pruned, for as long as the automation is not deleted. */
  lemma PassedSlotIsNotRecorded(h: History, w: World, id: string, revision: nat, at: int, i: nat, j: nat)
    requires Actual(h, w) && Undeleted(h, id, i, j) && j < |h.changes| && h.changes[j].TickChange?
    requires Passed(h.states[i], id, revision, at)
    ensures !Adds(h.states[j], h.states[j + 1], (id, EventId(id, revision, at)))
  {
    PassedForGood(h, w, id, revision, at, i, j);
    NextState(h, w, j);
    var t, c := h.states[j], h.changes[j];
    TickFacts(t, c, w);
    if id in t.schedule {
      StretchWithoutPrunes(t, c.now, c.rows, c.clock, w, id);
      if EventId(id, t.definitions[id].revision, t.schedule[id]) == EventId(id, revision, at) {
        EventIdInjective(id, t.definitions[id].revision, t.schedule[id], revision, at);
      }
    } else {
      TickOther(t, c.rows, c.clock, w, id);
    }
  }

  lemma LeftDue(t: Tables, c: Change, w: World, id: string)
    requires TablesOk(t, w) && c.TickChange? && Allowed(t, c)
    requires id in t.schedule && t.schedule[id] <= c.now && Stuck(t, c, w, id, t.schedule[id])
    ensures var t' := Changed(t, c, w);
      TablesOk(t', w) && t'.definitions == t.definitions && id in t'.schedule && t'.schedule[id] == t.schedule[id]
  {
    var k :| 0 <= k < |c.rows| && c.rows[k] == (id, t.schedule[id])
             && Calendar.Next(t.definitions[id].trigger, c.clock[k], w.zones).None?;
    TickFacts(t, c, w);
    RowWithoutPrunes(t, c.rows, c.clock, w, k);
  }

  lemma LeftAndPruned(t: Tables, c: Change, gone: set<(string, string)>, w: World, id: string)
    requires TablesOk(t, w) && c.TickChange? && Allowed(t, c)
    requires id in t.schedule && t.schedule[id] <= c.now && Stuck(t, c, w, id, t.schedule[id])
    ensures var t' := Changed(Changed(t, c, w), PruneChange(gone), w);
      && TablesOk(t', w) && t'.definitions == t.definitions && id in t'.schedule && t'.schedule[id] == t.schedule[id]
      && forall key :: key in gone ==> key !in t'.runs
  {
    LeftDue(t, c, w, id);
    RunsKeepOk(Changed(t, c, w), Changed(t, c, w).runs - gone, w);
  }

  lemma DueIsRecorded(t: Tables, c: Change, w: World, id: string)
    requires TablesOk(t, w) && c.TickChange? && Allowed(t, c)
    requires id in t.schedule && t.schedule[id] <= c.now
    requires !Drops(c, (id, EventId(id, t.definitions[id].revision, t.schedule[id])))
    ensures (id, EventId(id, t.definitions[id].revision, t.schedule[id])) in Changed(t, c, w).runs
  {
    TickFacts(t, c, w);
    StretchWithoutPrunes(t, c.now, c.rows, c.clock, w, id);
  }

  /** A slot that a tick could not move on is recorded again by the next tick, once its record has been pruned. */
  lemma LeftDueIsRecordedAgain(t: Tables, first: Change, gone: set<(string, string)>, t1: Tables, second: Change,
                               w: World, id: string)
    requires TablesOk(t, w) && first.TickChange? && Allowed(t, first)
    requires id in t.schedule && t.schedule[id] <= first.now && Stuck(t, first, w, id, t.schedule[id])
    requires t1 == Changed(Changed(t, first, w), PruneChange(gone), w)
    requires second.TickChange? && Allowed(t1, second) && first.now <= second.now
    requires var key := (id, EventId(id, t.definitions[id].revision, t.schedule[id])); key in gone && !Drops(second, key)
    ensures Adds(t1, Changed(t1, second, w), (id, EventId(id, t.definitions[id].revision, t.schedule[id])))
  {
    LeftAndPruned(t, first, gone, w, id);
    DueIsRecorded(t1, second, w, id);
  }
}
