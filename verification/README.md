# Verified model of the automation engine

The repository runs user automations: a trigger starts a run, a run carries out its steps in order,
some runs and some steps need the user's confirmation, runs can be canceled, and the process may
crash at any moment. This project models that behaviour in Dafny and proves what holds over every
run of it. `dafny verify dfyconfig.toml` checks everything.

| files | what they model |
|---|---|
| `Model.dfy`, `Text.dfy` | definitions, triggers, steps, events, activity records; decimal numerals, lengths in bytes |
| `Protocol.dfy` | the lifecycle of runs (`enqueue`, `launch`, `execute`, `confirm`, `cancel`, `recover`, pruning) as a transition system: one action is what happens between two awaits |
| `Plan.dfy`, `Invariant.dfy`, `Records.dfy`, `ExecutorSteps.dfy`, `OpSteps.dfy` | the invariant of all reachable states and the proof that every action keeps it |
| `Journals.dfy`, `Ownership.dfy`, `Endings.dfy`, `Leftovers.dfy`, `Cancellation.dfy`, `Recovery.dfy`, `Slots.dfy` | what follows for whole runs |
| `Outcomes.dfy`, `Executions.dfy`, `Confirmations.dfy`, `Enqueues.dfy` | what the operations answer and store: every write of an executor, and the outcome of a whole `execute`, `confirm` and `enqueue` |
| `Scenario.dfy`, `StaleCancel.dfy`, `LeftoverRuns.dfy`, `Crowd.dfy` | concrete runs in which an expected property fails, and what these runs share |
| `Isolation.dfy` | runs together with saves and deletes of definitions |
| `Interleavings.dfy`, `Runs.dfy` | `execute`, `confirm`, `cancel` and `recover` as methods over the engine's fields; each is proved to take the steps of the protocol, whatever others do at its awaits |
| `Detector.dfy` | the proximity detector, against a specification over the whole history of updates |
| `Template.dfy` | the three readers of `{{ placeholders }}`, against one reading of the text |
| `Calendar.dfy` | the search for the next occurrence of a local time, in an abstract time zone |
| `Store.dfy`, `Scheduler.dfy`, `Histories.dfy`, `StuckTick.dfy` | definitions, schedule rows and tombstones; `save`, `delete` and `tick`; properties of every history of changes; a history that records a slot twice |

How the lifecycle is modelled:

- Rows are durable. The `active` map, tokens, permits, executors and the gate are lost in a crash;
  `recover` is the first operation afterwards. It may also be called later, whenever the gate is free
  and no executor is alive.
- API operations hold the gate from their first to their last step. Executors run beside them and
  take the gate only to turn a run into a request for confirmation.
- Three histories are kept beside the state: the journal of every run (which confirmations were
  given, observing which session lock, and which steps were handed over with which snapshot), the
  record each run was accepted with, and the tickets drawn so far. Identifiers are never drawn twice.
- `cancel` keeps the lock of the `active` map, taken for its lookup, until it is done
  (src/engine.rs:477-490), so no executor deregisters between the lookup and the write.
- The session lock, the outcome of a step, which rows a prune drops, the clock, and whether cooldown
  or conditions suppress a run come from outside and are arbitrary.

Six things that one might expect do not hold, and it is proved exactly when they do:

- A terminal row can be rewritten: `cancel` reads the row before it looks up the run, and if the run
  ends in between, `Canceled` is written over its result (`StaleCancel.StaleWriteOccurs`). That
  happens exactly when the lookup does not find the run and the row it read was not waiting
  (`Endings.StaleLookupExact`, `Endings.StaleWriteExact`). Nothing else ever rewrites a terminal row,
  and nothing runs again.
- A terminal run may still have a `Queued` step (`LeftoverRuns.QueuedStepOccurs`). Of the actions
  that end a run or rewrite one that has ended, a cancellation leaves a `Queued` step exactly when the
  copy it writes has one; any other exactly when the row had one and the writer is `recover` or an
  executor that was canceled before it had a permit (`Leftovers.QueuedRemains`). The copy of a
  cancellation is the row as it was read (`Leftovers.WrittenAsRead`), so a late write brings back
  queued steps that a succeeded run no longer had (`StaleCancel.StaleWriteOccurs`).
- A canceled run may still have a step that waits for confirmation although it was confirmed
  (`LeftoverRuns.WaitingStepOccurs`), even one that had succeeded when the run ended
  (`LeftoverRuns.WaitingAgainOccurs`): exactly when the step said so in the copy a cancellation
  writes, or for any other writer when it still said so in the row (`Leftovers.WaitingRemains`).
- The answer to a duplicate event is the stored identifier only while the row is among the hundred
  newest of its automation (`Ownership.DuplicateIdExact`). A run that waits for confirmation is not
  pruned, and each later event of its automation adds a skipped row before it (`Crowd.Crowds`); with
  a hundred of them the answer is an identifier that is not stored (`Crowd.DuplicateForgotten`).
- The next occurrence need not be the least one (`Calendar.MissOccurs`): it is exactly when the slot
  of the previous local date is not still ahead (`Calendar.LeastExactly`).
- A schedule can have no next occurrence although later ones exist (`Calendar.NoneOccurs`): exactly
  when today and tomorrow have no slot ahead and the time falls in a gap on every chosen date from two
  to eight days ahead (`Calendar.NoneMeansGap`). A tick then leaves the slot due, and once its record
  has been pruned it is recorded again (`Histories.LeftDueIsRecordedAgain`,
  `StuckTick.RecordedTwiceOccurs`).

## Model

| member | source | states |
|---|---|---|
| OpSteps.StepKeepsInv | src/engine.rs:322-677 | Every action of every operation and executor, and a crash, keeps the lifecycle invariant: row, journal, local copy and program counter of a run agree on how much of its plan has been carried out |
| OpSteps.RunKeepsInv | src/engine.rs:322-677 | The invariant holds after every run from a state that has it, with any interleaving and any crashes |
| Plan.DangerousBelowExact | src/engine.rs:510-513 | The confirmations a plan needs for single steps are exactly those of its dangerous steps, in increasing order |
| Journals.AtMostOnce | src/engine.rs:502-535 | Over all interleavings, relaunches, crashes and recoveries, every step of a run is handed over at most once, and in order |
| Journals.ConfirmedBeforeHandOver | src/engine.rs:404-411 | Every hand-over uses the step and snapshot recorded at acceptance; in an ask-before-run activity the run was confirmed first; a dangerous step was confirmed directly before |
| Journals.GrantsAreUnlocked | src/engine.rs:451-455 | Every confirmation on record observed an unlocked session |
| Journals.PlanCounts | src/engine.rs:456-465 | A plan has one confirmation for the run if it asks and one per dangerous step, and one hand-over per step |
| Journals.SucceededAccounting | src/engine.rs:629-631 | A succeeded run carried out its whole plan: all steps succeeded, `confirmed_steps` are its dangerous indices in increasing order, and the number of confirmations is one if it asks plus one per dangerous step |
| Journals.UnacceptedNeverRuns | src/engine.rs:369-402 | A record that was skipped, refused or not yet accepted has an empty journal and only these statuses |
| Journals.SnapshotIsolation | src/engine.rs:378-402 | The stored record of an accepted run keeps the definition, event, steps and snapshots it was accepted with; its steps are those of its definition and exactly the quick actions have a snapshot |
| Slots.AcceptedAsEnqueued | src/engine.rs:327-346 | The record an enqueue accepts is that of the definition and event it was called with |
| Enqueues.OnlyAdmissible | src/engine.rs:341-366 | Over a whole enqueue a record is accepted only if the event has no origin and, as the rows are read, no run of the automation is live, fewer than 128 runs are, and the call is manual or not suppressed |
| Enqueues.AdmissibleRuns | src/engine.rs:341-413 | The converse: under these conditions, with an event not on record and every quick action snapshotted, the enqueue answers with the identifier of a newly accepted record of its definition and event, which waits if the definition asks and else is in the hands of an executor with a fresh ticket or has ended |
| Isolation.RunsWhatWasStored | src/engine.rs:297-301 | A run of a stored definition has, for as long as its row is stored, the definition as it was stored when the run was enqueued, and the steps and snapshots of its acceptance, whatever saves, deletes, other actions and crashes follow |
| Journals.StepShape | src/engine.rs:502-652 | Live rows: a succeeded prefix, at most one step in flight or waiting, then only queued ones; and the shape every kind of ended row can have |
| Leftovers.QueuedRemains | src/engine.rs:483-500 | An action that ends an accepted run or rewrites an ended one leaves a `Queued` step iff: its writer is a cancellation and the copy it writes has one; or another writer found one and is a recovery or an executor without a permit |
| Leftovers.WaitingRemains | src/engine.rs:483-652 | After such an action a step waits for confirmation iff it does in the copy a cancellation writes, or for any other writer iff it did before; in a run ended by its executor iff it waited and had been confirmed |
| Leftovers.WrittenAsRead | src/engine.rs:473-490 | A cancellation that writes stores the live row as it read it, but `Canceled`, whatever executors and prunes did between its read and its write |
| Leftovers.FinishCloses | src/engine.rs:632-652 | The closing loop leaves no queued step and changes no waiting one |
| LeftoverRuns.QueuedStepOccurs | src/engine.rs:495-501 | A reachable state with a canceled run that has a `Queued` step |
| LeftoverRuns.WaitingStepOccurs | src/engine.rs:506-509 | A reachable state with a canceled run whose confirmed step still waits for confirmation |
| LeftoverRuns.WaitingAgainOccurs | src/engine.rs:485-489 | A reachable state whose next step, the write of a cancellation, makes a step that had succeeded in a succeeded run wait for confirmation again |
| Journals.ErrorPathUnreachable | src/engine.rs:564-568 | No executor ever takes the error path: the snapshot of a quick action and the row are always there |
| Ownership.OneWriter | src/engine.rs:415-441 | At most one executor per run is between its first read and its last write, and the entry in `active` carries its ticket |
| Ownership.WriterUndisturbed | src/engine.rs:514-529 | While an executor may still write, nobody else touches its row, journal, program counter or entry, and a late cleanup of an older executor removes no newer entry |
| Ownership.Admission | src/engine.rs:341-351 | At most one live row per automation, 128 live rows, one row per automation and event, at most 16 permits, and a permit for every executor from its acquisition on until its last write |
| Slots.DuplicateEnqueue | src/engine.rs:322-377 | From the first step of an enqueue to its end, with executors and prunes in between: while its event is on record for the automation it adds no row, ticket, registration or accepted record |
| Slots.EnqueueStores | src/engine.rs:369-369 | A completed enqueue has stored the row of its automation and event, or found it stored |
| Slots.EnqueueAddsOnlyItsRow | src/engine.rs:369-369 | Every row an enqueue adds is that of its automation and event |
| Slots.AcceptedOnce | src/store.rs:131-133 | Over every run in which a row stays stored, no other record of its automation and event is accepted |
| Slots.StepKeepsSlot | src/store.rs:131-146 | No action changes the automation or event of a row, or drops a row that has not ended |
| Ownership.DuplicateIdExact | src/engine.rs:369-377 | The duplicate is answered with the stored identifier exactly when that row is among the automation's 100 newest |
| Crowd.Crowds | src/engine.rs:343-368 | For every n a reachable state has a run that waits for confirmation and n newer rows of its automation, one skipped enqueue after the other |
| Crowd.DuplicateForgotten | src/engine.rs:369-377 | A reachable state in which the lookup answers a duplicate with an identifier under which nothing is stored, although its event is on record |
| Endings.TerminalAbsorbing | src/engine.rs:471-491 | An ended run stays ended under every action; its row changes only by the write of a cancellation, to `Canceled`; its journal never grows |
| Endings.OverForever | src/engine.rs:471-491 | The same over whole runs: once over, nothing is granted or handed over again |
| Endings.TerminalIsFinal | src/engine.rs:473-477 | If nothing comes between the read and the lookup of a cancellation, a terminal row is never rewritten |
| Endings.StaleLookupExact | src/engine.rs:477-490 | The guard of that branch: the row has ended and will be written iff the run is not registered and the row read was not waiting |
| Endings.StaleWriteExact | src/engine.rs:477-490 | From the lookup of a cancellation to its write, with executors and prunes in between: an ended row is overwritten iff the lookup did not find the run and the row it had read was not waiting |
| StaleCancel.StaleWriteOccurs | src/engine.rs:471-491 | The overwriting does occur: a reachable state whose next step writes `Canceled` over `Succeeded` and brings back a `Queued` step |
| Cancellation.CancelIsDecisive | src/engine.rs:477-483 | After the token of a live run is set: at most the one step past its last check is handed over, nothing is granted, the row never waits again, every confirmation fails |
| Cancellation.CancelExactly | src/engine.rs:471-491 | A whole cancellation reports a missing row iff there is none as it reads, and success otherwise |
| Cancellation.LookupSeals | src/engine.rs:477-479 | The lookup of a registered run sets the token of its live executor or finds the run over |
| Cancellation.WriteSeals | src/engine.rs:479-489 | The other branches of a cancellation end the run |
| Outcomes.EveryWrite | src/engine.rs:493-655 | Over all interleavings every version of its row an executor stores is determined by the row it finds and by what it saw at its last look: the token set, the step in hand failed or refused, or neither; it goes on iff the run is running |
| Outcomes.ResultStored | src/engine.rs:612-628 | The step in hand is next stored as canceled if the token is set when its result arrives, else as failed if the result is an error or the lock refused it, else as succeeded with the loop going on |
| Outcomes.LastWrite | src/engine.rs:612-655 | An executor leaves its run failed iff the last step failed or was refused and the token was not seen set, canceled iff it was, and otherwise succeeded with all steps or asking for the next unconfirmed dangerous step |
| Executions.ExecutionEnds | src/engine.rs:502-655 | Given the session lock and outcome of every step, an execution has carried out only good steps up to where it stops; unless its token is set it has succeeded with all steps, failed at a bad one, or asks for a dangerous step |
| Confirmations.ConfirmExactly | src/engine.rs:443-455 | Over a whole confirmation: success iff the row waits and the session is unlocked, not found iff no row is stored as it reads, refused otherwise; its own steps touch one run only, and nothing when it fails |
| Confirmations.ConfirmGrantsOne | src/engine.rs:456-469 | A successful confirmation grants one thing, the run if it asks and is unconfirmed, else the dangerous step that waits: one journal entry, the row queued, and a fresh ticket registered with a new executor |
| Recovery.CrashRecovery | src/engine.rs:656-677 | After a crash at any step and a completed `recover`, with further crashes during it, the live rows are exactly those that waited for confirmation, unchanged; rows in flight are interrupted; no journal changed |
| Recovery.SecondRecoverIsIdle | src/engine.rs:656-677 | With nothing in flight another `recover` changes no row |
| Recovery.ResumesWhereItStopped | src/engine.rs:502-505 | A confirmed survivor resumes at its first step that has not succeeded, and no earlier one is handed over again |
| Runs.RunEngine.Execute | src/engine.rs:493-655 | `execute` with its wrapper, from its start or from where it had to wait, takes exactly the steps of the protocol that fit the session lock and outcome of every step, under any interference at its awaits; then its executor is gone, or waits for a permit, the gate or the map that others hold, and a later call goes on from there; what it stores is said by the lemmas of `Outcomes` and `Executions` above |
| Runs.RunEngine.RunStep | src/engine.rs:506-628 | One round of the loop over the steps: goes on behind the step, ends the run, or returns |
| Runs.RunEngine.AskForStep | src/engine.rs:511-530 | Under the gate an unconfirmed dangerous step becomes a request for confirmation, unless the run has been canceled |
| Runs.RunEngine.RecordFailure | src/engine.rs:425-440 | The wrapper's answer to an error of `execute` |
| Runs.RunEngine.Confirm | src/engine.rs:443-470 | `confirm` leaves the free gate free and has performed the protocol's confirmation, executors acting in between, with its outcome under the given session lock; it succeeds iff the row waited and the session is unlocked, and then the run has a new executor at its start. With the gate taken it changes nothing |
| Runs.RunEngine.Cancel | src/engine.rs:471-492 | `cancel` has performed the protocol's cancellation with its outcome, executors acting between its read, its lookup and its write; with the gate taken it changes nothing |
| Runs.RunEngine.Recover | src/engine.rs:656-677 | `recover`, after a crash or with the gate free and no executor alive, performs the protocol's recovery: afterwards the live rows are exactly those that waited for confirmation, unchanged, and rows in flight are interrupted |
| Runs.CloseSteps | src/engine.rs:629-652 | The closing loop gives every queued or running step its final status and the run its own |
| Runs.InterruptSteps | src/engine.rs:660-672 | The loop of `recover` over one row marks exactly its running step |
| Runs.ListActive | src/store.rs:165-170 | The live rows, each once |
| Interleavings.OthersKeep | src/engine.rs:415-441 | No action of others moves an executor |
| Detector.ReturnBoundary | src/bluetooth.rs:25-30 | The away boundary of a valid calibration lies strictly below its return boundary |
| Detector.NearAndFarExactly | src/bluetooth.rs:20-30 | A reading in range and at most 5 s old is near from 3 below the near calibration on, far up to 3 above the far one, and never both |
| Detector.ArmsByStart | src/bluetooth.rs:130-137 | The detector arms exactly when the current near run has lasted 3 s |
| Detector.StepAgrees | src/bluetooth.rs:90-164 | One update of the five fields agrees with the history: what is stored, whether it fires, and the state and seconds it reports |
| Detector.AlwaysSane | src/bluetooth.rs:97-103 | On every run, with the configuration changing at will, stored times never lie after the last update and a countdown is below 300 s, so no subtraction underflows |
| Detector.ArmedStep | src/bluetooth.rs:130-137 | Armed by history: a full near run just ended, or armed before with no reset and no alarm now |
| Detector.FiresFarByStart | src/bluetooth.rs:151-161 | A departure is reported iff armed and the current unbroken run of far readings spans the configured duration |
| Detector.NearStartIsFirst | src/bluetooth.rs:130-133 | The stored start of a near run is its earliest start |
| Detector.RearmedBetweenFires | src/bluetooth.rs:130-161 | Between any two alarms lies a near run of at least three seconds in one segment |
| Detector.FiresInTime | src/bluetooth.rs:155-161 | With an unchanged configuration a departure is reported less than 5000 ms after its countdown is due |
| Detector.Respond | src/bluetooth.rs:90-164 | The fields stay sane and the reported elapsed time is below 305, so its conversion to 32 bits loses nothing |
| Detector.BluetoothDetector.Update | src/bluetooth.rs:90-164 | After every update the detector's fields, and the alarm, state and elapsed seconds it reports, are those the history of updates determines |
| Detector.BluetoothDetector.Advance | src/bluetooth.rs:90-164 | The in-place update computes the step function that the history lemmas are about |
| Template.ReadExact | src/validation.rs:161-173 | A text reads as the one proper decomposition into literals and placeholders that writes back to it; there is none exactly when reading fails |
| Template.SplitOnce | src/validation.rs:147-148 | The split is at the first occurrence, and there is none exactly when nothing is found |
| Template.TrimStrips | src/validation.rs:151-154 | Trimming drops white space at both ends and nothing else |
| Template.ValidateVariables | src/validation.rs:144-160 | The loop accepts exactly the texts whose placeholders are closed and available for the trigger |
| Template.RenderText | src/validation.rs:161-179 | The loop gives the literals and values in turn, or fails on an unclosed or unknown placeholder; inserted values are not read again |
| Template.PrepareScript | src/shell.rs:23-53 | The loop gives literals and tokens in turn and the environment, with the same failures |
| Template.PaddedPlaceholder | src/validation.rs:161-179 | White space around the key of a placeholder is ignored: the variable of that name is inserted |
| Template.AcceptedIsRenderable | src/validation.rs:144-179 | A text is accepted for a trigger iff it renders, and iff it can be prepared, for every event that supplies the trigger's variables |
| Template.EnvironmentExact | src/shell.rs:34-48 | k placeholders take k distinct names, none overwritten, each holding its own value |
| Template.ScriptStandsForText | src/shell.rs:28-52 | Rendering and preparing succeed together; replacing the inserted tokens by their environment values gives the rendered text |
| Template.ScriptIgnoresValues | src/shell.rs:22-53 | Script text and environment names are the same for any two events |
| Calendar.NextSchedule | src/validation.rs:249-275 | The loop over nine dates computes the search the following lemmas are about |
| Calendar.SearchExact | src/validation.rs:262-274 | The result is the slot on the first local date of the window that has one ahead; none means no slot ahead on these dates |
| Calendar.NextExact | src/validation.rs:249-275 | The next occurrence of a schedule is the first occurrence of its time ahead on the first of the local dates 0..8, on a chosen weekday, that has one; there is none iff none of these dates has one |
| Calendar.OnlySchedules | src/validation.rs:249-260 | Any other trigger, or an unknown zone, has no next occurrence |
| Calendar.NextIsLater | src/validation.rs:269-271 | A next occurrence always lies ahead, in any zone |
| Calendar.OrderExact | src/validation.rs:248-248 | First occurrences come in local order iff no skipped local time is shown later for the first time |
| Calendar.LeastExactly | src/validation.rs:261-274 | With offsets differing by less than a day, the next occurrence is the least slot ahead over all time iff the slot of the previous local date is not still ahead |
| Calendar.NextIsLeast | src/validation.rs:249-275 | In a zone with offsets differing by less than a day and final skips, the next occurrence is the least slot ahead over all time |
| Calendar.MissOccurs | src/validation.rs:261-274 | A valid zone and a schedule for which the next occurrence is not the least slot ahead |
| Calendar.NoneMeansGap | src/validation.rs:262-275 | With valid weekdays there is no next occurrence iff today and tomorrow have no slot ahead and the chosen time falls in a gap on every chosen date 2 to 8 days ahead; there is such a date |
| Calendar.FixedWithinAWeek | src/validation.rs:249-275 | With a fixed offset there is always a next occurrence, the least slot ahead, at most seven days ahead |
| Calendar.NoneOccurs | src/validation.rs:262-275 | A valid weekly schedule in a valid zone with final skips without a next occurrence, although a later slot exists |
| Store.AutomationStore.Save | src/store.rs:63-108 | The new tables and the answer: conflict unless based on the present revision, else the next revision with the old creation time and legacy identifier, its slot and its tombstone |
| Store.AutomationStore.Delete | src/store.rs:118-130 | The definition and its slot go, nothing else |
| Store.AutomationStore.InsertActivity | src/store.rs:131-134 | A record is added exactly when its automation and event are not on record |
| Store.AutomationStore.Due | src/store.rs:177-187 | Exactly the rows whose slot is not ahead, each once |
| Store.AutomationStore.AdvanceSchedule | src/store.rs:188-195 | Moves an existing slot only |
| Store.SaveKeepsOk | src/engine.rs:240-265 | A save keeps: at most 256 definitions, no shared hotkey, valid definitions, tombstones, slots only for enabled schedules |
| Scheduler.Engine.Save | src/engine.rs:240-265 | The engine's checks before a save: limit of definitions, preflight, hotkey |
| Scheduler.Engine.Delete | src/engine.rs:272-277 | Deletes definition and slot |
| Scheduler.Engine.Tick | src/engine.rs:678-729 | The loop over the due rows computes the tables the following lemmas are about, with any prunes during its rounds; a run it starts appears by its key, which is what an enqueue adds by the two lemmas of `Slots` above |
| Scheduler.PruningTick | src/engine.rs:412-412 | Prunes during a tick change neither its outcome nor a slot or definition: the records are those of the tick without them, less at most what was pruned |
| Scheduler.TickKeeps | src/engine.rs:680-684 | A tick never fails for a missing definition, changes no definition and adds or drops no slot row |
| Scheduler.TickRow | src/engine.rs:680-727 | What a tick, with the prunes during it, does to each due automation: its one record, as `TickRecords` describes it, is added unless pruned, no other is; and the slot moves on if there is a next one |
| Scheduler.TickRecords | src/engine.rs:690-722 | Every record a tick adds is missed iff its round is more than 90 seconds after the slot and the stored schedule does not catch up; it has the stored definition and an event without origin that gives the slot as planned and the round as actual time |
| Scheduler.OneRecordPerStretch | src/engine.rs:697-726 | A stretch of past slots gives exactly one record and a slot after the tick began, or no next slot exists and the slot stays due; nothing else changes but by prunes during the tick |
| Scheduler.EventIdInjective | src/engine.rs:690-690 | Revision and slot can be told from the event identifier of an automation |
| Scheduler.SlotTextsRender | src/engine.rs:691-696 | Every text of a stored schedule renders, and every script can be prepared, with the event of a tick |
| Histories.AlwaysOk | src/store.rs:87-99 | At every moment of every history every schedule row belongs to an enabled schedule, there are at most 256 definitions, no two enabled ones share a hotkey, and every legacy identifier has a tombstone |
| Histories.SaveExact | src/store.rs:63-108 | A successful save stores and returns the definition as given with the next revision, the time of the save, and the old creation time and legacy identifier; its slot is the next occurrence if it is enabled and has one; nothing else changes, and a failed save changes nothing |
| Histories.SaveAnswers | src/engine.rs:240-265 | When a save succeeds, and which error it gives otherwise: a conflict iff everything but the revision is right |
| Histories.DeleteExact | src/store.rs:118-130 | Definition and slot are gone, nothing else changes |
| Histories.StoredIsSound | src/validation.rs:5-109 | After every history each stored definition is within the limits on its identifier, steps, texts, times and calibration |
| Histories.RevisionCounts | src/store.rs:71-85 | Between deletes the revision is the number of successful saves |
| Histories.NthSaveReturnsN | src/store.rs:71-85 | The n-th successful save after creation or deletion returns revision n |
| Histories.SameBaseOnce | src/store.rs:72-76 | Two saves from one base cannot both succeed without a delete in between |
| Histories.OriginKept | src/store.rs:77-78 | Creation time and legacy identifier are kept between deletes |
| Histories.MigratedForGood | src/store.rs:100-105 | The tombstone of a migrated automation stays, also after its deletion |
| Histories.PassedForGood | src/store.rs:188-195 | A slot left behind stays behind until the automation is deleted |
| Histories.DueTwiceMeansNoNext | src/engine.rs:724-726 | Two ticks find the same slot of the same revision only if the earlier one's round found no next slot |
| Histories.LeftDueIsRecordedAgain | src/engine.rs:724-726 | A slot whose round of a tick found no next one is recorded again by the next tick once its record has been pruned, unless that tick prunes it too |
| StuckTick.RecordedTwiceOccurs | src/engine.rs:724-726 | A history in which this happens, with a weekly schedule and a clock change: one slot of one revision is recorded by two ticks |
| Histories.AddedOncePerRetention | src/store.rs:131-134 | Between two additions of the record of one automation and event it was pruned |
| Histories.PassedSlotIsNotRecorded | src/engine.rs:690-726 | A slot that was handled and left behind is never recorded by a later tick, even with its record pruned |

## Left out

- Process spawning, process groups, timeouts, output capture and how a shell expands tokens: operating-system behaviour. The outcome of a step is arbitrary.
- SQL, pools, JSON and database errors, including the uniqueness of the `legacy_id` column: tables are maps with atomic updates that do not fail.
- Pruning by age and by the hundred newest rows: a prune drops some terminal rows, any of them, and never a live one; in the tables of `Store.dfy`, which have no statuses, any records.
- Cooldown and conditions in `enqueue` (src/engine.rs:352-366): one arbitrary flag that can only skip a run that is not manual. Time-range conditions are not modelled.
- `dispatch`, `run`, `test` and trigger matching: they call `enqueue` under the gate; the model starts `enqueue` with any definition and event.
- `enqueue` and the record of a missed slot are modelled as steps of the protocol only; `Runs.dfy` has no method for them, since the duplicate lookup scans a sorted query.
- Runs.RunEngine.Execute: a call ends when the executor has to wait for a permit, the gate or the map, and another call goes on from there; fairness of the queues is not modelled. Other activity at an await is given by a contract, not computed.
- Scheduler.Engine.Tick: which records are pruned during a round is arbitrary, and a round's prunes come at its end. A run that a tick starts is recorded by its key only; its lifecycle is that of the protocol module, which starts from the same definition and event.
- A notification whose text does not render, and a script that cannot be prepared, count as handed over in the journal although nothing is shown or run; the result is a failure like any other.
- Limits on fields outside the model (names, conditions, applications, timeouts, total size), `preflight` and capabilities: arbitrary flags of a save.
- Reasons, labels, results, start and finish times, broadcast and watch channels, summaries: reporting only.
- Concrete time zone data, date-line moves of a whole day, calendar limits and the parsing and printing of times: a zone is any offset function, times are whole seconds. All three readings of the clock in a save are one.
- The width of revisions: they are natural numbers.
- `set_enabled` reads outside the gate and then saves; a save between the two makes it a conflict, as for any other client.
- Runs.RunEngine.Recover: not for a call while executors are alive. It is meant for the start of the process, and would interrupt runs that are still being carried out.
- Random identifiers are assumed never to repeat.
