/**
 Runs and definitions together: saves and deletes go on while runs are under way, and a run keeps the
 definition that was stored when it was enqueued.
 */
module Isolation {
  import opened Model
  import opened Protocol
  import opened Invariant
  import opened OpSteps
  import opened Recovery
  import opened Slots
  import Store

  /** The engine with its definitions. */
  datatype Whole = Whole(state: State, tables: Store.Tables)

  /** A lifecycle action, a run or dispatch of a stored definition, or a save or delete of one. */
  datatype Move =
    | Lifecycle(action: Action)
    | RunStored(id: string, event: Event, manual: bool)
    | Save(d: Definition, preflight: bool, limits: bool, now: int)
    | Delete(id: string)

  /** Saves and deletes take the gate, as every operation does. */
  predicate CanMove(w: Whole, move: Move) {
    match move
    case Lifecycle(action) => Enabled(w.state, action)
    case RunStored(id, _, _) => w.state.gate.Free? && id in w.tables.definitions
    case Save(_, _, _, _) => w.state.gate.Free?
    case Delete(_) => w.state.gate.Free?
  }

  ghost function AfterMove(w: Whole, move: Move, world: Store.World): Whole
    requires CanMove(w, move)
  {
    match move
    case Lifecycle(action) => w.(state := Apply(w.state, action))
    case RunStored(id, event, manual) => w.(state := Apply(w.state, Begin(EnqueueRead(w.tables.definitions[id], event, manual))))
    case Save(d, preflight, limits, now) => w.(tables := Store.EngineSaved(w.tables, d, preflight, limits, now, world).0)
    case Delete(id) => w.(tables := Store.Deleted(w.tables, id))
  }

  ghost predicate Course(w: Whole, moves: seq<Move>, world: Store.World)
    decreases |moves|
  {
    moves == [] || (CanMove(w, moves[0]) && Course(AfterMove(w, moves[0], world), moves[1..], world))
  }

  ghost function Later(w: Whole, moves: seq<Move>, world: Store.World): Whole
    requires Course(w, moves, world)
    decreases |moves|
  {
    if moves == [] then w else Later(AfterMove(w, moves[0], world), moves[1..], world)
  }

  lemma MoveKeeps(w: Whole, move: Move, world: Store.World)
    requires Inv(w.state) && CanMove(w, move)
    ensures Inv(AfterMove(w, move, world).state) && Grows(w.state, AfterMove(w, move, world).state)
  {
    hide Inv;
    match move
    case Lifecycle(action) =>
      StepKeepsInv(w.state, action);
      StepGrows(w.state, action);
    case RunStored(id, event, manual) =>
      StepKeepsInv(w.state, Begin(EnqueueRead(w.tables.definitions[id], event, manual)));
    case _ =>
  }

  lemma {:induction false} RunKeeps(w: Whole, moves: seq<Move>, world: Store.World, x: Uuid)
    requires Inv(w.state) && Course(w, moves, world) && x in w.state.accepted
    ensures Inv(Later(w, moves, world).state)
    ensures x in Later(w, moves, world).state.accepted && Later(w, moves, world).state.accepted[x] == w.state.accepted[x]
    decreases |moves|
  {
    hide Inv;
    if moves != [] {
      MoveKeeps(w, moves[0], world);
      RunKeeps(AfterMove(w, moves[0], world), moves[1..], world, x);
    }
  }

  /** A run of a stored definition: whatever is saved and deleted after its enqueue, with any number of other actions
      and crashes in between, its row has the definition as it was stored then, that event, and the steps and snapshots
      it was accepted with. */
  lemma RunsWhatWasStored(
      w: Whole, id: string, event: Event, manual: bool, enqueue: seq<Action>, rest: seq<Move>, world: Store.World, x: Uuid)
    requires Inv(w.state) && CanMove(w, RunStored(id, event, manual)) && x !in w.state.accepted
    requires var s := AfterMove(w, RunStored(id, event, manual), world).state;
      Possible(s, enqueue) && OneOperation(enqueue) && x in After(s, enqueue).accepted
    requires var w' := w.(state := After(AfterMove(w, RunStored(id, event, manual), world).state, enqueue));
      Course(w', rest, world) && x in Later(w', rest, world).state.rows
    ensures var s' := After(AfterMove(w, RunStored(id, event, manual), world).state, enqueue);
      var row := Later(w.(state := s'), rest, world).state.rows[x];
      && row.definition == w.tables.definitions[id] && row.event == event
      && SameRun(row, s'.accepted[x])
  {
    var s := AfterMove(w, RunStored(id, event, manual), world).state;
    var s' := After(s, enqueue);
    MoveKeeps(w, RunStored(id, event, manual), world);
    AcceptedAsEnqueued(s, enqueue, w.tables.definitions[id], event, x);
    RunKeepsInv(s, enqueue);
    RunKeeps(w.(state := s'), rest, world, x);
    assert RowOk(Later(w.(state := s'), rest, world).state, x);
  }
}
