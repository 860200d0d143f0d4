/**
 A stored run can be forgotten by the duplicate lookup: while it waits for confirmation it is never
 pruned, and every later event of its automation adds one skipped row that is newer.
 */
module Crowd {
  import opened Model
  import opened Protocol
  import opened OpSteps
  import opened Ownership
  import opened Scenario

  const ASKING: Definition := Definition("a", true, Manual, [Delay(1)], AskBeforeRun, 1, 0, 0, None)
  const WAITING: Activity := Row(ASKING, None, AwaitingConfirmation, Queued, [])

  /** Identifier, insertion order and event of the n-th later row. */
  function Nth(n: nat): Env {
    ENV.(uuid := Uuid(n + 2), rowid := n + 2)
  }

  function NthEvent(n: nat): Event {
    Event(seq(n + 2, _ => 'e'), map[], None)
  }

  function Skip(n: nat): Activity {
    Activity(Uuid(n + 2), n + 2, ASKING.id, ASKING, NthEvent(n), Skipped, 0, [], [], false)
  }

  /** The run waits, `n` newer rows of its automation are stored, and the gate is free. */
  ghost predicate Crowded(s: State, n: nat) {
    && Reachable(s) && s.gate.Free?
    && RUN in s.rows && s.rows[RUN] == WAITING
    && (forall id :: id in s.rows ==> s.rows[id].rowid < n + 2 && |s.rows[id].event.id| < n + 2)
    && (forall id :: id in s.journal ==> id.bits < n + 2)
    && |Ahead(s.rows, RUN)| == n
  }

  lemma Alone()
    ensures exists s: State :: Crowded(s, 0)
  {
    var s := Entering(map[RUN := WAITING], EnqueuePrune(RUN)).(accepted := map[RUN := WAITING]);
    Persisted(ASKING, None);
    Left(s, RUN);
    assert Ahead(s.(gate := Free).rows, RUN) == {};
    assert Crowded(s.(gate := Free), 0);
  }

  /** The record an enqueue of one more event tries to insert. */
  function Attempt(n: nat, e: Event): Activity {
    Skip(n).(rowid := 0, event := e)
  }

  function Trying(s: State, n: nat, e: Event): State {
    ToOp(s.(journal := s.journal[Uuid(n + 2) := []]), EnqueueInsert(Attempt(n, e)))
  }

  /** Every later event finds the waiting run and is to be skipped. */
  lemma Tries(s: State, n: nat, e: Event)
    requires Crowded(s, n) && e.origin.None?
    ensures Reachable(Trying(s, n, e))
  {
    var read := EnqueueRead(ASKING, e, true);
    var decide := EnqueueDecide(ASKING, e, true, true, |Live(s.rows)| >= OUTSTANDING);
    assert Busy(s.rows, ASKING.id);
    ReachNext(s, Begin(read));
    OpTo(ToOp(s, read), Nth(n), ToOp(s, decide));
    OpTo(ToOp(s, decide), Nth(n), Trying(s, n, e));
  }

  lemma NotStored(s: State, n: nat)
    requires Crowded(s, n)
    ensures Uuid(n + 2) !in s.rows && !Duplicate(s.rows, Attempt(n, NthEvent(n)))
  {
    ReachableOk(s);
    UnusedIsNew(s, Uuid(n + 2));
    forall id | id in s.rows ensures !SameSlot(s.rows[id], Attempt(n, NthEvent(n))) {
      assert |s.rows[id].event.id| < |NthEvent(n).id|;
    }
  }

  /** The state after one more event has been skipped, while the operation stands at `op`. */
  function Joined(s: State, n: nat, op: Op): State {
    ToOp(s.(rows := s.rows[Uuid(n + 2) := Skip(n)], journal := s.journal[Uuid(n + 2) := []]), op)
  }

  lemma Joins(s: State, n: nat)
    requires Crowded(s, n)
    ensures Reachable(Joined(s, n, EnqueuePersist(Skip(n))))
  {
    Tries(s, n, NthEvent(n));
    NotStored(s, n);
    OpTo(Trying(s, n, NthEvent(n)), Nth(n), Joined(s, n, EnqueueSnapshot(Skip(n))));
    OpTo(Joined(s, n, EnqueueSnapshot(Skip(n))), Nth(n), Joined(s, n, EnqueuePersist(Skip(n))));
  }

  lemma Leaves(s: State, n: nat)
    requires Crowded(s, n)
    ensures Reachable(Joined(s, n, EnqueuePrune(Uuid(n + 2))).(gate := Free))
  {
    var s1 := Joined(s, n, EnqueuePrune(Uuid(n + 2)));
    Joins(s, n);
    assert Save(s1.rows, Skip(n)) == s1.rows;
    OpTo(Joined(s, n, EnqueuePersist(Skip(n))), Nth(n), s1);
    Left(s1, Uuid(n + 2));
  }

  /** One more row is ahead of the waiting run. */
  lemma OneAhead(rows: map<Uuid, Activity>, n: nat)
    requires RUN in rows && rows[RUN] == WAITING && Uuid(n + 2) !in rows
    ensures |Ahead(rows[Uuid(n + 2) := Skip(n)], RUN)| == |Ahead(rows, RUN)| + 1
  {
    assert Ahead(rows[Uuid(n + 2) := Skip(n)], RUN) == Ahead(rows, RUN) + {Uuid(n + 2)};
  }

  lemma {:induction false} Crowds(n: nat)
    ensures exists s: State :: Crowded(s, n)
  {
    if n == 0 {
      Alone();
    } else {
      Crowds(n - 1);
      var s: State :| Crowded(s, n - 1);
      Leaves(s, n - 1);
      NotStored(s, n - 1);
      OneAhead(s.rows, n - 1);
      assert Crowded(Joined(s, n - 1, EnqueuePrune(Uuid(n + 1))).(gate := Free), n);
    }
  }

  /** The lookup of a duplicate does not answer with the identifier under which its event is stored. */
  ghost predicate Forgotten(s: State, a: Activity, id: Uuid) {
    && Reachable(s) && s.gate == HeldByOp(EnqueueLookup(a))
    && id in s.rows && s.rows[id].Live() && SameSlot(s.rows[id], a)
    && DuplicateId(s.rows, a) != id && DuplicateId(s.rows, a) !in s.rows
  }

  /** A reachable state in which a duplicate is answered with an identifier that is not stored, although its event is:
      a hundred newer rows of the automation are ahead of the run that waits. */
  lemma DuplicateForgotten()
    ensures exists s: State, a: Activity, id: Uuid :: Forgotten(s, a, id)
  {
    Crowds(RECENT);
    var s: State :| Crowded(s, RECENT);
    Forgets(s);
  }

  lemma Forgets(s: State)
    requires Crowded(s, RECENT)
    ensures exists s: State, a: Activity, id: Uuid :: Forgotten(s, a, id)
  {
    var a := Attempt(RECENT, EVENT);
    var s1 := ToOp(Trying(s, RECENT, EVENT), EnqueueLookup(a));
    Tries(s, RECENT, EVENT);
    NotStored(s, RECENT);
    assert SameSlot(s.rows[RUN], a);
    OpTo(Trying(s, RECENT, EVENT), Nth(RECENT), s1);
    DuplicateIdExact(s1, a, RUN);
    assert Forgotten(s1, a, RUN);
  }
}
