/**
 What one step of an executor does to the record of its run and to the run's journal.
 */
module Records {
  import opened Model
  import opened Protocol
  import opened Plan
  import opened Invariant

  lemma {:induction false} DoneIs(steps: seq<StepRun>, p: nat)
    requires p <= |steps|
    requires forall k :: 0 <= k < p ==> steps[k].status.Succeeded?
    requires p < |steps| ==> !steps[p].status.Succeeded?
    ensures Done(steps) == p
  {
    if p > 0 {
      DoneIs(steps[1..], p - 1);
    }
  }

  lemma SameDanger(r: Activity, a: Activity, k: nat)
    requires SameRun(r, a) && k < |a.steps|
    ensures r.steps[k].Dangerous() == a.steps[k].Dangerous()
  {
    assert SameStep(r.steps[k], a.steps[k]);
  }

  /** Before step `i`: its confirmation is on record exactly when it has been given. */
  lemma IdleAt(r: Activity, a: Activity, j: seq<Entry>)
    requires Idle(r, a, j) && Done(r.steps) < |r.steps|
    ensures var i := Done(r.steps);
      if r.steps[i].Dangerous() && i !in r.confirmedSteps then At(r, a, j, i, false) && r.steps[i].status.Queued?
      else At(r, a, j, i, true)
  {
    var i := Done(r.steps);
    SameDanger(r, a, i);
    DangerousBelowExact(a, i);
    DangerousBelowExact(a, i + 1);
  }

  lemma FinishKeeps(a: Activity)
    ensures SameRun(Finish(a), a)
    ensures Finish(a).confirmedSteps == a.confirmedSteps && Finish(a).runConfirmed == a.runConfirmed
  {
  }

  lemma SetStepKeeps(a: Activity, i: nat, status: Status)
    requires i < |a.steps|
    ensures SameRun(SetStep(a, i, status), a)
  {
  }

  lemma SameRunTransitive(x: Activity, y: Activity, z: Activity)
    requires SameRun(x, y) && SameRun(y, z)
    ensures SameRun(x, z)
  {
    forall k | 0 <= k < |x.steps| ensures SameStep(x.steps[k], z.steps[k]) {
      assert SameStep(x.steps[k], y.steps[k]) && SameStep(y.steps[k], z.steps[k]);
    }
  }

  lemma CanceledCloses(r: Activity)
    requires r.status.Canceled? && LiveShape(r)
    ensures CanceledShape(Finish(r))
  {
    DoneIs(Finish(r).steps, Done(r.steps));
  }

  /** A run stopped before a step ends canceled. */
  lemma CanceledEnds(r: Activity, a: Activity, j: seq<Entry>)
    requires Linked(r, a, j) && LiveShape(r)
    ensures Ended(Finish(r.(status := Canceled)), a, j)
  {
    CanceledCloses(r.(status := Canceled));
    FinishKeeps(r.(status := Canceled));
    SameRunTransitive(Finish(r.(status := Canceled)), r.(status := Canceled), a);
  }

  /** A run with nothing left to do ends succeeded, with its plan complete. */
  lemma CompleteEnds(r: Activity, a: Activity, j: seq<Entry>)
    requires Linked(r, a, j) && Idle(r, a, j) && Done(r.steps) == |r.steps|
    ensures Ended(Finish(r), a, j) && Finish(r).status.Succeeded?
  {
    FinishKeeps(r);
    SameRunTransitive(Finish(r), r, a);
  }

  /** A step that did not succeed ends the run with that step's status. */
  lemma StoppedEnds(r: Activity, a: Activity, j: seq<Entry>, i: nat, status: Status)
    requires Linked(r, a, j) && Progress(r, a, i) && i < |r.steps|
    requires status.Canceled? || status.Failed?
    ensures Stopped(r, i, status).PersistFinal? && Ended(Stopped(r, i, status).a, a, j)
    ensures Stopped(r, i, status).a.status == status
  {
    var stop := SetStep(r.(status := status), i, status);
    var end := Finish(stop);
    SetStepKeeps(r.(status := status), i, status);
    FinishKeeps(stop);
    SameRunTransitive(end, stop, r.(status := status));
    SameRunTransitive(end, r.(status := status), a);
    DoneIs(end.steps, i);
  }

  /** Asking for the confirmation of step `i`. */
  lemma AskStep(r: Activity, a: Activity, j: seq<Entry>)
    requires Idle(r, a, j) && Unconfirmed(r, Done(r.steps))
    ensures var i := Done(r.steps);
      Waiting(SetStep(r.(status := AwaitingConfirmation), i, AwaitingConfirmation), a, j)
      && LiveShape(SetStep(r.(status := AwaitingConfirmation), i, AwaitingConfirmation))
  {
    var i := Done(r.steps);
    var w := SetStep(r.(status := AwaitingConfirmation), i, AwaitingConfirmation);
    IdleAt(r, a, j);
    SetStepKeeps(r.(status := AwaitingConfirmation), i, AwaitingConfirmation);
    SameRunTransitive(w, r.(status := AwaitingConfirmation), a);
    DoneIs(w.steps, i);
  }

  /** Marking step `i` as running. */
  lemma StartStep(r: Activity, a: Activity, j: seq<Entry>)
    requires Idle(r, a, j) && Done(r.steps) < |r.steps|
    requires r.steps[Done(r.steps)].Dangerous() ==> Done(r.steps) in r.confirmedSteps
    ensures Started(SetStep(r.(status := Running), Done(r.steps), Running), a, j, Done(r.steps))
    ensures LiveShape(SetStep(r.(status := Running), Done(r.steps), Running))
  {
    var i := Done(r.steps);
    DoneIs(SetStep(r.(status := Running), i, Running).steps, i);
    IdleAt(r, a, j);
    SetStepKeeps(r.(status := Running), i, Running);
    SameRunTransitive(SetStep(r.(status := Running), i, Running), r.(status := Running), a);
  }

  /** Handing step `i` over: the journal entry is the plan's own next entry. */
  lemma HandsOver(r: Activity, a: Activity, j: seq<Entry>, i: nat)
    requires Started(r, a, j, i)
    ensures HandedOver(r, a, j + [Handed(i, r.steps[i].step, r.steps[i].action)], i)
    ensures j + [Handed(i, r.steps[i].step, r.steps[i].action)] <= FullPlan(a)
  {
    assert SameStep(r.steps[i], a.steps[i]);
    PlanGrowsWithGrant(a, i);
  }

  /** Recording the success of step `i`. */
  lemma SucceedStep(r: Activity, a: Activity, j: seq<Entry>, i: nat)
    requires HandedOver(r, a, j, i)
    ensures Idle(SetStep(r, i, Succeeded), a, j) && i + 1 <= Done(SetStep(r, i, Succeeded).steps)
    ensures LiveShape(SetStep(r, i, Succeeded))
  {
    var n := SetStep(r, i, Succeeded);
    SetStepKeeps(r, i, Succeeded);
    SameRunTransitive(n, r, a);
    DoneIs(n.steps, i + 1);
  }
}
