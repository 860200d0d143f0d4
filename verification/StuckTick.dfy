/**
 A history in which one slot is recorded twice.  A weekly schedule whose only date within the search's
 nine days falls into the hour the clock skips keeps the slot it was due for, and a tick records that
 slot again once its record is pruned.
 */
module StuckTick {
  import opened Model
  import opened Store
  import opened Scheduler
  import opened Histories
  import Calendar

  const WORLD := World(Calendar.HOME, (t: int) => "")
  const WEEKLY := Definition("a", true, Calendar.SUNDAYS, [Delay(1)], Automatic, 0, 0, 0, None)
  const STORED := WEEKLY.(revision := 1)
  const KEY := ("a", EventId("a", 1, Calendar.SUNDAY))
  const WAITING := Tables(map["a" := STORED], map["a" := Calendar.SUNDAY], {}, map[])

  function Recorded(now: int): Tables {
    WAITING.(runs := map[KEY := RunOf(STORED, "a", Calendar.SUNDAY, now, WORLD)])
  }

  /** A tick that finds that Sunday's slot due and during which nothing is pruned. */
  function Ticking(now: int): Change {
    TickChange(now, [("a", Calendar.SUNDAY)], [now], [{}])
  }

  const TWICE := History(
    [EMPTY, WAITING, Recorded(Calendar.SUNDAY), WAITING, Recorded(Calendar.SUNDAY + 60)],
    [SaveChange(WEEKLY, true, true, 0), Ticking(Calendar.SUNDAY), PruneChange({KEY}), Ticking(Calendar.SUNDAY + 60)])

  lemma Saving()
    ensures EngineSaved(EMPTY, WEEKLY, true, true, 0, WORLD) == (WAITING, Ok(STORED))
  {
    assert Valid(WEEKLY, WORLD);
    Calendar.SpringBefore(0);
  }

  lemma Fires(now: int)
    requires Calendar.SUNDAY <= now < 4 * Calendar.DAY
    ensures Calendar.Next(STORED.trigger, now, WORLD.zones).None?
    ensures Fire(WAITING, "a", Calendar.SUNDAY, now, WORLD) == Ok(Recorded(now))
  {
    Calendar.NoneOccurs(now);
  }

  lemma Finds(now: int)
    requires Calendar.SUNDAY <= now < 4 * Calendar.DAY
    ensures Allowed(WAITING, Ticking(now)) && Stuck(WAITING, Ticking(now), WORLD, "a", Calendar.SUNDAY)
  {
    Fires(now);
    assert Ticking(now).rows[0] == ("a", Calendar.SUNDAY) && Ticking(now).clock[0] == now;
  }

  lemma OneRound(t: Tables, id: string, at: int, now: int, w: World)
    requires Fire(t, id, at, now, w).Ok?
    ensures TickedPruning(t, [(id, at)], [now], [{}], w) == (Pruned(Fire(t, id, at, now, w).value, {}), Ok(()))
  {
  }

  lemma Records(now: int)
    requires Calendar.SUNDAY <= now < 4 * Calendar.DAY
    ensures Changed(WAITING, Ticking(now), WORLD) == Recorded(now)
  {
    Fires(now);
    OneRound(WAITING, "a", Calendar.SUNDAY, now, WORLD);
    assert Pruned(Recorded(now), {}) == Recorded(now);
  }

  lemma Steps(k: nat)
    requires k < 4
    ensures Histories.Step(TWICE, WORLD, k)
  {
    if k == 0 {
      Saving();
    } else if k == 2 {
      assert Pruned(Recorded(Calendar.SUNDAY), {KEY}) == WAITING;
    } else {
      var now := if k == 1 then Calendar.SUNDAY else Calendar.SUNDAY + 60;
      Finds(now);
      Records(now);
    }
  }

  /** The slot is recorded, left due, and recorded again a minute later; the automation is not touched meanwhile. */
  lemma RecordedTwiceOccurs()
    ensures Actual(TWICE, WORLD) && Undeleted(TWICE, "a", 0, 4)
    ensures Stuck(TWICE.states[1], TWICE.changes[1], WORLD, "a", Calendar.SUNDAY)
    ensures Adds(TWICE.states[1], TWICE.states[2], KEY) && Adds(TWICE.states[3], TWICE.states[4], KEY)
  {
    forall k | 0 <= k < 4 ensures Histories.Step(TWICE, WORLD, k) {
      Steps(k);
    }
    Finds(Calendar.SUNDAY);
  }
}
