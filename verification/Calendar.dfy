/**
 The next occurrence of a local time (src/validation.rs:249-275).  A time zone is abstract: its offset
 at every instant, and for every local time the first instant that shows it.  Instants, local times
 and offsets are whole seconds, dates are days; both count from 1 January 1970, a Thursday.
 */
module Calendar {
  import opened Model

  const DAY := 86_400

  datatype Zone = Zone(offset: int -> int, earliest: int -> Option<int>)
  {
    function Local(t: int): int {
      t + offset(t)
    }

    function Date(t: int): int {
      Local(t) / DAY
    }

    /** `t` is the first instant with its local time. */
    predicate First(t: int) {
      earliest(Local(t)) == Some(t)
    }

    ghost predicate Valid() {
      && (forall l :: earliest(l).Some? ==> Local(earliest(l).value) == l)
      && (forall t :: earliest(Local(t)).Some? && earliest(Local(t)).value <= t)
    }

    /** Offsets differ by less than a day. */
    ghost predicate Narrow() {
      forall s, t :: offset(s) - offset(t) < DAY
    }

    /** The clock jumps over local time `l` after instant `s`. */
    predicate Skips(s: int, l: int) {
      Local(s) < l < Local(s + 1)
    }

    /** A local time that the clock jumps over is over for good: no back shift shows it later for the first time. */
    ghost predicate SkipsAreFinal() {
      forall s, l :: Skips(s, l) && earliest(l).Some? ==> earliest(l).value <= s
    }

    /** First occurrences come in the order of their local times. */
    ghost predicate FirstsInOrder() {
      forall s, t :: s < t && First(s) && First(t) ==> Local(s) < Local(t)
    }
  }

  /** Monday is 1. */
  function Weekday(date: int): nat {
    (date + 3) % 7 + 1
  }

  predicate ValidTime(time: nat, weekdays: seq<nat>) {
    time < DAY && weekdays != [] && forall d :: d in weekdays ==> 1 <= d <= 7
  }

  // ----- the search -----

  /** The instant the search tries for one date. */
  function Candidate(zone: Zone, time: nat, weekdays: seq<nat>, after: int, date: int): Option<int> {
    if Weekday(date) !in weekdays then None
    else
      var candidate := zone.earliest(date * DAY + time);
      if candidate.Some? && candidate.value > after then candidate else None
  }

  function Search(zone: Zone, time: nat, weekdays: seq<nat>, after: int, offset: nat): Option<int>
    decreases 9 - offset
  {
    if offset > 8 then None
    else
      var candidate := Candidate(zone, time, weekdays, after, zone.Date(after) + offset);
      if candidate.Some? then candidate else Search(zone, time, weekdays, after, offset + 1)
  }

  function Next(trigger: Trigger, after: int, zones: map<string, Zone>): Option<int> {
    if trigger.Schedule? && trigger.zone in zones then
      Search(zones[trigger.zone], trigger.time, trigger.weekdays, after, 0)
    else None
  }

  /** The time zone database is a parameter; an unknown zone has no next occurrence. */
  method NextSchedule(trigger: Trigger, after: int, zones: map<string, Zone>) returns (r: Option<int>)
    ensures r == Next(trigger, after, zones)
  {
    if !trigger.Schedule? || trigger.zone !in zones {
      return None;
    }
    var zone := zones[trigger.zone];
    var start := zone.Date(after);
    for offset := 0 to 9
      invariant Next(trigger, after, zones) == Search(zone, trigger.time, trigger.weekdays, after, offset)
    {
      var date := start + offset;
      if Weekday(date) !in trigger.weekdays {
        continue;
      }
      var candidate := zone.earliest(date * DAY + trigger.time);
      if candidate.Some? && candidate.value > after {
        return candidate;
      }
    }
    return None;
  }

  // ----- what is found -----

  /** `t` is the first occurrence of the chosen local time on a chosen weekday. */
  predicate Slot(zone: Zone, time: nat, weekdays: seq<nat>, t: int) {
    zone.First(t) && zone.Local(t) % DAY == time && Weekday(zone.Date(t)) in weekdays
  }

  /** A date has at most the one slot the search tries. */
  lemma CandidateExact(zone: Zone, time: nat, weekdays: seq<nat>, after: int, date: int, t: int)
    requires zone.Valid() && time < DAY
    ensures Candidate(zone, time, weekdays, after, date) == Some(t) <==>
            Slot(zone, time, weekdays, t) && zone.Date(t) == date && t > after
  {
    if Slot(zone, time, weekdays, t) && zone.Date(t) == date {
      assert zone.Local(t) == date * DAY + time;
    }
    if Candidate(zone, time, weekdays, after, date) == Some(t) {
      assert zone.Local(t) == date * DAY + time;
    }
  }

  /** The search finds the slot after `after` on the first local date that has one. */
  ghost predicate OnFirstDate(zone: Zone, time: nat, weekdays: seq<nat>, after: int, offset: nat, r: Option<int>) {
    var start := zone.Date(after);
    && (r.Some? ==>
          && Slot(zone, time, weekdays, r.value) && r.value > after
          && start + offset <= zone.Date(r.value) <= start + 8)
    && forall t :: Slot(zone, time, weekdays, t) && t > after && zone.Date(t) >= start + offset ==>
         if r.Some? then t == r.value || zone.Date(r.value) < zone.Date(t) else zone.Date(t) > start + 8
  }

  lemma {:induction false} SearchExact(zone: Zone, time: nat, weekdays: seq<nat>, after: int, offset: nat)
    requires zone.Valid() && time < DAY && offset <= 9
    ensures OnFirstDate(zone, time, weekdays, after, offset, Search(zone, time, weekdays, after, offset))
    decreases 9 - offset
  {
    if offset <= 8 {
      SearchExact(zone, time, weekdays, after, offset + 1);
      var date := zone.Date(after) + offset;
      var candidate := Candidate(zone, time, weekdays, after, date);
      if candidate.Some? { CandidateExact(zone, time, weekdays, after, date, candidate.value); }
      forall t | Slot(zone, time, weekdays, t) && t > after && zone.Date(t) == date ensures candidate == Some(t) {
        CandidateExact(zone, time, weekdays, after, date, t);
      }
    }
  }

  lemma {:induction false} SearchIsLater(zone: Zone, time: nat, weekdays: seq<nat>, after: int, offset: nat)
    ensures var r := Search(zone, time, weekdays, after, offset); r.Some? ==> r.value > after
    decreases 9 - offset
  {
    if offset <= 8 { SearchIsLater(zone, time, weekdays, after, offset + 1); }
  }

  /** The next occurrence always lies ahead, in any zone. */
  lemma NextIsLater(trigger: Trigger, after: int, zones: map<string, Zone>)
    ensures var r := Next(trigger, after, zones); r.Some? ==> r.value > after
  {
    if trigger.Schedule? && trigger.zone in zones {
      SearchIsLater(zones[trigger.zone], trigger.time, trigger.weekdays, after, 0);
    }
  }

  // ----- order -----

  /** Between two instants the local clock passes a local time by showing it or by jumping over it. */
  lemma {:induction false} Passes(zone: Zone, s: int, t: int, l: int) returns (p: int)
    requires s < t && zone.Local(s) <= l < zone.Local(t)
    ensures s <= p < t && zone.Local(p) <= l < zone.Local(p + 1)
    decreases t - s
  {
    if zone.Local(s + 1) > l { return s; }
    p := Passes(zone, s + 1, t, l);
  }

  /** Some instant before `t` shows an earlier local time than `l`. */
  lemma Before(zone: Zone, t: int, l: int) returns (s: int)
    requires zone.Narrow()
    ensures s < t && zone.Local(s) <= l
  {
    var low := l - zone.offset(t) - DAY;
    s := if low < t then low else t - 1;
    assert zone.offset(s) - zone.offset(t) < DAY;
  }

  /** Where skips are final, an earlier local time than the present one has been seen or never will be. */
  lemma SeenBefore(zone: Zone, s: int, l: int)
    requires zone.Valid() && zone.Narrow() && zone.SkipsAreFinal()
    requires l < zone.Local(s) && zone.earliest(l).Some?
    ensures zone.earliest(l).value < s
  {
    var early := Before(zone, s, l);
    var p := Passes(zone, early, s, l);
    assert zone.Local(p) == l || zone.Skips(p, l);
  }

  /** First occurrences are in order exactly when no skipped local time comes back. */
  lemma OrderExact(zone: Zone)
    requires zone.Valid() && zone.Narrow()
    ensures zone.SkipsAreFinal() <==> zone.FirstsInOrder()
  {
    if zone.SkipsAreFinal() {
      forall s, t | s < t && zone.First(s) && zone.First(t) ensures zone.Local(s) < zone.Local(t) {
        if zone.Local(s) > zone.Local(t) { SeenBefore(zone, s, zone.Local(t)); }
      }
    }
    if zone.FirstsInOrder() {
      forall s, l | zone.Skips(s, l) && zone.earliest(l).Some? ensures zone.earliest(l).value <= s {
        var t := zone.earliest(l).value;
        var u := zone.earliest(zone.Local(s + 1)).value;
        assert zone.First(t) && zone.First(u) && u <= s + 1;
      }
    }
  }

  // ----- the least slot -----

  /** Slots on different dates come in the order of their dates, and a slot two or more dates back is past. */
  lemma SlotsByDate(zone: Zone, time: nat, weekdays: seq<nat>, s: int, t: int)
    requires zone.Narrow() && time < DAY && Slot(zone, time, weekdays, t)
    ensures zone.Date(t) + 2 <= zone.Date(s) ==> t < s
    ensures Slot(zone, time, weekdays, s) && zone.Date(t) < zone.Date(s) ==> t < s
  {
    assert zone.offset(s) - zone.offset(t) < DAY;
    assert zone.Local(t) == zone.Date(t) * DAY + time;
    assert zone.Date(s) * DAY <= zone.Local(s) < zone.Date(s) * DAY + DAY;
  }

  /** Where skips are final, a first occurrence still to come is not on an earlier date. */
  lemma FirstsAhead(zone: Zone, after: int, t: int)
    requires zone.Valid() && zone.Narrow() && zone.SkipsAreFinal() && zone.First(t) && t > after
    ensures zone.Date(after) <= zone.Date(t)
  {
    var u := zone.earliest(zone.Local(after)).value;
    OrderExact(zone);
    assert zone.First(u) && u <= after && zone.Local(u) == zone.Local(after);
  }

  // ----- when there is a result -----

  /** Among seven consecutive dates each weekday occurs. */
  lemma ChosenDate(weekdays: seq<nat>, first: int) returns (date: int)
    requires weekdays != [] && forall d :: d in weekdays ==> 1 <= d <= 7
    ensures first <= date < first + 7 && Weekday(date) in weekdays
  {
    var d := weekdays[0];
    assert d in weekdays;
    var w, q := (first + 3) % 7, (first + 3) / 7;
    var m := (d - 1 - w) / 7;
    date := first + (d - 1 - w) % 7;
    assert first + 3 == 7 * q + w && d - 1 - w == 7 * m + (d - 1 - w) % 7;
    assert date + 3 == 7 * (q - m) + (d - 1);
    assert (date + 3) % 7 == d - 1;
  }

  lemma {:induction false} SearchNone(zone: Zone, time: nat, weekdays: seq<nat>, after: int, offset: nat)
    requires offset <= 9
    ensures Search(zone, time, weekdays, after, offset).None? <==>
            forall date :: offset <= date - zone.Date(after) <= 8 ==> Candidate(zone, time, weekdays, after, date).None?
    decreases 9 - offset
  {
    if offset <= 8 {
      SearchNone(zone, time, weekdays, after, offset + 1);
      var first := zone.Date(after) + offset;
      assert Search(zone, time, weekdays, after, offset).None? <==>
             Candidate(zone, time, weekdays, after, first).None? && Search(zone, time, weekdays, after, offset + 1).None?;
    }
  }

  /** Two or more dates ahead the chosen time is still to come, if it occurs at all. */
  lemma AheadUnlessGap(zone: Zone, time: nat, weekdays: seq<nat>, after: int, date: int)
    requires zone.Valid() && zone.Narrow() && time < DAY && date >= zone.Date(after) + 2
    ensures Candidate(zone, time, weekdays, after, date).None? <==>
            Weekday(date) !in weekdays || zone.earliest(date * DAY + time).None?
  {
    var candidate := zone.earliest(date * DAY + time);
    if candidate.Some? {
      assert zone.Local(candidate.value) == date * DAY + time;
      assert zone.offset(candidate.value) - zone.offset(after) < DAY;
    }
  }

  /** There is no result exactly when neither today nor tomorrow has a slot ahead and the clock jumps over the chosen
      time on every chosen date from two to eight days ahead, of which there is at least one.  The ninth date is needed:
      the chosen time of tomorrow may already be past, when a back shift has just repeated midnight. */
  lemma SearchNoneMeansGap(zone: Zone, time: nat, weekdays: seq<nat>, after: int)
    requires zone.Valid() && zone.Narrow() && ValidTime(time, weekdays)
    ensures Search(zone, time, weekdays, after, 0).None? <==>
              && Candidate(zone, time, weekdays, after, zone.Date(after)).None?
              && Candidate(zone, time, weekdays, after, zone.Date(after) + 1).None?
              && forall date :: 2 <= date - zone.Date(after) <= 8 && Weekday(date) in weekdays ==>
                   zone.earliest(date * DAY + time).None?
    ensures exists date :: 2 <= date - zone.Date(after) <= 8 && Weekday(date) in weekdays
  {
    SearchNone(zone, time, weekdays, after, 0);
    var date := ChosenDate(weekdays, zone.Date(after) + 2);
    forall date | 2 <= date - zone.Date(after) <= 8
      ensures Candidate(zone, time, weekdays, after, date).None? <==>
              (Weekday(date) in weekdays ==> zone.earliest(date * DAY + time).None?)
    {
      AheadUnlessGap(zone, time, weekdays, after, date);
    }
  }

  function Fixed(offset: int): Zone {
    Zone(t => offset, l => Some(l - offset))
  }

  /** With a fixed offset there is always a next slot, at most seven days ahead. */
  lemma SearchFixed(offset: int, time: nat, weekdays: seq<nat>, after: int)
    requires ValidTime(time, weekdays)
    ensures var r := Search(Fixed(offset), time, weekdays, after, 0);
      r.Some? && after < r.value <= after + 7 * DAY
  {
    var zone := Fixed(offset);
    assert zone.Valid();
    SearchExact(zone, time, weekdays, after, 0);
    var today := zone.Date(after) * DAY + time > zone.Local(after);
    var date := ChosenDate(weekdays, if today then zone.Date(after) else zone.Date(after) + 1);
    CandidateExact(zone, time, weekdays, after, date, date * DAY + time - offset);
  }

  // ----- the next occurrence of a trigger -----

  /** A schedule in a known zone. */
  ghost predicate Timed(trigger: Trigger, zones: map<string, Zone>) {
    trigger.Schedule? && trigger.zone in zones && zones[trigger.zone].Valid() && trigger.time < DAY
  }

  /** A slot of the schedule that lies after `after`. */
  predicate Ahead(trigger: Trigger, after: int, zones: map<string, Zone>, t: int)
    requires trigger.Schedule? && trigger.zone in zones
  {
    Slot(zones[trigger.zone], trigger.time, trigger.weekdays, t) && t > after
  }

  /** Local dates from that of `after`. */
  function DatesAhead(trigger: Trigger, after: int, zones: map<string, Zone>, t: int): int
    requires trigger.Schedule? && trigger.zone in zones
  {
    zones[trigger.zone].Date(t) - zones[trigger.zone].Date(after)
  }

  /** No slot ahead lies on an earlier date from today on. */
  ghost predicate Earliest(trigger: Trigger, after: int, zones: map<string, Zone>, t: int)
    requires trigger.Schedule? && trigger.zone in zones
  {
    forall u :: Ahead(trigger, after, zones, u) && 0 <= DatesAhead(trigger, after, zones, u) ==>
      DatesAhead(trigger, after, zones, t) <= DatesAhead(trigger, after, zones, u)
  }

  /** The next occurrence is the slot ahead on the first of the local dates from today to the eighth that has one, and
      there is none if and only if none of these dates has one. */
  lemma NextExact(trigger: Trigger, after: int, zones: map<string, Zone>, t: int)
    requires Timed(trigger, zones)
    ensures Next(trigger, after, zones) == Some(t) <==>
              && Ahead(trigger, after, zones, t) && 0 <= DatesAhead(trigger, after, zones, t) <= 8
              && Earliest(trigger, after, zones, t)
    ensures Next(trigger, after, zones).None? <==>
              forall u :: Ahead(trigger, after, zones, u) ==> !(0 <= DatesAhead(trigger, after, zones, u) <= 8)
  {
    var r := Next(trigger, after, zones);
    if r.Some? { NextIs(trigger, after, zones, r.value); }
    if Ahead(trigger, after, zones, t) && 0 <= DatesAhead(trigger, after, zones, t) <= 8 {
      NextBefore(trigger, after, zones, t);
    }
    if r.None? {
      forall u | Ahead(trigger, after, zones, u) ensures !(0 <= DatesAhead(trigger, after, zones, u) <= 8) {
        if 0 <= DatesAhead(trigger, after, zones, u) { NextBefore(trigger, after, zones, u); }
      }
    }
  }

  lemma NextIs(trigger: Trigger, after: int, zones: map<string, Zone>, r: int)
    requires Timed(trigger, zones) && Next(trigger, after, zones) == Some(r)
    ensures Ahead(trigger, after, zones, r) && 0 <= DatesAhead(trigger, after, zones, r) <= 8
    ensures Earliest(trigger, after, zones, r)
  {
    SearchExact(zones[trigger.zone], trigger.time, trigger.weekdays, after, 0);
    forall u | Ahead(trigger, after, zones, u) && 0 <= DatesAhead(trigger, after, zones, u)
      ensures DatesAhead(trigger, after, zones, r) <= DatesAhead(trigger, after, zones, u)
    {
      NextBefore(trigger, after, zones, u);
    }
  }

  /** A slot on one of the dates is found, or one on an earlier date. */
  lemma NextBefore(trigger: Trigger, after: int, zones: map<string, Zone>, t: int)
    requires Timed(trigger, zones) && Ahead(trigger, after, zones, t) && 0 <= DatesAhead(trigger, after, zones, t)
    ensures var r := Next(trigger, after, zones);
      if r.Some? then r == Some(t) || DatesAhead(trigger, after, zones, r.value) < DatesAhead(trigger, after, zones, t)
      else DatesAhead(trigger, after, zones, t) > 8
  {
    var zone := zones[trigger.zone];
    SearchExact(zone, trigger.time, trigger.weekdays, after, 0);
    assert OnFirstDate(zone, trigger.time, trigger.weekdays, after, 0, Next(trigger, after, zones));
  }

  /** Nothing else has a next occurrence. */
  lemma OnlySchedules(trigger: Trigger, after: int, zones: map<string, Zone>)
    requires !(trigger.Schedule? && trigger.zone in zones)
    ensures Next(trigger, after, zones).None?
  {
  }

  /** No slot ahead lies on yesterday's date. */
  ghost predicate YesterdayIsOver(trigger: Trigger, after: int, zones: map<string, Zone>)
    requires trigger.Schedule? && trigger.zone in zones
  {
    forall t :: Ahead(trigger, after, zones, t) ==> DatesAhead(trigger, after, zones, t) != -1
  }

  ghost predicate LeastAhead(trigger: Trigger, after: int, zones: map<string, Zone>, r: int)
    requires trigger.Schedule? && trigger.zone in zones
  {
    forall t :: Ahead(trigger, after, zones, t) ==> r <= t
  }

  /** Yesterday's slot is the one slot of an earlier date that can still be ahead: the next occurrence is the least slot
      ahead over all time if and only if it is not. */
  lemma LeastExactly(trigger: Trigger, after: int, zones: map<string, Zone>)
    requires Timed(trigger, zones) && zones[trigger.zone].Narrow() && Next(trigger, after, zones).Some?
    ensures LeastAhead(trigger, after, zones, Next(trigger, after, zones).value) <==> YesterdayIsOver(trigger, after, zones)
  {
    var r := Next(trigger, after, zones).value;
    NextIs(trigger, after, zones, r);
    if YesterdayIsOver(trigger, after, zones) {
      forall t | Ahead(trigger, after, zones, t) ensures r <= t { NotBefore(trigger, after, zones, r, t); }
    } else {
      var t :| Ahead(trigger, after, zones, t) && DatesAhead(trigger, after, zones, t) == -1;
      SlotsByDate(zones[trigger.zone], trigger.time, trigger.weekdays, r, t);
    }
  }

  lemma NotBefore(trigger: Trigger, after: int, zones: map<string, Zone>, r: int, t: int)
    requires Timed(trigger, zones) && zones[trigger.zone].Narrow() && Next(trigger, after, zones) == Some(r)
    requires Ahead(trigger, after, zones, t) && DatesAhead(trigger, after, zones, t) != -1
    requires Slot(zones[trigger.zone], trigger.time, trigger.weekdays, r)
    ensures r <= t
  {
    var zone := zones[trigger.zone];
    SlotsByDate(zone, trigger.time, trigger.weekdays, after, t);
    NextBefore(trigger, after, zones, t);
    SlotsByDate(zone, trigger.time, trigger.weekdays, t, r);
  }

  /** Where skips are final, the next occurrence is the least slot ahead, over all time. */
  lemma NextIsLeast(trigger: Trigger, after: int, zones: map<string, Zone>)
    requires Timed(trigger, zones) && zones[trigger.zone].Narrow() && zones[trigger.zone].SkipsAreFinal()
    requires Next(trigger, after, zones).Some?
    ensures var r := Next(trigger, after, zones).value; Ahead(trigger, after, zones, r) && LeastAhead(trigger, after, zones, r)
  {
    NextIs(trigger, after, zones, Next(trigger, after, zones).value);
    forall t | Ahead(trigger, after, zones, t) ensures DatesAhead(trigger, after, zones, t) != -1 {
      FirstsAhead(zones[trigger.zone], after, t);
    }
    LeastExactly(trigger, after, zones);
  }

  /** Neither today nor tomorrow has a slot ahead. */
  ghost predicate NoneSoon(trigger: Trigger, after: int, zones: map<string, Zone>)
    requires trigger.Schedule? && trigger.zone in zones
  {
    forall t :: Ahead(trigger, after, zones, t) ==> !(0 <= DatesAhead(trigger, after, zones, t) <= 1)
  }

  /** There is no next occurrence exactly when neither today nor tomorrow has a slot ahead and the clock jumps over the
      chosen time on every chosen date from two to eight days ahead, of which there is at least one. */
  lemma NoneMeansGap(trigger: Trigger, after: int, zones: map<string, Zone>)
    requires Timed(trigger, zones) && zones[trigger.zone].Narrow() && ValidTime(trigger.time, trigger.weekdays)
    ensures var zone := zones[trigger.zone];
      && (Next(trigger, after, zones).None? <==>
            && NoneSoon(trigger, after, zones)
            && (forall date :: 2 <= date - zone.Date(after) <= 8 && Weekday(date) in trigger.weekdays ==>
                  zone.earliest(date * DAY + trigger.time).None?))
      && exists date :: 2 <= date - zone.Date(after) <= 8 && Weekday(date) in trigger.weekdays
  {
    var zone := zones[trigger.zone];
    SearchNoneMeansGap(zone, trigger.time, trigger.weekdays, after);
    SoonExact(trigger, after, zones);
  }

  lemma SoonExact(trigger: Trigger, after: int, zones: map<string, Zone>)
    requires Timed(trigger, zones)
    ensures var zone := zones[trigger.zone];
      NoneSoon(trigger, after, zones) <==>
        && Candidate(zone, trigger.time, trigger.weekdays, after, zone.Date(after)).None?
        && Candidate(zone, trigger.time, trigger.weekdays, after, zone.Date(after) + 1).None?
  {
    var zone := zones[trigger.zone];
    var today := Candidate(zone, trigger.time, trigger.weekdays, after, zone.Date(after));
    var tomorrow := Candidate(zone, trigger.time, trigger.weekdays, after, zone.Date(after) + 1);
    if today.Some? { CandidateExact(zone, trigger.time, trigger.weekdays, after, zone.Date(after), today.value); }
    if tomorrow.Some? { CandidateExact(zone, trigger.time, trigger.weekdays, after, zone.Date(after) + 1, tomorrow.value); }
    if !NoneSoon(trigger, after, zones) {
      var t :| Ahead(trigger, after, zones, t) && 0 <= DatesAhead(trigger, after, zones, t) <= 1;
      CandidateExact(zone, trigger.time, trigger.weekdays, after, zone.Date(t), t);
    } else if today.Some? {
      assert Ahead(trigger, after, zones, today.value);
    } else if tomorrow.Some? {
      assert Ahead(trigger, after, zones, tomorrow.value);
    }
  }

  /** With a fixed offset there is always a next occurrence, at most seven days ahead. */
  lemma FixedWithinAWeek(trigger: Trigger, after: int, zones: map<string, Zone>, offset: int)
    requires trigger.Schedule? && trigger.zone in zones && zones[trigger.zone] == Fixed(offset)
    requires ValidTime(trigger.time, trigger.weekdays)
    ensures var r := Next(trigger, after, zones);
      r.Some? && after < r.value <= after + 7 * DAY
      && Ahead(trigger, after, zones, r.value) && LeastAhead(trigger, after, zones, r.value)
  {
    SearchFixed(offset, trigger.time, trigger.weekdays, after);
    assert Fixed(offset).Valid() && Fixed(offset).Narrow();
    FixedSkipsNothing(offset);
    NextIsLeast(trigger, after, zones);
  }

  lemma FixedSkipsNothing(offset: int)
    ensures Fixed(offset).SkipsAreFinal()
  {
    forall s, l ensures !Fixed(offset).Skips(s, l) {
    }
  }

  // ----- a schedule without a next occurrence -----

  /** Clocks go forward one hour at 02:00 on Sunday, 11 January 1970. */
  const CHANGE := 10 * DAY + 7_200

  function Spring(): Zone {
    Zone(t => if t < CHANGE then 0 else 3_600,
         l => if l < CHANGE then Some(l) else if l < CHANGE + 3_600 then None else Some(l - 3_600))
  }

  lemma SpringIsFinal()
    ensures Spring().SkipsAreFinal()
  {
  }

  lemma SpringIsValid()
    ensures Spring().Valid() && Spring().Narrow()
  {
    var zone := Spring();
    forall l | zone.earliest(l).Some? ensures zone.Local(zone.earliest(l).value) == l {
    }
    forall t ensures zone.earliest(zone.Local(t)) == Some(t) {
    }
  }

  /** The next slot after the change is on the Sunday after it. */
  lemma SpringLater()
    ensures Slot(Spring(), 9_000, [7], 17 * DAY + 5_400)
  {
    assert Spring().Local(17 * DAY + 5_400) == 17 * DAY + 9_000;
    assert Weekday(17) == 7;
  }

  lemma SpringSlot(t: int)
    requires Slot(Spring(), 9_000, [7], t)
    ensures Spring().Date(t) <= 3 || Spring().Date(t) >= 17
  {
    var date := Spring().Date(t);
    assert Spring().Local(t) == date * DAY + 9_000;
    assert date != 10;
    assert Weekday(date) == 7;
  }

  lemma SpringWindow(after: int, t: int)
    requires 3 * DAY + 9_000 <= after < 4 * DAY && Slot(Spring(), 9_000, [7], t) && t > after
    ensures Spring().Date(t) > Spring().Date(after) + 8
  {
    SpringSlot(t);
  }

  /** 02:30 on Sundays, in that zone. */
  const SUNDAYS: Trigger := Schedule(9_000, [7], "home", false)
  const HOME := map["home" := Spring()]

  /** A valid weekly schedule without a next occurrence, in an orderly zone: asked on the Sunday before the change at
      02:30 or later.  The slot of the Sunday after the change exists, but not within the window. */
  lemma NoneOccurs(after: int)
    requires 3 * DAY + 9_000 <= after < 4 * DAY
    ensures Timed(SUNDAYS, HOME) && ValidTime(9_000, [7]) && Spring().Narrow() && Spring().SkipsAreFinal()
    ensures Next(SUNDAYS, after, HOME).None?
    ensures exists t :: Ahead(SUNDAYS, after, HOME, t)
  {
    SpringIsValid();
    SpringIsFinal();
    SpringLater();
    assert Ahead(SUNDAYS, after, HOME, 17 * DAY + 5_400);
    forall t | Ahead(SUNDAYS, after, HOME, t) ensures !(0 <= DatesAhead(SUNDAYS, after, HOME, t) <= 8) {
      SpringWindow(after, t);
    }
    NextExact(SUNDAYS, after, HOME, after);
  }

  const SUNDAY := 3 * DAY + 9_000

  lemma SpringSunday()
    ensures Slot(Spring(), 9_000, [7], SUNDAY) && Spring().Date(SUNDAY) == 3
  {
    assert Spring().Local(SUNDAY) == SUNDAY && Weekday(3) == 7;
  }

  lemma SpringEarly(t: int)
    requires Slot(Spring(), 9_000, [7], t) && 0 < t <= SUNDAY
    ensures t == SUNDAY
  {
    var date := Spring().Date(t);
    assert Spring().Local(t) == t == date * DAY + 9_000;
    assert Weekday(date) == 7;
  }

  /** Until that Sunday the same schedule has a next occurrence: 02:30 of that Sunday itself. */
  lemma SpringBefore(after: int)
    requires 0 <= after < SUNDAY
    ensures Next(SUNDAYS, after, HOME) == Some(SUNDAY)
  {
    SpringIsValid();
    SpringIsFinal();
    SpringSunday();
    assert Ahead(SUNDAYS, after, HOME, SUNDAY) && 0 <= DatesAhead(SUNDAYS, after, HOME, SUNDAY) <= 8;
    NextExact(SUNDAYS, after, HOME, SUNDAY);
    NextIsLeast(SUNDAYS, after, HOME);
    SpringEarly(Next(SUNDAYS, after, HOME).value);
  }

  // ----- a schedule that misses a slot -----

  /** The clock jumps two hours at 22:30 on Saturday and is set back an hour later. */
  const JUMP := 10 * DAY - 5_400

  function Seesaw(): Zone {
    Zone(t => if JUMP <= t < JUMP + 3_600 then 7_200 else 0,
         l => if JUMP <= l < JUMP + 3_600 then None
              else if JUMP + 7_200 <= l < JUMP + 10_800 then Some(l - 7_200)
              else Some(l))
  }

  lemma SeesawIsValid()
    ensures Seesaw().Valid() && Seesaw().Narrow()
  {
    var zone := Seesaw();
    forall l | zone.earliest(l).Some? ensures zone.Local(zone.earliest(l).value) == l {
    }
    forall t ensures zone.earliest(zone.Local(t)).Some? && zone.earliest(zone.Local(t)).value <= t {
    }
  }

  lemma SeesawSlots()
    ensures Slot(Seesaw(), 85_500, [6, 7], 10 * DAY - 900) && Slot(Seesaw(), 85_500, [6, 7], 10 * DAY + 85_500)
    ensures Seesaw().Date(10 * DAY + 85_500) == 10
  {
    assert Seesaw().Local(10 * DAY - 900) == 9 * DAY + 85_500 && Seesaw().Local(10 * DAY + 85_500) == 10 * DAY + 85_500;
    assert Weekday(9) == 6 && Weekday(10) == 7;
  }

  /** 23:45 on weekends, in that zone. */
  const WEEKENDS: Trigger := Schedule(85_500, [6, 7], "home", false)
  const SWINGING := map["home" := Seesaw()]

  /** Without final skips the least slot can be missed: 23:45 on Saturday was jumped over and comes back, but between
      the two changes the search already starts from Sunday. */
  lemma MissOccurs(after: int)
    requires JUMP <= after < JUMP + 3_600
    ensures Timed(WEEKENDS, SWINGING) && Seesaw().Narrow() && Next(WEEKENDS, after, SWINGING).Some?
    ensures exists t :: Ahead(WEEKENDS, after, SWINGING, t) && t < Next(WEEKENDS, after, SWINGING).value
  {
    SeesawIsValid();
    SeesawSlots();
    assert Seesaw().Date(after) == 10;
    assert Ahead(WEEKENDS, after, SWINGING, 10 * DAY + 85_500) && DatesAhead(WEEKENDS, after, SWINGING, 10 * DAY + 85_500) == 0;
    NextExact(WEEKENDS, after, SWINGING, 10 * DAY + 85_500);
    var r := Next(WEEKENDS, after, SWINGING).value;
    NextIs(WEEKENDS, after, SWINGING, r);
    assert Seesaw().Local(r) >= 10 * DAY + 85_500;
    assert Ahead(WEEKENDS, after, SWINGING, 10 * DAY - 900) && 10 * DAY - 900 < r;
  }
}
