/**
 The proximity detector of src/bluetooth.rs, against a specification over the whole history of
 updates.  The configuration is part of every update, so it may change at any time.
 */
module Detector {
  import opened Model
  import opened Text

  const STALE_MS: U64 := 5_000
  const ARM_MS: U64 := 3_000

  // ----- configuration -----

  predicate InRange(rssi: I16) {
    -110 <= rssi <= -20
  }

  predicate ValidCalibration(c: BluetoothCalibration) {
    InRange(c.nearRssi) && InRange(c.farRssi) && c.nearRssi - c.farRssi >= 10
  }

  function AwayBoundary(c: BluetoothCalibration): (r: I16)
    requires ValidCalibration(c)
    ensures r < c.nearRssi - 3
  {
    c.farRssi + 3
  }

  function ReturnBoundary(c: BluetoothCalibration): (r: I16)
    requires ValidCalibration(c)
    ensures AwayBoundary(c) < r
  {
    c.nearRssi - 3
  }

  predicate ValidTrigger(t: BluetoothTrigger) {
    && t.deviceId != "" && Bytes(t.deviceId) <= 512 && Bytes(t.deviceName) <= 256
    && 5 <= t.durationSeconds <= 300
    && (t.signalLossSeconds.Some? ==> 15 <= t.signalLossSeconds.value <= 300)
    && t.calibration.Some? && ValidCalibration(t.calibration.value)
  }

  // ----- updates -----

  datatype BluetoothReading = BluetoothReading(rssi: I16, at: U64)

  datatype Observation = Observation(config: BluetoothTrigger, now: U64, reading: Option<BluetoothReading>, healthy: bool)

  datatype Mode = Unavailable | SignalLost | NoSignal | NearBy | WaitingNear | Triggered | Leaving | Away

  datatype Detection = Detection(mode: Mode, elapsedSeconds: U32, fired: bool)

  predicate Usable(u: Observation) {
    u.healthy && ValidTrigger(u.config)
  }

  predicate Fresh(u: Observation) {
    && Usable(u) && u.reading.Some?
    && u.reading.value.at <= u.now && u.now - u.reading.value.at <= STALE_MS && InRange(u.reading.value.rssi)
  }

  predicate Near(u: Observation) {
    Fresh(u) && u.reading.value.rssi >= ReturnBoundary(u.config.calibration.value)
  }

  predicate Far(u: Observation) {
    Fresh(u) && u.reading.value.rssi <= AwayBoundary(u.config.calibration.value)
  }

  /** The last advertisement is older than the configured signal-loss timeout. */
  predicate Lost(u: Observation) {
    && Usable(u) && !Fresh(u) && u.config.signalLossSeconds.Some? && u.reading.Some?
    && u.reading.value.at <= u.now
    && u.now - u.reading.value.at >= u.config.signalLossSeconds.value as U64 * 1000
  }

  /** A reading counts when it is in range and at most five seconds old; then it is near from three below the near
      calibration on, far up to three above the far one, and never both. */
  lemma NearAndFarExactly(u: Observation)
    requires Usable(u)
    ensures var c := u.config.calibration.value;
      && (Near(u) <==> u.reading.Some? && 0 <= u.now as int - u.reading.value.at as int <= 5_000
                       && -110 <= u.reading.value.rssi as int <= -20 && u.reading.value.rssi as int + 3 >= c.nearRssi as int)
      && (Far(u) <==> u.reading.Some? && 0 <= u.now as int - u.reading.value.at as int <= 5_000
                      && -110 <= u.reading.value.rssi as int <= -20 && u.reading.value.rssi as int - 3 <= c.farRssi as int)
      && !(Near(u) && Far(u))
  {
  }

  // ----- the history specification -----

  /** The time between updates `k - 1` and `k` runs backwards or is too long. */
  predicate Gap(h: seq<Observation>, k: nat)
    requires k < |h|
  {
    k > 0 && (h[k].now < h[k - 1].now || h[k].now - h[k - 1].now > STALE_MS)
  }

  predicate Reset(h: seq<Observation>, k: nat)
    requires k < |h|
  {
    Gap(h, k) || !Usable(h[k])
  }

  /** Updates `i..k` lie in one healthy segment without gaps. */
  ghost predicate Connected(h: seq<Observation>, i: nat, k: nat)
    requires k < |h|
  {
    forall m :: i < m <= k ==> !Reset(h, m)
  }

  ghost predicate NearRun(h: seq<Observation>, i: nat, k: nat)
    requires k < |h|
  {
    i <= k && Connected(h, i, k) && forall m :: i <= m <= k ==> Near(h[m])
  }

  ghost predicate FarRun(h: seq<Observation>, i: nat, k: nat)
    requires k < |h|
  {
    i <= k && Connected(h, i, k) && forall m :: i <= m <= k ==> Far(h[m])
  }

  /** Update `k` completes a near run of at least three seconds. */
  ghost predicate Arms(h: seq<Observation>, k: nat)
    requires k < |h|
  {
    exists i: nat :: NearRun(h, i, k) && h[k].now as int - h[i].now as int >= ARM_MS as int
  }

  /** Update `k` completed a near run in the segment of update `n - 1`, and nothing has fired since. */
  ghost predicate ArmedBy(h: seq<Observation>, k: nat, n: nat)
    requires n <= |h|
    decreases n, 0
  {
    k < n && Arms(h, k) && Connected(h, k, n - 1) && forall m: nat :: k < m < n ==> !Fires(h, m)
  }

  /** Armed after the first `n` updates. */
  ghost predicate Armed(h: seq<Observation>, n: nat)
    requires n <= |h|
    decreases n, 1
  {
    exists k: nat :: ArmedBy(h, k, n)
  }

  /** Update `n` reports a departure: armed, and the current run of far readings is long enough. */
  ghost predicate FiresFar(h: seq<Observation>, n: nat)
    requires n < |h|
    decreases n, 2
  {
    && Armed(h, n) && !Reset(h, n)
    && exists j: nat :: FarRun(h, j, n) && h[n].now as int - h[j].now as int >= h[n].config.durationSeconds as int * 1000
  }

  /** Update `n` reports a lost signal. */
  ghost predicate FiresLost(h: seq<Observation>, n: nat)
    requires n < |h|
    decreases n, 2
  {
    Armed(h, n) && !Reset(h, n) && Lost(h[n])
  }

  ghost predicate Fires(h: seq<Observation>, n: nat)
    requires n < |h|
    decreases n, 3
  {
    FiresFar(h, n) || FiresLost(h, n)
  }

  /** Update `m` fired in the segment of update `n - 1`, and nothing has armed the detector since. */
  ghost predicate SpentBy(h: seq<Observation>, m: nat, n: nat)
    requires n <= |h|
  {
    m < n && Fires(h, m) && Connected(h, m, n - 1) && forall k: nat :: m < k < n ==> !Arms(h, k)
  }

  ghost predicate Spent(h: seq<Observation>, n: nat)
    requires n <= |h|
  {
    exists m: nat :: SpentBy(h, m, n)
  }

  // ----- a history only determines its future, not its past -----

  lemma {:induction false} FiresStable(h: seq<Observation>, u: Observation, n: nat)
    requires n < |h|
    ensures Fires(h + [u], n) == Fires(h, n)
    ensures FiresFar(h + [u], n) == FiresFar(h, n) && FiresLost(h + [u], n) == FiresLost(h, n)
    decreases n, 2
  {
    ArmedStable(h, u, n);
    forall j: nat | j <= n ensures FarRun(h + [u], j, n) == FarRun(h, j, n) {
      RunsStable(h, u, j, n);
    }
  }

  lemma RunsStable(h: seq<Observation>, u: Observation, i: nat, k: nat)
    requires k < |h|
    ensures Connected(h + [u], i, k) == Connected(h, i, k)
    ensures NearRun(h + [u], i, k) == NearRun(h, i, k)
    ensures FarRun(h + [u], i, k) == FarRun(h, i, k)
  {
    assert forall m :: 0 <= m <= k ==> (h + [u])[m] == h[m];
    assert forall m :: i < m <= k ==> Reset(h + [u], m) == Reset(h, m);
  }

  lemma ArmsStable(h: seq<Observation>, u: Observation, k: nat)
    requires k < |h|
    ensures Arms(h + [u], k) == Arms(h, k)
  {
    forall i: nat | i <= k ensures NearRun(h + [u], i, k) == NearRun(h, i, k) {
      RunsStable(h, u, i, k);
    }
  }

  lemma {:induction false} ArmedByStable(h: seq<Observation>, u: Observation, k: nat, n: nat)
    requires n <= |h|
    ensures ArmedBy(h + [u], k, n) == ArmedBy(h, k, n)
    decreases n, 0
  {
    if k < n {
      ArmsStable(h, u, k);
      RunsStable(h, u, k, n - 1);
      forall m: nat | m < n ensures Fires(h + [u], m) == Fires(h, m) {
        FiresStable(h, u, m);
      }
    }
  }

  lemma {:induction false} ArmedStable(h: seq<Observation>, u: Observation, n: nat)
    requires n <= |h|
    ensures Armed(h + [u], n) == Armed(h, n)
    decreases n, 1
  {
    forall k: nat ensures ArmedBy(h + [u], k, n) == ArmedBy(h, k, n) {
      ArmedByStable(h, u, k, n);
    }
  }

  lemma SpentStable(h: seq<Observation>, u: Observation, n: nat)
    requires n <= |h|
    ensures Spent(h + [u], n) == Spent(h, n)
  {
    forall m: nat | m < n
      ensures Arms(h + [u], m) == Arms(h, m) && Connected(h + [u], m, n - 1) == Connected(h, m, n - 1)
      ensures Fires(h + [u], m) == Fires(h, m)
    {
      ArmsStable(h, u, m);
      RunsStable(h, u, m, n - 1);
      FiresStable(h, u, m);
    }
    forall m: nat ensures SpentBy(h + [u], m, n) == SpentBy(h, m, n) {
    }
  }

  // ----- one update at a time -----

  lemma ConnectedExtends(h: seq<Observation>, i: nat, n: nat)
    requires i < n < |h|
    ensures Connected(h, i, n) <==> Connected(h, i, n - 1) && !Reset(h, n)
  {
  }

  lemma ArmedByStep(h: seq<Observation>, k: nat, n: nat)
    requires k < n < |h|
    ensures ArmedBy(h, k, n + 1) <==> ArmedBy(h, k, n) && !Reset(h, n) && !Fires(h, n)
  {
    ConnectedExtends(h, k, n);
  }

  lemma ArmedWitness(h: seq<Observation>, n: nat) returns (k: nat)
    requires n <= |h| && Armed(h, n)
    ensures ArmedBy(h, k, n)
  {
    k :| ArmedBy(h, k, n);
  }

  /** Arming, step by step: completed now, or armed before and neither reset nor fired now. */
  lemma ArmedStep(h: seq<Observation>, n: nat)
    requires n < |h|
    ensures Armed(h, n + 1) <==> Arms(h, n) || (Armed(h, n) && !Reset(h, n) && !Fires(h, n))
  {
    if Arms(h, n) {
      assert ArmedBy(h, n, n + 1);
    } else {
      if Armed(h, n + 1) {
        var k := ArmedWitness(h, n + 1);
        ArmedByStep(h, k, n);
      }
      if Armed(h, n) && !Reset(h, n) && !Fires(h, n) {
        var k := ArmedWitness(h, n);
        ArmedByStep(h, k, n);
      }
    }
  }

  lemma SpentByStep(h: seq<Observation>, m: nat, n: nat)
    requires m < n < |h|
    ensures SpentBy(h, m, n + 1) <==> SpentBy(h, m, n) && !Reset(h, n) && !Arms(h, n)
  {
    ConnectedExtends(h, m, n);
  }

  lemma SpentStep(h: seq<Observation>, n: nat)
    requires n < |h|
    ensures Spent(h, n + 1) <==> Fires(h, n) || (Spent(h, n) && !Reset(h, n) && !Arms(h, n))
  {
    if Spent(h, n + 1) && !Fires(h, n) {
      var m: nat :| SpentBy(h, m, n + 1);
      SpentByStep(h, m, n);
    }
    if Fires(h, n) {
      assert SpentBy(h, n, n + 1);
    } else if Spent(h, n) && !Reset(h, n) && !Arms(h, n) {
      var m: nat :| SpentBy(h, m, n);
      SpentByStep(h, m, n);
    }
  }

  /** Where the run of near readings that ends at update `n - 1` began. */
  ghost function NearStart(h: seq<Observation>, n: nat): (r: Option<nat>)
    requires n <= |h|
    ensures r.Some? ==> r.value < n
  {
    if n == 0 || !Near(h[n - 1]) then None
    else if NearStart(h, n - 1).Some? && !Reset(h, n - 1) then NearStart(h, n - 1)
    else Some(n - 1)
  }

  ghost function FarStart(h: seq<Observation>, n: nat): (r: Option<nat>)
    requires n <= |h|
    ensures r.Some? ==> r.value < n
  {
    if n == 0 || !Far(h[n - 1]) then None
    else if FarStart(h, n - 1).Some? && !Reset(h, n - 1) then FarStart(h, n - 1)
    else Some(n - 1)
  }

  /** The start of the current near run is its earliest start. */
  lemma {:induction false} NearStartIsFirst(h: seq<Observation>, n: nat)
    requires n < |h|
    ensures NearStart(h, n + 1).Some? <==> Near(h[n])
    ensures NearStart(h, n + 1).Some? ==> NearRun(h, NearStart(h, n + 1).value, n)
    ensures forall i: nat :: NearRun(h, i, n) ==> NearStart(h, n + 1).Some? && NearStart(h, n + 1).value <= i
  {
    if n > 0 {
      NearStartIsFirst(h, n - 1);
      forall i: nat | NearRun(h, i, n) ensures NearStart(h, n + 1).Some? && NearStart(h, n + 1).value <= i {
        if i < n { assert NearRun(h, i, n - 1) && !Reset(h, n); }
      }
    }
  }

  lemma {:induction false} FarStartIsFirst(h: seq<Observation>, n: nat)
    requires n < |h|
    ensures FarStart(h, n + 1).Some? <==> Far(h[n])
    ensures FarStart(h, n + 1).Some? ==> FarRun(h, FarStart(h, n + 1).value, n)
    ensures forall i: nat :: FarRun(h, i, n) ==> FarStart(h, n + 1).Some? && FarStart(h, n + 1).value <= i
  {
    if n > 0 {
      FarStartIsFirst(h, n - 1);
      forall i: nat | FarRun(h, i, n) ensures FarStart(h, n + 1).Some? && FarStart(h, n + 1).value <= i {
        if i < n { assert FarRun(h, i, n - 1) && !Reset(h, n); }
      }
    }
  }

  /** Inside a segment time does not run backwards. */
  lemma {:induction false} SegmentOrdered(h: seq<Observation>, i: nat, k: nat)
    requires i <= k < |h| && Connected(h, i, k)
    ensures h[i].now <= h[k].now
    decreases k
  {
    if i < k {
      assert !Reset(h, k);
      SegmentOrdered(h, i, k - 1);
    }
  }

  /** An update arms when its near run has lasted three seconds. */
  lemma ArmsByStart(h: seq<Observation>, n: nat)
    requires n < |h|
    ensures Arms(h, n) <==>
              NearStart(h, n + 1).Some? && h[n].now as int - h[NearStart(h, n + 1).value].now as int >= 3_000
  {
    NearStartIsFirst(h, n);
    if Arms(h, n) {
      var i: nat :| NearRun(h, i, n) && h[n].now as int - h[i].now as int >= ARM_MS as int;
      SegmentOrdered(h, NearStart(h, n + 1).value, i);
    }
  }

  lemma FiresFarByStart(h: seq<Observation>, n: nat)
    requires n < |h|
    ensures FiresFar(h, n) <==>
              && Armed(h, n) && !Reset(h, n) && FarStart(h, n + 1).Some?
              && h[n].now as int - h[FarStart(h, n + 1).value].now as int >= h[n].config.durationSeconds as int * 1000
  {
    FarStartIsFirst(h, n);
    if FiresFar(h, n) {
      var j: nat :| FarRun(h, j, n) && h[n].now as int - h[j].now as int >= h[n].config.durationSeconds as int * 1000;
      SegmentOrdered(h, FarStart(h, n + 1).value, j);
    }
  }

  lemma {:induction false} StartsStable(h: seq<Observation>, u: Observation, n: nat)
    requires n <= |h|
    ensures NearStart(h + [u], n) == NearStart(h, n) && FarStart(h + [u], n) == FarStart(h, n)
  {
    if n > 0 {
      StartsStable(h, u, n - 1);
      RunsStable(h, u, n - 1, n - 1);
      assert (h + [u])[n - 1] == h[n - 1] && Reset(h + [u], n - 1) == Reset(h, n - 1);
    }
  }

  /** One more update leaves everything said about the earlier ones as it was. */
  lemma OneMore(h: seq<Observation>, u: Observation)
    ensures var h' := h + [u]; var n := |h|;
      && Armed(h', n) == Armed(h, n) && Spent(h', n) == Spent(h, n)
      && NearStart(h', n) == NearStart(h, n) && FarStart(h', n) == FarStart(h, n)
  {
    ArmedStable(h, u, |h|);
    SpentStable(h, u, |h|);
    StartsStable(h, u, |h|);
  }

  // ----- the fields of the detector -----

  /** What update `n` must report. */
  ghost function Report(h: seq<Observation>, n: nat): Mode
    requires n < |h|
  {
    if !Usable(h[n]) then Unavailable
    else if !Fresh(h[n]) then (if FiresLost(h, n) then SignalLost else NoSignal)
    else if Near(h[n]) then (if Armed(h, n + 1) then NearBy else WaitingNear)
    else if !Armed(h, n) || Reset(h, n) then (if Spent(h, n) && !Reset(h, n) then Triggered else WaitingNear)
    else if !Far(h[n]) then NearBy
    else if FiresFar(h, n) then Away
    else Leaving
  }

  /** The seconds update `n` must report: those of the countdown, or the timeout of a lost signal. */
  ghost function Elapsed(h: seq<Observation>, n: nat): int
    requires n < |h|
  {
    match Report(h, n)
    case SignalLost => h[n].config.signalLossSeconds.value as int
    case Leaving => CountdownSeconds(h, n)
    case Away => CountdownSeconds(h, n)
    case _ => 0
  }

  /** Whole seconds since the current run of far readings began. */
  ghost function CountdownSeconds(h: seq<Observation>, n: nat): int
    requires n < |h|
  {
    if FarStart(h, n + 1).Some? then (h[n].now as int - h[FarStart(h, n + 1).value].now as int) / 1000 else 0
  }

  datatype Fields = Fields(
    armed: bool,
    nearSince: Option<U64>,
    farSince: Option<U64>,
    lastTick: Option<U64>,
    fired: bool)

  const DEFAULT: Fields := Fields(false, None, None, None, false)

  /** Stored times never lie after the last update, and a countdown is shorter than five minutes. */
  predicate Sane(f: Fields) {
    && (f.nearSince.Some? ==> f.lastTick.Some? && f.nearSince.value <= f.lastTick.value)
    && (f.farSince.Some? ==>
          && f.armed && f.lastTick.Some? && f.farSince.value <= f.lastTick.value
          && f.lastTick.value - f.farSince.value < 300_000)
  }

  /** The fields as the history determines them. */
  ghost function Expected(h: seq<Observation>): Fields {
    var n := |h|;
    Fields(Armed(h, n),
           if NearStart(h, n).Some? then Some(h[NearStart(h, n).value].now) else None,
           if Armed(h, n) && FarStart(h, n).Some? then Some(h[FarStart(h, n).value].now) else None,
           if n == 0 then None else Some(h[n - 1].now),
           Spent(h, n))
  }

  predicate Interrupts(f: Fields, u: Observation) {
    || !Usable(u)
    || (f.lastTick.Some? && (u.now < f.lastTick.value || u.now - f.lastTick.value > STALE_MS))
  }

  /** The fields an update starts from, once a gap has been dealt with. */
  function AfterGap(f: Fields, u: Observation): (r: Fields)
    requires Sane(f)
    ensures r.nearSince.Some? ==> r.nearSince.value <= u.now
    ensures r.farSince.Some? ==> r.farSince.value <= u.now && u.now - r.farSince.value < 305_000
  {
    (if Interrupts(f, u) then DEFAULT else f).(lastTick := Some(u.now))
  }

  /** No fresh reading (src/bluetooth.rs:116-129). */
  function StepStale(f: Fields, u: Observation): (Fields, Detection)
    requires Usable(u) && !Fresh(u)
  {
    var g := f.(nearSince := None, farSince := None);
    if f.armed && Lost(u) then
      (g.(armed := false, fired := true), Detection(SignalLost, u.config.signalLossSeconds.value, true))
    else (g, Detection(NoSignal, 0, false))
  }

  function StepNear(f: Fields, u: Observation): (Fields, Detection)
    requires Near(u) && (f.nearSince.Some? ==> f.nearSince.value <= u.now)
  {
    var since := if f.nearSince.Some? then f.nearSince.value else u.now;
    var full := u.now - since >= ARM_MS;
    var g := f.(farSince := None, nearSince := Some(since), armed := f.armed || full, fired := f.fired && !full);
    (g, Detection(if g.armed then NearBy else WaitingNear, 0, false))
  }

  /** A reading that is not near, while armed (src/bluetooth.rs:151-163). */
  function StepAway(f: Fields, u: Observation): (r: (Fields, Detection))
    requires Fresh(u) && !Near(u)
    requires f.farSince.Some? ==> f.farSince.value <= u.now && u.now - f.farSince.value < 305_000
    ensures r.0.farSince.Some? ==> r.0.armed == f.armed && r.0.farSince.value <= u.now && u.now - r.0.farSince.value < 300_000
    ensures r.1.elapsedSeconds < 305
  {
    var g := f.(nearSince := None);
    if !Far(u) then (g.(farSince := None), Detection(NearBy, 0, false))
    else
      var since := if f.farSince.Some? then f.farSince.value else u.now;
      var elapsed := ((u.now - since) / 1000) as U32;
      if elapsed >= u.config.durationSeconds then
        (g.(armed := false, fired := true, farSince := None), Detection(Away, elapsed, true))
      else (g.(farSince := Some(since)), Detection(Leaving, elapsed, false))
  }

  function Respond(f: Fields, u: Observation): (r: (Fields, Detection))
    requires Sane(f)
    ensures Sane(r.0) && r.1.elapsedSeconds < 305
  {
    var g := AfterGap(f, u);
    if !Usable(u) then (g, Detection(Unavailable, 0, false))
    else if !Fresh(u) then StepStale(g, u)
    else if Near(u) then StepNear(g, u)
    else if !g.armed then (g.(nearSince := None), Detection(if g.fired then Triggered else WaitingNear, 0, false))
    else StepAway(g, u)
  }

  // ----- a step of the fields is one more update of the history -----

  /** The latest update, resolved into what it completes. */
  lemma Latest(h: seq<Observation>, n: nat)
    requires n < |h|
    ensures Armed(h, n + 1) <==> Arms(h, n) || (Armed(h, n) && !Reset(h, n) && !Fires(h, n))
    ensures Spent(h, n + 1) <==> Fires(h, n) || (Spent(h, n) && !Reset(h, n) && !Arms(h, n))
    ensures Arms(h, n) <==>
              && NearStart(h, n + 1).Some?
              && h[n].now as int - h[NearStart(h, n + 1).value].now as int >= ARM_MS as int
    ensures FiresFar(h, n) <==>
              && Armed(h, n) && !Reset(h, n) && FarStart(h, n + 1).Some?
              && h[n].now as int - h[FarStart(h, n + 1).value].now as int >= h[n].config.durationSeconds as int * 1000
  {
    ArmedStep(h, n);
    SpentStep(h, n);
    ArmsByStart(h, n);
    FiresFarByStart(h, n);
  }

  /** Step and history agree on the latest update. */
  ghost predicate Agrees(h: seq<Observation>, r: (Fields, Detection))
    requires |h| > 0
  {
    r.0 == Expected(h) && Reports(h, r.1)
  }

  ghost predicate Reports(h: seq<Observation>, d: Detection)
    requires |h| > 0
  {
    && (d.fired <==> Fires(h, |h| - 1))
    && d.mode == Report(h, |h| - 1)
    && d.elapsedSeconds as int == Elapsed(h, |h| - 1)
  }

  /** The fields the latest update starts from, in terms of the whole history. */
  ghost predicate Starts(h: seq<Observation>, g: Fields)
    requires |h| > 0
  {
    var n := |h| - 1;
    && g.lastTick == Some(h[n].now)
    && g.armed == (Armed(h, n) && !Reset(h, n))
    && g.fired == (Spent(h, n) && !Reset(h, n))
    && g.nearSince == (if !Reset(h, n) && NearStart(h, n).Some? then Some(h[NearStart(h, n).value].now) else None)
    && g.farSince == (if g.armed && FarStart(h, n).Some? then Some(h[FarStart(h, n).value].now) else None)
  }

  lemma AfterGapStarts(h: seq<Observation>, u: Observation)
    requires Sane(Expected(h))
    ensures Starts(h + [u], AfterGap(Expected(h), u))
  {
    OneMore(h, u);
    assert Interrupts(Expected(h), u) <==> Reset(h + [u], |h|);
  }

  lemma UnusableAgrees(h: seq<Observation>, g: Fields)
    requires |h| > 0 && Starts(h, g) && !Usable(h[|h| - 1])
    ensures Agrees(h, (g, Detection(Unavailable, 0, false)))
  {
    Latest(h, |h| - 1);
  }

  lemma StaleAgrees(h: seq<Observation>, g: Fields)
    requires |h| > 0 && Starts(h, g) && Usable(h[|h| - 1]) && !Fresh(h[|h| - 1])
    ensures Agrees(h, StepStale(g, h[|h| - 1]))
  {
    Latest(h, |h| - 1);
  }

  lemma NearReports(h: seq<Observation>, d: Detection)
    requires |h| > 0 && Near(h[|h| - 1])
    requires d == Detection(if Armed(h, |h|) then NearBy else WaitingNear, 0, false)
    ensures Reports(h, d)
  {
    assert !FiresFar(h, |h| - 1) by { Latest(h, |h| - 1); }
  }

  lemma NearAgrees(h: seq<Observation>, g: Fields)
    requires |h| > 0 && Starts(h, g) && Near(h[|h| - 1])
    requires g.nearSince.Some? ==> g.nearSince.value <= h[|h| - 1].now
    ensures Agrees(h, StepNear(g, h[|h| - 1]))
  {
    var r := StepNear(g, h[|h| - 1]);
    assert r.0 == Expected(h) by { Latest(h, |h| - 1); }
    NearReports(h, r.1);
  }

  lemma DisarmedReports(h: seq<Observation>, d: Detection)
    requires |h| > 0 && Fresh(h[|h| - 1]) && !Near(h[|h| - 1]) && (!Armed(h, |h| - 1) || Reset(h, |h| - 1))
    requires d == Detection(if Spent(h, |h| - 1) && !Reset(h, |h| - 1) then Triggered else WaitingNear, 0, false)
    ensures Reports(h, d)
  {
  }

  lemma DisarmedAgrees(h: seq<Observation>, g: Fields)
    requires |h| > 0 && Starts(h, g) && Fresh(h[|h| - 1]) && !Near(h[|h| - 1]) && !g.armed
    ensures Agrees(h, (g.(nearSince := None), Detection(if g.fired then Triggered else WaitingNear, 0, false)))
  {
    var n := |h| - 1;
    DisarmedReports(h, Detection(if g.fired then Triggered else WaitingNear, 0, false));
    Latest(h, n);
    assert NearStart(h, n + 1).None? && !Arms(h, n);
    assert !Fires(h, n) && !Armed(h, n + 1);
  }

  lemma BetweenAgrees(h: seq<Observation>, g: Fields)
    requires |h| > 0 && Starts(h, g) && Fresh(h[|h| - 1]) && !Near(h[|h| - 1]) && !Far(h[|h| - 1]) && g.armed
    ensures Agrees(h, (g.(nearSince := None, farSince := None), Detection(NearBy, 0, false)))
  {
    Latest(h, |h| - 1);
  }

  /** When the current run of far readings began, in the fields an armed update starts from. */
  lemma CountdownStarts(h: seq<Observation>, g: Fields, since: U64)
    requires |h| > 0 && Starts(h, g) && Far(h[|h| - 1]) && g.armed
    requires since == if g.farSince.Some? then g.farSince.value else h[|h| - 1].now
    ensures FarStart(h, |h|).Some? && since == h[FarStart(h, |h|).value].now
  {
  }

  lemma CountdownReports(h: seq<Observation>, d: Detection)
    requires |h| > 0 && Far(h[|h| - 1]) && !Near(h[|h| - 1]) && Armed(h, |h| - 1) && !Reset(h, |h| - 1)
    requires d.fired <==> FiresFar(h, |h| - 1)
    requires d.mode == (if d.fired then Away else Leaving) && d.elapsedSeconds as int == CountdownSeconds(h, |h| - 1)
    ensures Reports(h, d)
  {
    assert !FiresLost(h, |h| - 1);
    assert Report(h, |h| - 1) == d.mode;
  }

  /** The countdown: when the current run of far readings began, and whether it is over. */
  lemma CountdownAgrees(h: seq<Observation>, g: Fields, since: U64, over: bool, elapsed: U32)
    requires |h| > 0 && Starts(h, g) && Far(h[|h| - 1]) && !Near(h[|h| - 1]) && g.armed
    requires since == if g.farSince.Some? then g.farSince.value else h[|h| - 1].now
    requires over <==> h[|h| - 1].now as int - since as int >= h[|h| - 1].config.durationSeconds as int * 1000
    requires elapsed as int == (h[|h| - 1].now as int - since as int) / 1000
    ensures Agrees(h, if over then (g.(nearSince := None, armed := false, fired := true, farSince := None), Detection(Away, elapsed, true))
                      else (g.(nearSince := None, farSince := Some(since)), Detection(Leaving, elapsed, false)))
  {
    var n := |h| - 1;
    CountdownStarts(h, g, since);
    Latest(h, n);
    CountdownReports(h, Detection(if over then Away else Leaving, elapsed, over));
    assert !Arms(h, n) && (Fires(h, n) <==> over);
    assert Armed(h, n + 1) <==> !over;
  }

  lemma AwayAgrees(h: seq<Observation>, g: Fields)
    requires |h| > 0 && Starts(h, g) && Fresh(h[|h| - 1]) && !Near(h[|h| - 1]) && g.armed
    requires g.farSince.Some? ==> g.farSince.value <= h[|h| - 1].now && h[|h| - 1].now - g.farSince.value < 305_000
    ensures Agrees(h, StepAway(g, h[|h| - 1]))
  {
    var u := h[|h| - 1];
    if Far(u) {
      var since := if g.farSince.Some? then g.farSince.value else u.now;
      var elapsed := ((u.now - since) / 1000) as U32;
      CountdownAgrees(h, g, since, elapsed >= u.config.durationSeconds, elapsed);
    } else {
      BetweenAgrees(h, g);
    }
  }

  lemma StepAgrees(h: seq<Observation>, u: Observation)
    requires Sane(Expected(h))
    ensures Agrees(h + [u], Respond(Expected(h), u))
  {
    var g := AfterGap(Expected(h), u);
    AfterGapStarts(h, u);
    if !Usable(u) {
      UnusableAgrees(h + [u], g);
    } else if !Fresh(u) {
      StaleAgrees(h + [u], g);
    } else if Near(u) {
      NearAgrees(h + [u], g);
    } else if !g.armed {
      DisarmedAgrees(h + [u], g);
    } else {
      AwayAgrees(h + [u], g);
    }
  }

  /** On every run the stored times are sane: no subtraction of times underflows. */
  lemma {:induction false} AlwaysSane(h: seq<Observation>)
    ensures Sane(Expected(h))
  {
    if |h| > 0 {
      var n := |h| - 1;
      AlwaysSane(h[..n]);
      StepAgrees(h[..n], h[n]);
      assert h[..n] + [h[n]] == h;
    }
  }

  // ----- consequences -----

  /** Between any two alarms lies a full re-arming: a near run of at least three seconds. */
  lemma RearmedBetweenFires(h: seq<Observation>, m: nat, n: nat)
    requires m < n < |h| && Fires(h, m) && Fires(h, n)
    ensures exists i: nat, k: nat :: m < i <= k < n && NearRun(h, i, k) && h[k].now as int - h[i].now as int >= 3_000
  {
    FiresWhenArmed(h, n);
    var k := ArmedWitness(h, n);
    var i: nat :| NearRun(h, i, k) && h[k].now as int - h[i].now as int >= ARM_MS as int;
    assert m <= k;
    NeverFiresNear(h, m);
    assert !(i <= m <= k);
  }

  lemma FiresWhenArmed(h: seq<Observation>, n: nat)
    requires n < |h| && Fires(h, n)
    ensures Armed(h, n) && !Reset(h, n)
  {
    assert FiresFar(h, n) || FiresLost(h, n);
  }

  lemma NeverFiresNear(h: seq<Observation>, m: nat)
    requires m < |h| && Fires(h, m)
    ensures !Near(h[m])
  {
    if FiresFar(h, m) {
      var j: nat :| FarRun(h, j, m);
      assert Far(h[m]);
    }
  }

  /** With the configuration of the update before, a departure is reported within five seconds of the
      end of its countdown. */
  lemma FiresInTime(h: seq<Observation>, n: nat)
    requires 0 < n < |h| && FiresFar(h, n) && h[n - 1].config == h[n].config
    ensures FarStart(h, n + 1).Some? && FarStart(h, n + 1).value < n
    ensures var due := h[FarStart(h, n + 1).value].now as int + h[n].config.durationSeconds as int * 1000;
      due <= h[n].now as int < due + 5_000
  {
    Latest(h, n);
    ArmedCountdown(h, n);
  }

  /** While armed, the countdown of the update before had not run out. */
  lemma ArmedCountdown(h: seq<Observation>, n: nat)
    requires 0 < n < |h| && FiresFar(h, n)
    ensures FarStart(h, n + 1).Some? && FarStart(h, n + 1).value < n
    ensures h[n - 1].now as int - h[FarStart(h, n + 1).value].now as int < h[n - 1].config.durationSeconds as int * 1000
    ensures h[n].now as int - h[n - 1].now as int <= STALE_MS as int
  {
    FiresFarByStart(h, n);
    FarStartIsFirst(h, n);
    assert Usable(h[n]);
    var j := FarStart(h, n + 1).value;
    assert j < n && FarStart(h, n) == FarStart(h, n + 1);
    StillArmed(h, n - 1);
    FiresFarByStart(h, n - 1);
  }

  /** An update with a far reading that leaves the detector armed found it armed, and fired nothing. */
  lemma StillArmed(h: seq<Observation>, n: nat)
    requires n < |h| && Armed(h, n + 1) && Far(h[n])
    ensures Armed(h, n) && !Reset(h, n) && !Fires(h, n)
  {
    ArmedStep(h, n);
    ArmsByStart(h, n);
    NearStartIsFirst(h, n);
  }

  // ----- the detector -----

  class BluetoothDetector {
    var armed: bool
    var nearSince: Option<U64>
    var farSince: Option<U64>
    var lastTick: Option<U64>
    var fired: bool
    ghost var history: seq<Observation>

    function View(): Fields
      reads this
    {
      Fields(armed, nearSince, farSince, lastTick, fired)
    }

    /** The five fields say exactly what the history of updates says. */
    ghost predicate Valid()
      reads this
    {
      View() == Expected(history) && Sane(View())
    }

    constructor ()
      ensures Valid() && history == []
    {
      armed, fired := false, false;
      nearSince, farSince, lastTick := None, None, None;
      history := [];
    }

    method Update(config: BluetoothTrigger, now: U64, reading: Option<BluetoothReading>, healthy: bool) returns (d: Detection)
      requires Valid()
      modifies this
      ensures history == old(history) + [Observation(config, now, reading, healthy)]
      ensures Valid()
      ensures d.fired <==> Fires(history, |history| - 1)
      ensures d.mode == Report(history, |history| - 1)
      ensures d.elapsedSeconds as int == Elapsed(history, |history| - 1) && d.elapsedSeconds < 305
    {
      ghost var u := Observation(config, now, reading, healthy);
      StepAgrees(history, u);
      history := history + [u];
      d := Advance(config, now, reading, healthy);
    }

    /** The body of `update`. */
    method Advance(config: BluetoothTrigger, now: U64, reading: Option<BluetoothReading>, healthy: bool) returns (d: Detection)
      requires Sane(View())
      modifies this`armed, this`nearSince, this`farSince, this`lastTick, this`fired
      ensures (View(), d) == Respond(old(View()), Observation(config, now, reading, healthy))
    {
      var gap := lastTick.Some? && (now < lastTick.value || now - lastTick.value > STALE_MS);
      var usable := healthy && ValidTrigger(config);
      if gap || !usable {
        armed, fired := false, false;
        nearSince, farSince := None, None;
      }
      lastTick := Some(now);
      if !usable {
        return Detection(Unavailable, 0, false);
      }
      var current := reading.Some? && reading.value.at <= now && now - reading.value.at <= STALE_MS && InRange(reading.value.rssi);
      if !current {
        nearSince, farSince := None, None;
        if armed && config.signalLossSeconds.Some? && reading.Some? {
          var limit := config.signalLossSeconds.value;
          if reading.value.at <= now && now - reading.value.at >= limit as U64 * 1000 {
            armed, fired := false, true;
            return Detection(SignalLost, limit, true);
          }
        }
        return Detection(NoSignal, 0, false);
      }
      var calibration := config.calibration.value;
      if reading.value.rssi >= ReturnBoundary(calibration) {
        farSince := None;
        if nearSince.None? {
          nearSince := Some(now);
        }
        if now - nearSince.value >= ARM_MS {
          armed, fired := true, false;
        }
        return Detection(if armed then NearBy else WaitingNear, 0, false);
      }
      nearSince := None;
      if !armed {
        return Detection(if fired then Triggered else WaitingNear, 0, false);
      }
      if reading.value.rssi > AwayBoundary(calibration) {
        farSince := None;
        return Detection(NearBy, 0, false);
      }
      if farSince.None? {
        farSince := Some(now);
      }
      var elapsed := ((now - farSince.value) / 1000) as U32;
      if elapsed >= config.durationSeconds {
        armed, fired := false, true;
        farSince := None;
        return Detection(Away, elapsed, true);
      }
      return Detection(Leaving, elapsed, false);
    }
  }
}
