/**
 The plan of a run: the one order in which the confirmations and hand-overs of an accepted
 record may happen.  Everything the engine promises about executions follows from a journal
 being a prefix of its plan, so the consequences are stated here, once, about plans.
 */
module Plan {
  import opened Model
  import opened Protocol

  function AskEntries(a: Activity): seq<Entry> {
    if a.Asks() then [Granted(RunGrant, false)] else []
  }

  function GrantEntries(a: Activity, k: nat): seq<Entry>
    requires k < |a.steps|
  {
    if a.steps[k].Dangerous() then [Granted(StepGrant(k), false)] else []
  }

  function HandEntry(a: Activity, k: nat): Entry
    requires k < |a.steps|
  {
    Handed(k, a.steps[k].step, a.steps[k].action)
  }

  /** The plan up to the hand-over of step `n - 1`. */
  function PlanUpTo(a: Activity, n: nat): seq<Entry>
    requires n <= |a.steps|
  {
    if n == 0 then AskEntries(a)
    else PlanUpTo(a, n - 1) + GrantEntries(a, n - 1) + [HandEntry(a, n - 1)]
  }

  function FullPlan(a: Activity): seq<Entry> {
    PlanUpTo(a, |a.steps|)
  }

  /** Indices below `n` of the steps that need their own confirmation, in increasing order. */
  function DangerousBelow(a: Activity, n: nat): seq<nat>
    requires n <= |a.steps|
  {
    if n == 0 then []
    else DangerousBelow(a, n - 1) + (if a.steps[n - 1].Dangerous() then [n - 1] else [])
  }

  lemma {:induction false} PlanGrows(a: Activity, m: nat, n: nat)
    requires m <= n <= |a.steps|
    ensures PlanUpTo(a, m) <= PlanUpTo(a, n)
    decreases n - m
  {
    if m < n {
      PlanGrows(a, m, n - 1);
    }
  }

  lemma PlanGrowsWithGrant(a: Activity, n: nat)
    requires n < |a.steps|
    ensures PlanUpTo(a, n) <= FullPlan(a)
    ensures PlanUpTo(a, n) + GrantEntries(a, n) <= FullPlan(a)
    ensures PlanUpTo(a, n + 1) <= FullPlan(a)
    ensures [] <= FullPlan(a)
  {
    PlanGrows(a, n, |a.steps|);
    PlanGrows(a, n + 1, |a.steps|);
    assert PlanUpTo(a, n + 1) == PlanUpTo(a, n) + GrantEntries(a, n) + [HandEntry(a, n)];
  }

  lemma {:induction false} DangerousBelowExact(a: Activity, n: nat)
    requires n <= |a.steps|
    ensures forall k :: k in DangerousBelow(a, n) <==> 0 <= k < n && a.steps[k].Dangerous()
    ensures forall k, l :: 0 <= k < l < |DangerousBelow(a, n)| ==> DangerousBelow(a, n)[k] < DangerousBelow(a, n)[l]
  {
    if n > 0 {
      DangerousBelowExact(a, n - 1);
      var before := DangerousBelow(a, n - 1);
      var after := DangerousBelow(a, n);
      assert forall k :: 0 <= k < |before| ==> before[k] in before && after[k] == before[k];
      forall k | k in after ensures 0 <= k < n && a.steps[k].Dangerous() {
        assert k in before || k == n - 1;
      }
      forall k | 0 <= k < n && a.steps[k].Dangerous() ensures k in after {
        if k < n - 1 { assert k in before; } else { assert after[|after| - 1] == k; }
      }
    }
  }
}
