/** What trimming the history of the durable ledger drops, in closed form. */
module SchedulerLedger {
  import opened SchedulerState
  import opened SchedulerSteps

  // ------------------------------------------------------------- trimming

  function Undelivered(f: seq<RunId>, runs: map<RunId, Run>): (u: seq<RunId>)
    ensures |u| <= |f|
  {
    if f == [] then []
    else if IsDelivered(f[0], runs) then Undelivered(f[1..], runs)
    else [f[0]] + Undelivered(f[1..], runs)
  }

  lemma {:induction false} UndeliveredMembers(f: seq<RunId>, runs: map<RunId, Run>)
    ensures forall r :: r in Undelivered(f, runs) <==> r in f && !IsDelivered(r, runs)
  {
    if f != [] {
      assert f == [f[0]] + f[1..];
      UndeliveredMembers(f[1..], runs);
    }
  }

  /** Without its `k` oldest delivered runs. */
  function DropDelivered(f: seq<RunId>, runs: map<RunId, Run>, k: nat): seq<RunId> {
    if k == 0 || f == [] then f
    else if IsDelivered(f[0], runs) then DropDelivered(f[1..], runs, k - 1)
    else [f[0]] + DropDelivered(f[1..], runs, k)
  }

  /**
   * What the eviction loop should leave: the oldest delivered runs go first; only when none is left
   * do the oldest undelivered ones go.
   */
  function Retained(f: seq<RunId>, runs: map<RunId, Run>): seq<RunId> {
    if |f| <= LEDGER_FINISHED_CAP then f
    else
      var u := Undelivered(f, runs);
      if |u| <= LEDGER_FINISHED_CAP then DropDelivered(f, runs, |f| - LEDGER_FINISHED_CAP)
      else u[|u| - LEDGER_FINISHED_CAP..]
  }

  lemma {:induction false} DropOne(f: seq<RunId>, runs: map<RunId, Run>, k: nat)
    requires FirstDelivered(f, runs) < |f|
    ensures var i := FirstDelivered(f, runs);
      && Undelivered(f[..i] + f[i + 1..], runs) == Undelivered(f, runs)
      && DropDelivered(f[..i] + f[i + 1..], runs, k) == DropDelivered(f, runs, k + 1)
  {
    var i := FirstDelivered(f, runs);
    if i == 0 {
      assert f[..0] + f[1..] == f[1..];
    } else {
      DropOne(f[1..], runs, k);
      var g := f[1..][..i - 1] + f[1..][i..];
      assert f[..i] + f[i + 1..] == [f[0]] + g;
      assert ([f[0]] + g)[1..] == g;
    }
  }

  lemma {:induction false} NoneDelivered(f: seq<RunId>, runs: map<RunId, Run>)
    ensures FirstDelivered(f, runs) == |f| ==> Undelivered(f, runs) == f
    ensures FirstDelivered(f, runs) < |f| ==> |Undelivered(f, runs)| < |f|
  {
    if f != [] { NoneDelivered(f[1..], runs); }
  }

  /** Evicting a delivered run leads from `f` to `g`. */
  lemma RetainedDelivered(f: seq<RunId>, g: seq<RunId>, runs: map<RunId, Run>)
    requires |f| > LEDGER_FINISHED_CAP && |g| == |f| - 1
    requires Undelivered(g, runs) == Undelivered(f, runs)
    requires DropDelivered(g, runs, |f| - LEDGER_FINISHED_CAP - 1) == DropDelivered(f, runs, |f| - LEDGER_FINISHED_CAP)
    ensures Retained(g, runs) == Retained(f, runs)
  {
  }

  lemma RetainedLast(f: seq<RunId>, runs: map<RunId, Run>)
    requires |f| >= LEDGER_FINISHED_CAP && Undelivered(f, runs) == f
    ensures Retained(f, runs) == f[|f| - LEDGER_FINISHED_CAP..]
  {
    hide DropDelivered, Undelivered;
  }

  /** With no delivered run left, the oldest one goes. */
  lemma RetainedOldest(f: seq<RunId>, g: seq<RunId>, runs: map<RunId, Run>)
    requires |f| > LEDGER_FINISHED_CAP && g == f[1..]
    requires Undelivered(f, runs) == f && Undelivered(g, runs) == g
    ensures Retained(g, runs) == Retained(f, runs)
  {
    RetainedLast(f, runs);
    RetainedLast(g, runs);
  }

  lemma RetainedStep(f: seq<RunId>, runs: map<RunId, Run>)
    requires |f| > LEDGER_FINISHED_CAP
    ensures var i := Evictable(f, runs); Retained(f[..i] + f[i + 1..], runs) == Retained(f, runs)
  {
    var i := Evictable(f, runs);
    var g := f[..i] + f[i + 1..];
    NoneDelivered(f, runs);
    if FirstDelivered(f, runs) < |f| {
      DropOne(f, runs, |f| - LEDGER_FINISHED_CAP - 1);
      RetainedDelivered(f, g, runs);
    } else {
      assert g == f[1..];
      assert Undelivered(f[1..], runs) == f[1..];
      RetainedOldest(f, g, runs);
    }
  }

  /** The eviction loop keeps exactly `Retained`. */
  lemma {:induction false} TrimRetains(f: seq<RunId>, runs: map<RunId, Run>)
    ensures Trim(f, runs) == Retained(f, runs)
    decreases |f|
  {
    if |f| > LEDGER_FINISHED_CAP {
      var i := Evictable(f, runs);
      RetainedStep(f, runs);
      TrimRetains(f[..i] + f[i + 1..], runs);
    }
  }

  lemma {:induction false} DropKeepsUndelivered(f: seq<RunId>, runs: map<RunId, Run>, k: nat)
    ensures Undelivered(DropDelivered(f, runs, k), runs) == Undelivered(f, runs)
    ensures |DropDelivered(f, runs, k)| == |f| - if k <= |f| - |Undelivered(f, runs)| then k else |f| - |Undelivered(f, runs)|
  {
    if k != 0 && f != [] {
      if IsDelivered(f[0], runs) { DropKeepsUndelivered(f[1..], runs, k - 1); }
      else {
        DropKeepsUndelivered(f[1..], runs, k);
        var d := DropDelivered(f[1..], runs, k);
        assert ([f[0]] + d)[1..] == d;
      }
    }
  }

  /**
   * At most fifty runs are kept, exactly fifty when there were more; an undelivered run is dropped
   * only when more than fifty are undelivered.
   */
  lemma TrimLosesNothingOwed(f: seq<RunId>, runs: map<RunId, Run>)
    ensures |Trim(f, runs)| == if |f| <= 50 then |f| else 50
    ensures |Undelivered(f, runs)| <= 50 ==>
              Undelivered(Trim(f, runs), runs) == Undelivered(f, runs)
    ensures |Undelivered(f, runs)| > 50 ==>
              Trim(f, runs) == Undelivered(f, runs)[|Undelivered(f, runs)| - 50..]
  {
    TrimRetains(f, runs);
    if |f| > LEDGER_FINISHED_CAP {
      DropKeepsUndelivered(f, runs, |f| - LEDGER_FINISHED_CAP);
    }
  }
}
