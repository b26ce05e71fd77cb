/**
 * Lanes and ledger rows over whole runs, for all enabled events: the cap is never exceeded, a run that
 * has left queue and lanes never comes back, and a run that waits has a row exactly since the first
 * write after its admission.
 */
module SchedulerCapacity {
  import opened Wrappers
  import opened SchedulerState
  import opened SchedulerSteps
  import opened SchedulerEffects
  import opened SchedulerVerdicts
  import opened SchedulerMoves

  /** Every event of the run is enabled when it happens; stale screenshots are allowed. */
  ghost predicate AllEnabled(s: State, es: seq<Event>)
    decreases |es|
  {
    es == [] || (Enabled(s, es[0]) && AllEnabled(Next(s, es[0]), es[1..]))
  }

  lemma {:induction false} CleanIsEnabled(s: State, es: seq<Event>)
    requires Clean(s, es)
    ensures AllEnabled(s, es)
    decreases |es|
  {
    if es != [] { CleanIsEnabled(Next(s, es[0]), es[1..]); }
  }

  /** What waits now waited before, and the file is as it was; or everything that waits has a row. */
  ghost predicate Rows(s: State, s': State) {
    && s.writes <= s'.writes
    && (if s'.writes > s.writes then AllRecorded(s')
        else s'.disk == s.disk && forall r: RunId :: r in s'.queue || r in s'.starting ==> Waits(s, r) || r >= s.nextRun)
  }

  ghost predicate NoneBack(s: State, s': State) {
    s.nextRun <= s'.nextRun && forall r: RunId :: r < s.nextRun && InLanes(s', r) ==> InLanes(s, r)
  }

  /** Writes work, and whatever was accepted has a row, except a start that was never queued. */
  ghost predicate RowsKept(s: State) {
    && !s.diskBroken
    && (forall r: RunId :: FromQueue(s, r) ==> OnDisk(s.disk, r))
    && (forall r: RunId :: r in s.live || r in s.finished || r in s.orphans ==> OnDisk(s.disk, r))
  }

  lemma AdmissionStep(s: State, t: TaskId)
    requires LaneInv(s) && t in s.tasks && s.tasks[t].Admitting?
    ensures var s' := Next(s, Fire(t, Validated(true))); LaneInv(s') && NoneBack(s, s') && Rows(s, s')
    ensures RowsKept(s) && s.recovered ==> RowsKept(Next(s, Fire(t, Validated(true))))
  {
    hide Admit, OnDisk;
    var s0 := s.Drop(Some(t));
    DropCalm(s, Some(t));
    CalmMoves(s, s0);
    if s0.Busy() >= s0.cap || s0.queue != [] {
      QueuedAdmission(s0);
      QueuedFromQueue(Next(s, Fire(t, Validated(true))));
    } else {
      ImmediateAdmission(s0);
    }
  }

  /** Whatever came from the queue waits. */
  lemma QueuedFromQueue(s: State)
    requires LaneInv(s)
    ensures forall r: RunId :: FromQueue(s, r) ==> Waits(s, r)
  {
  }

  /** Lanes stay sound in every enabled step, and no earlier run comes back into queue or lanes. */
  lemma LaneStep(s: State, e: Event)
    requires LaneInv(s) && Enabled(s, e)
    ensures LaneInv(Next(s, e)) && NoneBack(s, Next(s, e)) && Rows(s, Next(s, e))
  {
    if Admits(s, e) { AdmissionStep(s, e.task); }
    else if e.Crash? { CrashMoves(s); }
    else if e.DiskFault? { assert LaneInv(s.(diskBroken := e.broken)); }
    else { StepMoves(s, e); }
  }

  lemma InitLanes(cap: nat)
    requires cap >= 1
    ensures LaneInv(Init(cap))
  {
  }

  lemma {:induction false} RunLanes(s: State, es: seq<Event>)
    requires LaneInv(s) && AllEnabled(s, es)
    ensures LaneInv(Execute(s, es)) && NoneBack(s, Execute(s, es))
    decreases |es|
  {
    if es != [] {
      LaneStep(s, es[0]);
      RunLanes(Next(s, es[0]), es[1..]);
    }
  }

  /**
   * In every reachable state, through any crashes and stale screenshots: queue, starting and live hold
   * each run at most once and share none, and live plus starting is within the cap.
   */
  lemma LanesAlways(cap: nat, es: seq<Event>)
    requires cap >= 1 && AllEnabled(Init(cap), es)
    ensures var s := Execute(Init(cap), es);
            && Distinct(s.queue) && Distinct(s.starting) && Distinct(s.live)
            && (forall r: RunId :: r in s.queue ==> r !in s.starting && r !in s.live)
            && (forall r: RunId :: r in s.starting ==> r !in s.live)
            && |s.live| + |s.starting| <= s.cap
  {
    InitLanes(cap);
    RunLanes(Init(cap), es);
  }

  /** A run that has left queue and lanes is never queued, started or live again. */
  lemma NeverBack(s: State, es: seq<Event>, r: RunId)
    requires LaneInv(s) && AllEnabled(s, es) && r < s.nextRun && !InLanes(s, r)
    ensures !InLanes(Execute(s, es), r)
  {
    RunLanes(s, es);
  }

  // ------------------------------------------------------------------ rows

  /** From `s` on, a run of `s` that still waits has a row since the first write. */
  lemma {:induction false} RowsSince(s: State, es: seq<Event>)
    requires LaneInv(s) && AllEnabled(s, es)
    ensures var s' := Execute(s, es);
            && s.writes <= s'.writes && s.nextRun <= s'.nextRun
            && (s'.writes == s.writes ==> s'.disk == s.disk && forall r: RunId :: r < s.nextRun && Waits(s', r) ==> Waits(s, r))
            && (s'.writes > s.writes ==> forall r: RunId :: r < s.nextRun && Waits(s', r) ==> OnDisk(s'.disk, r))
    decreases |es|
  {
    if es != [] {
      var s1 := Next(s, es[0]);
      LaneStep(s, es[0]);
      RowsSince(s1, es[1..]);
      var s' := Execute(s1, es[1..]);
      if s'.writes == s1.writes > s.writes {
        forall r: RunId | r < s.nextRun && Waits(s', r) ensures OnDisk(s'.disk, r) { assert Waits(s1, r); }
      }
      if s'.writes == s.writes {
        forall r: RunId | r < s.nextRun && Waits(s', r) ensures Waits(s, r) { assert Waits(s1, r); }
      }
    }
  }

  /** A waiting run without a row gets one with the first write that works, and not before. */
  lemma RowIffWritten(s: State, es: seq<Event>, r: RunId)
    requires LaneInv(s) && AllEnabled(s, es) && r < s.nextRun && !OnDisk(s.disk, r)
    requires Waits(Execute(s, es), r)
    ensures OnDisk(Execute(s, es).disk, r) <==> Execute(s, es).writes > s.writes
  {
    RowsSince(s, es);
  }

  /** A waiting run with a row keeps it for as long as it waits. */
  lemma RowStays(s: State, es: seq<Event>, r: RunId)
    requires LaneInv(s) && AllEnabled(s, es) && r < s.nextRun && OnDisk(s.disk, r)
    requires Waits(Execute(s, es), r)
    ensures OnDisk(Execute(s, es).disk, r)
  {
    RowsSince(s, es);
  }

  lemma RowsKeptStep(s: State, e: Event)
    requires LaneInv(s) && Enabled(s, e) && RowsKept(s) && !e.DiskFault?
    ensures RowsKept(Next(s, e))
  {
    hide Next, OnDisk;
    LaneStep(s, e);
    if Admits(s, e) {
      AdmissionStep(s, e.task);
    } else if e.Crash? {
      CrashKept(s);
    } else {
      StepMoves(s, e);
      QueuedFromQueue(Next(s, e));
      StaysUp(s, e);
    }
  }

  lemma CrashKept(s: State)
    requires RowsKept(s)
    ensures RowsKept(Next(s, Crash))
  {
    hide OnDisk;
    CrashMoves(s);
  }

  /** Only a crash leaves a daemon that has not recovered. */
  lemma StaysUp(s: State, e: Event)
    requires LaneInv(s) && Enabled(s, e) && !Admits(s, e) && !e.DiskFault? && !e.Crash?
    ensures Next(s, e).recovered
  {
    StepMoves(s, e);
    if e.CallRecover? { RecoverIsUp(s); }
  }

  lemma RecoverIsUp(s: State)
    ensures Recover(s).recovered
  {
    var s1 := Persist(Adopt(s.(orphans := []), s.orphans).(recovered := true));
    PersistRecords(Adopt(s.(orphans := []), s.orphans).(recovered := true));
    RecoverNextMoves(s1, s1.finished);
  }

  /**
   * While ledger writes work: in every reachable state, stale screenshots included, each queued, live
   * and finished run, each start taken from the queue and each orphan has a row.
   */
  lemma {:induction false} RowsAlways(s: State, es: seq<Event>)
    requires LaneInv(s) && AllEnabled(s, es) && RowsKept(s) && forall i :: 0 <= i < |es| ==> !es[i].DiskFault?
    ensures RowsKept(Execute(s, es))
    decreases |es|
  {
    if es != [] {
      LaneStep(s, es[0]);
      RowsKeptStep(s, es[0]);
      RowsAlways(Next(s, es[0]), es[1..]);
    }
  }
}
