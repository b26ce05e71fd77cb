/** While ledger writes work, the file mirrors the daemon: who is queued, live or finished, and each finished record. */
module SchedulerSync {
  import opened Wrappers
  import opened SchedulerState
  import opened SchedulerSteps
  import opened SchedulerSafety
  import opened SchedulerEffects
  import opened SchedulerVerdicts

  // ----------------------------------------------- the file mirrors the daemon

  /** Nothing appears in a place that needs a row, and no finished record changes. */
  lemma SameRows(s: State, s': State)
    requires Synced(s) && s'.disk == s.disk && !s'.diskBroken
    requires forall r :: r in s'.queue || r in s'.live || r in s'.orphans ==> r in s.queue || r in s.live || r in s.orphans
    requires forall r :: r in s'.finished ==> r in s.finished && Durable(s'.Get(r)) == Durable(s.Get(r))
    ensures Synced(s')
  {
  }

  lemma RefillSynced(n: State)
    requires Synced(n)
    ensures Synced(MaybeStartNext(n))
  {
    if !n.stopping {
      FillLanesKeeps(n);
      FillLanesMoves(n);
      SameRows(n, FillLanes(n));
    }
  }

  lemma LocalSynced(s: State, n: State, s': State, r: RunId)
    requires OnlyRun(s, n, r) && Reached(s, n, s') && s.orphans == [] && Synced(s)
    ensures Synced(s')
  {
    RefillSynced(n);
  }

  lemma SettledSynced(s: State, r: RunId)
    requires !s.diskBroken && s.orphans == []
    ensures Synced(Settle(s, r)) && !Settle(s, r).diskBroken && Settle(s, r).orphans == []
  {
    PersistSyncs(s.(finished := s.finished + [r]));
    PersistKeeps(s.(finished := s.finished + [r]));
    SameRows(Persist(s.(finished := s.finished + [r])), Settle(s, r));
  }

  lemma StartFailedSynced(s: State, r: RunId, immediate: bool, race: bool)
    requires !s.diskBroken && s.orphans == []
    ensures Synced(StartFailed(s, r, immediate, race))
  {
    var s1 := s.(starting := Without(s.starting, r));
    if race {
      var s2 := s1.(queue := if immediate then s1.queue + [r] else [r] + s1.queue);
      PersistSyncs(s2);
      SameRows(Persist(s2), ScheduleQueueRetry(Persist(s2)));
    } else {
      var s2 := s1.Put(r, s1.Get(r).(phase := Error, result := Some(START_TEXT)));
      SettledSynced(s2, r);
      RefillSynced(Settle(s2, r));
    }
  }

  /** The run goes live and its first leg writes the ledger. */
  lemma GrantedSynced(s: State, r: RunId, spawned: bool)
    requires Inv(s) && s.recovered && r in s.starting && NoStart(s, r) && !s.diskBroken && s.orphans == []
    ensures Synced(StartSucceeded(s, r, spawned))
  {
    assert RunOk(s, r);
    GoLiveInv(s, r);
    var m := Relaunch(GoLive(s, r), r);
    RelaunchInv(GoLive(s, r), r);
    var s1 := GoLive(s, r).Put(r, GoLive(s, r).Get(r).(phase := Running, question := None, anchor := None));
    PersistSyncs(s1);
    PersistKeeps(s1);
    var n := ExecuteLegEffect(m, r, 1, false, spawned);
    LocalSynced(m, n, StartSucceeded(s, r, spawned), r);
  }

  lemma StartTaskSynced(s: State, t: TaskId, task: Task, o: Outcome)
    requires Inv(s) && s.recovered && Fits(task, o) && (task.Acquiring? || task.Unwinding?)
    requires task.run in s.starting && NoStart(s, task.run) && s.orphans == [] && Synced(s)
    ensures Synced(Continue(s, t, task, o))
  {
    hide StartSucceeded, StartFailed;
    var r := task.run;
    if o.Granted? { GrantedSynced(s, r, o.spawned); }
    else if o.Refused? { StartFailedSynced(s, r, task.immediate, o.race); }
    else if o.Unwound? { StartFailedSynced(Free(s, r, o.freed), r, task.immediate, task.race); }
  }

  lemma AdmitSynced(s: State)
    requires Inv(s) && s.recovered && s.orphans == [] && Synced(s)
    ensures Synced(Admit(s))
  {
    assert RunOk(s, s.nextRun);
    var s1 := s.Put(s.nextRun, FRESH_RUN).(nextRun := s.nextRun + 1);
    if s1.Busy() >= s1.cap || s1.queue != [] { PersistSyncs(s1.(queue := s1.queue + [s.nextRun])); }
    else { SameRows(s, Admit(s)); }
  }

  lemma {:induction false} RecoverNextSynced(s: State, rest: seq<RunId>)
    requires Synced(s)
    ensures Synced(RecoverNext(s, rest))
    decreases |rest|
  {
    if rest == [] { RefillSynced(s); }
    else if s.Get(rest[0]).delivered { RecoverNextSynced(s, rest[1..]); }
    else { SameRows(s, RecoverNext(s, rest)); }
  }

  lemma DeliveredSynced(s: State, r: RunId)
    requires !s.diskBroken && s.orphans == []
    ensures Synced(Delivered(s, r))
  {
    PersistSyncs(s.Put(r, s.Get(r).(delivered := true)));
  }

  lemma SweepSynced(s: State)
    requires Synced(s)
    ensures Synced(DeliverAll(s.(outcomeTimer := None), s.finished))
  {
    DeliverAllKeeps(s.(outcomeTimer := None), s.finished);
    SameRows(s, DeliverAll(s.(outcomeTimer := None), s.finished));
  }

  lemma DaemonTaskSynced(s: State, t: TaskId, task: Task, o: Outcome)
    requires Inv(s) && s.recovered && Fits(task, o) && s.orphans == [] && Synced(s)
    requires task.Admitting? || task.Delivering? || task.Recovering? || task.OutcomeRetry? || task.QueueRetry?
    ensures Synced(Continue(s, t, task, o))
  {
    hide Inv;
    SameRows(s, ScheduleOutcomeRetry(s));
    match task
    case Admitting => AdmitSynced(s);
    case Delivering(r) => DeliveredSynced(s, r);
    case Recovering(r, rest) =>
      DeliveredSynced(s, r);
      RecoverNextSynced(if o.Accepted? then Delivered(s, r) else ScheduleOutcomeRetry(s), rest);
    case OutcomeRetry => SweepSynced(s);
    case QueueRetry => RefillSynced(s.(queueTimer := None));
  }

  lemma FinalTaskSynced(s: State, t: TaskId, task: Task, o: Outcome)
    requires Inv(s) && s.recovered && Fits(task, o) && s.orphans == [] && Synced(s)
    requires task.LegWait? || task.Capturing? || task.Asking? || task.HardTimer? || task.QuestionTimer? || task.Releasing?
    requires task.run in s.runs
    ensures Synced(Continue(s, t, task, o))
  {
    if task.Capturing? && o.Captured? {
      ParkSynced(s, task.run, task.text);
    } else if task.Releasing? {
      TaskIds(s);
      var n := FinalizeEndEffect(Free(s, task.run, o.freed), task.run, task.final, task.captureProof, o.proofs);
      RefillSynced(n);
    } else {
      var n := RunTaskEffect(s, t, task, o);
      LocalSynced(s, n, Continue(s, t, task, o), task.run);
    }
  }

  lemma FireSynced(s: State, t: TaskId, o: Outcome)
    requires Inv(s) && s.recovered && t in s.tasks && Fits(s.tasks[t], o) && Synced(s)
    ensures Synced(Next(s, Fire(t, o)))
  {
    hide Inv, Continue;
    var s1 := s.Drop(Some(t));
    var task := s.tasks[t];
    FireReady(s, t);
    SameRows(s, s1);
    hide Synced;
    if task.Acquiring? || task.Unwinding? { StartTaskSynced(s1, t, task, o); }
    else if task.Admitting? || task.Delivering? || task.Recovering? || task.OutcomeRetry? || task.QueueRetry? {
      DaemonTaskSynced(s1, t, task, o);
    } else { FinalTaskSynced(s1, t, task, o); }
  }

  /** What the invariant says of a task about to fire. */
  lemma FireReady(s: State, t: TaskId)
    requires Inv(s) && s.recovered && t in s.tasks
    ensures var s1, task := s.Drop(Some(t)), s.tasks[t];
            && Inv(s1) && s1.orphans == []
            && (task.Acquiring? || task.Unwinding? ==> task.run in s.starting && NoStart(s1, task.run))
            && (task.LegWait? || task.Capturing? || task.Asking? || task.Releasing? || task.RunTimer() ==> task.run in s.runs)
  {
    var task := s.tasks[t];
    DropInv(s, Some(t));
    assert TaskOk(s, t, task);
    if task.Acquiring? || task.Unwinding? { assert IsStart(task, task.run); }
    if task.Releasing? { assert RunOk(s, task.run); }
  }

  lemma StopSynced(s: State, r: RunId, text: string)
    requires Inv(s) && s.recovered && Synced(s)
    ensures Synced(Stop(s, r, text))
  {
    assert RunOk(s, r);
    if r in s.queue {
      SettledSynced(s.(queue := Without(s.queue, r)).Put(r, s.Get(r).(phase := Cancelled, result := Some(text))), r);
    } else if r in s.live {
      var n := StopLiveEffect(s, r, text);
      LocalSynced(s, n, Stop(s, r, text), r);
    }
  }

  lemma ResumedSynced(s: State, r: RunId, spawned: bool)
    requires Inv(s) && s.recovered && Synced(s) && r in s.live && s.Get(r).phase.Waiting?
    ensures Synced(ResumeParked(s, r, spawned))
  {
    var n := ResumeParkedEffect(s, r, spawned);
    LocalSynced(s, n, ResumeParked(s, r, spawned), r);
  }

  lemma {:induction false} SettleAllSynced(s: State, rs: seq<RunId>)
    requires Synced(s) && s.orphans == []
    ensures Synced(SettleAll(s, rs))
    decreases |rs|
  {
    if rs != [] {
      var r := rs[0];
      var s1 := MarkRestart(s, r).Put(r, MarkRestart(s, r).Get(r).(phase := Cancelled, result := Some(RESTART_TEXT)));
      SettledSynced(s1, r);
      SettleAllSynced(Settle(s1, r), rs[1..]);
    }
  }

  /** Runs that are not finished, to be finalized one after the other. */
  lemma {:induction false} FinalizeAllSynced(s: State, rs: seq<RunId>)
    requires Inv(s) && s.recovered && Synced(s) && Distinct(rs)
    requires forall r :: r in rs ==> r in s.runs && r !in s.finished
    ensures Synced(FinalizeAll(s, rs))
    decreases |rs|
  {
    if rs != [] {
      var r := rs[0];
      var s1 := MarkRestart(s, r);
      MarkRestartInv(s, r);
      SameRows(s, s1);
      FinalizeInv(s1, r, Cancelled, RESTART_TEXT, false);
      FinalizeKeeps(s1, r, Cancelled, RESTART_TEXT, false);
      var n := FinalizeEffect(s1, r, Cancelled, RESTART_TEXT, false);
      FillLanesKeeps(n);
      var s2 := Finalize(s1, r, Cancelled, RESTART_TEXT, false);
      LocalSynced(s1, n, s2, r);
      assert forall x :: x in rs[1..] ==> x in rs && x != r;
      FinalizeAllSynced(s2, rs[1..]);
    }
  }

  lemma StopAllSynced(s: State)
    requires Inv(s) && s.recovered && Synced(s)
    ensures Synced(StopAll(s))
  {
    var s2, s3 := StopAllStages(s);
    SettledStage(s, s2);
    SettleAllSynced(s2, s.queue);
    LiveNotFinished(s3);
    FinalizeAllSynced(s3, s3.live);
  }

  lemma SettledStage(s: State, s2: State)
    requires Synced(s) && s2 == Quiet(s).(queue := [])
    ensures Synced(s2) && s2.orphans == s.orphans
  {
    SameRows(s, s2);
  }

  lemma LiveNotFinished(s: State)
    requires Inv(s)
    ensures Distinct(s.live) && forall r :: r in s.live ==> r !in s.finished
  {
    forall r | r in s.live ensures r !in s.finished { assert RunOk(s, r); }
  }

  lemma CrashSynced(s: State)
    requires Inv(s) && Synced(s)
    ensures Synced(Restart(s))
  {
    var s' := Restart(s);
    IdsOf(s.disk, true);
    IdsOf(s.disk, false);
    LoadedRow(s.disk);
    forall r | r in s'.finished ensures Row(r, Durable(s'.Get(r))) in s'.disk {
      var i :| 0 <= i < |s.disk| && s.disk[i].id == r && s.disk[i].run.phase.Terminal();
      assert s'.Get(r) == s.disk[i].run && s.disk[i] == Row(r, Durable(s'.Get(r)));
    }
  }

  lemma {:induction false} AdoptKeeps(s: State, rs: seq<RunId>)
    ensures var s' := Adopt(s, rs);
      s' == s.(runs := s'.runs, finished := s.finished + rs)
    decreases |rs|
  {
    if rs == [] {
      assert s.finished + rs == s.finished;
    } else {
      var s1 := s.Put(rs[0], Orphaned(s.Get(rs[0])));
      var s2 := s1.(finished := s1.finished + [rs[0]]);
      AdoptKeeps(s2, rs[1..]);
      assert s.finished + [rs[0]] + rs[1..] == s.finished + rs;
    }
  }

  lemma RecoverSynced(s: State)
    requires Synced(s)
    ensures Synced(Recover(s))
  {
    AdoptKeeps(s.(orphans := []), s.orphans);
    var s1 := Adopt(s.(orphans := []), s.orphans).(recovered := true);
    PersistSyncs(s1);
    PersistKeeps(s1);
    RecoverNextSynced(Persist(s1), Persist(s1).finished);
  }

  /** Every enabled step leaves the file up to date, the stale screenshot too: parking writes it. */
  lemma SyncedStep(s: State, e: Event)
    requires Inv(s) && Enabled(s, e) && Synced(s) && !e.DiskFault?
    ensures Synced(Next(s, e))
  {
    match e
    case Fire(t, o) => FireSynced(s, t, o);
    case StopRun(r, text) => StopSynced(s, r, text);
    case StopEverything => StopAllSynced(s);
    case CallRecover => RecoverSynced(s);
    case Crash => CrashSynced(s);
    case Answer(r, spawned) => if r in s.live && s.Get(r).phase.Waiting? { ResumedSynced(s, r, spawned); }
    case Steer(r, spawned) => if r in s.live && s.Get(r).phase.Waiting? { ResumedSynced(s, r, spawned); }
    case Dispatch => SameRows(s, Next(s, e));
    case LeaseLost(r) => SameRows(s, Next(s, e));
  }

  lemma {:induction false} SyncedAlways(s: State, es: seq<Event>)
    requires Inv(s) && Synced(s) && Clean(s, es) && forall i :: 0 <= i < |es| ==> !es[i].DiskFault?
    ensures Synced(Execute(s, es))
    decreases |es|
  {
    if es != [] {
      NextInv(s, es[0]);
      SyncedStep(s, es[0]);
      SyncedAlways(Next(s, es[0]), es[1..]);
    }
  }
}
