/**
 * What every step of the scheduler keeps: each run is in one place, lanes are bounded, and the
 * suspended computations agree with the phases of the runs they belong to.
 */
module SchedulerSafety {
  import opened Wrappers
  import opened SchedulerState
  import opened SchedulerSteps

  // ------------------------------------------------------------- invariant

  ghost predicate Nowhere(s: State, r: RunId) {
    r !in s.queue && r !in s.starting && r !in s.live && r !in s.finished && r !in s.orphans
  }

  /** Run `r` is in at most one of queue, starting, live, finished and orphans. */
  ghost predicate OnePlace(s: State, r: RunId) {
    && (r in s.queue ==> r !in s.starting && r !in s.live && r !in s.finished && r !in s.orphans)
    && (r in s.starting ==> r !in s.live && r !in s.finished && r !in s.orphans)
    && (r in s.live ==> r !in s.finished && r !in s.orphans)
    && (r in s.finished ==> r !in s.orphans)
  }

  /** Its phase is one that its place allows. */
  ghost predicate PhaseOk(s: State, r: RunId, phase: Phase) {
    && (r in s.queue || r in s.starting ==> phase.Queued?)
    && (r in s.live ==> !phase.Queued?)
    && (r in s.finished ==> phase.Terminal())
    && (r in s.orphans ==> !phase.Terminal())
    && (phase.Active() ==> r in s.live || r in s.orphans)
  }

  /** A stored handle, if still pending, denotes a task of its own kind and run. */
  ghost predicate HandlesOf(s: State, run: Run, r: RunId) {
    && (run.child.Some? ==> run.child.value < s.nextTask)
    && (run.child.Some? && run.child.value in s.tasks ==>
          s.tasks[run.child.value].LegWait? && s.tasks[run.child.value].run == r)
    && (run.hardTimer.Some? ==> run.hardTimer.value < s.nextTask)
    && (run.hardTimer.Some? && run.hardTimer.value in s.tasks ==>
          s.tasks[run.hardTimer.value].HardTimer? && s.tasks[run.hardTimer.value].run == r)
    && (run.questionTimer.Some? ==> run.questionTimer.value < s.nextTask)
    && (run.questionTimer.Some? && run.questionTimer.value in s.tasks ==>
          s.tasks[run.questionTimer.value] == QuestionTimer(r))
  }

  ghost predicate RunOk(s: State, r: RunId) {
    && OnePlace(s, r)
    && (!Nowhere(s, r) ==> r in s.runs)
    && (r in s.runs ==> r < s.nextRun && PhaseOk(s, r, s.runs[r].phase) && HandlesOf(s, s.runs[r], r))
  }

  ghost predicate Lists(s: State) {
    && Distinct(s.queue) && Distinct(s.starting) && Distinct(s.live) && Distinct(s.finished) && Distinct(s.orphans)
    && 1 <= s.cap && s.Busy() <= s.cap
  }

  ghost predicate Booted(s: State) {
    if s.recovered then s.orphans == [] else |s.queue| + |s.starting| + |s.live| == 0 && s.tasks == map[] && s.outcomeTimer.None? && s.queueTimer.None?
  }

  ghost predicate TaskOk(s: State, t: TaskId, task: Task) {
    && t < s.nextTask
    && match task
       case Acquiring(r, _) => r in s.starting
       case Unwinding(r, _, _) => r in s.starting
       case LegWait(r, attempt, _) => r in s.runs && !s.Get(r).phase.Queued? && 1 <= attempt <= LEG_MAX_ATTEMPTS
       case Capturing(r, _) => r in s.runs && !s.Get(r).phase.Queued?
       case Asking(r) => r in s.runs && !s.Get(r).phase.Queued?
       case Releasing(r, final, _) => r in s.live && s.Get(r).phase == final && final.Terminal()
       case Delivering(r) => r in s.runs && s.Get(r).phase.Terminal()
       case Recovering(r, rest) => forall x :: x in [r] + rest ==> x in s.runs && s.Get(x).phase.Terminal()
       case HardTimer(r, _) => r in s.runs && !s.Get(r).phase.Queued?
       case QuestionTimer(r) => r in s.runs && !s.Get(r).phase.Queued?
       case OutcomeRetry => s.outcomeTimer == Some(t)
       case QueueRetry => s.queueTimer == Some(t)
       case Admitting => true
  }

  ghost predicate Tasks(s: State) {
    forall t :: t in s.tasks ==> TaskOk(s, t, s.tasks[t])
  }

  ghost predicate IsStart(task: Task, r: RunId) {
    (task.Acquiring? || task.Unwinding?) && task.run == r
  }

  ghost predicate IsRelease(task: Task, r: RunId) {
    task.Releasing? && task.run == r
  }

  /** At most one start and at most one release is under way for a run. */
  ghost predicate Single(tasks: map<TaskId, Task>) {
    && (forall t, u, r :: t in tasks && u in tasks && IsStart(tasks[t], r) && IsStart(tasks[u], r) ==> t == u)
    && (forall t, u, r :: t in tasks && u in tasks && IsRelease(tasks[t], r) && IsRelease(tasks[u], r) ==> t == u)
  }

  ghost predicate TimersOk(s: State) {
    && (s.outcomeTimer.Some? ==> s.outcomeTimer.value < s.nextTask)
    && (s.outcomeTimer.Some? && s.outcomeTimer.value in s.tasks ==> s.tasks[s.outcomeTimer.value] == OutcomeRetry)
    && (s.queueTimer.Some? ==> s.queueTimer.value < s.nextTask)
    && (s.queueTimer.Some? && s.queueTimer.value in s.tasks ==> s.tasks[s.queueTimer.value] == QueueRetry)
  }

  /** The ledger file names each run once. */
  ghost predicate DiskOk(disk: seq<Row>, nextRun: RunId) {
    && (forall i, j :: 0 <= i < j < |disk| ==> disk[i].id != disk[j].id)
    && (forall i :: 0 <= i < |disk| ==> disk[i].id < nextRun && disk[i].run == Durable(disk[i].run))
  }

  /** The invariant of every reachable state. */
  ghost predicate Inv(s: State) {
    && Lists(s) && Booted(s) && TimersOk(s)
    && (forall r :: RunOk(s, r))
    && Tasks(s) && Single(s.tasks)
    && DiskOk(s.disk, s.nextRun)
  }

  ghost predicate NoStart(s: State, r: RunId) {
    forall t :: t in s.tasks ==> !IsStart(s.tasks[t], r)
  }

  ghost predicate NoRelease(s: State, r: RunId) {
    forall t :: t in s.tasks ==> !IsRelease(s.tasks[t], r)
  }

  // ----------------------------------------------------------- primitives

  /** Runs are as well placed as before if only tasks go, or come under new ids. */
  lemma RunsStay(s: State, s': State)
    requires forall r :: RunOk(s, r)
    requires s'.queue == s.queue && s'.starting == s.starting && s'.live == s.live && s'.finished == s.finished
    requires s'.orphans == s.orphans && s'.runs == s.runs && s'.nextRun == s.nextRun && s.nextTask <= s'.nextTask
    requires forall t :: t in s'.tasks && t < s.nextTask ==> t in s.tasks && s'.tasks[t] == s.tasks[t]
    ensures forall r :: RunOk(s', r)
  {
    forall r ensures RunOk(s', r) { assert RunOk(s, r); }
  }

  lemma DropInv(s: State, t: Option<TaskId>)
    requires Inv(s)
    ensures Inv(s.Drop(t))
  {
    RunsStay(s, s.Drop(t));
  }

  /** A retry task is the remembered one. */
  lemma RetryTimer(s: State, t: TaskId, task: Task)
    requires TaskOk(s, t, task)
    ensures t < s.nextTask
    ensures (task.OutcomeRetry? ==> s.outcomeTimer == Some(t)) && (task.QueueRetry? ==> s.queueTimer == Some(t))
  {
  }

  lemma TaskStays(s: State, s': State, t: TaskId, task: Task)
    requires TaskOk(s, t, task) && s'.runs == s.runs && s'.starting == s.starting && s'.live == s.live
    requires s.nextTask <= s'.nextTask
    requires task.OutcomeRetry? ==> s'.outcomeTimer == Some(t)
    requires task.QueueRetry? ==> s'.queueTimer == Some(t)
    ensures TaskOk(s', t, task)
  {
  }

  lemma AddTasks(s: State, task: Task)
    requires Tasks(s) && TaskOk(s.Add(task), s.nextTask, task)
    ensures s.nextTask !in s.tasks && Tasks(s.Add(task))
  {
    hide TaskOk;
    if s.nextTask in s.tasks { RetryTimer(s, s.nextTask, s.tasks[s.nextTask]); }
    forall t | t in s.tasks ensures TaskOk(s.Add(task), t, s.tasks[t]) {
      RetryTimer(s, t, s.tasks[t]);
      TaskStays(s, s.Add(task), t, s.tasks[t]);
    }
  }

  lemma AddInv(s: State, task: Task)
    requires Inv(s) && s.recovered
    requires !task.Acquiring? && !task.Unwinding? && !task.OutcomeRetry? && !task.QueueRetry?
    requires TaskOk(s.Add(task), s.nextTask, task)
    requires task.Releasing? ==> NoRelease(s, task.run)
    ensures Inv(s.Add(task))
  {
    hide RunOk, DiskOk, TaskOk;
    AddTasks(s, task);
    RunsStay(s, s.Add(task));
  }

  lemma CutSubset(f: seq<RunId>, i: nat)
    requires i < |f|
    ensures var g := f[..i] + f[i + 1..];
      (forall r :: r in g ==> r in f) && (Distinct(f) ==> Distinct(g))
  {
    var g := f[..i] + f[i + 1..];
    assert forall j :: 0 <= j < |g| ==> g[j] == f[if j < i then j else j + 1];
  }

  lemma {:induction false} TrimSubset(f: seq<RunId>, runs: map<RunId, Run>)
    ensures forall r :: r in Trim(f, runs) ==> r in f
    ensures Distinct(f) ==> Distinct(Trim(f, runs))
    ensures |Trim(f, runs)| <= LEDGER_FINISHED_CAP
    decreases |f|
  {
    hide Evictable, FirstDelivered;
    if |f| > LEDGER_FINISHED_CAP {
      var i := Evictable(f, runs);
      var g := f[..i] + f[i + 1..];
      CutSubset(f, i);
      TrimSubset(g, runs);
    }
  }

  lemma PersistInv(s: State)
    requires Inv(s)
    ensures Inv(Persist(s))
    ensures Persist(s) == s.(finished := Persist(s).finished, disk := Persist(s).disk, writes := Persist(s).writes)
    ensures forall r :: r in Persist(s).finished ==> r in s.finished
  {
    TrimSubset(s.finished, s.runs);
    var s1 := s.(finished := Trim(s.finished, s.runs));
    ForgetFinished(s, s1.finished);
    if !s.diskBroken {
      RecordedRows(s1, Persist(s).disk);
      DiskInv(s1, Persist(s).disk, Persist(s).writes);
    }
  }

  lemma ForgetFinished(s: State, f: seq<RunId>)
    requires Inv(s) && Distinct(f)
    requires forall r :: r in f ==> r in s.finished
    ensures Inv(s.(finished := f))
  {
    forall r ensures RunOk(s.(finished := f), r) { assert RunOk(s, r); }
  }

  lemma DiskInv(s: State, disk: seq<Row>, writes: nat)
    requires Inv(s) && DiskOk(disk, s.nextRun)
    ensures Inv(s.(disk := disk, writes := writes))
  {
    hide RunOk;
    RunsStay(s, s.(disk := disk, writes := writes));
  }

  /** Without duplicates among the runs, the written rows have no duplicates either. */
  lemma RecordedRows(s: State, disk: seq<Row>)
    requires Lists(s) && forall r :: RunOk(s, r)
    requires disk == Rows(Recorded(s), s.runs)
    ensures DiskOk(disk, s.nextRun)
  {
    var ids := Recorded(s);
    forall i | 0 <= i < |ids| ensures ids[i] in s.runs && ids[i] < s.nextRun {
      assert RunOk(s, ids[i]);
      assert ids[i] in s.live || ids[i] in s.starting || ids[i] in s.queue || ids[i] in s.finished;
    }
    forall i, j | 0 <= i < j < |ids| ensures ids[i] != ids[j] { assert RunOk(s, ids[i]); }
  }

  /** Which phases a run may be given where it is now. */
  ghost predicate MayBecome(s: State, r: RunId, phase: Phase) {
    && PhaseOk(s, r, phase)
    && (phase.Queued? ==> s.Get(r).phase.Queued?)
    && (s.Get(r).phase.Terminal() ==> phase.Terminal())
    && (phase == s.Get(r).phase || NoRelease(s, r))
  }

  lemma PutInv(s: State, r: RunId, run: Run)
    requires Inv(s) && r in s.runs && MayBecome(s, r, run.phase) && HandlesOf(s, run, r)
    ensures Inv(s.Put(r, run))
  {
    hide Single, DiskOk;
    forall x ensures RunOk(s.Put(r, run), x) { assert RunOk(s, x); }
  }

  /** Both retry timers are remembered, so arming one adds the only task of its kind. */
  lemma ArmedTasks(s: State)
    requires Tasks(s)
    ensures s.nextTask !in s.tasks
    ensures Tasks(ScheduleOutcomeRetry(s)) && Tasks(ScheduleQueueRetry(s))
  {
    var a, b := ScheduleOutcomeRetry(s), ScheduleQueueRetry(s);
    assert TaskOk(a, s.nextTask, OutcomeRetry) || a == s;
    assert TaskOk(b, s.nextTask, QueueRetry) || b == s;
    hide TaskOk;
    if s.nextTask in s.tasks { RetryTimer(s, s.nextTask, s.tasks[s.nextTask]); }
    forall t | t in s.tasks ensures TaskOk(a, t, s.tasks[t]) && TaskOk(b, t, s.tasks[t]) {
      RetryTimer(s, t, s.tasks[t]);
      TaskStays(s, a, t, s.tasks[t]);
      TaskStays(s, b, t, s.tasks[t]);
    }
  }

  lemma ScheduleOutcomeRetryInv(s: State)
    requires Inv(s) && s.recovered
    ensures Inv(ScheduleOutcomeRetry(s))
  {
    hide RunOk, DiskOk, TaskOk;
    ArmedTasks(s);
    RunsStay(s, ScheduleOutcomeRetry(s));
  }

  lemma ScheduleQueueRetryInv(s: State)
    requires Inv(s) && s.recovered
    ensures Inv(ScheduleQueueRetry(s))
  {
    hide RunOk, DiskOk, TaskOk;
    ArmedTasks(s);
    RunsStay(s, ScheduleQueueRetry(s));
  }

  lemma DeliveredInv(s: State, r: RunId)
    requires Inv(s) && r in s.runs
    ensures Inv(Delivered(s, r))
  {
    assert RunOk(s, r);
    PutInv(s, r, s.Get(r).(delivered := true));
    PersistInv(s.Put(r, s.Get(r).(delivered := true)));
  }

  lemma {:induction false} DeliverAllInv(s: State, rs: seq<RunId>)
    requires Inv(s) && s.recovered
    requires forall r :: r in rs ==> r in s.runs && s.Get(r).phase.Terminal()
    ensures Inv(DeliverAll(s, rs))
    decreases |rs|
  {
    if rs != [] {
      var s' := if s.Get(rs[0]).delivered then s else s.Add(Delivering(rs[0]));
      if !s.Get(rs[0]).delivered { AddInv(s, Delivering(rs[0])); }
      DeliverAllInv(s', rs[1..]);
    }
  }

  // ------------------------------------------------- admission and start

  lemma StartDispatchInv(s: State, r: RunId, immediate: bool)
    requires Inv(s) && s.recovered && Nowhere(s, r) && NoStart(s, r)
    requires r in s.runs && s.Get(r).phase.Queued? && s.Busy() < s.cap
    ensures Inv(StartDispatch(s, r, immediate))
  {
    hide RunOk, DiskOk;
    assert s.nextTask !in s.tasks;
    StartRuns(s, r, immediate);
  }

  lemma StartRuns(s: State, r: RunId, immediate: bool)
    requires (forall x :: RunOk(s, x)) && Nowhere(s, r) && r in s.runs && s.Get(r).phase.Queued?
    requires forall t :: t in s.tasks ==> t < s.nextTask
    ensures forall x :: RunOk(StartDispatch(s, r, immediate), x)
  {
    forall x ensures RunOk(StartDispatch(s, r, immediate), x) { assert RunOk(s, x); }
  }

  /** A run that is not starting has no start under way. */
  lemma NotStarting(s: State, r: RunId)
    requires Inv(s) && r !in s.starting
    ensures NoStart(s, r)
  {
    assert forall t :: t in s.tasks ==> TaskOk(s, t, s.tasks[t]);
  }

  /** A run that has not ended has no release under way. */
  lemma NotReleasing(s: State, r: RunId)
    requires Inv(s) && (!s.Get(r).phase.Terminal() || r !in s.live)
    ensures NoRelease(s, r)
  {
    assert forall t :: t in s.tasks ==> TaskOk(s, t, s.tasks[t]);
  }

  lemma LeaveQueueInv(s: State, queue: seq<RunId>)
    requires Inv(s) && s.recovered && Distinct(queue) && |queue| <= |s.queue| && forall r :: r in queue ==> r in s.queue
    ensures Inv(s.(queue := queue))
  {
    forall x ensures RunOk(s.(queue := queue), x) { assert RunOk(s, x); }
  }

  lemma {:induction false} FillLanesInv(s: State)
    requires Inv(s) && s.recovered
    ensures Inv(FillLanes(s))
    decreases |s.queue|
  {
    if s.queue != [] && s.Busy() < s.cap {
      var r := s.queue[0];
      var s1 := s.(queue := s.queue[1..]);
      LeaveQueueInv(s, s.queue[1..]);
      assert RunOk(s, r) && r in s.queue;
      NotStarting(s1, r);
      StartDispatchInv(s1, r, false);
      FillLanesInv(StartDispatch(s1, r, false));
    }
  }

  lemma MaybeStartNextInv(s: State)
    requires Inv(s) && s.recovered
    ensures Inv(MaybeStartNext(s))
  {
    if !s.stopping { FillLanesInv(s); }
  }

  lemma AppendFinishedInv(s: State, r: RunId)
    requires Inv(s) && Nowhere(s, r) && r in s.runs && s.Get(r).phase.Terminal()
    ensures Inv(s.(finished := s.finished + [r]))
  {
    forall x ensures RunOk(s.(finished := s.finished + [r]), x) { assert RunOk(s, x); }
  }

  lemma SettleInv(s: State, r: RunId)
    requires Inv(s) && s.recovered && Nowhere(s, r) && r in s.runs && s.Get(r).phase.Terminal()
    ensures Inv(Settle(s, r))
  {
    hide Persist;
    AppendFinishedInv(s, r);
    var s2 := s.(finished := s.finished + [r]);
    PersistInv(s2);
    AddInv(Persist(s2), Delivering(r));
  }

  lemma SettleQueuedInv(s: State, r: RunId, final: Phase, text: string)
    requires Inv(s) && s.recovered && Nowhere(s, r) && r in s.runs && final.Terminal()
    ensures Inv(SettleQueued(s, r, final, text))
  {
    var run := s.Get(r).(phase := final, result := Some(text));
    NotReleasing(s, r);
    assert RunOk(s, r);
    PutInv(s, r, run);
    SettleInv(s.Put(r, run), r);
  }

  lemma LeaveStartingInv(s: State, r: RunId)
    requires Inv(s) && NoStart(s, r)
    ensures Inv(s.(starting := Without(s.starting, r)))
  {
    WithoutDistinct(s.starting, r);
    forall x ensures RunOk(s.(starting := Without(s.starting, r)), x) { assert RunOk(s, x); }
  }

  lemma RequeueInv(s: State, r: RunId, immediate: bool)
    requires Inv(s) && s.recovered && Nowhere(s, r) && r in s.runs && s.Get(r).phase.Queued?
    ensures Inv(s.(queue := if immediate then s.queue + [r] else [r] + s.queue))
  {
    var s' := s.(queue := if immediate then s.queue + [r] else [r] + s.queue);
    forall x ensures RunOk(s', x) { assert RunOk(s, x); }
  }

  lemma StartFailedInv(s: State, r: RunId, immediate: bool, race: bool)
    requires Inv(s) && s.recovered && r in s.starting && NoStart(s, r)
    ensures Inv(StartFailed(s, r, immediate, race))
  {
    LeaveStartingInv(s, r);
    var s1 := s.(starting := Without(s.starting, r));
    assert RunOk(s, r);
    if race {
      RequeueInv(s1, r, immediate);
      var s2 := s1.(queue := if immediate then s1.queue + [r] else [r] + s1.queue);
      PersistInv(s2);
      ScheduleQueueRetryInv(Persist(s2));
    } else {
      SettleQueuedInv(s1, r, Error, START_TEXT);
      if !immediate { MaybeStartNextInv(SettleQueued(s1, r, Error, START_TEXT)); }
    }
  }

  lemma FreshRunInv(s: State)
    requires Inv(s)
    ensures Inv(s.Put(s.nextRun, FRESH_RUN).(nextRun := s.nextRun + 1))
    ensures Nowhere(s, s.nextRun)
  {
    var r := s.nextRun;
    assert RunOk(s, r);
    var s' := s.Put(r, FRESH_RUN).(nextRun := r + 1);
    forall x ensures RunOk(s', x) { assert RunOk(s, x); }
  }

  lemma AdmitInv(s: State)
    requires Inv(s) && s.recovered
    ensures Inv(Admit(s))
  {
    hide Persist, StartDispatch;
    var r := s.nextRun;
    var s1 := s.Put(r, FRESH_RUN).(nextRun := r + 1);
    FreshRunInv(s);
    if s1.Busy() >= s1.cap || s1.queue != [] {
      RequeueInv(s1, r, true);
      PersistInv(s1.(queue := s1.queue + [r]));
    } else {
      NotStarting(s1, r);
      StartDispatchInv(s1, r, true);
    }
  }

  // ------------------------------------------------------------- finalize

  lemma ClearTimersInv(s: State, r: RunId)
    requires Inv(s) && r in s.runs
    ensures Inv(ClearTimers(s, r))
    ensures forall t :: t in ClearTimers(s, r).tasks ==> t in s.tasks && ClearTimers(s, r).tasks[t] == s.tasks[t]
  {
    hide Inv;
    var run := s.Get(r);
    DropInv(s, run.hardTimer);
    DropInv(s.Drop(run.hardTimer), run.questionTimer);
    var s1 := s.Drop(run.hardTimer).Drop(run.questionTimer);
    assert RunOk(s1, r);
    PutInv(s1, r, run.(hardTimer := None, questionTimer := None));
  }

  lemma LeaveLiveInv(s: State, r: RunId)
    requires Inv(s) && s.Get(r).phase.Terminal() && NoRelease(s, r)
    ensures Inv(s.(live := Without(s.live, r)))
  {
    WithoutDistinct(s.live, r);
    forall x ensures RunOk(s.(live := Without(s.live, r)), x) { assert RunOk(s, x); }
  }

  lemma FinalizeEndInv(s: State, r: RunId, final: Phase, captureProof: bool, proofs: nat)
    requires Inv(s) && s.recovered && r in s.live && s.Get(r).phase.Terminal() && NoRelease(s, r)
    ensures Inv(FinalizeEnd(s, r, final, captureProof, proofs))
  {
    hide Inv, Settle, MaybeStartNext;
    LeaveInv(s, r, Verified(s.Get(r), final, captureProof, proofs));
    var s2 := s.Put(r, Verified(s.Get(r), final, captureProof, proofs)).(live := Without(s.live, r));
    SettleInv(s2, r);
    SettleKeeps(s2, r);
    MaybeStartNextInv(Settle(s2, r));
  }

  lemma LeaveInv(s: State, r: RunId, run: Run)
    requires Inv(s) && s.recovered && r in s.live && s.Get(r).phase.Terminal() && NoRelease(s, r)
    requires run.phase.Terminal()
    requires run.child == s.Get(r).child && run.hardTimer == s.Get(r).hardTimer && run.questionTimer == s.Get(r).questionTimer
    ensures Inv(s.Put(r, run).(live := Without(s.live, r)))
    ensures Nowhere(s.Put(r, run).(live := Without(s.live, r)), r)
  {
    assert RunOk(s, r);
    PutInv(s, r, run);
    LeaveLiveInv(s.Put(r, run), r);
  }

  lemma ConcludeInv(s: State, r: RunId, final: Phase, text: string)
    requires Inv(s) && s.recovered && final.Terminal() && s.Get(r).phase.Active()
    ensures Inv(Conclude(s, r, final, text)) && r in s.live && NoRelease(Conclude(s, r, final, text), r)
  {
    assert RunOk(s, r);
    NotReleasing(s, r);
    var run := s.Get(r).(phase := final, result := Some(text));
    PutInv(s, r, run);
    ClearTimersInv(s.Put(r, run), r);
    var s1 := ClearTimers(s.Put(r, run), r);
    assert RunOk(s1, r);
    PutInv(s1, r, s1.Get(r).(child := None));
  }

  lemma FinalizeInv(s: State, r: RunId, final: Phase, text: string, captureProof: bool)
    requires Inv(s) && s.recovered && final.Terminal()
    ensures Inv(Finalize(s, r, final, text, captureProof))
  {
    if s.Get(r).phase.Active() {
      ConcludeInv(s, r, final, text);
      var s2 := Conclude(s, r, final, text);
      if r in s2.leases { AddInv(s2, Releasing(r, final, captureProof)); }
      else { FinalizeEndInv(s2, r, final, captureProof, s2.Get(r).proofFiles); }
    }
  }

  // ----------------------------------------------------------------- legs

  lemma ExecuteLegInv(s: State, r: RunId, attempt: nat, resumed: bool, spawned: bool)
    requires Inv(s) && s.recovered && r in s.live && 1 <= attempt <= LEG_MAX_ATTEMPTS
    ensures Inv(ExecuteLeg(s, r, attempt, resumed, spawned))
  {
    if spawned {
      LegStartedInv(s, r, attempt, resumed);
    } else {
      hide Inv, Finalize;
      FinalizeInv(s, r, Error, SPAWN_TEXT, false);
    }
  }

  lemma LegStartedInv(s: State, r: RunId, attempt: nat, resumed: bool)
    requires Inv(s) && s.recovered && r in s.live && 1 <= attempt <= LEG_MAX_ATTEMPTS
    ensures Inv(ExecuteLeg(s, r, attempt, resumed, true))
  {
    assert RunOk(s, r);
    var c := s.nextTask;
    AddInv(s, LegWait(r, attempt, resumed));
    AddInv(s.Add(LegWait(r, attempt, resumed)), HardTimer(r, c));
    var s1 := s.Add(LegWait(r, attempt, resumed)).Add(HardTimer(r, c));
    assert RunOk(s1, r);
    PutInv(s1, r, s1.Get(r).(child := Some(c), hardTimer := Some(c + 1)));
  }

  lemma RelaunchInv(s: State, r: RunId)
    requires Inv(s) && r in s.live && s.Get(r).phase.Active()
    ensures Inv(Relaunch(s, r))
    ensures Relaunch(s, r).recovered == s.recovered && Relaunch(s, r).live == s.live && Relaunch(s, r).Get(r).phase.Running?
  {
    assert RunOk(s, r);
    NotReleasing(s, r);
    var run := s.Get(r).(phase := Running, question := None, anchor := None);
    PutInv(s, r, run);
    PersistInv(s.Put(r, run));
  }

  lemma SpawnLegInv(s: State, r: RunId, resumed: bool, spawned: bool)
    requires Inv(s) && s.recovered && r in s.live && s.Get(r).phase.Active()
    ensures Inv(SpawnLeg(s, r, resumed, spawned))
  {
    hide Inv, Relaunch, ExecuteLeg;
    RelaunchInv(s, r);
    ExecuteLegInv(Relaunch(s, r), r, 1, resumed, spawned);
  }

  lemma GoLiveInv(s: State, r: RunId)
    requires Inv(s) && r in s.starting && NoStart(s, r)
    ensures Inv(GoLive(s, r))
  {
    WithoutDistinct(s.starting, r);
    assert RunOk(s, r);
    forall x ensures RunOk(GoLive(s, r), x) { assert RunOk(s, x); }
    GoLiveTasks(s, r);
  }

  lemma GoLiveTasks(s: State, r: RunId)
    requires Tasks(s) && r in s.starting && s.Get(r).phase.Queued? && r in s.runs && NoStart(s, r) && r !in s.live
    ensures Tasks(GoLive(s, r))
  {
    forall t | t in s.tasks ensures TaskOk(GoLive(s, r), t, s.tasks[t]) { assert TaskOk(s, t, s.tasks[t]); }
  }

  lemma StartSucceededInv(s: State, r: RunId, spawned: bool)
    requires Inv(s) && s.recovered && r in s.starting && NoStart(s, r)
    ensures Inv(StartSucceeded(s, r, spawned))
  {
    assert RunOk(s, r);
    GoLiveInv(s, r);
    SpawnLegInv(GoLive(s, r), r, false, spawned);
  }

  lemma ApplyLegOutcomeInv(s: State, r: RunId, o: LegResult)
    requires Inv(s) && s.recovered && r in s.live
    ensures Inv(ApplyLegOutcome(s, r, o))
  {
    hide Finalize;
    match o
    case Broken(text) => FinalizeInv(s, r, Error, text, false);
    case NeedsInput(q) =>
      FinalizeInv(s, r, Error, NO_QUESTION_TEXT, false);
      assert RunOk(s, r);
      AddInv(s, Capturing(r, q));
    case Failed(text) => FinalizeInv(s, r, Error, text, false);
    case Completed(text, proof) => FinalizeInv(s, r, Done, text, proof);
  }

  lemma ReapInv(s: State, r: RunId)
    requires Inv(s) && r in s.runs
    ensures Inv(Reap(s, r))
  {
    var run := s.Get(r);
    DropInv(s, run.hardTimer);
    assert RunOk(s.Drop(run.hardTimer), r);
    PutInv(s.Drop(run.hardTimer), r, run.(hardTimer := None, child := None));
  }

  lemma AfterLegInv(s: State, leg: Task, attached: bool, o: LegResult, respawned: bool)
    requires Inv(s) && s.recovered && leg.LegWait? && 1 <= leg.attempt <= LEG_MAX_ATTEMPTS && leg.run in s.live
    ensures Inv(AfterLeg(s, leg, attached, o, respawned))
  {
    hide Inv, ApplyLegOutcome, Finalize, ExecuteLeg;
    if attached { ApplyLegOutcomeInv(s, leg.run, o); }
    else if leg.attempt >= LEG_MAX_ATTEMPTS { FinalizeInv(s, leg.run, Error, ATTACH_TEXT, false); }
    else { ExecuteLegInv(s, leg.run, leg.attempt + 1, leg.resumed, respawned); }
  }

  lemma LegDoneInv(s: State, t: TaskId, leg: Task, attached: bool, o: LegResult, respawned: bool)
    requires Inv(s) && s.recovered && leg.LegWait? && 1 <= leg.attempt <= LEG_MAX_ATTEMPTS
    ensures Inv(LegDone(s, t, leg, attached, o, respawned))
  {
    var run := s.Get(leg.run);
    if run.child == Some(t) && run.phase.Running? {
      assert RunOk(s, leg.run);
      ReapInv(s, leg.run);
      AfterLegInv(Reap(s, leg.run), leg, attached, o, respawned);
    }
  }

  // ------------------------------------------------------------ questions

  lemma ParkInv(s: State, r: RunId, text: string)
    requires Inv(s) && s.recovered && s.Get(r).phase.Active()
    ensures Inv(Park(s, r, text))
  {
    hide Persist;
    assert RunOk(s, r);
    NotReleasing(s, r);
    AddInv(s, QuestionTimer(r));
    var s1 := s.Add(QuestionTimer(r));
    var run := s1.Get(r).(phase := Waiting, question := Some(text), questionTimer := Some(s.nextTask));
    assert RunOk(s1, r);
    PutInv(s1, r, run);
    PersistInv(s1.Put(r, run));
    AddInv(Persist(s1.Put(r, run)), Asking(r));
  }

  lemma AskedInv(s: State, r: RunId, anchor: string)
    requires Inv(s) && r in s.runs
    ensures Inv(Asked(s, r, anchor))
  {
    assert RunOk(s, r);
    PutInv(s, r, s.Get(r).(anchor := Some(anchor)));
    PersistInv(s.Put(r, s.Get(r).(anchor := Some(anchor))));
  }

  lemma UnparkInv(s: State, r: RunId)
    requires Inv(s) && r in s.runs
    ensures Inv(Unpark(s, r))
  {
    var run := s.Get(r);
    DropInv(s, run.questionTimer);
    assert RunOk(s.Drop(run.questionTimer), r);
    PutInv(s.Drop(run.questionTimer), r, run.(questionTimer := None));
  }

  lemma ResumeParkedInv(s: State, r: RunId, spawned: bool)
    requires Inv(s) && s.recovered && r in s.live && s.Get(r).phase.Waiting?
    ensures Inv(ResumeParked(s, r, spawned))
  {
    assert RunOk(s, r);
    UnparkInv(s, r);
    SpawnLegInv(Unpark(s, r), r, true, spawned);
  }

  // ----------------------------------------------------------------- stop

  lemma StopInv(s: State, r: RunId, text: string)
    requires Inv(s) && s.recovered
    ensures Inv(Stop(s, r, text))
  {
    assert RunOk(s, r);
    if r in s.queue {
      WithoutDistinct(s.queue, r);
      LeaveQueueInv(s, Without(s.queue, r));
      SettleQueuedInv(s.(queue := Without(s.queue, r)), r, Cancelled, text);
    } else if r in s.live {
      PutInv(s, r, s.Get(r).(child := None));
      FinalizeInv(s.Put(r, s.Get(r).(child := None)), r, Cancelled, text, false);
    }
  }

  lemma MarkRestartInv(s: State, r: RunId)
    requires Inv(s) && r in s.runs
    ensures Inv(MarkRestart(s, r))
  {
    assert RunOk(s, r);
    PutInv(s, r, s.Get(r).(restartCancelled := true));
  }

  /** Settling moves nothing but the settled run. */
  lemma SettleKeeps(s: State, r: RunId)
    ensures
      var s' := Settle(s, r);
      && s'.runs == s.runs && s'.queue == s.queue && s'.live == s.live && s'.starting == s.starting
      && s'.orphans == s.orphans && s'.recovered == s.recovered && s'.leases == s.leases && s'.cap == s.cap
      && s'.stopping == s.stopping && s'.nextRun == s.nextRun && s'.diskBroken == s.diskBroken
      && s'.outcomeTimer == s.outcomeTimer && s'.queueTimer == s.queueTimer
      && forall x :: x in s'.finished ==> x in s.finished || x == r
  {
    TrimSubset(s.finished + [r], s.runs);
  }

  lemma {:induction false} SettleAllInv(s: State, rs: seq<RunId>)
    requires Inv(s) && s.recovered && Distinct(rs)
    requires forall r :: r in rs ==> r in s.runs && Nowhere(s, r)
    ensures Inv(SettleAll(s, rs)) && SettleAll(s, rs).recovered
    decreases |rs|
  {
    if rs != [] {
      var r := rs[0];
      MarkRestartInv(s, r);
      SettleQueuedInv(MarkRestart(s, r), r, Cancelled, RESTART_TEXT);
      var s1 := MarkRestart(s, r).Put(r, MarkRestart(s, r).Get(r).(phase := Cancelled, result := Some(RESTART_TEXT)));
      SettleKeeps(s1, r);
      forall x | x in rs[1..] ensures x in s.runs && Nowhere(s, x) && x != r {}
      SettleAllInv(Settle(s1, r), rs[1..]);
    }
  }

  lemma {:induction false} FillLanesKeeps(s: State)
    ensures
      var s' := FillLanes(s);
      && s'.runs == s.runs && s'.recovered == s.recovered && s'.live == s.live && s'.finished == s.finished
      && s'.orphans == s.orphans && s'.leases == s.leases && s'.disk == s.disk && s'.diskBroken == s.diskBroken
      && s'.stopping == s.stopping && s'.cap == s.cap && s'.nextRun == s.nextRun
      && s'.outcomeTimer == s.outcomeTimer && s'.queueTimer == s.queueTimer
    decreases |s.queue|
  {
    if s.queue != [] && s.Busy() < s.cap {
      FillLanesKeeps(StartDispatch(s.(queue := s.queue[1..]), s.queue[0], false));
    }
  }

  lemma FinalizeEndKeeps(s: State, r: RunId, final: Phase, captureProof: bool, proofs: nat)
    requires r in s.runs
    ensures
      var s' := FinalizeEnd(s, r, final, captureProof, proofs);
      && s'.runs == s.runs[r := Verified(s.runs[r], final, captureProof, proofs)]
      && s'.recovered == s.recovered && s'.orphans == s.orphans && s'.stopping == s.stopping
      && s'.leases == s.leases && s'.live == Without(s.live, r)
  {
    var s1 := s.Put(r, Verified(s.Get(r), final, captureProof, proofs)).(live := Without(s.live, r));
    SettleKeeps(s1, r);
    FillLanesKeeps(Settle(s1, r));
  }

  lemma FinalizeKeeps(s: State, r: RunId, final: Phase, text: string, captureProof: bool)
    requires r in s.runs
    ensures
      var s' := Finalize(s, r, final, text, captureProof);
      && s'.runs.Keys == s.runs.Keys && s'.recovered == s.recovered && s'.orphans == s.orphans
      && s'.stopping == s.stopping && s'.leases == s.leases
      && (forall x :: x in s.runs && x != r ==> s'.runs[x] == s.runs[x])
  {
    if s.Get(r).phase.Active() {
      var s2 := Conclude(s, r, final, text);
      ConcludeKeeps(s, r, final, text);
      if r !in s2.leases { FinalizeEndKeeps(s2, r, final, captureProof, s2.Get(r).proofFiles); }
    }
  }

  lemma ConcludeKeeps(s: State, r: RunId, final: Phase, text: string)
    requires r in s.runs
    ensures
      var s' := Conclude(s, r, final, text);
      && s' == s.(runs := s'.runs, tasks := s'.tasks)
      && s'.runs == s.runs[r := Closed(s.runs[r], final, text)]
  {
    var run := s.Get(r).(phase := final, result := Some(text));
    var s1 := s.Put(r, run);
    ClearTimersKeeps(s1, r);
    var s2 := ClearTimers(s1, r);
    assert s2.Put(r, s2.Get(r).(child := None)).runs == s.runs[r := Closed(s.runs[r], final, text)];
  }

  /** The record after `finalize` has given its verdict. */
  function Closed(run: Run, final: Phase, text: string): Run {
    run.(phase := final, result := Some(text), child := None, hardTimer := None, questionTimer := None)
  }

  lemma ClearTimersKeeps(s: State, r: RunId)
    requires r in s.runs
    ensures
      var s' := ClearTimers(s, r);
      && s' == s.(runs := s'.runs, tasks := s'.tasks)
      && s'.runs == s.runs[r := s.runs[r].(hardTimer := None, questionTimer := None)]
  {
    var run := s.Get(r);
    var s1 := s.Drop(run.hardTimer);
    assert s1 == s.(tasks := s1.tasks);
    var s2 := s1.Drop(run.questionTimer);
    assert s2 == s.(tasks := s2.tasks);
  }

  lemma {:induction false} FinalizeAllInv(s: State, rs: seq<RunId>)
    requires Inv(s) && s.recovered
    requires forall r :: r in rs ==> r in s.runs
    ensures Inv(FinalizeAll(s, rs))
    decreases |rs|
  {
    if rs != [] {
      var r := rs[0];
      MarkRestartInv(s, r);
      FinalizeInv(MarkRestart(s, r), r, Cancelled, RESTART_TEXT, false);
      FinalizeKeeps(MarkRestart(s, r), r, Cancelled, RESTART_TEXT, false);
      FinalizeAllInv(Finalize(MarkRestart(s, r), r, Cancelled, RESTART_TEXT, false), rs[1..]);
    }
  }

  lemma QuietInv(s: State)
    requires Inv(s)
    ensures Inv(Quiet(s))
  {
    DropInv(s, s.outcomeTimer);
    DropInv(s.Drop(s.outcomeTimer), s.queueTimer);
    TimersGone(s);
    ForgetTimersInv(s.Drop(s.outcomeTimer).Drop(s.queueTimer));
  }

  lemma TimersGone(s: State)
    requires Tasks(s)
    ensures
      var s' := s.Drop(s.outcomeTimer).Drop(s.queueTimer);
      forall t :: t in s'.tasks ==> !s'.tasks[t].OutcomeRetry? && !s'.tasks[t].QueueRetry?
  {
    hide TaskOk;
    var s' := s.Drop(s.outcomeTimer).Drop(s.queueTimer);
    forall t | t in s'.tasks ensures !s'.tasks[t].OutcomeRetry? && !s'.tasks[t].QueueRetry? {
      RetryTimer(s, t, s.tasks[t]);
    }
  }

  lemma ForgetTimersInv(s: State)
    requires Inv(s)
    requires forall t :: t in s.tasks ==> !s.tasks[t].OutcomeRetry? && !s.tasks[t].QueueRetry?
    ensures Inv(s.(stopping := true, outcomeTimer := None, queueTimer := None))
  {
    var s' := s.(stopping := true, outcomeTimer := None, queueTimer := None);
    forall r ensures RunOk(s', r) { assert RunOk(s, r); }
  }

  /** The stages of `stopAll`: timers silenced, queue settled, live runs finalized. */
  lemma StopAllStages(s: State) returns (s2: State, s3: State)
    requires Inv(s) && s.recovered
    ensures s2 == Quiet(s).(queue := []) && s3 == SettleAll(s2, s.queue) && StopAll(s) == FinalizeAll(s3, s3.live)
    ensures Inv(s2) && Inv(s3) && s2.recovered && s3.recovered && Distinct(s.queue) && s2.runs == s.runs
    ensures forall r :: r in s.queue ==> r in s2.runs && s2.Get(r).phase.Queued?
    ensures forall r :: r in s3.live ==> r in s3.runs
  {
    hide SettleAll, FinalizeAll;
    QuietInv(s);
    var s1 := Quiet(s);
    LeaveQueueInv(s1, []);
    s2 := s1.(queue := []);
    forall r | r in s.queue ensures r in s2.runs && Nowhere(s2, r) && s2.Get(r).phase.Queued? { assert RunOk(s1, r); }
    SettleAllInv(s2, s.queue);
    s3 := SettleAll(s2, s.queue);
    forall r | r in s3.live ensures r in s3.runs { assert RunOk(s3, r); }
  }

  lemma StopAllInv(s: State)
    requires Inv(s) && s.recovered
    ensures Inv(StopAll(s))
  {
    hide Inv, SettleAll, FinalizeAll;
    var s2, s3 := StopAllStages(s);
    FinalizeAllInv(s3, s3.live);
  }

  // ------------------------------------------------- restart and recovery

  lemma {:induction false} IdsOf(rows: seq<Row>, terminal: bool)
    requires forall i, j :: 0 <= i < j < |rows| ==> rows[i].id != rows[j].id
    ensures forall r :: r in Ids(rows, terminal) <==>
              exists i :: 0 <= i < |rows| && rows[i].id == r && rows[i].run.phase.Terminal() == terminal
    ensures Distinct(Ids(rows, terminal))
  {
    if rows != [] {
      var tail := rows[1..];
      IdsOf(tail, terminal);
      assert forall i :: 0 <= i < |tail| ==> tail[i] == rows[i + 1];
      assert forall i :: 1 <= i < |rows| ==> rows[i] == tail[i - 1];
      assert rows[0].id !in Ids(tail, terminal);
    }
  }

  lemma {:induction false} LoadedRow(rows: seq<Row>)
    requires forall i, j :: 0 <= i < j < |rows| ==> rows[i].id != rows[j].id
    ensures forall i :: 0 <= i < |rows| ==> rows[i].id in Loaded(rows) && Loaded(rows)[rows[i].id] == rows[i].run
    ensures forall r :: r in Loaded(rows) ==> exists i :: 0 <= i < |rows| && rows[i].id == r
  {
    if rows != [] { LoadedRow(rows[..|rows| - 1]); }
  }

  lemma RestartInv(s: State)
    requires Inv(s)
    ensures Inv(Restart(s))
  {
    var s' := Restart(s);
    IdsOf(s.disk, true);
    IdsOf(s.disk, false);
    LoadedRow(s.disk);
    forall r ensures RunOk(s', r) {
      if i :| 0 <= i < |s.disk| && s.disk[i].id == r {
        assert s'.runs[r] == s.disk[i].run;
        assert forall j :: 0 <= j < |s.disk| && s.disk[j].id == r ==> j == i;
      }
    }
  }

  lemma {:induction false} AdoptInv(s: State, rs: seq<RunId>)
    requires s.orphans == [] && !s.recovered && Inv(s.(orphans := rs))
    ensures Inv(Adopt(s, rs)) && !Adopt(s, rs).recovered && Adopt(s, rs).orphans == []
    decreases |rs|
  {
    if rs == [] {
      assert s == s.(orphans := rs);
    } else {
      var r := rs[0];
      var s0 := s.(orphans := rs);
      var s1 := s.Put(r, Orphaned(s.Get(r)));
      var s2 := s1.(finished := s1.finished + [r]);
      assert RunOk(s0, r) && r in s0.orphans;
      forall x ensures RunOk(s2.(orphans := rs[1..]), x) { assert RunOk(s0, x); }
      assert Distinct(rs[1..]) && Distinct(s2.finished);
      AdoptInv(s2, rs[1..]);
    }
  }

  lemma {:induction false} RecoverNextInv(s: State, rest: seq<RunId>)
    requires Inv(s) && s.recovered
    requires forall r :: r in rest ==> r in s.runs && s.Get(r).phase.Terminal()
    ensures Inv(RecoverNext(s, rest))
    decreases |rest|
  {
    if rest == [] { MaybeStartNextInv(s); }
    else if s.Get(rest[0]).delivered { RecoverNextInv(s, rest[1..]); }
    else { AddInv(s, Recovering(rest[0], rest[1..])); }
  }

  lemma RecoverInv(s: State)
    requires Inv(s) && !s.recovered
    ensures Inv(Recover(s))
  {
    assert s == s.(orphans := []).(orphans := s.orphans);
    AdoptInv(s.(orphans := []), s.orphans);
    var s0 := Adopt(s.(orphans := []), s.orphans);
    var s1 := s0.(recovered := true);
    forall r ensures RunOk(s1, r) { assert RunOk(s0, r); }
    PersistInv(s1);
    var s2 := Persist(s1);
    forall r | r in s2.finished ensures r in s2.runs && s2.Get(r).phase.Terminal() { assert RunOk(s2, r); }
    RecoverNextInv(s2, s2.finished);
  }

  // ---------------------------------------------------------- every step

  /** The screenshot of a run that has meanwhile been given its verdict arrives. */
  predicate StaleCapture(s: State, e: Event) {
    && e.Fire? && e.task in s.tasks && s.tasks[e.task].Capturing? && e.outcome.Captured?
    && s.Get(s.tasks[e.task].run).phase.Terminal()
  }

  lemma ContinueStart(s: State, t: TaskId, task: Task, o: Outcome)
    requires Inv(s) && s.recovered && Fits(task, o) && (task.Acquiring? || task.Unwinding?)
    requires task.run in s.starting && NoStart(s, task.run)
    ensures Inv(Continue(s, t, task, o))
  {
    hide Inv, StartSucceeded, StartFailed;
    var r := task.run;
    match task
    case Acquiring(_, immediate) =>
      if o.Granted? { StartSucceededInv(s, r, o.spawned); }
      else if o.GrantedThenFailed? { LeasesInv(s, s.leases + {r}); UnwindInv(s.(leases := s.leases + {r}), r, immediate, false); }
      else if r in s.leases { UnwindInv(s, r, immediate, o.race); }
      else { StartFailedInv(s, r, immediate, o.race); }
    case Unwinding(_, immediate, race) =>
      LeasesInv(s, s.leases - {r});
      StartFailedInv(Free(s, r, o.freed), r, immediate, race);
  }

  lemma UnwindInv(s: State, r: RunId, immediate: bool, race: bool)
    requires Inv(s) && s.recovered && r in s.starting && NoStart(s, r)
    ensures Inv(s.Add(Unwinding(r, immediate, race)))
  {
    var task := Unwinding(r, immediate, race);
    assert TaskOk(s.Add(task), s.nextTask, task);
    hide RunOk, DiskOk, TaskOk;
    AddTasks(s, task);
    RunsStay(s, s.Add(task));
  }

  lemma LeasesInv(s: State, leases: set<RunId>)
    requires Inv(s)
    ensures Inv(s.(leases := leases))
  {
    hide RunOk, DiskOk;
    RunsStay(s, s.(leases := leases));
  }

  lemma ContinueRun(s: State, t: TaskId, task: Task, o: Outcome)
    requires Inv(s) && s.recovered && Fits(task, o)
    requires task.LegWait? || task.Capturing? || task.Asking? || task.HardTimer? || task.QuestionTimer?
    requires task.run in s.runs
    requires task.LegWait? ==> 1 <= task.attempt <= LEG_MAX_ATTEMPTS
    requires task.Capturing? && o.Captured? ==> s.Get(task.run).phase.Active()
    ensures Inv(Continue(s, t, task, o))
  {
    hide Inv, LegDone, Park, Finalize, Asked;
    match task
    case LegWait(r, _, _) => LegDoneInv(s, t, task, o.attached, o.result, o.respawned);
    case Capturing(r, text) =>
      if o.Captured? { ParkInv(s, r, text); } else { FinalizeInv(s, r, Error, ASK_TEXT, false); }
    case Asking(r) =>
      if o.Posted? { AskedInv(s, r, o.anchor); } else { FinalizeInv(s, r, Error, ASK_TEXT, false); }
    case HardTimer(r, _) => FinalizeInv(s, r, Timeout, HARD_TIMEOUT_TEXT, false);
    case QuestionTimer(r) => FinalizeInv(s, r, Timeout, QUESTION_TIMEOUT_TEXT, false);
  }

  lemma ContinueEnd(s: State, t: TaskId, task: Task, o: Outcome)
    requires Inv(s) && s.recovered && Fits(task, o)
    requires task.Releasing? || task.Delivering? || task.Recovering?
    requires task.Releasing? ==> task.run in s.live && s.Get(task.run).phase.Terminal() && NoRelease(s, task.run)
    requires task.run in s.runs
    requires task.Recovering? ==> forall x :: x in task.rest ==> x in s.runs && s.Get(x).phase.Terminal()
    ensures Inv(Continue(s, t, task, o))
  {
    hide Inv, FinalizeEnd, Delivered, RecoverNext;
    match task
    case Releasing(r, final, captureProof) =>
      LeasesInv(s, s.leases - {r});
      FinalizeEndInv(Free(s, r, o.freed), r, final, captureProof, o.proofs);
    case Delivering(r) =>
      DeliveredInv(s, r);
      ScheduleOutcomeRetryInv(s);
    case Recovering(r, rest) =>
      DeliveredInv(s, r);
      ScheduleOutcomeRetryInv(s);
      DeliveredKeeps(s, r);
      RecoverNextInv(if o.Accepted? then Delivered(s, r) else ScheduleOutcomeRetry(s), rest);
  }

  lemma DeliveredKeeps(s: State, r: RunId)
    requires r in s.runs
    ensures
      var s' := Delivered(s, r);
      && s'.runs == s.runs[r := s.runs[r].(delivered := true)]
      && s' == s.(runs := s'.runs, finished := s'.finished, disk := s'.disk, writes := s'.writes)
      && forall x :: x in s'.finished ==> x in s.finished
  {
    TrimSubset(s.finished, s.Put(r, s.Get(r).(delivered := true)).runs);
  }

  lemma ContinueDaemon(s: State, t: TaskId, task: Task, o: Outcome)
    requires Inv(s) && s.recovered && Fits(task, o)
    requires task.Admitting? || task.OutcomeRetry? || task.QueueRetry?
    requires task.OutcomeRetry? ==> forall u :: u in s.tasks ==> !s.tasks[u].OutcomeRetry?
    requires task.QueueRetry? ==> forall u :: u in s.tasks ==> !s.tasks[u].QueueRetry?
    ensures Inv(Continue(s, t, task, o))
  {
    hide Inv, DeliverAll, MaybeStartNext, Admit;
    match task
    case Admitting => AdmitInv(s);
    case OutcomeRetry =>
      ForgetRetriesInv(s, s.(outcomeTimer := None));
      DeliverAllInv(s.(outcomeTimer := None), s.finished);
    case QueueRetry =>
      ForgetRetriesInv(s, s.(queueTimer := None));
      MaybeStartNextInv(s.(queueTimer := None));
  }

  /** A retry timer that has fired is forgotten. */
  lemma ForgetRetriesInv(s: State, s': State)
    requires Inv(s) && s.recovered
    requires (s' == s.(outcomeTimer := None) && forall u :: u in s.tasks ==> !s.tasks[u].OutcomeRetry?)
             || (s' == s.(queueTimer := None) && forall u :: u in s.tasks ==> !s.tasks[u].QueueRetry?)
    ensures Inv(s') && forall r :: r in s.finished ==> r in s.runs && s.Get(r).phase.Terminal()
  {
    hide DiskOk, TaskOk;
    forall r | r in s.finished ensures r in s.runs && s.Get(r).phase.Terminal() { assert RunOk(s, r); }
    RunsStay(s, s');
    forall t | t in s'.tasks ensures TaskOk(s', t, s'.tasks[t]) {
      RetryTimer(s, t, s.tasks[t]);
      TaskStays(s, s', t, s.tasks[t]);
    }
  }

  lemma FireInv(s: State, t: TaskId, o: Outcome)
    requires Inv(s) && s.recovered && t in s.tasks && Fits(s.tasks[t], o) && !StaleCapture(s, Fire(t, o))
    ensures Inv(Next(s, Fire(t, o)))
  {
    hide Continue;
    var s1 := s.Drop(Some(t));
    var task := s.tasks[t];
    DropInv(s, Some(t));
    assert TaskOk(s, t, task);
    assert forall u :: u in s1.tasks ==> u != t && u in s.tasks && s1.tasks[u] == s.tasks[u];
    if task.Acquiring? || task.Unwinding? {
      assert IsStart(task, task.run);
      ContinueStart(s1, t, task, o);
    } else if task.Releasing? || task.Delivering? || task.Recovering? {
      if task.Releasing? { assert IsRelease(task, task.run); assert RunOk(s, task.run); }
      ContinueEnd(s1, t, task, o);
    } else if task.Admitting? || task.OutcomeRetry? || task.QueueRetry? {
      assert forall u :: u in s1.tasks ==> TaskOk(s, u, s.tasks[u]);
      ContinueDaemon(s1, t, task, o);
    } else {
      ContinueRun(s1, t, task, o);
    }
  }

  /** Every step except the arrival of a stale screenshot keeps the invariant. */
  lemma NextInv(s: State, e: Event)
    requires Inv(s) && Enabled(s, e) && !StaleCapture(s, e)
    ensures Inv(Next(s, e))
  {
    match e
    case Dispatch => if !s.stopping { AddInv(s, Admitting); }
    case Answer(r, spawned) => if r in s.live && s.Get(r).phase.Waiting? { ResumeParkedInv(s, r, spawned); }
    case Steer(r, spawned) => if r in s.live && s.Get(r).phase.Waiting? { ResumeParkedInv(s, r, spawned); }
    case StopRun(r, text) => StopInv(s, r, text);
    case StopEverything => StopAllInv(s);
    case Fire(t, o) => FireInv(s, t, o);
    case LeaseLost(r) => LeasesInv(s, s.leases - {r});
    case DiskFault(broken) => RunsStay(s, s.(diskBroken := broken));
    case Crash => RestartInv(s);
    case CallRecover => RecoverInv(s);
  }
}
