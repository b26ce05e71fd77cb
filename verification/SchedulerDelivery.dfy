/**
 * Every outcome is reported: whatever the daemon keeps and has not yet delivered has a delivery in
 * flight, or is waiting for the armed retry timer, unless the daemon is stopping.  Proved for all
 * enabled events, stale screenshots included.
 */
module SchedulerDelivery {
  import opened Wrappers
  import opened SchedulerState
  import opened SchedulerSteps
  import opened SchedulerSafety
  import opened SchedulerEffects
  import opened SchedulerVerdicts
  import opened SchedulerCapacity
  import Moves = SchedulerMoves

  // ------------------------------------------------------------ definitions

  /** The retry timer is armed and really pending. */
  predicate Retrying(s: State) {
    s.outcomeTimer.Some? && s.outcomeTimer.value in s.tasks && s.tasks[s.outcomeTimer.value].OutcomeRetry?
  }

  ghost predicate Covered(s: State, r: RunId) {
    s.Get(r).delivered || HasDelivery(s, r) || Retrying(s) || s.stopping
  }

  ghost predicate AllCovered(s: State) {
    s.recovered ==> forall r :: r in s.finished ==> Covered(s, r)
  }

  /** A handle kept for a run's timer denotes, if still pending, a timer of a run. */
  predicate TimerAt(s: State, h: Option<TaskId>) {
    h.Some? ==> h.value < s.nextTask && (h.value in s.tasks ==> s.tasks[h.value].RunTimer())
  }

  ghost predicate Handles(s: State) {
    forall r :: r in s.runs ==> TimerAt(s, s.runs[r].hardTimer) && TimerAt(s, s.runs[r].questionTimer)
  }

  /** The remembered retry timers are pending. */
  predicate Armed(s: State) {
    && (s.outcomeTimer.Some? ==> Retrying(s))
    && (s.queueTimer.Some? ==> s.queueTimer.value in s.tasks && s.tasks[s.queueTimer.value].QueueRetry?)
  }

  ghost predicate Below(ids: seq<RunId>, n: RunId) {
    forall r: RunId :: r in ids ==> r < n
  }

  lemma BelowParts(ids: seq<RunId>, n: RunId)
    requires Below(ids, n) && ids != []
    ensures ids[0] < n && Below(ids[1..], n)
  {
    assert ids[0] in ids && forall r :: r in ids[1..] ==> r in ids;
  }

  ghost predicate ListsBelow(s: State) {
    && Below(s.queue, s.nextRun) && Below(s.starting, s.nextRun) && Below(s.live, s.nextRun)
    && Below(s.finished, s.nextRun) && Below(s.orphans, s.nextRun)
  }

  /** The runs that a suspended computation will touch have been admitted. */
  ghost predicate Names(task: Task, n: RunId) {
    match task
    case Admitting => true
    case OutcomeRetry => true
    case QueueRetry => true
    case Recovering(r, rest) => r < n && Below(rest, n)
    case _ => task.run < n
  }

  /** Two rows of one run are the same row. */
  ghost predicate RowsAgree(disk: seq<Row>) {
    forall i, j :: 0 <= i < |disk| && 0 <= j < |disk| && disk[i].id == disk[j].id ==> disk[i] == disk[j]
  }

  /** Rows hold what `Durable` keeps, of runs that have been admitted. */
  ghost predicate RowsOk(disk: seq<Row>, n: RunId) {
    RowsAgree(disk) && forall i :: 0 <= i < |disk| ==> disk[i].id < n && disk[i].run == Durable(disk[i].run)
  }

  /** Nothing is known of runs that are still to be admitted. */
  ghost predicate Bounded(s: State) {
    && ListsBelow(s)
    && (forall r: RunId :: r in s.runs ==> r < s.nextRun)
    && (forall t :: t in s.tasks ==> Names(s.tasks[t], s.nextRun))
    && RowsOk(s.disk, s.nextRun)
  }

  ghost predicate Ready(s: State) {
    IdsUsed(s) && Handles(s) && Armed(s) && Bounded(s)
  }

  /** What is covered stays covered, and what enters the history is covered. */
  ghost predicate NothingDropped(s: State, s': State) {
    && (forall r :: Covered(s, r) ==> Covered(s', r))
    && (forall r :: r in s'.finished ==> r in s.finished || Covered(s', r))
  }

  ghost predicate Keeps(s: State, s': State) {
    s'.nextRun == s.nextRun && (Ready(s) ==> Ready(s') && NothingDropped(s, s'))
  }

  lemma KeepsTrans(s: State, m: State, s': State)
    requires Keeps(s, m) && Keeps(m, s')
    ensures Keeps(s, s')
  {
  }

  lemma KeepsAll(s: State, s': State)
    requires Ready(s) && AllCovered(s) && s.recovered && Keeps(s, s')
    ensures Ready(s') && AllCovered(s')
  {
  }

  // ------------------------------------------------------------- primitives

  /** Deliveries stay under way while no task but timers of runs goes. */
  lemma DeliveryStays(s: State, s': State, r: RunId)
    requires TasksKept(s, s') && HasDelivery(s, r)
    ensures HasDelivery(s', r)
  {
    var t :| t in s.tasks && (s.tasks[t] == Delivering(r) || (s.tasks[t].Recovering? && r in [s.tasks[t].run] + s.tasks[t].rest));
    assert t in s'.tasks && s'.tasks[t] == s.tasks[t];
  }

  /** Any change that loses no task but timers of runs, no delivery mark and no flag. */
  lemma QuietStep(s: State, s': State)
    requires TasksKept(s, s') && (s.stopping ==> s'.stopping) && s'.outcomeTimer == s.outcomeTimer
    requires forall r :: s.Get(r).delivered ==> s'.Get(r).delivered
    requires forall r :: r in s'.finished ==> r in s.finished || Covered(s', r)
    ensures NothingDropped(s, s')
  {
    forall r | Covered(s, r) ensures Covered(s', r) { if HasDelivery(s, r) { DeliveryStays(s, s', r); } }
  }

  /** Tasks, timers, flags and records are as they were. */
  ghost predicate SameTasks(s: State, s': State) {
    && s'.tasks == s.tasks && s'.nextTask == s.nextTask && s'.runs == s.runs && s'.stopping == s.stopping
    && s'.outcomeTimer == s.outcomeTimer && s'.queueTimer == s.queueTimer
    && s'.nextRun == s.nextRun && (Bounded(s) ==> RowsOk(s'.disk, s.nextRun))
    && (ListsBelow(s) ==> ListsBelow(s'))
    && (forall r :: r in s'.finished ==> r in s.finished)
  }

  lemma SameTasksKeeps(s: State, s': State)
    requires SameTasks(s, s')
    ensures Keeps(s, s')
  {
    assert forall r :: HasDelivery(s, r) ==> HasDelivery(s', r);
  }

  lemma PersistDelivery(s: State)
    ensures Keeps(s, Persist(s)) && SameTasks(s, Persist(s))
  {
    PersistKeeps(s);
    if Bounded(s) { WrittenRows(s); }
    SameTasksKeeps(s, Persist(s));
  }

  /** A write names a run as often as the daemon does, each time with the same record. */
  lemma WrittenAgree(s: State)
    requires !s.diskBroken
    ensures RowsAgree(Persist(s).disk)
  {
    var s1 := s.(finished := Trim(s.finished, s.runs));
    var ids := Recorded(s1);
    assert forall i :: 0 <= i < |ids| ==> Persist(s).disk[i] == Row(ids[i], if ids[i] in s.runs then Durable(s.runs[ids[i]]) else FRESH_RUN);
  }

  lemma WrittenRows(s: State)
    requires Bounded(s)
    ensures RowsOk(Persist(s).disk, s.nextRun)
  {
    if !s.diskBroken { WrittenAgree(s); }
    var s1 := s.(finished := Trim(s.finished, s.runs));
    PersistKeeps(s);
    TrimSubset(s.finished, s.runs);
    var ids := Recorded(s1);
    forall i | 0 <= i < |ids| ensures ids[i] < s.nextRun {
      assert ids[i] in s1.live || ids[i] in s1.starting || ids[i] in s1.queue || ids[i] in s1.finished;
    }
  }

  lemma AddKeeps(s: State, task: Task)
    requires Names(task, s.nextRun)
    ensures Keeps(s, s.Add(task)) && (IdsUsed(s) ==> TasksKept(s, s.Add(task)))
  {
    if IdsUsed(s) { QuietStep(s, s.Add(task)); }
  }

  /** Clearing the timer of a run. */
  lemma ClearKeeps(s: State, h: Option<TaskId>)
    requires TimerAt(s, h)
    ensures Keeps(s, s.Drop(h))
  {
    QuietStep(s, s.Drop(h));
  }

  lemma PutKeeps(s: State, r: RunId, run: Run)
    requires r < s.nextRun
    requires TimerAt(s, run.hardTimer) && TimerAt(s, run.questionTimer)
    requires s.Get(r).delivered ==> run.delivered
    ensures Keeps(s, s.Put(r, run))
  {
    QuietStep(s, s.Put(r, run));
  }

  /** A change of the record that leaves its timers alone. */
  lemma EditKeeps(s: State, r: RunId, run: Run)
    requires r < s.nextRun
    requires run.hardTimer == s.Get(r).hardTimer && run.questionTimer == s.Get(r).questionTimer
    requires s.Get(r).delivered ==> run.delivered
    ensures Keeps(s, s.Put(r, run))
  {
    if Ready(s) { PutKeeps(s, r, run); }
  }

  // -------------------------------------------------------------- the steps

  lemma SettleDelivery(s: State, r: RunId)
    requires r < s.nextRun
    ensures Keeps(s, Settle(s, r))
  {
    var s1 := Persist(s.(finished := s.finished + [r]));
    PersistKeeps(s.(finished := s.finished + [r]));
    PersistDelivery(s.(finished := s.finished + [r]));
    if Ready(s) {
      AddKeeps(s1, Delivering(r));
      assert s1.Add(Delivering(r)).tasks[s1.nextTask] == Delivering(r);
      QuietStep(s, Settle(s, r));
    }
  }

  lemma SettleQueuedDelivery(s: State, r: RunId, final: Phase, text: string)
    requires r < s.nextRun
    ensures Keeps(s, SettleQueued(s, r, final, text))
  {
    hide Settle;
    var run := s.Get(r).(phase := final, result := Some(text));
    EditKeeps(s, r, run);
    SettleDelivery(s.Put(r, run), r);
    KeepsTrans(s, s.Put(r, run), Settle(s.Put(r, run), r));
  }

  lemma StartDispatchKeeps(s: State, r: RunId, immediate: bool)
    requires r < s.nextRun
    ensures Keeps(s, StartDispatch(s, r, immediate))
  {
    var s1 := s.(starting := Insert(s.starting, r));
    SameTasksKeeps(s, s1);
    AddKeeps(s1, Acquiring(r, immediate));
    KeepsTrans(s, s1, s1.Add(Acquiring(r, immediate)));
  }

  lemma {:induction false} FillKeeps(s: State)
    ensures Keeps(s, FillLanes(s))
    decreases |s.queue|
  {
    FillLanesKeeps(s);
    if !ListsBelow(s) {
    } else if s.queue != [] && s.Busy() < s.cap {
      var s1 := s.(queue := s.queue[1..]);
      var s2 := StartDispatch(s1, s.queue[0], false);
      BelowParts(s.queue, s.nextRun);
      SameTasksKeeps(s, s1);
      StartDispatchKeeps(s1, s.queue[0], false);
      KeepsTrans(s, s1, s2);
      FillKeeps(s2);
      KeepsTrans(s, s2, FillLanes(s2));
    } else {
      SameTasksKeeps(s, s);
    }
  }

  lemma RefillDelivery(s: State, n: State)
    requires Keeps(s, n)
    ensures Keeps(s, MaybeStartNext(n))
  {
    if !n.stopping {
      FillKeeps(n);
      KeepsTrans(s, n, FillLanes(n));
    }
  }

  lemma QueueRetryDelivery(s: State)
    ensures Keeps(s, ScheduleQueueRetry(s))
  {
    if Ready(s) {
      AddKeeps(s, QueueRetry);
      QuietStep(s, ScheduleQueueRetry(s));
    }
  }

  /** A rejected delivery arms the retry timer, which covers everything. */
  lemma OutcomeRetryCovers(s: State)
    requires Ready(s)
    ensures Ready(ScheduleOutcomeRetry(s)) && forall r :: Covered(ScheduleOutcomeRetry(s), r)
    ensures ScheduleOutcomeRetry(s).finished == s.finished
  {
  }

  lemma LostRaceDelivery(s: State, r: RunId, immediate: bool)
    requires r < s.nextRun
    ensures Keeps(s, StartFailed(s, r, immediate, true))
  {
    hide Persist, ScheduleQueueRetry;
    var s2 := s.(starting := Without(s.starting, r), queue := if immediate then s.queue + [r] else [r] + s.queue);
    SameTasksKeeps(s, s2);
    PersistDelivery(s2);
    KeepsTrans(s, s2, Persist(s2));
    QueueRetryDelivery(Persist(s2));
    KeepsTrans(s, Persist(s2), ScheduleQueueRetry(Persist(s2)));
  }

  lemma FailedStartDelivery(s: State, r: RunId, immediate: bool)
    requires r < s.nextRun
    ensures Keeps(s, StartFailed(s, r, immediate, false))
  {
    hide SettleQueued, MaybeStartNext;
    var s1 := s.(starting := Without(s.starting, r));
    SameTasksKeeps(s, s1);
    SettleQueuedDelivery(s1, r, Error, START_TEXT);
    KeepsTrans(s, s1, SettleQueued(s1, r, Error, START_TEXT));
    RefillDelivery(s, SettleQueued(s1, r, Error, START_TEXT));
  }

  lemma StartFailedDelivery(s: State, r: RunId, immediate: bool, race: bool)
    requires r < s.nextRun
    ensures Keeps(s, StartFailed(s, r, immediate, race))
  {
    if race { LostRaceDelivery(s, r, immediate); } else { FailedStartDelivery(s, r, immediate); }
  }

  /** A new run is the one state change that is not about an earlier run. */
  lemma FreshKeeps(s: State)
    requires Ready(s)
    ensures var s1 := s.Put(s.nextRun, FRESH_RUN).(nextRun := s.nextRun + 1); Ready(s1) && NothingDropped(s, s1)
  {
    var s1 := s.Put(s.nextRun, FRESH_RUN).(nextRun := s.nextRun + 1);
    assert s.nextRun !in s.runs;
    forall t | t in s1.tasks ensures Names(s1.tasks[t], s1.nextRun) { assert Names(s.tasks[t], s.nextRun); }
    QuietStep(s, s1);
  }

  lemma AdmitDelivery(s: State)
    requires Ready(s)
    ensures Ready(Admit(s)) && NothingDropped(s, Admit(s))
  {
    hide Persist, StartDispatch;
    var s1 := s.Put(s.nextRun, FRESH_RUN).(nextRun := s.nextRun + 1);
    FreshKeeps(s);
    if s1.Busy() >= s1.cap || s1.queue != [] {
      var s2 := s1.(queue := s1.queue + [s.nextRun]);
      SameTasksKeeps(s1, s2);
      PersistDelivery(s2);
      KeepsTrans(s1, s2, Persist(s2));
    } else {
      StartDispatchKeeps(s1, s.nextRun, true);
    }
  }

  // ------------------------------------------------------------- the verdict

  lemma ConcludeDelivery(s: State, r: RunId, final: Phase, text: string)
    requires r < s.nextRun
    ensures Keeps(s, Conclude(s, r, final, text))
  {
    hide ClearTimers, Covered, Armed;
    var run := s.Get(r).(phase := final, result := Some(text));
    var s1 := s.Put(r, run);
    EditKeeps(s, r, run);
    ClearTimersKeeps(s1, r);
    if Ready(s) {
      ForgetTimers(s1, r);
      KeepsTrans(s, s1, ClearTimers(s1, r));
      var s4 := ClearTimers(s1, r);
      EditKeeps(s4, r, s4.Get(r).(child := None));
    }
  }

  lemma ForgetTimers(s: State, r: RunId)
    requires Ready(s) && r in s.runs && r < s.nextRun
    ensures Keeps(s, ClearTimers(s, r))
  {
    var run := s.Get(r);
    ClearKeeps(s, run.hardTimer);
    ClearKeeps(s.Drop(run.hardTimer), run.questionTimer);
    PutKeeps(s.Drop(run.hardTimer).Drop(run.questionTimer), r, run.(hardTimer := None, questionTimer := None));
  }

  lemma LeaveKeeps(s: State, r: RunId)
    ensures Keeps(s, s.(live := Without(s.live, r)))
  {
    SameTasksKeeps(s, s.(live := Without(s.live, r)));
  }

  lemma FinalizeEndDelivery(s: State, r: RunId, final: Phase, captureProof: bool, proofs: nat)
    requires r < s.nextRun
    ensures Keeps(s, FinalizeEnd(s, r, final, captureProof, proofs))
  {
    hide Settle, MaybeStartNext;
    var s1 := s.Put(r, Verified(s.Get(r), final, captureProof, proofs));
    var s2 := s1.(live := Without(s1.live, r));
    EditKeeps(s, r, Verified(s.Get(r), final, captureProof, proofs));
    LeaveKeeps(s1, r);
    KeepsTrans(s, s1, s2);
    SettleDelivery(s2, r);
    KeepsTrans(s, s2, Settle(s2, r));
    RefillDelivery(s, Settle(s2, r));
  }

  lemma FinalizeDelivery(s: State, r: RunId, final: Phase, text: string, captureProof: bool)
    requires r < s.nextRun
    ensures Keeps(s, Finalize(s, r, final, text, captureProof))
  {
    hide Conclude, FinalizeEnd;
    SameTasksKeeps(s, s);
    if s.Get(r).phase.Active() {
      var s1 := Conclude(s, r, final, text);
      ConcludeDelivery(s, r, final, text);
      if r in s1.leases {
        AddKeeps(s1, Releasing(r, final, captureProof));
        KeepsTrans(s, s1, s1.Add(Releasing(r, final, captureProof)));
      } else {
        FinalizeEndDelivery(s1, r, final, captureProof, s1.Get(r).proofFiles);
        KeepsTrans(s, s1, Finalize(s, r, final, text, captureProof));
      }
    }
  }

  // ------------------------------------------------------------------ legs

  lemma LaunchKeeps(s: State, r: RunId, attempt: nat, resumed: bool)
    requires r < s.nextRun
    ensures Keeps(s, ExecuteLeg(s, r, attempt, resumed, true))
  {
    hide Covered, Bounded, Armed;
    var c := s.nextTask;
    var s1 := s.Add(LegWait(r, attempt, resumed)).Add(HardTimer(r, c));
    AddKeeps(s, LegWait(r, attempt, resumed));
    AddKeeps(s.Add(LegWait(r, attempt, resumed)), HardTimer(r, c));
    KeepsTrans(s, s.Add(LegWait(r, attempt, resumed)), s1);
    if Ready(s) {
      assert r in s1.runs ==> TimerAt(s1, s1.runs[r].questionTimer);
      PutKeeps(s1, r, s1.Get(r).(child := Some(c), hardTimer := Some(c + 1)));
    }
  }

  lemma ExecuteLegDelivery(s: State, r: RunId, attempt: nat, resumed: bool, spawned: bool)
    requires r < s.nextRun
    ensures Keeps(s, ExecuteLeg(s, r, attempt, resumed, spawned))
  {
    if spawned { LaunchKeeps(s, r, attempt, resumed); } else { FinalizeDelivery(s, r, Error, SPAWN_TEXT, false); }
  }

  lemma SpawnLegDelivery(s: State, r: RunId, resumed: bool, spawned: bool)
    requires r < s.nextRun
    ensures Keeps(s, SpawnLeg(s, r, resumed, spawned))
  {
    hide Persist, ExecuteLeg;
    var run := s.Get(r).(phase := Running, question := None, anchor := None);
    EditKeeps(s, r, run);
    PersistDelivery(s.Put(r, run));
    KeepsTrans(s, s.Put(r, run), Relaunch(s, r));
    ExecuteLegDelivery(Relaunch(s, r), r, 1, resumed, spawned);
    KeepsTrans(s, Relaunch(s, r), SpawnLeg(s, r, resumed, spawned));
  }

  lemma UnparkDelivery(s: State, r: RunId)
    requires r < s.nextRun
    ensures Keeps(s, Unpark(s, r))
  {
    if Ready(s) {
      var run := s.Get(r);
      assert r in s.runs ==> TimerAt(s, run.hardTimer) && TimerAt(s, run.questionTimer);
      ClearKeeps(s, run.questionTimer);
      PutKeeps(s.Drop(run.questionTimer), r, run.(questionTimer := None));
    }
  }

  lemma ResumeDelivery(s: State, r: RunId, spawned: bool)
    requires r < s.nextRun
    ensures Keeps(s, ResumeParked(s, r, spawned))
  {
    hide Unpark, SpawnLeg;
    UnparkDelivery(s, r);
    SpawnLegDelivery(Unpark(s, r), r, true, spawned);
    KeepsTrans(s, Unpark(s, r), ResumeParked(s, r, spawned));
  }

  lemma GoLiveKeeps(s: State, r: RunId)
    requires r < s.nextRun
    ensures Keeps(s, GoLive(s, r))
  {
    EditKeeps(s, r, s.Get(r).(phase := Running));
    SameTasksKeeps(s.Put(r, s.Get(r).(phase := Running)), GoLive(s, r));
    KeepsTrans(s, s.Put(r, s.Get(r).(phase := Running)), GoLive(s, r));
  }

  lemma StartSucceededDelivery(s: State, r: RunId, spawned: bool)
    requires r < s.nextRun
    ensures Keeps(s, StartSucceeded(s, r, spawned))
  {
    hide GoLive, SpawnLeg;
    GoLiveKeeps(s, r);
    SpawnLegDelivery(GoLive(s, r), r, false, spawned);
    KeepsTrans(s, GoLive(s, r), StartSucceeded(s, r, spawned));
  }

  lemma ReapDelivery(s: State, r: RunId)
    requires r < s.nextRun
    ensures Keeps(s, Reap(s, r))
  {
    if Ready(s) {
      var run := s.Get(r);
      assert r in s.runs ==> TimerAt(s, run.hardTimer) && TimerAt(s, run.questionTimer);
      ClearKeeps(s, run.hardTimer);
      PutKeeps(s.Drop(run.hardTimer), r, run.(hardTimer := None, child := None));
    }
  }

  lemma HonourDelivery(s: State, r: RunId, o: LegResult)
    requires r < s.nextRun
    ensures Keeps(s, ApplyLegOutcome(s, r, o))
  {
    hide Finalize;
    match o
    case Broken(text) => FinalizeDelivery(s, r, Error, text, false);
    case NeedsInput(q) =>
      AddKeeps(s, Capturing(r, q));
      FinalizeDelivery(s, r, Error, NO_QUESTION_TEXT, false);
    case Failed(text) => FinalizeDelivery(s, r, Error, text, false);
    case Completed(text, proof) => FinalizeDelivery(s, r, Done, text, proof);
  }

  lemma AfterLegDelivery(s: State, leg: Task, attached: bool, o: LegResult, respawned: bool)
    requires leg.LegWait? && leg.run < s.nextRun
    ensures Keeps(s, AfterLeg(s, leg, attached, o, respawned))
  {
    hide ApplyLegOutcome, Finalize, ExecuteLeg;
    if attached { HonourDelivery(s, leg.run, o); }
    else if leg.attempt >= LEG_MAX_ATTEMPTS { FinalizeDelivery(s, leg.run, Error, ATTACH_TEXT, false); }
    else { ExecuteLegDelivery(s, leg.run, leg.attempt + 1, leg.resumed, respawned); }
  }

  lemma LegDoneDelivery(s: State, t: TaskId, leg: Task, attached: bool, o: LegResult, respawned: bool)
    requires leg.LegWait? && leg.run < s.nextRun
    ensures Keeps(s, LegDone(s, t, leg, attached, o, respawned))
  {
    hide Reap, AfterLeg;
    SameTasksKeeps(s, s);
    ReapDelivery(s, leg.run);
    AfterLegDelivery(Reap(s, leg.run), leg, attached, o, respawned);
    KeepsTrans(s, Reap(s, leg.run), AfterLeg(Reap(s, leg.run), leg, attached, o, respawned));
  }

  lemma ParkDelivery(s: State, r: RunId, text: string)
    requires r < s.nextRun
    ensures Keeps(s, Park(s, r, text))
  {
    hide Persist;
    var s1 := s.Add(QuestionTimer(r));
    var run := s1.Get(r).(phase := Waiting, question := Some(text), questionTimer := Some(s.nextTask));
    var s2 := s1.Put(r, run);
    AddKeeps(s, QuestionTimer(r));
    if Ready(s) {
      assert r in s1.runs ==> TimerAt(s1, s1.runs[r].hardTimer);
      PutKeeps(s1, r, run);
    }
    PersistDelivery(s2);
    KeepsTrans(s, s2, Persist(s2));
    AddKeeps(Persist(s2), Asking(r));
    KeepsTrans(s, Persist(s2), Park(s, r, text));
  }

  lemma AskedDelivery(s: State, r: RunId, anchor: string)
    requires r < s.nextRun
    ensures Keeps(s, Asked(s, r, anchor))
  {
    hide Persist;
    var run := s.Get(r).(anchor := Some(anchor));
    SameTasksKeeps(s, s);
    EditKeeps(s, r, run);
    PersistDelivery(s.Put(r, run));
    KeepsTrans(s, s.Put(r, run), Persist(s.Put(r, run)));
  }

  // ------------------------------------------------------------------ stop

  lemma StopDelivery(s: State, r: RunId, text: string)
    requires r < s.nextRun
    ensures Keeps(s, Stop(s, r, text))
  {
    hide SettleQueued, Finalize;
    SameTasksKeeps(s, s);
    var s1 := s.(queue := Without(s.queue, r));
    SameTasksKeeps(s, s1);
    SettleQueuedDelivery(s1, r, Cancelled, text);
    KeepsTrans(s, s1, SettleQueued(s1, r, Cancelled, text));
    var s2 := s.Put(r, s.Get(r).(child := None));
    EditKeeps(s, r, s.Get(r).(child := None));
    FinalizeDelivery(s2, r, Cancelled, text, false);
    KeepsTrans(s, s2, Finalize(s2, r, Cancelled, text, false));
  }

  lemma MarkKeeps(s: State, r: RunId)
    requires r < s.nextRun
    ensures Keeps(s, MarkRestart(s, r))
  {
    EditKeeps(s, r, s.Get(r).(restartCancelled := true));
  }

  lemma {:induction false} SettleAllDelivery(s: State, rs: seq<RunId>)
    requires Below(rs, s.nextRun)
    ensures Keeps(s, SettleAll(s, rs))
    decreases |rs|
  {
    hide SettleQueued, MarkRestart;
    if rs == [] {
      SameTasksKeeps(s, s);
    } else {
      BelowParts(rs, s.nextRun);
      var s1 := MarkRestart(s, rs[0]);
      var s2 := SettleQueued(s1, rs[0], Cancelled, RESTART_TEXT);
      MarkKeeps(s, rs[0]);
      SettleQueuedDelivery(s1, rs[0], Cancelled, RESTART_TEXT);
      KeepsTrans(s, s1, s2);
      SettleAllDelivery(s2, rs[1..]);
      KeepsTrans(s, s2, SettleAll(s2, rs[1..]));
    }
  }

  lemma {:induction false} FinalizeAllDelivery(s: State, rs: seq<RunId>)
    requires Below(rs, s.nextRun)
    ensures Keeps(s, FinalizeAll(s, rs))
    decreases |rs|
  {
    hide Finalize, MarkRestart;
    if rs == [] {
      SameTasksKeeps(s, s);
    } else {
      BelowParts(rs, s.nextRun);
      var s1 := MarkRestart(s, rs[0]);
      var s2 := Finalize(s1, rs[0], Cancelled, RESTART_TEXT, false);
      MarkKeeps(s, rs[0]);
      FinalizeDelivery(s1, rs[0], Cancelled, RESTART_TEXT, false);
      KeepsTrans(s, s1, s2);
      FinalizeAllDelivery(s2, rs[1..]);
      KeepsTrans(s, s2, FinalizeAll(s2, rs[1..]));
    }
  }

  /** Shutdown silences both retry timers and itself excuses what is not delivered. */
  lemma QuietReady(s: State)
    requires Ready(s)
    ensures Ready(Quiet(s).(queue := [])) && NothingDropped(s, Quiet(s).(queue := []))
  {
    hide HasDelivery, Names;
    var s1 := Quiet(s).(queue := []);
    QuietTasks(s);
    FewerTasks(s, s1);
  }

  lemma QuietTasks(s: State)
    ensures var s' := Quiet(s); s' == s.(stopping := true, outcomeTimer := None, queueTimer := None, tasks := s'.tasks)
    ensures forall t :: t in Quiet(s).tasks ==> t in s.tasks && Quiet(s).tasks[t] == s.tasks[t]
  {
  }

  lemma FewerTasks(s: State, s': State)
    requires IdsUsed(s) && Handles(s) && forall t :: t in s'.tasks ==> t in s.tasks && s'.tasks[t] == s.tasks[t]
    requires s'.runs == s.runs && s'.nextTask == s.nextTask
    ensures IdsUsed(s') && Handles(s')
    ensures Bounded(s) && s'.nextRun == s.nextRun ==> forall t :: t in s'.tasks ==> Names(s'.tasks[t], s'.nextRun)
  {
  }

  lemma StopAllDelivery(s: State)
    requires Ready(s)
    ensures Ready(StopAll(s)) && NothingDropped(s, StopAll(s))
  {
    hide SettleAll, FinalizeAll, Covered, Handles, IdsUsed, Armed, Names;
    var s1 := Quiet(s).(queue := []);
    QuietReady(s);
    SettleAllDelivery(s1, s.queue);
    var s2 := SettleAll(s1, s.queue);
    FinalizeAllDelivery(s2, s2.live);
  }

  // ---------------------------------------------------------- deliveries

  /** `recover`'s loop leaves nothing of its list uncovered. */
  lemma {:induction false} RecoverNextCovers(s: State, rest: seq<RunId>)
    requires Ready(s) && Below(rest, s.nextRun)
    ensures Keeps(s, RecoverNext(s, rest)) && RecoverNext(s, rest).finished == s.finished
    ensures forall r :: r in rest ==> Covered(RecoverNext(s, rest), r)
    decreases |rest|
  {
    hide MaybeStartNext;
    var s' := RecoverNext(s, rest);
    SameTasksKeeps(s, s);
    if rest != [] { BelowParts(rest, s.nextRun); }
    if rest == [] {
      RefillDelivery(s, s);
      RefillHistory(s);
    } else if s.Get(rest[0]).delivered {
      RecoverNextCovers(s, rest[1..]);
      assert Covered(s, rest[0]);
      assert forall r :: r in rest ==> r == rest[0] || r in rest[1..];
    } else {
      AddKeeps(s, Recovering(rest[0], rest[1..]));
      assert s'.tasks[s.nextTask] == Recovering(rest[0], rest[1..]);
      forall r | r in rest ensures HasDelivery(s', r) { assert r in [rest[0]] + rest[1..]; }
    }
  }

  lemma RefillHistory(s: State)
    ensures MaybeStartNext(s).finished == s.finished
  {
    FillLanesKeeps(s);
  }

  lemma {:induction false} DeliverAllCovers(s: State, rs: seq<RunId>)
    requires Ready(s) && Below(rs, s.nextRun)
    ensures Keeps(s, DeliverAll(s, rs)) && DeliverAll(s, rs).finished == s.finished
    ensures forall r :: r in rs ==> Covered(DeliverAll(s, rs), r)
    decreases |rs|
  {
    if rs == [] {
      SameTasksKeeps(s, s);
    } else {
      BelowParts(rs, s.nextRun);
      var s1 := if s.Get(rs[0]).delivered then s else s.Add(Delivering(rs[0]));
      SameTasksKeeps(s, s);
      AddKeeps(s, Delivering(rs[0]));
      assert Covered(s1, rs[0]) by {
        if !s.Get(rs[0]).delivered { assert s1.tasks[s.nextTask] == Delivering(rs[0]); }
      }
      DeliverAllCovers(s1, rs[1..]);
      KeepsTrans(s, s1, DeliverAll(s1, rs[1..]));
      assert forall r :: r in rs ==> r == rs[0] || r in rs[1..];
    }
  }

  /** Which runs the other pending tasks cover once task `t` has fired. */
  predicate Reports(task: Task, x: RunId) {
    task == Delivering(x) || (task.Recovering? && x in [task.run] + task.rest)
  }

  lemma DropDelivery(s: State, t: TaskId)
    requires Ready(s) && t in s.tasks && !s.tasks[t].OutcomeRetry? && !s.tasks[t].QueueRetry?
    ensures Ready(s.Drop(Some(t)))
    ensures forall r :: Covered(s, r) && !Reports(s.tasks[t], r) ==> Covered(s.Drop(Some(t)), r)
  {
    var s1 := s.Drop(Some(t));
    forall r | HasDelivery(s, r) && !Reports(s.tasks[t], r) ensures HasDelivery(s1, r) {
      var u :| u in s.tasks && (s.tasks[u] == Delivering(r) || (s.tasks[u].Recovering? && r in [s.tasks[u].run] + s.tasks[u].rest));
      assert Reports(s.tasks[u], r) && u in s1.tasks;
    }
  }

  lemma MarkedDelivery(s: State, r: RunId)
    requires r < s.nextRun
    ensures Keeps(s, Delivered(s, r)) && Delivered(s, r).Get(r).delivered
    ensures forall x :: x in Delivered(s, r).finished ==> x in s.finished
  {
    var s1 := s.Put(r, s.Get(r).(delivered := true));
    EditKeeps(s, r, s.Get(r).(delivered := true));
    PersistDelivery(s1);
    PersistKeeps(s1);
    KeepsTrans(s, s1, Persist(s1));
  }

  /** An answer to a delivery covers its run; a refusal covers everything. */
  lemma AnswerCovers(s: State, r: RunId, accepted: bool)
    requires Ready(s) && r < s.nextRun
    ensures var s' := if accepted then Delivered(s, r) else ScheduleOutcomeRetry(s);
            && Ready(s') && Covered(s', r) && s'.nextRun == s.nextRun
            && (forall x :: Covered(s, x) ==> Covered(s', x))
            && (forall x :: x in s'.finished ==> x in s.finished)
  {
    hide Delivered;
    MarkedDelivery(s, r);
    OutcomeRetryCovers(s);
  }

  lemma DeliveringCovered(s: State, t: TaskId, o: Outcome)
    requires Ready(s) && AllCovered(s) && s.recovered && t in s.tasks && s.tasks[t].Delivering? && (o.Accepted? || o.Rejected?)
    ensures Ready(Next(s, Fire(t, o))) && AllCovered(Next(s, Fire(t, o)))
  {
    hide Delivered, ScheduleOutcomeRetry;
    assert Names(s.tasks[t], s.nextRun);
    DropDelivery(s, t);
    var r := s.tasks[t].run;
    AnswerCovers(s.Drop(Some(t)), r, o.Accepted?);
    forall x | x in Next(s, Fire(t, o)).finished ensures Covered(Next(s, Fire(t, o)), x) {
      assert Covered(s, x) && (x != r ==> !Reports(s.tasks[t], x));
    }
  }

  lemma RecoveringCovered(s: State, t: TaskId, o: Outcome)
    requires Ready(s) && AllCovered(s) && s.recovered && t in s.tasks && s.tasks[t].Recovering? && (o.Accepted? || o.Rejected?)
    ensures Ready(Next(s, Fire(t, o))) && AllCovered(Next(s, Fire(t, o)))
  {
    hide Delivered, ScheduleOutcomeRetry, RecoverNext, Covered, Handles, IdsUsed, Armed;
    var r, rest := s.tasks[t].run, s.tasks[t].rest;
    assert Names(s.tasks[t], s.nextRun);
    var s1 := s.Drop(Some(t));
    DropDelivery(s, t);
    AnswerCovers(s1, r, o.Accepted?);
    var s2 := if o.Accepted? then Delivered(s1, r) else ScheduleOutcomeRetry(s1);
    RecoverNextCovers(s2, rest);
    assert forall x :: Reports(s.tasks[t], x) ==> x == r || x in rest;
  }

  lemma OutcomeRetryCovered(s: State, t: TaskId, o: Outcome)
    requires Ready(s) && t in s.tasks && s.tasks[t].OutcomeRetry? && o.Fired?
    ensures Ready(Next(s, Fire(t, o))) && AllCovered(Next(s, Fire(t, o)))
  {
    hide DeliverAll;
    var s1 := s.Drop(Some(t)).(outcomeTimer := None);
    assert Ready(s1);
    DeliverAllCovers(s1, s1.finished);
  }

  lemma QueueRetryCovered(s: State, t: TaskId, o: Outcome)
    requires Ready(s) && AllCovered(s) && s.recovered && t in s.tasks && s.tasks[t].QueueRetry? && o.Fired?
    ensures Ready(Next(s, Fire(t, o))) && AllCovered(Next(s, Fire(t, o)))
  {
    hide MaybeStartNext;
    var s1 := s.Drop(Some(t)).(queueTimer := None);
    assert Ready(s1);
    forall r | HasDelivery(s, r) ensures HasDelivery(s1, r) {
      var u :| u in s.tasks && (s.tasks[u] == Delivering(r) || (s.tasks[u].Recovering? && r in [s.tasks[u].run] + s.tasks[u].rest));
      assert u in s1.tasks;
    }
    SameTasksKeeps(s1, s1);
    RefillDelivery(s1, s1);
  }

  // ------------------------------------------------------------- every step

  lemma StartTaskDelivery(s: State, t: TaskId, task: Task, o: Outcome)
    requires Fits(task, o) && (task.Acquiring? || task.Unwinding?) && task.run < s.nextRun
    ensures Keeps(s, Continue(s, t, task, o))
  {
    hide StartSucceeded, StartFailed;
    var r := task.run;
    if o.Granted? {
      StartSucceededDelivery(s, r, o.spawned);
    } else if o.GrantedThenFailed? {
      SameTasksKeeps(s, s.(leases := s.leases + {r}));
      AddKeeps(s.(leases := s.leases + {r}), Unwinding(r, task.immediate, false));
      KeepsTrans(s, s.(leases := s.leases + {r}), Continue(s, t, task, o));
    } else if o.Refused? {
      AddKeeps(s, Unwinding(r, task.immediate, o.race));
      StartFailedDelivery(s, r, task.immediate, o.race);
    } else {
      SameTasksKeeps(s, Free(s, r, o.freed));
      StartFailedDelivery(Free(s, r, o.freed), r, task.immediate, task.race);
      KeepsTrans(s, Free(s, r, o.freed), Continue(s, t, task, o));
    }
  }

  lemma RunTaskDelivery(s: State, t: TaskId, task: Task, o: Outcome)
    requires Fits(task, o) && (task.LegWait? || task.Capturing? || task.Asking? || task.Releasing? || task.RunTimer())
    requires task.run < s.nextRun
    ensures Keeps(s, Continue(s, t, task, o))
  {
    hide LegDone, Park, Finalize, Asked, FinalizeEnd;
    SameTasksKeeps(s, s);
    match task
    case LegWait(r, attempt, resumed) => LegDoneDelivery(s, t, task, o.attached, o.result, o.respawned);
    case Capturing(r, text) =>
      if o.Captured? { ParkDelivery(s, r, text); } else { FinalizeDelivery(s, r, Error, ASK_TEXT, false); }
    case Asking(r) =>
      if o.Posted? { AskedDelivery(s, r, o.anchor); } else { FinalizeDelivery(s, r, Error, ASK_TEXT, false); }
    case Releasing(r, final, captureProof) =>
      SameTasksKeeps(s, Free(s, r, o.freed));
      FinalizeEndDelivery(Free(s, r, o.freed), r, final, captureProof, o.proofs);
      KeepsTrans(s, Free(s, r, o.freed), Continue(s, t, task, o));
    case HardTimer(r, leg) => FinalizeDelivery(s, r, Timeout, HARD_TIMEOUT_TEXT, false);
    case QuestionTimer(r) => FinalizeDelivery(s, r, Timeout, QUESTION_TIMEOUT_TEXT, false);
  }

  /** Firing anything but a delivery or a retry. */
  lemma OtherTaskDelivery(s: State, t: TaskId, o: Outcome)
    requires Ready(s) && t in s.tasks && Fits(s.tasks[t], o)
    requires var k := s.tasks[t]; !k.Delivering? && !k.Recovering? && !k.OutcomeRetry? && !k.QueueRetry?
    ensures Ready(Next(s, Fire(t, o))) && NothingDropped(s, Next(s, Fire(t, o)))
  {
    hide Continue, Admit;
    var task, s1 := s.tasks[t], s.Drop(Some(t));
    DropDelivery(s, t);
    assert Names(task, s.nextRun);
    assert forall r :: !Reports(task, r);
    if task.Admitting? { AdmittingDelivery(s1, t, o); }
    else if task.Acquiring? || task.Unwinding? { StartTaskDelivery(s1, t, task, o); }
    else { RunTaskDelivery(s1, t, task, o); }
  }

  lemma AdmittingDelivery(s: State, t: TaskId, o: Outcome)
    requires Ready(s) && o.Validated?
    ensures Ready(Continue(s, t, Admitting, o)) && NothingDropped(s, Continue(s, t, Admitting, o))
  {
    hide Admit;
    SameTasksKeeps(s, s);
    AdmitDelivery(s);
  }

  lemma FireCovered(s: State, t: TaskId, o: Outcome)
    requires Ready(s) && AllCovered(s) && s.recovered && t in s.tasks && Fits(s.tasks[t], o)
    ensures Ready(Next(s, Fire(t, o))) && AllCovered(Next(s, Fire(t, o)))
  {
    hide Next;
    var task := s.tasks[t];
    if task.Delivering? { DeliveringCovered(s, t, o); }
    else if task.Recovering? { RecoveringCovered(s, t, o); }
    else if task.OutcomeRetry? { OutcomeRetryCovered(s, t, o); }
    else if task.QueueRetry? { QueueRetryCovered(s, t, o); }
    else { OtherTaskDelivery(s, t, o); }
  }

  lemma {:induction false} AdoptReady(s: State, rs: seq<RunId>)
    requires Ready(s) && Below(rs, s.nextRun)
    ensures Ready(Adopt(s, rs)) && Adopt(s, rs).nextRun == s.nextRun
    decreases |rs|
  {
    if rs != [] {
      BelowParts(rs, s.nextRun);
      var s1 := s.Put(rs[0], Orphaned(s.Get(rs[0])));
      AdoptReady(s1.(finished := s1.finished + [rs[0]]), rs[1..]);
    }
  }

  /** `recover` leaves every undelivered run of the ledger with a delivery under way or to come. */
  lemma RecoverCovered(s: State)
    requires Ready(s)
    ensures Ready(Recover(s)) && AllCovered(Recover(s))
  {
    hide Adopt, Persist, RecoverNext;
    AdoptReady(s.(orphans := []), s.orphans);
    var s1 := Adopt(s.(orphans := []), s.orphans).(recovered := true);
    PersistDelivery(s1);
    var s2 := Persist(s1);
    RecoverNextCovers(s2, s2.finished);
  }

  lemma {:induction false} LoadedFrom(rows: seq<Row>)
    ensures forall r :: r in Loaded(rows) ==> exists i :: 0 <= i < |rows| && rows[i].id == r && rows[i].run == Loaded(rows)[r]
  {
    if rows != [] { LoadedFrom(rows[..|rows| - 1]); }
  }

  lemma CrashCovered(s: State)
    requires Ready(s)
    ensures Ready(Restart(s)) && AllCovered(Restart(s))
  {
    LoadedFrom(s.disk);
    Moves.IdsFrom(s.disk, true);
    Moves.IdsFrom(s.disk, false);
  }

  lemma AnswerDelivery(s: State, r: RunId, spawned: bool)
    requires Ready(s) && AllCovered(s) && s.recovered
    ensures r in s.live ==> Ready(ResumeParked(s, r, spawned)) && AllCovered(ResumeParked(s, r, spawned))
  {
    hide ResumeParked;
    if r in s.live {
      ResumeDelivery(s, r, spawned);
    }
  }

  lemma StopRunCovered(s: State, r: RunId, text: string)
    requires Ready(s) && AllCovered(s) && s.recovered
    ensures Ready(Stop(s, r, text)) && AllCovered(Stop(s, r, text))
  {
    hide SettleQueued, Finalize;
    if r in s.queue || r in s.live {
      StopDelivery(s, r, text);
    }
  }

  /** Coverage holds after every enabled step, stale screenshots included. */
  lemma CoveredStep(s: State, e: Event)
    requires Ready(s) && AllCovered(s) && Enabled(s, e)
    ensures Ready(Next(s, e)) && AllCovered(Next(s, e))
  {
    hide Continue, Stop, StopAll, Recover, Restart, ResumeParked;
    match e
    case Fire(t, o) => FireCovered(s, t, o);
    case StopRun(r, text) => StopRunCovered(s, r, text);
    case StopEverything => StopAllDelivery(s);
    case CallRecover => RecoverCovered(s);
    case Answer(r, spawned) => AnswerDelivery(s, r, spawned);
    case Steer(r, spawned) => AnswerDelivery(s, r, spawned);
    case Dispatch => AddKeeps(s, Admitting);
    case LeaseLost(r) => SameTasksKeeps(s, Next(s, e));
    case DiskFault(b) => SameTasksKeeps(s, Next(s, e));
    case Crash => CrashCovered(s);
  }

  lemma {:induction false} CoveredRun(s: State, es: seq<Event>)
    requires Ready(s) && AllCovered(s) && AllEnabled(s, es)
    ensures Ready(Execute(s, es)) && AllCovered(Execute(s, es))
    decreases |es|
  {
    hide Next, Enabled;
    if es != [] {
      CoveredStep(s, es[0]);
      CoveredRun(Next(s, es[0]), es[1..]);
    }
  }

  /**
   * In every reachable state of the running daemon, across crashes, restarts, disk faults and stale
   * screenshots: each run in the history is delivered, is being delivered, or is seen by a retry that
   * is pending, unless the daemon is stopping.
   */
  lemma CoveredAlways(cap: nat, es: seq<Event>, r: RunId)
    requires AllEnabled(Init(cap), es)
    ensures var s := Execute(Init(cap), es);
            s.recovered && r in s.finished && !s.stopping ==>
              || s.Get(r).delivered
              || (exists t :: t in s.tasks && Reports(s.tasks[t], r))
              || Retrying(s)
  {
    CoveredRun(Init(cap), es);
    var s := Execute(Init(cap), es);
    if HasDelivery(s, r) {
      var u :| u in s.tasks && (s.tasks[u] == Delivering(r) || (s.tasks[u].Recovering? && r in [s.tasks[u].run] + s.tasks[u].rest));
      assert Reports(s.tasks[u], r);
    }
  }
}
