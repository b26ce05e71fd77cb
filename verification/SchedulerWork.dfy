/**
 * Which computations and timers of a run each event begins: legs, screenshots, questions, releases and
 * the two timers.
 */
module SchedulerWork {
  import opened Wrappers
  import opened SchedulerState
  import opened SchedulerSteps
  import opened SchedulerEffects
  import opened SchedulerMoves
  import opened SchedulerPlaces
  import opened SchedulerRecords
  import Delivery = SchedulerDelivery
  import Safety = SchedulerSafety
  import Sync = SchedulerSync

  /** A computation or timer of a run that has been started. */
  predicate OfRun(task: Task) {
    Owned(task) && !StartTask(task)
  }

  /** The run gets a new child process. */
  predicate Launches(s: State, e: Event, x: RunId) {
    || ((e.Answer? || e.Steer?) && Resumes(s, e, x) && e.spawned)
    || (LeaseGranted(s, e, x) && e.outcome.spawned)
    || (LegExits(s, e, x) && !e.outcome.attached && e.outcome.respawned && s.tasks[e.task].attempt < 3)
  }

  /** The leg it runs: one more attempt after one without the browser tool, the first otherwise. */
  function NewLeg(s: State, e: Event, x: RunId): Task {
    if LegExits(s, e, x) then LegWait(x, s.tasks[e.task].attempt + 1, s.tasks[e.task].resumed)
    else LegWait(x, 1, Resumes(s, e, x))
  }

  /** The run gets its verdict, and a proof is asked for or not. */
  predicate Ends(s: State, e: Event, x: RunId, final: Phase, proof: bool) {
    if ReportOf(s, e, x).Some? && ReportOf(s, e, x).value.Completed? then
      final == Done && proof == ReportOf(s, e, x).value.proofApplicable
    else
      !proof && match final
                case Error =>
                  || (ReportOf(s, e, x).Some? && (ReportOf(s, e, x).value.Broken? || ReportOf(s, e, x).value.Failed?
                                                  || ReportOf(s, e, x).value == NeedsInput("")))
                  || NeverAttached(s, e, x) || SpawnFails(s, e, x) || AskFails(s, e, x)
                case Timeout => TimesOut(s, e, x)
                case Cancelled => Stops(s, e, x) && x in s.live
                case _ => false
  }

  /** The event begins this computation of its run. */
  predicate Begins(s: State, e: Event, task: Task)
    requires OfRun(task)
  {
    match task
    case LegWait(x, _, _) => Launches(s, e, x) && task == NewLeg(s, e, x)
    case HardTimer(x, leg) => Launches(s, e, x) && leg == s.nextTask
    case Capturing(x, question) => ReportOf(s, e, x) == Some(NeedsInput(question)) && question != ""
    case QuestionTimer(x) => Goes(s, e, x) && s.tasks[e.task].Capturing? && e.outcome.Captured?
    case Asking(x) => Goes(s, e, x) && s.tasks[e.task].Capturing? && e.outcome.Captured?
    case Releasing(x, final, proof) => Ends(s, e, x, final, proof) && (x in s.leases || LeaseGranted(s, e, x))
  }

  // -------------------------------------------------------- stretch by stretch

  /** The run computations that are new in `s'` are exactly `ks`, and only run timers may have gone. */
  ghost predicate Opens(s: State, s': State, ks: set<Task>) {
    && s.nextTask <= s'.nextTask
    && (forall t :: t in s'.tasks && OfRun(s'.tasks[t]) ==>
          (t in s.tasks && s'.tasks[t] == s.tasks[t]) || (s.nextTask <= t && s'.tasks[t] in ks))
    && (forall k :: k in ks ==> IsNew(s, s', k))
    && (IdsUsed(s) ==> IdsUsed(s'))
  }

  ghost predicate IsNew(s: State, s': State, k: Task) {
    exists t :: s.nextTask <= t && t in s'.tasks && s'.tasks[t] == k
  }

  lemma SameOpens(s: State, s': State)
    requires s'.tasks == s.tasks && s'.nextTask == s.nextTask
    ensures Opens(s, s', {})
  {
  }

  lemma PersistOpens(s: State)
    ensures Opens(s, Persist(s), {})
  {
    PersistKeeps(s);
  }

  lemma AddOpens(s: State, task: Task)
    ensures Opens(s, s.Add(task), if OfRun(task) then {task} else {})
  {
    var s' := s.Add(task);
    assert s'.tasks[s.nextTask] == task;
    if OfRun(task) { assert IsNew(s, s', task); }
  }

  lemma DropOpens(s: State, t: Option<TaskId>)
    ensures Opens(s, s.Drop(t), {})
  {
  }

  lemma OpensLater(s: State, m: State, s': State, ks: set<Task>)
    requires Opens(s, m, {}) && Opens(m, s', ks)
    ensures Opens(s, s', ks)
  {
    forall k | k in ks ensures IsNew(s, s', k) { assert IsNew(m, s', k); }
  }

  /** Everything there is stays. */
  ghost predicate Stays(s: State, s': State) {
    forall t :: t in s.tasks ==> t in s'.tasks && s'.tasks[t] == s.tasks[t]
  }

  lemma OpensEarlier(s: State, m: State, s': State, ks: set<Task>, more: set<Task>)
    requires Opens(s, m, ks) && Opens(m, s', more) && Stays(m, s')
    ensures Opens(s, s', ks + more)
  {
    forall k | k in ks + more ensures IsNew(s, s', k) {
      if k in ks { assert IsNew(s, m, k); } else { assert IsNew(m, s', k); }
    }
  }

  lemma SettleOpens(s: State, r: RunId)
    ensures Opens(s, Settle(s, r), {})
  {
    hide Persist;
    var s1 := s.(finished := s.finished + [r]);
    PersistOpens(s1);
    AddOpens(Persist(s1), Delivering(r));
    OpensLater(s1, Persist(s1), Settle(s, r), {});
  }

  lemma {:induction false} FillOpens(s: State)
    ensures Opens(s, FillLanes(s), {})
    decreases |s.queue|
  {
    hide Opens;
    if s.queue != [] && s.Busy() < s.cap {
      var s0 := s.(queue := s.queue[1..]);
      var s1 := StartDispatch(s0, s.queue[0], false);
      SameOpens(s, s0.(starting := Insert(s0.starting, s.queue[0])));
      AddOpens(s0.(starting := Insert(s0.starting, s.queue[0])), Acquiring(s.queue[0], false));
      OpensLater(s, s0.(starting := Insert(s0.starting, s.queue[0])), s1, {});
      FillOpens(s1);
      OpensLater(s, s1, FillLanes(s), {});
    } else {
      SameOpens(s, s);
    }
  }

  lemma RefillOpens(s: State)
    ensures Opens(s, MaybeStartNext(s), {})
  {
    hide FillLanes, Opens;
    SameOpens(s, s);
    FillOpens(s);
  }

  lemma EndOpens(s: State, r: RunId, final: Phase, proof: bool, proofs: nat)
    ensures Opens(s, FinalizeEnd(s, r, final, proof, proofs), {})
  {
    hide Settle, MaybeStartNext, Opens;
    var s1 := s.Put(r, Verified(s.Get(r), final, proof, proofs));
    var s2 := s1.(live := Without(s1.live, r));
    SameOpens(s, s2);
    SettleOpens(s2, r);
    OpensLater(s, s2, Settle(s2, r), {});
    RefillOpens(Settle(s2, r));
    OpensLater(s, Settle(s2, r), FinalizeEnd(s, r, final, proof, proofs), {});
  }

  lemma ConcludeOpens(s: State, r: RunId, final: Phase, text: string)
    ensures Opens(s, Conclude(s, r, final, text), {})
  {
  }

  /** `finalize` begins a release exactly if the run is undecided and holds its lease. */
  lemma FinalizeOpens(s: State, r: RunId, final: Phase, text: string, proof: bool)
    ensures Opens(s, Finalize(s, r, final, text, proof),
                  if s.Get(r).phase.Active() && r in s.leases then {Releasing(r, final, proof)} else {})
  {
    hide Conclude, FinalizeEnd, Opens;
    SameOpens(s, s);
    if s.Get(r).phase.Active() {
      var s1 := Conclude(s, r, final, text);
      ConcludeOpens(s, r, final, text);
      ConcludeWrites(s, r, final, text);
      if r in s.leases {
        AddOpens(s1, Releasing(r, final, proof));
        OpensLater(s, s1, s1.Add(Releasing(r, final, proof)), {Releasing(r, final, proof)});
      } else {
        EndOpens(s1, r, final, proof, s1.Get(r).proofFiles);
        OpensLater(s, s1, FinalizeEnd(s1, r, final, proof, s1.Get(r).proofFiles), {});
      }
    }
  }

  lemma ExecuteOpens(s: State, r: RunId, attempt: nat, resumed: bool, spawned: bool)
    requires s.Get(r).phase.Active()
    ensures Opens(s, ExecuteLeg(s, r, attempt, resumed, spawned),
                  if spawned then {LegWait(r, attempt, resumed), HardTimer(r, s.nextTask)}
                  else if r in s.leases then {Releasing(r, Error, false)} else {})
  {
    hide Finalize;
    if spawned {
      var s1 := s.Add(LegWait(r, attempt, resumed));
      var s' := ExecuteLeg(s, r, attempt, resumed, true);
      assert s'.tasks[s.nextTask] == LegWait(r, attempt, resumed) && s'.tasks[s.nextTask + 1] == HardTimer(r, s.nextTask);
      assert IsNew(s, s', LegWait(r, attempt, resumed)) && IsNew(s, s', HardTimer(r, s.nextTask));
    } else {
      FinalizeOpens(s, r, Error, SPAWN_TEXT, false);
    }
  }

  /** What a launch begins. */
  function Legs(s: State, r: RunId, attempt: nat, resumed: bool, spawned: bool, held: bool): set<Task> {
    if spawned then {LegWait(r, attempt, resumed), HardTimer(r, s.nextTask)}
    else if held then {Releasing(r, Error, false)} else {}
  }

  lemma SpawnOpens(s: State, r: RunId, resumed: bool, spawned: bool)
    ensures Opens(s, SpawnLeg(s, r, resumed, spawned), Legs(s, r, 1, resumed, spawned, r in s.leases))
  {
    hide Persist, ExecuteLeg, Opens;
    var s0 := s.Put(r, s.Get(r).(phase := Running, question := None, anchor := None));
    var s1 := Relaunch(s, r);
    SameOpens(s, s0);
    PersistOpens(s0);
    PersistKeeps(s0);
    OpensLater(s, s0, s1, {});
    ExecuteOpens(s1, r, 1, resumed, spawned);
    OpensLater(s, s1, SpawnLeg(s, r, resumed, spawned), Legs(s, r, 1, resumed, spawned, r in s.leases));
  }

  lemma ResumeOpens(s: State, r: RunId, spawned: bool)
    ensures Opens(s, ResumeParked(s, r, spawned), Legs(s, r, 1, true, spawned, r in s.leases))
  {
    hide SpawnLeg;
    SpawnOpens(Unpark(s, r), r, true, spawned);
    OpensLater(s, Unpark(s, r), ResumeParked(s, r, spawned), Legs(s, r, 1, true, spawned, r in s.leases));
  }

  /** What an honoured report begins. */
  function Reported(r: RunId, o: LegResult, held: bool): set<Task> {
    match o
    case NeedsInput(question) =>
      if question != "" then {Capturing(r, question)} else if held then {Releasing(r, Error, false)} else {}
    case Completed(_, proof) => if held then {Releasing(r, Done, proof)} else {}
    case _ => if held then {Releasing(r, Error, false)} else {}
  }

  lemma HonourOpens(s: State, r: RunId, o: LegResult)
    requires s.Get(r).phase.Active()
    ensures Opens(s, ApplyLegOutcome(s, r, o), Reported(r, o, r in s.leases))
  {
    hide Finalize, Opens;
    match o
    case Broken(text) => FinalizeOpens(s, r, Error, text, false);
    case NeedsInput(q) =>
      if q == "" { FinalizeOpens(s, r, Error, NO_QUESTION_TEXT, false); } else { AddOpens(s, Capturing(r, q)); }
    case Failed(text) => FinalizeOpens(s, r, Error, text, false);
    case Completed(text, proof) => FinalizeOpens(s, r, Done, text, proof);
  }

  /** What the exit of a leg that was waited for begins. */
  function Exit(s: State, leg: Task, attached: bool, o: LegResult, respawned: bool): set<Task>
    requires leg.LegWait?
  {
    var held := leg.run in s.leases;
    if attached then Reported(leg.run, o, held)
    else if leg.attempt >= 3 then (if held then {Releasing(leg.run, Error, false)} else {})
    else Legs(s, leg.run, leg.attempt + 1, leg.resumed, respawned, held)
  }

  lemma ExitOpens(s: State, leg: Task, attached: bool, o: LegResult, respawned: bool)
    requires leg.LegWait? && s.Get(leg.run).phase.Active()
    ensures Opens(s, AfterLeg(s, leg, attached, o, respawned), Exit(s, leg, attached, o, respawned))
  {
    hide Finalize, ExecuteLeg, ApplyLegOutcome, Opens;
    if attached { HonourOpens(s, leg.run, o); }
    else if leg.attempt >= LEG_MAX_ATTEMPTS { FinalizeOpens(s, leg.run, Error, ATTACH_TEXT, false); }
    else { ExecuteOpens(s, leg.run, leg.attempt + 1, leg.resumed, respawned); }
  }

  lemma LegOpens(s: State, t: TaskId, leg: Task, attached: bool, o: LegResult, respawned: bool)
    requires leg.LegWait?
    ensures Opens(s, LegDone(s, t, leg, attached, o, respawned),
                  if s.Get(leg.run).phase.Running? && s.Get(leg.run).child == Some(t)
                  then Exit(s, leg, attached, o, respawned) else {})
  {
    hide AfterLeg, Exit;
    SameOpens(s, s);
    if s.Get(leg.run).phase.Running? && s.Get(leg.run).child == Some(t) {
      var s1 := Reap(s, leg.run);
      ExitOpens(s1, leg, attached, o, respawned);
      SameExit(s, s1, leg, attached, o, respawned);
      OpensLater(s, s1, AfterLeg(s1, leg, attached, o, respawned), Exit(s, leg, attached, o, respawned));
    }
  }

  lemma SameExit(s: State, s1: State, leg: Task, attached: bool, o: LegResult, respawned: bool)
    requires leg.LegWait? && s1.leases == s.leases && s1.nextTask == s.nextTask
    ensures Exit(s1, leg, attached, o, respawned) == Exit(s, leg, attached, o, respawned)
  {
  }

  lemma ParkOpens(s: State, r: RunId, text: string)
    ensures Opens(s, Park(s, r, text), {QuestionTimer(r), Asking(r)})
  {
    hide Persist;
    var s1 := s.Add(QuestionTimer(r));
    var s2 := s1.Put(r, s1.Get(r).(phase := Waiting, question := Some(text), questionTimer := Some(s.nextTask)));
    PersistKeeps(s2);
    var s' := Park(s, r, text);
    assert s'.tasks[s.nextTask] == QuestionTimer(r) && s'.tasks[s.nextTask + 1] == Asking(r);
    assert IsNew(s, s', QuestionTimer(r)) && IsNew(s, s', Asking(r));
  }

  lemma AskedOpens(s: State, r: RunId, anchor: string)
    ensures Opens(s, Asked(s, r, anchor), {})
  {
    hide Persist;
    PersistKeeps(s.Put(r, s.Get(r).(anchor := Some(anchor))));
  }

  // ------------------------------------------------------------------ starts

  lemma SettleQueuedOpens(s: State, r: RunId, final: Phase, text: string)
    ensures Opens(s, SettleQueued(s, r, final, text), {})
  {
    hide Settle, Opens;
    var s1 := s.Put(r, s.Get(r).(phase := final, result := Some(text)));
    SameOpens(s, s1);
    SettleOpens(s1, r);
    OpensLater(s, s1, Settle(s1, r), {});
  }

  lemma StartFailedOpens(s: State, r: RunId, immediate: bool, race: bool)
    ensures Opens(s, StartFailed(s, r, immediate, race), {})
  {
    hide Persist, SettleQueued, MaybeStartNext, Opens;
    var s1 := s.(starting := Without(s.starting, r));
    SameOpens(s, s1);
    if race {
      var s2 := s1.(queue := if immediate then s1.queue + [r] else [r] + s1.queue);
      SameOpens(s, s2);
      PersistOpens(s2);
      OpensLater(s, s2, Persist(s2), {});
      RetryOpens(Persist(s2));
      OpensLater(s, Persist(s2), ScheduleQueueRetry(Persist(s2)), {});
    } else {
      var s2 := SettleQueued(s1, r, Error, START_TEXT);
      SettleQueuedOpens(s1, r, Error, START_TEXT);
      OpensLater(s, s1, s2, {});
      RefillOpens(s2);
      OpensLater(s, s2, MaybeStartNext(s2), {});
    }
  }

  lemma RetryOpens(s: State)
    ensures Opens(s, ScheduleQueueRetry(s), {}) && Opens(s, ScheduleOutcomeRetry(s), {})
  {
  }

  lemma StartOpens(s: State, r: RunId, spawned: bool)
    ensures Opens(s, StartSucceeded(s, r, spawned), Legs(s, r, 1, false, spawned, true))
  {
    hide SpawnLeg, Opens;
    SameOpens(s, GoLive(s, r));
    SpawnOpens(GoLive(s, r), r, false, spawned);
    OpensLater(s, GoLive(s, r), StartSucceeded(s, r, spawned), Legs(s, r, 1, false, spawned, true));
  }

  // -------------------------------------------------------------- shutdown

  lemma {:induction false} SettleAllOpens(s: State, rs: seq<RunId>)
    ensures Opens(s, SettleAll(s, rs), {})
    decreases |rs|
  {
    hide SettleQueued, Opens;
    if rs == [] {
      SameOpens(s, s);
    } else {
      var s1 := MarkRestart(s, rs[0]);
      var s2 := SettleQueued(s1, rs[0], Cancelled, RESTART_TEXT);
      SameOpens(s, s1);
      SettleQueuedOpens(s1, rs[0], Cancelled, RESTART_TEXT);
      OpensLater(s, s1, s2, {});
      SettleAllOpens(s2, rs[1..]);
      OpensLater(s, s2, SettleAll(s2, rs[1..]), {});
    }
  }

  /** The timers of these runs are older than `from`. */
  ghost predicate OldTimers(s: State, rs: seq<RunId>, from: TaskId) {
    && (forall r :: r in rs ==> s.Get(r).hardTimer.Some? ==> s.Get(r).hardTimer.value < from)
    && (forall r :: r in rs ==> s.Get(r).questionTimer.Some? ==> s.Get(r).questionTimer.value < from)
  }

  /** What is at least as young as `from` stays. */
  ghost predicate YoungStay(s: State, s': State, from: TaskId) {
    forall t :: from <= t && t in s.tasks ==> t in s'.tasks && s'.tasks[t] == s.tasks[t]
  }

  /** Releases that shutdown begins for these runs. */
  function Releases(s: State, rs: seq<RunId>): set<Task> {
    set r | r in rs && s.Get(r).phase.Active() && r in s.leases :: Releasing(r, Cancelled, false)
  }

  lemma ConcludeYoung(s: State, r: RunId, final: Phase, text: string, from: TaskId)
    requires OldTimers(s, [r], from)
    ensures YoungStay(s, Conclude(s, r, final, text), from)
  {
    assert r in [r];
  }

  lemma EndYoung(s: State, r: RunId, final: Phase, proof: bool, proofs: nat, from: TaskId)
    requires IdsUsed(s)
    ensures YoungStay(s, FinalizeEnd(s, r, final, proof, proofs), from)
  {
    hide Settle, FillLanes;
    var s1 := s.Put(r, Verified(s.Get(r), final, proof, proofs));
    var s2 := s1.(live := Without(s1.live, r));
    SettleYoung(s2, r);
    SettleOpens(s2, r);
    FillYoung(Settle(s2, r));
  }

  lemma SettleYoung(s: State, r: RunId)
    requires IdsUsed(s)
    ensures Stays(s, Settle(s, r)) && IdsUsed(Settle(s, r))
  {
    hide Persist;
    PersistKeeps(s.(finished := s.finished + [r]));
  }

  lemma {:induction false} FillYoung(s: State)
    requires IdsUsed(s)
    ensures Stays(s, FillLanes(s))
    decreases |s.queue|
  {
    if s.queue != [] && s.Busy() < s.cap {
      FillYoung(StartDispatch(s.(queue := s.queue[1..]), s.queue[0], false));
    }
  }

  lemma FinalizeYoung(s: State, r: RunId, text: string, from: TaskId)
    requires IdsUsed(s) && OldTimers(s, [r], from)
    ensures YoungStay(s, Finalize(s, r, Cancelled, text, false), from)
  {
    hide Conclude, FinalizeEnd;
    if s.Get(r).phase.Active() {
      var s1 := Conclude(s, r, Cancelled, text);
      ConcludeOpens(s, r, Cancelled, text);
      ConcludeYoung(s, r, Cancelled, text, from);
      EndYoung(s1, r, Cancelled, false, s1.Get(r).proofFiles, from);
    }
  }

  lemma ConcludeTimers(s: State, r: RunId, final: Phase, text: string, rs: seq<RunId>, from: TaskId)
    requires OldTimers(s, rs, from)
    ensures OldTimers(Conclude(s, r, final, text), rs, from) && r in Conclude(s, r, final, text).runs
  {
  }

  /** Timers of other runs are as they were, and a finalized run has none. */
  lemma FinalizeTimers(s: State, r: RunId, text: string, rs: seq<RunId>, from: TaskId)
    requires OldTimers(s, rs, from)
    ensures OldTimers(Finalize(s, r, Cancelled, text, false), rs, from)
  {
    hide Conclude, FinalizeEnd;
    if s.Get(r).phase.Active() {
      var s1 := Conclude(s, r, Cancelled, text);
      ConcludeTimers(s, r, Cancelled, text, rs, from);
      Safety.FinalizeEndKeeps(s1, r, Cancelled, false, s1.Get(r).proofFiles);
    }
  }

  lemma {:induction false} FinalizeAllOpens(s: State, rs: seq<RunId>, from: TaskId)
    requires IdsUsed(s) && from <= s.nextTask && OldTimers(s, rs, from) && Distinct(rs)
    ensures Opens(s, FinalizeAll(s, rs), Releases(s, rs))
    ensures YoungStay(s, FinalizeAll(s, rs), from)
    decreases |rs|
  {
    hide Finalize, Opens;
    if rs == [] {
      SameOpens(s, s);
      assert Releases(s, rs) == {};
    } else {
      var r, rest := rs[0], rs[1..];
      var s1 := MarkRestart(s, r);
      var s2 := Finalize(s1, r, Cancelled, RESTART_TEXT, false);
      var first := if s1.Get(r).phase.Active() && r in s1.leases then {Releasing(r, Cancelled, false)} else {};
      SameOpens(s, s1);
      FinalizeOpens(s1, r, Cancelled, RESTART_TEXT, false);
      OpensLater(s, s1, s2, first);
      OldTimersParts(s, rs, from);
      FinalizeTimers(s1, r, RESTART_TEXT, rest, from);
      FinalizeYoung(s1, r, RESTART_TEXT, from);
      OpensIds(s, s2, first);
      FinalizeAllOpens(s2, rest, from);
      ReleasesParts(s, s2, rs);
      OpensBoth(s, s2, FinalizeAll(s2, rest), first, Releases(s2, rest), from);
    }
  }

  lemma OldTimersParts(s: State, rs: seq<RunId>, from: TaskId)
    requires rs != [] && OldTimers(s, rs, from)
    ensures OldTimers(MarkRestart(s, rs[0]), [rs[0]], from) && OldTimers(MarkRestart(s, rs[0]), rs[1..], from)
  {
    assert rs[0] in rs && forall r :: r in rs[1..] ==> r in rs;
  }

  lemma OpensIds(s: State, s': State, ks: set<Task>)
    requires Opens(s, s', ks) && IdsUsed(s)
    ensures IdsUsed(s') && s.nextTask <= s'.nextTask
  {
  }

  lemma OthersStay(s: State, r: RunId)
    ensures var s2 := Finalize(MarkRestart(s, r), r, Cancelled, RESTART_TEXT, false);
            s2.leases == s.leases && forall x: RunId :: x != r ==> s2.Get(x).phase == s.Get(x).phase
  {
    var s1 := MarkRestart(s, r);
    FinalizeWrites(s1, r, Cancelled, RESTART_TEXT, false);
    hide Finalize, Judged, Succeeds;
    var s2 := Finalize(s1, r, Cancelled, RESTART_TEXT, false);
    forall x: RunId | x != r ensures s2.Get(x).phase == s.Get(x).phase {
      assert Durable(s2.Get(x)).phase == Durable(s1.Get(x)).phase;
    }
  }

  lemma ReleasesCons(s: State, r: RunId, rest: seq<RunId>)
    ensures Releases(s, [r] + rest)
            == (if s.Get(r).phase.Active() && r in s.leases then {Releasing(r, Cancelled, false)} else {}) + Releases(s, rest)
  {
  }

  lemma ReleasesSame(s: State, s2: State, rs: seq<RunId>)
    requires s2.leases == s.leases && forall x: RunId :: x in rs ==> s2.Get(x).phase == s.Get(x).phase
    ensures Releases(s2, rs) == Releases(s, rs)
  {
  }

  /** Settling the first run leaves the others as they are. */
  lemma ReleasesParts(s: State, s2: State, rs: seq<RunId>)
    requires rs != [] && Distinct(rs) && s2 == Finalize(MarkRestart(s, rs[0]), rs[0], Cancelled, RESTART_TEXT, false)
    ensures var r := rs[0];
            Releases(s, rs) == (if s.Get(r).phase.Active() && r in s.leases then {Releasing(r, Cancelled, false)} else {}) + Releases(s2, rs[1..])
  {
    OthersStay(s, rs[0]);
    hide Finalize, Releases;
    assert rs == [rs[0]] + rs[1..];
    ReleasesCons(s, rs[0], rs[1..]);
    ReleasesSame(s, s2, rs[1..]);
  }

  lemma OpensBoth(s: State, m: State, s': State, ks: set<Task>, more: set<Task>, from: TaskId)
    requires Opens(s, m, ks) && Opens(m, s', more) && YoungStay(m, s', from) && from <= s.nextTask
    ensures Opens(s, s', ks + more)
  {
    forall k | k in ks + more ensures IsNew(s, s', k) {
      if k in ks {
        assert IsNew(s, m, k);
        var t :| s.nextTask <= t && t in m.tasks && m.tasks[t] == k;
        assert t in s'.tasks && s'.tasks[t] == k;
      } else {
        assert IsNew(m, s', k);
      }
    }
  }

  /** The queue is settled; what is live is as it was. */
  lemma QueueStage(s: State, s1: State, s2: State)
    requires Delivery.Ready(s) && LaneInv(s) && s1 == Quiet(s).(queue := []) && s2 == SettleAll(s1, s.queue)
    ensures Opens(s, s2, {}) && IdsUsed(s2) && s.nextTask <= s2.nextTask && s2.live == s.live
    ensures OldTimers(s2, s.live, s.nextTask) && Releases(s2, s.live) == Releases(s, s.live)
  {
    QuietOpens(s, s1);
    SettleAllOpens(s1, s.queue);
    SettleAllWrites(s1, s.queue);
    SettleAllTimers(s1, s.queue, s.live, s.nextTask);
    hide Opens, Quiet, SettleAll, OldTimers, Delivery.Ready, LaneInv;
    OpensLater(s, s1, s2, {});
    OpensIds(s, s2, {});
    assert forall x: RunId :: s1.Get(x) == s.Get(x);
    SameReleases(s, s2);
  }

  lemma StopAllOpens(s: State)
    requires Delivery.Ready(s) && LaneInv(s)
    ensures Opens(s, StopAll(s), Releases(s, s.live))
  {
    var s1 := Quiet(s).(queue := []);
    var s2 := SettleAll(s1, s.queue);
    QueueStage(s, s1, s2);
    assert Distinct(s.live);
    hide Opens, Quiet, SettleAll, FinalizeAll, OldTimers, Releases, Delivery.Ready, LaneInv;
    FinalizeAllOpens(s2, s.live, s.nextTask);
    OpensLater(s, s2, FinalizeAll(s2, s.live), Releases(s, s.live));
    StopAllIs(s);
  }

  lemma StopAllIs(s: State)
    ensures StopAll(s) == FinalizeAll(SettleAll(Quiet(s).(queue := []), s.queue), s.live)
  {
    var s1 := Quiet(s).(queue := []);
    assert s1.live == s.live;
    hide FinalizeAll, SettleAll, Quiet;
    SettleAllWrites(s1, s.queue);
    assert Quiet(s).queue == s.queue;
  }

  lemma ReadyTimers(s: State, s1: State)
    requires Delivery.Ready(s) && s1.runs == s.runs
    ensures OldTimers(s1, s.live, s.nextTask) && IdsUsed(s)
  {
    hide Delivery.Bounded, Delivery.Armed;
    forall r | r in s.live ensures r in s.runs ==> Delivery.TimerAt(s, s.runs[r].hardTimer) && Delivery.TimerAt(s, s.runs[r].questionTimer) { }
  }

  lemma QuietOpens(s: State, s1: State)
    requires Delivery.Ready(s) && s1 == Quiet(s).(queue := [])
    ensures Opens(s, s1, {}) && s1.runs == s.runs && s1.leases == s.leases && s1.live == s.live
    ensures OldTimers(s1, s.live, s.nextTask) && IdsUsed(s)
  {
    ReadyTimers(s, s1);
    hide Delivery.Ready, OldTimers;
  }

  lemma {:induction false} SettleAllTimers(s: State, rs: seq<RunId>, live: seq<RunId>, from: TaskId)
    requires OldTimers(s, live, from)
    ensures OldTimers(SettleAll(s, rs), live, from)
    decreases |rs|
  {
    hide Settle;
    if rs != [] {
      var r, s1 := rs[0], MarkRestart(s, rs[0]);
      var s2 := s1.Put(r, s1.Get(r).(phase := Cancelled, result := Some(RESTART_TEXT)));
      Safety.SettleKeeps(s2, r);
      assert OldTimers(Settle(s2, r), live, from);
      SettleAllTimers(Settle(s2, r), rs[1..], live, from);
    }
  }

  lemma SameReleases(s: State, s2: State)
    requires LaneInv(s) && s2.leases == s.leases
    requires forall x: RunId :: Durable(s2.Get(x)) == if x in s.queue then Swept(Durable(s.Get(x))) else Durable(s.Get(x))
    ensures Releases(s2, s.live) == Releases(s, s.live)
  {
    forall x | x in s.live ensures s2.Get(x).phase == s.Get(x).phase {
      assert Durable(s2.Get(x)).phase == Durable(s.Get(x)).phase;
    }
    ReleasesSame(s, s2, s.live);
  }

  // ----------------------------------------------------------- event by event

  /**
   * The run computations of `s'` are those of `s`, without any that ended, and exactly the ones that the
   * event begins, under new ids.
   */
  ghost predicate Works(s: State, e: Event, s': State) {
    && (forall t :: t in s'.tasks && OfRun(s'.tasks[t]) ==>
          (t in s.tasks && s'.tasks[t] == s.tasks[t]) || (s.nextTask <= t && Begins(s, e, s'.tasks[t])))
    && (forall k :: OfRun(k) && Begins(s, e, k) ==> IsNew(s, s', k))
  }

  /** `ks` are the computations that the event begins. */
  ghost predicate Exactly(s: State, e: Event, ks: set<Task>) {
    forall k :: k in ks <==> OfRun(k) && Begins(s, e, k)
  }

  lemma OpensWork(s: State, e: Event, s': State, ks: set<Task>)
    requires Opens(s, s', ks) && Exactly(s, e, ks)
    ensures Works(s, e, s')
  {
    hide Begins;
  }

  lemma OpensAfter(s: State, t: TaskId, s': State, ks: set<Task>)
    requires Opens(s.Drop(Some(t)), s', ks)
    ensures Opens(s, s', ks)
  {
    hide Opens;
    DropOpens(s, Some(t));
    OpensLater(s, s.Drop(Some(t)), s', ks);
  }

  /** What the continuation of a fired task begins is what the event begins. */
  lemma FireWorks(s: State, t: TaskId, o: Outcome, ks: set<Task>)
    requires t in s.tasks && Fits(s.tasks[t], o) && Exactly(s, Fire(t, o), ks)
    requires Opens(s.Drop(Some(t)), Continue(s.Drop(Some(t)), t, s.tasks[t], o), ks)
    ensures Works(s, Fire(t, o), Next(s, Fire(t, o)))
  {
    hide Opens, Exactly, Works, Continue;
    OpensAfter(s, t, Next(s, Fire(t, o)), ks);
    OpensWork(s, Fire(t, o), Next(s, Fire(t, o)), ks);
  }

  lemma LegBegins(s: State, t: TaskId, o: Outcome)
    requires t in s.tasks && Fits(s.tasks[t], o) && s.tasks[t].LegWait?
    ensures Works(s, Fire(t, o), Next(s, Fire(t, o)))
  {
    var s1, leg := s.Drop(Some(t)), s.tasks[t];
    var ks := if s.Get(leg.run).phase.Running? && s.Get(leg.run).child == Some(t) then Exit(s1, leg, o.attached, o.result, o.respawned) else {};
    LegOpens(s1, t, leg, o.attached, o.result, o.respawned);
    LegExactly(s, t, o);
    hide LegDone, Opens, Exactly, Exit, Works, Next;
    FireWorks(s, t, o, ks);
  }

  lemma LegExactly(s: State, t: TaskId, o: Outcome)
    requires t in s.tasks && Fits(s.tasks[t], o) && s.tasks[t].LegWait?
    ensures var leg := s.tasks[t];
            Exactly(s, Fire(t, o),
                    if s.Get(leg.run).phase.Running? && s.Get(leg.run).child == Some(t)
                    then Exit(s.Drop(Some(t)), leg, o.attached, o.result, o.respawned) else {})
  {
  }

  lemma QuestionOpens(s: State, t: TaskId, task: Task, o: Outcome)
    requires Fits(task, o) && (task.Capturing? || task.Asking?)
    ensures Opens(s, Continue(s, t, task, o), QuestionWork(s, task, o))
  {
    hide Opens, Park, Asked, Finalize;
    if o.Captured? { ParkOpens(s, task.run, task.text); }
    else if o.Posted? { AskedOpens(s, task.run, o.anchor); }
    else { FinalizeOpens(s, task.run, Error, ASK_TEXT, false); }
  }

  lemma QuestionBegins(s: State, t: TaskId, o: Outcome)
    requires t in s.tasks && Fits(s.tasks[t], o) && (s.tasks[t].Capturing? || s.tasks[t].Asking?)
    ensures Works(s, Fire(t, o), Next(s, Fire(t, o)))
  {
    hide Opens, Exactly, Works, Next, Continue, QuestionWork;
    QuestionExactly(s, t, o);
    QuestionOpens(s.Drop(Some(t)), t, s.tasks[t], o);
    FireWorks(s, t, o, QuestionWork(s.Drop(Some(t)), s.tasks[t], o));
  }

  function QuestionWork(s: State, task: Task, o: Outcome): set<Task>
    requires task.Capturing? || task.Asking?
  {
    if o.Captured? then {QuestionTimer(task.run), Asking(task.run)}
    else if o.Rejected? && s.Get(task.run).phase.Active() && task.run in s.leases then {Releasing(task.run, Error, false)}
    else {}
  }

  lemma QuestionExactly(s: State, t: TaskId, o: Outcome)
    requires t in s.tasks && Fits(s.tasks[t], o) && (s.tasks[t].Capturing? || s.tasks[t].Asking?)
    ensures Exactly(s, Fire(t, o), QuestionWork(s.Drop(Some(t)), s.tasks[t], o))
  {
  }

  lemma TimerOpens(s: State, t: TaskId, task: Task, o: Outcome)
    requires Fits(task, o) && task.RunTimer()
    ensures Opens(s, Continue(s, t, task, o),
                  if s.Get(task.run).phase.Active() && task.run in s.leases
                     && (task.HardTimer? ==> s.Get(task.run).phase.Running? && s.Get(task.run).child == Some(task.leg))
                  then {Releasing(task.run, Timeout, false)} else {})
  {
    hide Opens, Finalize;
    SameOpens(s, s);
    if task.HardTimer? { FinalizeOpens(s, task.run, Timeout, HARD_TIMEOUT_TEXT, false); }
    else { FinalizeOpens(s, task.run, Timeout, QUESTION_TIMEOUT_TEXT, false); }
  }

  lemma TimerBegins(s: State, t: TaskId, o: Outcome)
    requires t in s.tasks && Fits(s.tasks[t], o) && s.tasks[t].RunTimer()
    ensures Works(s, Fire(t, o), Next(s, Fire(t, o)))
  {
    var ks := TimerWork(s, Fire(t, o), s.tasks[t].run);
    hide Opens, Exactly, Works, Next, Continue;
    TimerExactly(s, t, o);
    TimerOpens(s.Drop(Some(t)), t, s.tasks[t], o);
    FireWorks(s, t, o, ks);
  }

  function TimerWork(s: State, e: Event, x: RunId): set<Task> {
    if TimesOut(s, e, x) && x in s.leases then {Releasing(x, Timeout, false)} else {}
  }

  lemma TimerExactly(s: State, t: TaskId, o: Outcome)
    requires t in s.tasks && Fits(s.tasks[t], o) && s.tasks[t].RunTimer()
    ensures Exactly(s, Fire(t, o), TimerWork(s, Fire(t, o), s.tasks[t].run))
  {
  }

  /** Releases, starts that are not granted and the daemon's own tasks begin nothing of a started run. */
  lemma NothingExactly(s: State, e: Event)
    requires e.Fire? ==> e.task in s.tasks && Fits(s.tasks[e.task], e.outcome)
                         && (s.tasks[e.task].Releasing? || !OfRun(s.tasks[e.task])) && !e.outcome.Granted?
    requires !e.StopEverything? && !e.StopRun?
    requires e.Answer? || e.Steer? ==> !Resumes(s, e, e.run)
    ensures Exactly(s, e, {})
  {
  }

  lemma QuietBegins(s: State, t: TaskId, o: Outcome)
    requires t in s.tasks && Fits(s.tasks[t], o) && (s.tasks[t].Releasing? || !OfRun(s.tasks[t])) && !o.Granted?
    ensures Works(s, Fire(t, o), Next(s, Fire(t, o)))
  {
    hide Opens, Exactly, Works, Next, Continue;
    NothingExactly(s, Fire(t, o));
    QuietOpensNothing(s.Drop(Some(t)), t, s.tasks[t], o);
    FireWorks(s, t, o, {});
  }

  lemma QuietOpensNothing(s: State, t: TaskId, task: Task, o: Outcome)
    requires Fits(task, o) && (task.Releasing? || !OfRun(task)) && !o.Granted?
    ensures Opens(s, Continue(s, t, task, o), {})
  {
    hide Opens, FinalizeEnd, StartFailed, Admit, Delivered, ScheduleOutcomeRetry, RecoverNext, DeliverAll, MaybeStartNext, Finalize, LegDone, StartSucceeded;
    SameOpens(s, s);
    match task
    case Releasing(r, final, proof) => FreeOpens(s, r, o.freed); EndOpens(Free(s, r, o.freed), r, final, proof, o.proofs);
      OpensLater(s, Free(s, r, o.freed), Continue(s, t, task, o), {});
    case Unwinding(r, immediate, race) => FreeOpens(s, r, o.freed); StartFailedOpens(Free(s, r, o.freed), r, immediate, race);
      OpensLater(s, Free(s, r, o.freed), Continue(s, t, task, o), {});
    case Acquiring(r, immediate) => HalfTakenOpens(s, r, immediate, o);
    case Admitting => AdmitOpens(s);
    case Delivering(r) => MarkedOpens(s, r, o.Accepted?);
    case Recovering(r, rest) =>
      var m := if o.Accepted? then Delivered(s, r) else ScheduleOutcomeRetry(s);
      MarkedOpens(s, r, o.Accepted?);
      RecoverNextOpens(m, rest);
      OpensLater(s, m, RecoverNext(m, rest), {});
    case OutcomeRetry =>
      SameOpens(s, s.(outcomeTimer := None));
      DeliverAllOpens(s.(outcomeTimer := None), s.finished);
      OpensLater(s, s.(outcomeTimer := None), Continue(s, t, task, o), {});
    case QueueRetry =>
      SameOpens(s, s.(queueTimer := None));
      RefillOpens(s.(queueTimer := None));
      OpensLater(s, s.(queueTimer := None), Continue(s, t, task, o), {});
  }

  lemma FreeOpens(s: State, r: RunId, freed: bool)
    ensures Opens(s, Free(s, r, freed), {})
  {
  }

  lemma HalfTakenOpens(s: State, r: RunId, immediate: bool, o: Outcome)
    requires o.GrantedThenFailed? || o.Refused?
    ensures Opens(s, if o.GrantedThenFailed? then s.(leases := s.leases + {r}).Add(Unwinding(r, immediate, false))
                     else if r in s.leases then s.Add(Unwinding(r, immediate, o.race))
                     else StartFailed(s, r, immediate, o.race), {})
  {
    hide Opens, StartFailed;
    if o.GrantedThenFailed? {
      SameOpens(s, s.(leases := s.leases + {r}));
      AddOpens(s.(leases := s.leases + {r}), Unwinding(r, immediate, false));
      OpensLater(s, s.(leases := s.leases + {r}), s.(leases := s.leases + {r}).Add(Unwinding(r, immediate, false)), {});
    } else if r in s.leases {
      AddOpens(s, Unwinding(r, immediate, o.race));
    } else {
      StartFailedOpens(s, r, immediate, o.race);
    }
  }

  lemma AdmitOpens(s: State)
    ensures Opens(s, Admit(s), {})
  {
    hide Persist;
    var s1 := s.Put(s.nextRun, FRESH_RUN).(nextRun := s.nextRun + 1);
    PersistKeeps(s1.(queue := s1.queue + [s.nextRun]));
  }

  lemma MarkedOpens(s: State, r: RunId, accepted: bool)
    ensures Opens(s, if accepted then Delivered(s, r) else ScheduleOutcomeRetry(s), {})
  {
    hide Persist;
    PersistKeeps(s.Put(r, s.Get(r).(delivered := true)));
  }

  lemma {:induction false} DeliverAllOpens(s: State, rs: seq<RunId>)
    ensures Opens(s, DeliverAll(s, rs), {})
    decreases |rs|
  {
    hide Opens;
    SameOpens(s, s);
    if rs != [] {
      AddOpens(s, Delivering(rs[0]));
      var s1 := if s.Get(rs[0]).delivered then s else s.Add(Delivering(rs[0]));
      DeliverAllOpens(s1, rs[1..]);
      OpensLater(s, s1, DeliverAll(s1, rs[1..]), {});
    }
  }

  lemma {:induction false} RecoverNextOpens(s: State, rest: seq<RunId>)
    ensures Opens(s, RecoverNext(s, rest), {})
    decreases |rest|
  {
    hide Opens, MaybeStartNext;
    if rest == [] { RefillOpens(s); }
    else if s.Get(rest[0]).delivered { RecoverNextOpens(s, rest[1..]); }
    else { AddOpens(s, Recovering(rest[0], rest[1..])); }
  }

  lemma GrantBegins(s: State, t: TaskId, o: Outcome)
    requires t in s.tasks && s.tasks[t].Acquiring? && o.Granted?
    ensures Works(s, Fire(t, o), Next(s, Fire(t, o)))
  {
    var s1, r := s.Drop(Some(t)), s.tasks[t].run;
    var ks := Legs(s1, r, 1, false, o.spawned, true);
    hide Opens, Exactly, StartSucceeded, Works, Next, Legs;
    GrantExactly(s, t, o);
    StartOpens(s1, r, o.spawned);
    FireWorks(s, t, o, ks);
  }

  lemma GrantExactly(s: State, t: TaskId, o: Outcome)
    requires t in s.tasks && s.tasks[t].Acquiring? && o.Granted?
    ensures Exactly(s, Fire(t, o), Legs(s.Drop(Some(t)), s.tasks[t].run, 1, false, o.spawned, true))
  {
  }

  lemma ResumeBegins(s: State, e: Event)
    requires LaneInv(s) && (e.Answer? || e.Steer?)
    ensures Works(s, e, Next(s, e))
  {
    if Resumes(s, e, e.run) {
      ResumeExactly(s, e);
      hide Opens, Exactly, ResumeParked;
      ResumeOpens(s, e.run, e.spawned);
      OpensWork(s, e, Next(s, e), Legs(s, e.run, 1, true, e.spawned, e.run in s.leases));
    } else {
      NothingExactly(s, e);
      hide Opens, Exactly, ResumeParked;
      SameOpens(s, s);
      OpensWork(s, e, Next(s, e), {});
    }
  }

  lemma ResumeExactly(s: State, e: Event)
    requires (e.Answer? || e.Steer?) && Resumes(s, e, e.run)
    ensures Exactly(s, e, Legs(s, e.run, 1, true, e.spawned, e.run in s.leases))
  {
  }

  lemma StopBegins(s: State, r: RunId, text: string)
    requires LaneInv(s)
    ensures Works(s, StopRun(r, text), Stop(s, r, text))
  {
    var ks := StopWork(s, r);
    StopExactly(s, r, text);
    hide Opens, Exactly, SettleQueued, Finalize;
    SameOpens(s, s);
    if r in s.queue {
      var s1 := s.(queue := Without(s.queue, r));
      SameOpens(s, s1);
      SettleQueuedOpens(s1, r, Cancelled, text);
      OpensLater(s, s1, Stop(s, r, text), {});
    } else if r in s.live {
      var s1 := s.Put(r, s.Get(r).(child := None));
      SameOpens(s, s1);
      FinalizeOpens(s1, r, Cancelled, text, false);
      OpensLater(s, s1, Stop(s, r, text), ks);
    }
    OpensWork(s, StopRun(r, text), Stop(s, r, text), ks);
  }

  function StopWork(s: State, r: RunId): set<Task> {
    if r in s.live && s.Get(r).phase.Active() && r in s.leases then {Releasing(r, Cancelled, false)} else {}
  }

  lemma StopExactly(s: State, r: RunId, text: string)
    requires LaneInv(s)
    ensures Exactly(s, StopRun(r, text), StopWork(s, r))
  {
  }

  lemma SweepExactly(s: State)
    requires LaneInv(s)
    ensures Exactly(s, StopEverything, Releases(s, s.live))
  {
  }

  lemma RecoverBegins(s: State)
    ensures Works(s, CallRecover, Recover(s))
  {
    NothingExactly(s, CallRecover);
    hide Opens, Exactly, Adopt, Persist, RecoverNext;
    var s1 := Adopt(s.(orphans := []), s.orphans).(recovered := true);
    AdoptTasks(s.(orphans := []), s.orphans);
    Sync.AdoptKeeps(s.(orphans := []), s.orphans);
    SameOpens(s, s1);
    PersistOpens(s1);
    OpensLater(s, s1, Persist(s1), {});
    RecoverNextOpens(Persist(s1), Persist(s1).finished);
    OpensLater(s, Persist(s1), Recover(s), {});
    OpensWork(s, CallRecover, Recover(s), {});
  }

  /**
   * After every enabled event of the running daemon, in every reachable state, the run computations that
   * are new are exactly those that `Begins` says.
   */
  lemma EveryComputation(s: State, e: Event)
    requires Sound(s) && Enabled(s, e) && !e.Crash?
    ensures Works(s, e, Next(s, e))
  {
    hide Seats, LaneInv, Delivery.Ready, Delivery.AllCovered, Works, Continue, Stop, StopAll, Recover, ResumeParked;
    match e
    case Fire(t, o) => TaskBegins(s, t, o);
    case StopRun(r, text) => StopBegins(s, r, text);
    case StopEverything => SweepBegins(s);
    case CallRecover => RecoverBegins(s);
    case Answer(r, spawned) => ResumeBegins(s, e);
    case Steer(r, spawned) => ResumeBegins(s, e);
    case _ => NothingBegins(s, e);
  }

  lemma SweepBegins(s: State)
    requires Delivery.Ready(s) && LaneInv(s)
    ensures Works(s, StopEverything, StopAll(s))
  {
    SweepExactly(s);
    hide Opens, Exactly, StopAll, Delivery.Ready;
    StopAllOpens(s);
    OpensWork(s, StopEverything, StopAll(s), Releases(s, s.live));
  }

  lemma NothingBegins(s: State, e: Event)
    requires e.Dispatch? || e.LeaseLost? || e.DiskFault?
    ensures Works(s, e, Next(s, e))
  {
    NothingExactly(s, e);
    AddOpens(s, Admitting);
    SameOpens(s, s);
    SameOpens(s, Next(s, LeaseLost(0)));
    hide Exactly;
    assert Opens(s, Next(s, e), {});
    hide Opens;
    OpensWork(s, e, Next(s, e), {});
  }

  lemma TaskBegins(s: State, t: TaskId, o: Outcome)
    requires t in s.tasks && Fits(s.tasks[t], o)
    ensures Works(s, Fire(t, o), Next(s, Fire(t, o)))
  {
    hide Works, Next;
    var task := s.tasks[t];
    if task.LegWait? { LegBegins(s, t, o); }
    else if task.Capturing? || task.Asking? { QuestionBegins(s, t, o); }
    else if task.RunTimer() { TimerBegins(s, t, o); }
    else if o.Granted? { GrantBegins(s, t, o); }
    else { QuietBegins(s, t, o); }
  }
}
