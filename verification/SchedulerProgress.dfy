/**
 * No run is ever stuck in a lane: over all enabled events, whatever holds a lane has something pending
 * that moves it on, and a running leg and a question that waits both have a timer that will end them.
 */
module SchedulerProgress {
  import opened Wrappers
  import opened SchedulerState
  import opened SchedulerSteps
  import opened SchedulerEffects
  import opened SchedulerVerdicts
  import opened SchedulerMoves
  import opened SchedulerCapacity
  import opened SchedulerPlaces
  import Delivery = SchedulerDelivery
  import Safety = SchedulerSafety
  import Sync = SchedulerSync

  // ------------------------------------------------------------- what is meant

  /** A leg that the run waits for, and the timer that will kill it. */
  predicate LegPending(s: State, x: RunId) {
    var run := s.Get(x);
    && run.child.Some? && run.child.value in s.tasks && s.tasks[run.child.value].LegWait? && s.tasks[run.child.value].run == x
    && run.hardTimer.Some? && run.hardTimer.value in s.tasks && s.tasks[run.hardTimer.value] == HardTimer(x, run.child.value)
  }

  ghost predicate ScreenshotPending(s: State, x: RunId) {
    exists t :: t in s.tasks && s.tasks[t].Capturing? && s.tasks[t].run == x
  }

  ghost predicate ReleasePending(s: State, x: RunId) {
    exists t :: t in s.tasks && s.tasks[t].Releasing? && s.tasks[t].run == x
  }

  ghost predicate StartPending(s: State, x: RunId) {
    exists t :: t in s.tasks && StartTask(s.tasks[t]) && s.tasks[t].run == x
  }

  predicate QuestionPending(s: State, x: RunId) {
    var timer := s.Get(x).questionTimer;
    timer.Some? && timer.value in s.tasks && s.tasks[timer.value] == QuestionTimer(x)
  }

  /** Something pending will move the live run on. */
  ghost predicate Occupied(s: State, x: RunId) {
    var phase := s.Get(x).phase;
    || (phase.Running? && (LegPending(s, x) || ScreenshotPending(s, x)))
    || (phase.Waiting? && QuestionPending(s, x))
    || (phase.Terminal() && ReleasePending(s, x))
  }

  /** What the run remembers of its tasks, if still pending, is its own. */
  predicate OwnHandles(s: State, x: RunId) {
    var run := s.Get(x);
    && (run.child.Some? ==> run.child.value < s.nextTask)
    && (run.hardTimer.Some? ==> run.hardTimer.value < s.nextTask
                                && (run.hardTimer.value in s.tasks ==> s.tasks[run.hardTimer.value].HardTimer? && s.tasks[run.hardTimer.value].run == x))
    && (run.questionTimer.Some? ==> run.questionTimer.value < s.nextTask
                                    && (run.questionTimer.value in s.tasks ==> s.tasks[run.questionTimer.value] == QuestionTimer(x)))
  }

  ghost predicate Fine(s: State, x: RunId) {
    && OwnHandles(s, x)
    && (x in s.live ==> Occupied(s, x))
    && (x in s.starting ==> StartPending(s, x))
  }

  ghost predicate AllFine(s: State) {
    IdsUsed(s) && forall x: RunId :: Fine(s, x)
  }

  // -------------------------------------------------------- what a stretch spares

  /** Runs outside `rs` keep record, tasks and place, except that a queued one may begin to start. */
  ghost predicate Spares(s: State, s': State, rs: set<RunId>) {
    && s.nextTask <= s'.nextTask && (IdsUsed(s) ==> IdsUsed(s'))
    && (forall x: RunId :: x !in rs ==> s'.Get(x) == s.Get(x))
    && (forall x: RunId :: x !in rs && x in s'.live ==> x in s.live)
    && (forall x: RunId :: x !in rs && x in s'.starting ==> x in s.starting || StartPending(s', x))
    && (IdsUsed(s) ==> forall t :: t in s.tasks && Owned(s.tasks[t]) && s.tasks[t].run !in rs ==> t in s'.tasks && s'.tasks[t] == s.tasks[t])
    && (forall t :: t in s'.tasks ==> (t in s.tasks && s'.tasks[t] == s.tasks[t]) || s.nextTask <= t)
  }

  /** Whoever is spared is as fine as before. */
  lemma SparedStaysFine(s: State, s': State, rs: set<RunId>, x: RunId)
    requires Spares(s, s', rs) && IdsUsed(s) && Fine(s, x) && x !in rs
    ensures Fine(s', x)
  {
  }

  lemma SparesAll(s: State, s': State, rs: set<RunId>)
    requires Spares(s, s', rs) && AllFine(s) && forall x :: x in rs ==> Fine(s', x)
    ensures AllFine(s')
  {
    forall x: RunId ensures Fine(s', x) {
      if x !in rs { SparedStaysFine(s, s', rs, x); }
    }
  }

  lemma SparesTrans(s: State, m: State, s': State, rs: set<RunId>)
    requires Spares(s, m, rs) && Spares(m, s', rs) && IdsUsed(s)
    ensures Spares(s, s', rs)
  {
  }

  lemma SparesMore(s: State, s': State, rs: set<RunId>, more: set<RunId>)
    requires Spares(s, s', rs) && rs <= more
    ensures Spares(s, s', more)
  {
  }

  /** Only lists other than the lanes, the file and the marks changed. */
  lemma SameSpares(s: State, s': State, rs: set<RunId>)
    requires s'.tasks == s.tasks && s'.nextTask == s.nextTask && forall x: RunId :: x !in rs ==> s'.Get(x) == s.Get(x)
    requires forall x: RunId :: x !in rs && (x in s'.live || x in s'.starting) ==> (x in s'.live ==> x in s.live) && (x in s'.starting ==> x in s.starting)
    ensures Spares(s, s', rs)
  {
  }

  lemma PersistSpares(s: State)
    ensures Spares(s, Persist(s), {})
  {
    PersistKeeps(s);
    SameSpares(s, Persist(s), {});
  }

  lemma AddSpares(s: State, task: Task)
    ensures Spares(s, s.Add(task), {})
  {
  }

  lemma SettleSpares(s: State, r: RunId)
    requires IdsUsed(s)
    ensures Spares(s, Settle(s, r), {})
  {
    hide Persist;
    var s1 := s.(finished := s.finished + [r]);
    PersistKeeps(s1);
    SameSpares(s, Persist(s1), {});
    AddSpares(Persist(s1), Delivering(r));
    SparesTrans(s, Persist(s1), Settle(s, r), {});
  }

  lemma {:induction false} FillSpares(s: State)
    requires IdsUsed(s)
    ensures Spares(s, FillLanes(s), {})
    decreases |s.queue|
  {
    if s.queue != [] && s.Busy() < s.cap {
      var s1 := StartDispatch(s.(queue := s.queue[1..]), s.queue[0], false);
      assert s1.tasks[s.nextTask] == Acquiring(s.queue[0], false);
      assert StartPending(s1, s.queue[0]);
      assert Spares(s, s1, {});
      FillSpares(s1);
      SparesTrans(s, s1, FillLanes(s1), {});
    }
  }

  lemma RefillSpares(s: State)
    requires IdsUsed(s)
    ensures Spares(s, MaybeStartNext(s), {})
  {
    hide FillLanes;
    SameSpares(s, s, {});
    FillSpares(s);
  }

  /** A stretch that spares nobody else, followed by one that spares everybody. */
  lemma Then(s: State, m: State, s': State, rs: set<RunId>)
    requires Spares(s, m, rs) && Spares(m, s', {}) && IdsUsed(s)
    ensures Spares(s, s', rs)
  {
    SparesMore(m, s', {}, rs);
    SparesTrans(s, m, s', rs);
  }

  lemma EndSpares(s: State, r: RunId, final: Phase, proof: bool, proofs: nat)
    requires IdsUsed(s)
    ensures Spares(s, FinalizeEnd(s, r, final, proof, proofs), {r})
  {
    hide Settle, MaybeStartNext;
    var s1 := s.Put(r, Verified(s.Get(r), final, proof, proofs));
    var s2 := s1.(live := Without(s1.live, r));
    SameSpares(s, s2, {r});
    hide Spares;
    SettleSpares(s2, r);
    Then(s, s2, Settle(s2, r), {r});
    SparesIds(s2, Settle(s2, r), {});
    RefillSpares(Settle(s2, r));
    Then(s, Settle(s2, r), FinalizeEnd(s, r, final, proof, proofs), {r});
  }

  lemma SparesIds(s: State, s': State, rs: set<RunId>)
    requires Spares(s, s', rs) && IdsUsed(s)
    ensures IdsUsed(s')
  {
  }

  lemma PutSpares(s: State, r: RunId, run: Run)
    ensures Spares(s, s.Put(r, run), {r})
  {
  }

  /** A pending task of the run itself, or none, is dropped. */
  lemma DropSpares(s: State, h: Option<TaskId>, r: RunId)
    requires h.Some? && h.value in s.tasks && Owned(s.tasks[h.value]) ==> s.tasks[h.value].run == r
    ensures Spares(s, s.Drop(h), {r})
  {
  }

  lemma ConcludeSpares(s: State, r: RunId, final: Phase, text: string)
    requires OwnHandles(s, r) && IdsUsed(s)
    ensures Spares(s, Conclude(s, r, final, text), {r}) && IdsUsed(Conclude(s, r, final, text))
    ensures OwnHandles(Conclude(s, r, final, text), r)
  {
    var run := s.Get(r).(phase := final, result := Some(text));
    var s1 := s.Put(r, run);
    var s2 := s1.Drop(run.hardTimer);
    var s3 := s2.Drop(run.questionTimer);
    PutSpares(s, r, run);
    DropSpares(s1, run.hardTimer, r);
    DropSpares(s2, run.questionTimer, r);
    assert IdsUsed(s1) && IdsUsed(s2) && IdsUsed(s3);
    PutSpares(s3, r, run.(hardTimer := None, questionTimer := None));
    var s4 := s3.Put(r, run.(hardTimer := None, questionTimer := None));
    PutSpares(s4, r, s4.Get(r).(child := None));
    hide Spares;
    SparesTrans(s, s1, s2, {r});
    SparesTrans(s, s2, s3, {r});
    SparesTrans(s, s3, s4, {r});
    SparesTrans(s, s4, s4.Put(r, s4.Get(r).(child := None)), {r});
  }

  // ------------------------------------------------------- the run itself is fine

  /** The stretch concerns one run, spares the others, and leaves that run fine. */
  ghost predicate Leaves(s: State, s': State, r: RunId) {
    Spares(s, s', {r}) && Fine(s', r) && IdsUsed(s')
  }

  /** Later stretches that spare everybody leave it fine. */
  lemma LeavesThen(s: State, m: State, s': State, r: RunId)
    requires IdsUsed(s) && Leaves(s, m, r) && Spares(m, s', {})
    ensures Leaves(s, s', r)
  {
    Then(s, m, s', {r});
    SparedStaysFine(m, s', {}, r);
  }

  lemma LeavesAfter(s: State, m: State, s': State, r: RunId)
    requires IdsUsed(s) && Spares(s, m, {r}) && Leaves(m, s', r)
    ensures Leaves(s, s', r)
  {
    SparesTrans(s, m, s', {r});
  }

  lemma EndLeaves(s: State, r: RunId, final: Phase, proof: bool, proofs: nat)
    requires IdsUsed(s) && OwnHandles(s, r) && r !in s.starting && r !in s.queue
    ensures Leaves(s, FinalizeEnd(s, r, final, proof, proofs), r)
  {
    hide Settle, MaybeStartNext;
    var s1 := s.Put(r, Verified(s.Get(r), final, proof, proofs));
    var s2 := s1.(live := Without(s1.live, r));
    SameSpares(s, s2, {r});
    assert Leaves(s, s2, r);
    hide Leaves;
    SettleSpares(s2, r);
    LeavesThen(s, s2, Settle(s2, r), r);
    hide Spares;
    SparesIds(s2, Settle(s2, r), {});
    RefillSpares(Settle(s2, r));
    LeavesThen(s, Settle(s2, r), FinalizeEnd(s, r, final, proof, proofs), r);
  }

  /** `finalize` of a run that holds no place in queue or starting. */
  lemma FinalizeLeaves(s: State, r: RunId, final: Phase, text: string, proof: bool)
    requires IdsUsed(s) && OwnHandles(s, r) && r !in s.starting && r !in s.queue && final.Terminal()
    requires !s.Get(r).phase.Active() ==> Fine(s, r)
    ensures Leaves(s, Finalize(s, r, final, text, proof), r)
  {
    hide Conclude, FinalizeEnd;
    SameSpares(s, s, {r});
    if s.Get(r).phase.Active() {
      var s1 := Conclude(s, r, final, text);
      ConcludeSpares(s, r, final, text);
      ConcludePlaces(s, r, final, text);
      if r in s1.leases { ReleaseLeaves(s1, r, final, proof); }
      else { EndLeaves(s1, r, final, proof, s1.Get(r).proofFiles); }
      LeavesAfter(s, s1, Finalize(s, r, final, text, proof), r);
    }
  }

  lemma ConcludePlaces(s: State, r: RunId, final: Phase, text: string)
    ensures var s1 := Conclude(s, r, final, text);
            s1.queue == s.queue && s1.starting == s.starting && s1.live == s.live && s1.Get(r).phase == final
  {
  }

  lemma ReleaseLeaves(s: State, r: RunId, final: Phase, proof: bool)
    requires IdsUsed(s) && OwnHandles(s, r) && r !in s.starting && s.Get(r).phase.Terminal()
    ensures Leaves(s, s.Add(Releasing(r, final, proof)), r)
  {
    var s' := s.Add(Releasing(r, final, proof));
    AddSpares(s, Releasing(r, final, proof));
    SparesMore(s, s', {}, {r});
    assert s'.tasks[s.nextTask] == Releasing(r, final, proof);
    assert ReleasePending(s', r);
  }

  lemma ExecuteLeaves(s: State, r: RunId, attempt: nat, resumed: bool, spawned: bool)
    requires IdsUsed(s) && OwnHandles(s, r) && r !in s.starting && r !in s.queue && s.Get(r).phase.Running?
    ensures Leaves(s, ExecuteLeg(s, r, attempt, resumed, spawned), r)
  {
    hide Finalize;
    if spawned {
      var s' := ExecuteLeg(s, r, attempt, resumed, true);
      assert s'.tasks[s.nextTask] == LegWait(r, attempt, resumed) && s'.tasks[s.nextTask + 1] == HardTimer(r, s.nextTask);
      assert LegPending(s', r);
      assert OwnHandles(s', r);
    } else {
      hide Leaves;
      FinalizeLeaves(s, r, Error, SPAWN_TEXT, false);
    }
  }

  lemma SpawnLeaves(s: State, r: RunId, resumed: bool, spawned: bool)
    requires IdsUsed(s) && OwnHandles(s, r) && r !in s.starting && r !in s.queue
    ensures Leaves(s, SpawnLeg(s, r, resumed, spawned), r)
  {
    hide Persist, ExecuteLeg;
    var s0 := s.Put(r, s.Get(r).(phase := Running, question := None, anchor := None));
    PutSpares(s, r, s.Get(r).(phase := Running, question := None, anchor := None));
    PersistKeeps(s0);
    PersistSpares(s0);
    var s1 := Relaunch(s, r);
    Then(s, s0, s1, {r});
    assert OwnHandles(s1, r) && s1.Get(r).phase.Running?;
    hide Spares, Leaves, OwnHandles;
    ExecuteLeaves(s1, r, 1, resumed, spawned);
    LeavesAfter(s, s1, SpawnLeg(s, r, resumed, spawned), r);
  }

  lemma ResumeLeaves(s: State, r: RunId, spawned: bool)
    requires IdsUsed(s) && OwnHandles(s, r) && r !in s.starting && r !in s.queue
    ensures Leaves(s, ResumeParked(s, r, spawned), r)
  {
    hide SpawnLeg;
    var s1 := s.Drop(s.Get(r).questionTimer);
    DropSpares(s, s.Get(r).questionTimer, r);
    PutSpares(s1, r, s.Get(r).(questionTimer := None));
    SparesTrans(s, s1, Unpark(s, r), {r});
    assert OwnHandles(Unpark(s, r), r) && IdsUsed(Unpark(s, r));
    hide Spares, Leaves, OwnHandles;
    SpawnLeaves(Unpark(s, r), r, true, spawned);
    LeavesAfter(s, Unpark(s, r), ResumeParked(s, r, spawned), r);
  }

  lemma HonourLeaves(s: State, r: RunId, o: LegResult)
    requires IdsUsed(s) && OwnHandles(s, r) && r !in s.starting && r !in s.queue && s.Get(r).phase.Running?
    ensures Leaves(s, ApplyLegOutcome(s, r, o), r)
  {
    hide Finalize;
    if o.NeedsInput? && o.question != "" {
      var s' := s.Add(Capturing(r, o.question));
      AddSpares(s, Capturing(r, o.question));
      SparesMore(s, s', {}, {r});
      assert s'.tasks[s.nextTask] == Capturing(r, o.question);
      assert ScreenshotPending(s', r);
    } else {
      hide Leaves, OwnHandles, Fine;
      match o
      case Broken(text) => FinalizeLeaves(s, r, Error, text, false);
      case NeedsInput(q) => FinalizeLeaves(s, r, Error, NO_QUESTION_TEXT, false);
      case Failed(text) => FinalizeLeaves(s, r, Error, text, false);
      case Completed(text, proof) => FinalizeLeaves(s, r, Done, text, proof);
    }
  }

  lemma ExitLeaves(s: State, leg: Task, attached: bool, o: LegResult, respawned: bool)
    requires leg.LegWait? && IdsUsed(s) && OwnHandles(s, leg.run) && leg.run !in s.starting && leg.run !in s.queue
    requires s.Get(leg.run).phase.Running?
    ensures Leaves(s, AfterLeg(s, leg, attached, o, respawned), leg.run)
  {
    hide Finalize, ExecuteLeg, ApplyLegOutcome, Leaves, OwnHandles, Fine;
    if attached { HonourLeaves(s, leg.run, o); }
    else if leg.attempt >= LEG_MAX_ATTEMPTS { FinalizeLeaves(s, leg.run, Error, ATTACH_TEXT, false); }
    else { ExecuteLeaves(s, leg.run, leg.attempt + 1, leg.resumed, respawned); }
  }

  lemma ReapSpares(s: State, r: RunId)
    requires IdsUsed(s) && OwnHandles(s, r)
    ensures Spares(s, Reap(s, r), {r}) && IdsUsed(Reap(s, r)) && OwnHandles(Reap(s, r), r)
    ensures Reap(s, r).starting == s.starting && Reap(s, r).queue == s.queue && Reap(s, r).Get(r).phase == s.Get(r).phase
  {
    var s1 := s.Drop(s.Get(r).hardTimer);
    DropSpares(s, s.Get(r).hardTimer, r);
    PutSpares(s1, r, s.Get(r).(hardTimer := None, child := None));
    SparesTrans(s, s1, Reap(s, r), {r});
  }

  lemma ParkLeaves(s: State, r: RunId, text: string)
    requires IdsUsed(s) && OwnHandles(s, r) && r !in s.starting
    ensures Leaves(s, Park(s, r, text), r)
  {
    hide Persist;
    var s1 := s.Add(QuestionTimer(r));
    var s2 := s1.Put(r, s1.Get(r).(phase := Waiting, question := Some(text), questionTimer := Some(s.nextTask)));
    assert s2.tasks[s.nextTask] == QuestionTimer(r);
    assert Spares(s, s2, {r}) && Fine(s2, r);
    assert Leaves(s, s2, r);
    hide Leaves, Spares, Fine;
    PersistSpares(s2);
    PersistKeeps(s2);
    LeavesThen(s, s2, Persist(s2), r);
    AddSpares(Persist(s2), Asking(r));
    LeavesThen(s, Persist(s2), Park(s, r, text), r);
  }

  lemma AskedLeaves(s: State, r: RunId, anchor: string)
    requires IdsUsed(s) && Fine(s, r)
    ensures Leaves(s, Asked(s, r, anchor), r)
  {
    hide Persist;
    SameSpares(s, s, {r});
    var s1 := s.Put(r, s.Get(r).(anchor := Some(anchor)));
    PutSpares(s, r, s.Get(r).(anchor := Some(anchor)));
    assert Leaves(s, s1, r);
    PersistSpares(s1);
    LeavesThen(s, s1, Persist(s1), r);
  }

  // ------------------------------------------------------------- a fired task

  /** The fired task does not hold up its run: it is superseded, or reports on something else. */
  predicate Idle(s: State, task: Task)
    requires Owned(task) && !StartTask(task)
  {
    match task
    case LegWait(x, _, _) => true
    case Asking(x) => true
    case HardTimer(x, leg) => true
    case Capturing(x, _) => !s.Get(x).phase.Active()
    case QuestionTimer(x) => !s.Get(x).phase.Active()
    case Releasing(x, _, _) => false
  }

  /** The run minds this leg or this timer: it is the one that it waits for. */
  predicate Minds(s: State, t: TaskId, task: Task)
    requires task.LegWait? || task.HardTimer?
  {
    s.Get(task.run).phase.Running? && s.Get(task.run).child == if task.LegWait? then Some(t) else Some(task.leg)
  }

  lemma FiredSpares(s: State, t: TaskId)
    requires t in s.tasks && Owned(s.tasks[t]) && IdsUsed(s)
    ensures Spares(s, s.Drop(Some(t)), {s.tasks[t].run}) && IdsUsed(s.Drop(Some(t)))
    ensures OwnHandles(s, s.tasks[t].run) ==> OwnHandles(s.Drop(Some(t)), s.tasks[t].run)
  {
  }

  lemma IdleFired(s: State, t: TaskId)
    requires t in s.tasks && Owned(s.tasks[t]) && !StartTask(s.tasks[t]) && IdsUsed(s) && Fine(s, s.tasks[t].run)
    requires Idle(s, s.tasks[t]) && (s.tasks[t].LegWait? || s.tasks[t].HardTimer? ==> !Minds(s, t, s.tasks[t]))
    ensures Leaves(s, s.Drop(Some(t)), s.tasks[t].run)
  {
    var s1, x := s.Drop(Some(t)), s.tasks[t].run;
    FiredSpares(s, t);
    hide Spares;
    if x in s.live && s.Get(x).phase.Terminal() {
      var u :| u in s.tasks && s.tasks[u].Releasing? && s.tasks[u].run == x;
      assert u in s1.tasks;
    }
    if x in s.live && s.Get(x).phase.Running? && !LegPending(s, x) {
      var u :| u in s.tasks && s.tasks[u].Capturing? && s.tasks[u].run == x;
      assert u in s1.tasks;
    }
    if x in s.starting {
      var u :| u in s.tasks && StartTask(s.tasks[u]) && s.tasks[u].run == x;
      assert u in s1.tasks;
    }
  }

  lemma FireIs(s: State, t: TaskId, o: Outcome)
    requires t in s.tasks && Fits(s.tasks[t], o)
    ensures Next(s, Fire(t, o)) == Continue(s.Drop(Some(t)), t, s.tasks[t], o)
  {
    hide Continue;
  }

  /** What a fired computation of a started run does leaves that run fine. */
  lemma FiredLeaves(s: State, t: TaskId, o: Outcome)
    requires IdsUsed(s) && t in s.tasks && Fits(s.tasks[t], o) && Owned(s.tasks[t]) && !StartTask(s.tasks[t])
    requires Fine(s, s.tasks[t].run) && !Waits(s, s.tasks[t].run)
    ensures Leaves(s, Next(s, Fire(t, o)), s.tasks[t].run)
  {
    var s1, task, r := s.Drop(Some(t)), s.tasks[t], s.tasks[t].run;
    FireIs(s, t, o);
    FiredSpares(s, t);
    hide Next, Spares, Leaves, LegDone, Park, Asked, Finalize, FinalizeEnd, Occupied;
    match task
    case LegWait(_, _, _) => LegFires(s, t, o);
    case Capturing(_, text) =>
      if o.Captured? { ParkLeaves(s1, r, text); LeavesAfter(s, s1, Next(s, Fire(t, o)), r); }
      else { RejectedLeaves(s, t, o); }
    case Asking(_) =>
      IdleFired(s, t);
      AskLeaves(s, t, o);
    case Releasing(_, final, proof) => ReleasedLeaves(s, t, o);
    case HardTimer(_, leg) =>
      if Minds(s, t, task) { FinalizeLeaves(s1, r, Timeout, HARD_TIMEOUT_TEXT, false); LeavesAfter(s, s1, Next(s, Fire(t, o)), r); }
      else { IdleFired(s, t); }
    case QuestionTimer(_) =>
      if !s.Get(r).phase.Active() { IdleFired(s, t); FineAfter(s, s1, r); }
      FinalizeLeaves(s1, r, Timeout, QUESTION_TIMEOUT_TEXT, false);
      LeavesAfter(s, s1, Next(s, Fire(t, o)), r);
  }

  lemma FineAfter(s: State, s1: State, r: RunId)
    requires Leaves(s, s1, r)
    ensures Fine(s1, r) && IdsUsed(s1) && Spares(s, s1, {r})
  {
  }

  lemma LegFires(s: State, t: TaskId, o: Outcome)
    requires IdsUsed(s) && t in s.tasks && Fits(s.tasks[t], o) && s.tasks[t].LegWait?
    requires Fine(s, s.tasks[t].run) && !Waits(s, s.tasks[t].run)
    ensures Leaves(s, Next(s, Fire(t, o)), s.tasks[t].run)
  {
    var s1, leg, r := s.Drop(Some(t)), s.tasks[t], s.tasks[t].run;
    FiredSpares(s, t);
    hide Spares, Leaves, AfterLeg, Occupied;
    if Minds(s, t, leg) {
      ReapSpares(s1, r);
      ExitLeaves(Reap(s1, r), leg, o.attached, o.result, o.respawned);
      LeavesAfter(s1, Reap(s1, r), Next(s, Fire(t, o)), r);
      LeavesAfter(s, s1, Next(s, Fire(t, o)), r);
    } else {
      IdleFired(s, t);
    }
  }

  lemma RejectedLeaves(s: State, t: TaskId, o: Outcome)
    requires IdsUsed(s) && t in s.tasks && s.tasks[t].Capturing? && o.Rejected?
    requires Fine(s, s.tasks[t].run) && !Waits(s, s.tasks[t].run)
    ensures Leaves(s, Next(s, Fire(t, o)), s.tasks[t].run)
  {
    var s1, r := s.Drop(Some(t)), s.tasks[t].run;
    FiredSpares(s, t);
    hide Spares, Leaves, Finalize, Occupied;
    if !s.Get(r).phase.Active() { IdleFired(s, t); FineAfter(s, s1, r); }
    FinalizeLeaves(s1, r, Error, ASK_TEXT, false);
    LeavesAfter(s, s1, Next(s, Fire(t, o)), r);
  }

  lemma AskLeaves(s: State, t: TaskId, o: Outcome)
    requires IdsUsed(s) && t in s.tasks && s.tasks[t].Asking? && Fits(s.tasks[t], o)
    requires Leaves(s, s.Drop(Some(t)), s.tasks[t].run) && !Waits(s, s.tasks[t].run)
    ensures Leaves(s, Next(s, Fire(t, o)), s.tasks[t].run)
  {
    var s1, r := s.Drop(Some(t)), s.tasks[t].run;
    FineAfter(s, s1, r);
    hide Spares, Leaves, Finalize, Asked, Occupied;
    if o.Posted? { AskedLeaves(s1, r, o.anchor); } else { FinalizeLeaves(s1, r, Error, ASK_TEXT, false); }
    LeavesAfter(s, s1, Next(s, Fire(t, o)), r);
  }

  lemma FreeSpares(s: State, r: RunId, freed: bool)
    ensures Spares(s, Free(s, r, freed), {r})
    ensures IdsUsed(s) ==> IdsUsed(Free(s, r, freed))
    ensures OwnHandles(s, r) ==> OwnHandles(Free(s, r, freed), r)
    ensures Free(s, r, freed).starting == s.starting && Free(s, r, freed).queue == s.queue
  {
  }

  lemma ReleasedLeaves(s: State, t: TaskId, o: Outcome)
    requires IdsUsed(s) && t in s.tasks && s.tasks[t].Releasing? && Fits(s.tasks[t], o)
    requires Fine(s, s.tasks[t].run) && !Waits(s, s.tasks[t].run)
    ensures Leaves(s, Next(s, Fire(t, o)), s.tasks[t].run)
  {
    var s1, task, r := s.Drop(Some(t)), s.tasks[t], s.tasks[t].run;
    FiredSpares(s, t);
    FreeSpares(s1, r, o.freed);
    var s2 := Free(s1, r, o.freed);
    HandlesOf(s, r);
    FireIs(s, t, o);
    hide Spares, Leaves, FinalizeEnd, Occupied, Free, OwnHandles, Next, Fine;
    EndLeaves(s2, r, task.final, task.captureProof, o.proofs);
    LeavesAfter(s1, s2, Next(s, Fire(t, o)), r);
    LeavesAfter(s, s1, Next(s, Fire(t, o)), r);
  }

  // ------------------------------------------------------------------- starts

  lemma GrantLeaves(s: State, r: RunId, spawned: bool)
    requires IdsUsed(s) && OwnHandles(s, r) && r !in s.queue
    ensures Leaves(s, StartSucceeded(s, r, spawned), r)
  {
    var s1 := GoLive(s, r);
    assert s1.tasks == s.tasks && s1.nextTask == s.nextTask;
    SameSpares(s, s1, {r});
    assert OwnHandles(s1, r) && r !in s1.starting && r !in s1.queue && IdsUsed(s1);
    hide Spares, Leaves, SpawnLeg, GoLive, OwnHandles;
    SpawnLeaves(s1, r, false, spawned);
    LeavesAfter(s, s1, StartSucceeded(s, r, spawned), r);
  }

  /** A half-taken lease is given back. */
  lemma HalfTakenLeaves(s: State, r: RunId, leases: set<RunId>, immediate: bool, race: bool)
    requires IdsUsed(s) && OwnHandles(s, r) && r !in s.live
    ensures Leaves(s, s.(leases := leases).Add(Unwinding(r, immediate, race)), r)
  {
    var s' := s.(leases := leases).Add(Unwinding(r, immediate, race));
    assert s'.tasks[s.nextTask] == Unwinding(r, immediate, race);
    assert StartPending(s', r);
  }

  lemma PlainLeaves(s: State, s1: State, r: RunId)
    requires IdsUsed(s) && OwnHandles(s, r) && s1.tasks == s.tasks && s1.nextTask == s.nextTask
    requires s1.Get(r).child == s.Get(r).child && s1.Get(r).hardTimer == s.Get(r).hardTimer
    requires s1.Get(r).questionTimer == s.Get(r).questionTimer
    requires forall x: RunId :: x != r ==> s1.Get(x) == s.Get(x)
    requires s1.live == s.live && r !in s1.live && r !in s1.starting && forall x: RunId :: x in s1.starting ==> x in s.starting
    ensures Leaves(s, s1, r)
  {
    SameSpares(s, s1, {r});
  }

  lemma StartFailedLeaves(s: State, r: RunId, immediate: bool, race: bool)
    requires IdsUsed(s) && OwnHandles(s, r) && r !in s.live && r !in s.queue
    ensures Leaves(s, StartFailed(s, r, immediate, race), r)
  {
    hide Persist, SettleQueued, MaybeStartNext, Settle;
    var s1 := s.(starting := Without(s.starting, r));
    if race {
      var s2 := s1.(queue := if immediate then s1.queue + [r] else [r] + s1.queue);
      PlainLeaves(s, s2, r);
      PersistSpares(s2);
      var s3 := Persist(s2);
      hide Leaves, Spares, OwnHandles;
      LeavesThen(s, s2, s3, r);
      RetrySpares(s3);
      LeavesThen(s, s3, StartFailed(s, r, immediate, race), r);
    } else {
      SettledLeaves(s, s1, r, Error, START_TEXT);
      var s3 := SettleQueued(s1, r, Error, START_TEXT);
      FineAfter(s, s3, r);
      hide Leaves, Spares, OwnHandles;
      if !immediate {
        RefillSpares(s3);
        LeavesThen(s, s3, MaybeStartNext(s3), r);
      }
    }
  }

  /** A run that has left queue and starting and never was live is settled. */
  lemma SettledLeaves(s: State, s1: State, r: RunId, final: Phase, text: string)
    requires IdsUsed(s) && OwnHandles(s, r) && r !in s.live
    requires s1 == s.(starting := Without(s.starting, r)) || (s1 == s.(queue := Without(s.queue, r)) && r !in s.starting)
    ensures Leaves(s, SettleQueued(s1, r, final, text), r)
  {
    hide Settle;
    var s2 := s1.Put(r, s1.Get(r).(phase := final, result := Some(text)));
    PlainLeaves(s, s2, r);
    FineAfter(s, s2, r);
    hide Leaves, Spares, OwnHandles;
    SettleSpares(s2, r);
    LeavesThen(s, s2, Settle(s2, r), r);
  }

  lemma RetrySpares(s: State)
    ensures Spares(s, ScheduleQueueRetry(s), {})
  {
    SameSpares(s, s, {});
    AddSpares(s, QueueRetry);
    var s1 := s.Add(QueueRetry);
    SameSpares(s1, s1.(queueTimer := Some(s.nextTask)), {});
  }

  lemma OutcomeRetrySpares(s: State)
    ensures Spares(s, ScheduleOutcomeRetry(s), {})
  {
    SameSpares(s, s, {});
    AddSpares(s, OutcomeRetry);
    var s1 := s.Add(OutcomeRetry);
    SameSpares(s1, s1.(outcomeTimer := Some(s.nextTask)), {});
  }

  lemma StartFires(s: State, t: TaskId, o: Outcome)
    requires IdsUsed(s) && t in s.tasks && Fits(s.tasks[t], o) && StartTask(s.tasks[t])
    requires Fine(s, s.tasks[t].run) && s.tasks[t].run !in s.live && s.tasks[t].run !in s.queue
    ensures Leaves(s, Next(s, Fire(t, o)), s.tasks[t].run)
  {
    var s1, task, r := s.Drop(Some(t)), s.tasks[t], s.tasks[t].run;
    FiredSpares(s, t);
    HandlesOf(s, r);
    FireIs(s, t, o);
    hide Spares, Leaves, StartSucceeded, StartFailed, Fine, OwnHandles, Next;
    if o.Granted? {
      GrantLeaves(s1, r, o.spawned);
    } else if o.GrantedThenFailed? {
      HalfTakenLeaves(s1, r, s1.leases + {r}, task.immediate, false);
    } else if o.Refused? && r in s.leases {
      assert s1.(leases := s1.leases) == s1;
      HalfTakenLeaves(s1, r, s1.leases, task.immediate, o.race);
    } else if o.Refused? {
      StartFailedLeaves(s1, r, task.immediate, o.race);
    } else {
      UnwoundLeaves(s1, r, o.freed, task.immediate, task.race);
    }
    LeavesAfter(s, s1, Next(s, Fire(t, o)), r);
  }

  lemma HandlesOf(s: State, r: RunId)
    requires Fine(s, r)
    ensures OwnHandles(s, r)
  {
  }

  lemma UnwoundLeaves(s: State, r: RunId, freed: bool, immediate: bool, race: bool)
    requires IdsUsed(s) && OwnHandles(s, r) && r !in s.live && r !in s.queue
    ensures Leaves(s, StartFailed(Free(s, r, freed), r, immediate, race), r)
  {
    FreeSpares(s, r, freed);
    assert Free(s, r, freed).live == s.live;
    hide Spares, Leaves, StartFailed, Free, OwnHandles;
    StartFailedLeaves(Free(s, r, freed), r, immediate, race);
    LeavesAfter(s, Free(s, r, freed), StartFailed(Free(s, r, freed), r, immediate, race), r);
  }

  // -------------------------------------------------------- the daemon's own tasks

  lemma AdmitLeaves(s: State)
    requires IdsUsed(s) && s.nextRun !in s.runs && s.nextRun !in s.live && s.nextRun !in s.starting
    ensures Leaves(s, Admit(s), s.nextRun)
  {
    hide Persist;
    var r := s.nextRun;
    var s1 := s.Put(r, FRESH_RUN).(nextRun := r + 1);
    var s2 := s1.(queue := s1.queue + [r]);
    PersistKeeps(s2);
    if s1.Busy() >= s1.cap || s1.queue != [] {
      assert Spares(s, Persist(s2), {r});
    } else {
      var s' := StartDispatch(s1, r, true);
      assert s'.tasks[s.nextTask] == Acquiring(r, true);
      assert StartPending(s', r);
      assert Spares(s, s', {r});
    }
  }

  lemma MarkSpares(s: State, r: RunId, accepted: bool)
    requires IdsUsed(s) && Fine(s, r)
    ensures Leaves(s, if accepted then Delivered(s, r) else ScheduleOutcomeRetry(s), r)
  {
    hide Persist;
    SameSpares(s, s, {r});
    if accepted {
      var s1 := s.Put(r, s.Get(r).(delivered := true));
      PutSpares(s, r, s.Get(r).(delivered := true));
      assert Leaves(s, s1, r);
      PersistSpares(s1);
      LeavesThen(s, s1, Persist(s1), r);
    } else {
      assert Leaves(s, s, r);
      OutcomeRetrySpares(s);
      LeavesThen(s, s, ScheduleOutcomeRetry(s), r);
    }
  }

  lemma {:induction false} DeliverAllSpares(s: State, rs: seq<RunId>)
    requires IdsUsed(s)
    ensures Spares(s, DeliverAll(s, rs), {})
    decreases |rs|
  {
    SameSpares(s, s, {});
    if rs != [] {
      AddSpares(s, Delivering(rs[0]));
      var s1 := if s.Get(rs[0]).delivered then s else s.Add(Delivering(rs[0]));
      DeliverAllSpares(s1, rs[1..]);
      SparesTrans(s, s1, DeliverAll(s1, rs[1..]), {});
    }
  }

  lemma {:induction false} RecoverNextSpares(s: State, rest: seq<RunId>)
    requires IdsUsed(s)
    ensures Spares(s, RecoverNext(s, rest), {})
    decreases |rest|
  {
    hide MaybeStartNext, Spares;
    if rest == [] { RefillSpares(s); }
    else if s.Get(rest[0]).delivered { RecoverNextSpares(s, rest[1..]); }
    else { AddSpares(s, Recovering(rest[0], rest[1..])); }
  }

  lemma LeavesFine(s: State, s': State, r: RunId)
    requires AllFine(s) && Leaves(s, s', r)
    ensures AllFine(s')
  {
    SparesAll(s, s', {r});
  }

  lemma SparesFine(s: State, s': State)
    requires AllFine(s) && Spares(s, s', {})
    ensures AllFine(s')
  {
    SparesAll(s, s', {});
  }

  lemma DaemonDrop(s: State, t: TaskId)
    requires AllFine(s) && t in s.tasks && !Owned(s.tasks[t])
    ensures AllFine(s.Drop(Some(t)))
  {
    assert Spares(s, s.Drop(Some(t)), {});
    SparesFine(s, s.Drop(Some(t)));
  }

  lemma DaemonFine(s: State, t: TaskId, task: Task, o: Outcome)
    requires AllFine(s) && Fits(task, o) && !Owned(task)
    requires s.nextRun !in s.runs && s.nextRun !in s.live && s.nextRun !in s.starting
    ensures AllFine(Continue(s, t, task, o))
  {
    assert forall x: RunId :: Fine(s, x);
    assert IdsUsed(s);
    hide Leaves, Spares, Fine, AllFine, Admit, Delivered, ScheduleOutcomeRetry, RecoverNext, DeliverAll, MaybeStartNext;
    match task
    case Admitting => if o.ok { AdmitLeaves(s); LeavesFine(s, Admit(s), s.nextRun); }
    case Delivering(r) =>
      MarkSpares(s, r, o.Accepted?);
      LeavesFine(s, Continue(s, t, task, o), r);
    case Recovering(r, rest) =>
      var m := if o.Accepted? then Delivered(s, r) else ScheduleOutcomeRetry(s);
      MarkSpares(s, r, o.Accepted?);
      LeavesFine(s, m, r);
      FineIds(m);
      RecoverNextSpares(m, rest);
      SparesFine(m, RecoverNext(m, rest));
    case OutcomeRetry =>
      SameSpares(s, s.(outcomeTimer := None), {});
      SparesFine(s, s.(outcomeTimer := None));
      DeliverAllSpares(s.(outcomeTimer := None), s.finished);
      SparesFine(s.(outcomeTimer := None), Continue(s, t, task, o));
    case QueueRetry =>
      SameSpares(s, s.(queueTimer := None), {});
      SparesFine(s, s.(queueTimer := None));
      RefillSpares(s.(queueTimer := None));
      SparesFine(s.(queueTimer := None), Continue(s, t, task, o));
  }

  lemma FineIds(s: State)
    requires AllFine(s)
    ensures IdsUsed(s) && forall x: RunId :: Fine(s, x)
  {
  }

  lemma FireFine(s: State, t: TaskId, o: Outcome)
    requires AllFine(s) && Seats(s) && LaneInv(s) && Delivery.Bounded(s) && t in s.tasks && Fits(s.tasks[t], o)
    ensures AllFine(Next(s, Fire(t, o)))
  {
    var task := s.tasks[t];
    FineIds(s);
    if StartTask(task) {
      StartTaskPlace(s, t);
      hide Leaves, AllFine, Next;
      StartFires(s, t, o);
      LeavesFine(s, Next(s, Fire(t, o)), task.run);
    } else if Owned(task) {
      assert !Waits(s, task.run);
      hide Leaves, AllFine, Next;
      FiredLeaves(s, t, o);
      LeavesFine(s, Next(s, Fire(t, o)), task.run);
    } else {
      FreshPlace(s);
      hide AllFine, Continue;
      DaemonDrop(s, t);
      DaemonFine(s.Drop(Some(t)), t, task, o);
    }
  }

  lemma StartTaskPlace(s: State, t: TaskId)
    requires LaneInv(s) && t in s.tasks && StartTask(s.tasks[t])
    ensures s.tasks[t].run in s.starting && s.tasks[t].run !in s.live && s.tasks[t].run !in s.queue
  {
  }

  lemma FreshPlace(s: State)
    requires LaneInv(s) && Delivery.Bounded(s)
    ensures s.nextRun !in s.runs && s.nextRun !in s.live && s.nextRun !in s.starting
  {
    hide Delivery.RowsOk;
  }

  // ------------------------------------------------------------- other events

  lemma StopFine(s: State, r: RunId, text: string)
    requires AllFine(s) && LaneInv(s)
    ensures AllFine(Stop(s, r, text))
  {
    FineIds(s);
    HandlesOf(s, r);
    hide Leaves, AllFine, SettleQueued, Finalize;
    if r in s.queue {
      SettledLeaves(s, s.(queue := Without(s.queue, r)), r, Cancelled, text);
      LeavesFine(s, Stop(s, r, text), r);
    } else if r in s.live {
      StopLive(s, r, text);
      LeavesFine(s, Stop(s, r, text), r);
    }
  }

  lemma StopLive(s: State, r: RunId, text: string)
    requires IdsUsed(s) && Fine(s, r) && LaneInv(s) && r in s.live
    ensures Leaves(s, Finalize(s.Put(r, s.Get(r).(child := None)), r, Cancelled, text, false), r)
  {
    var s1 := s.Put(r, s.Get(r).(child := None));
    PutSpares(s, r, s.Get(r).(child := None));
    assert OwnHandles(s1, r) && IdsUsed(s1) && r !in s1.starting && r !in s1.queue;
    assert !s.Get(r).phase.Active() ==> Fine(s1, r) by {
      if !s.Get(r).phase.Active() && ReleasePending(s, r) {
        var t :| t in s.tasks && s.tasks[t].Releasing? && s.tasks[t].run == r;
        assert t in s1.tasks;
      }
    }
    hide Leaves, Finalize, Spares, Fine, OwnHandles;
    FinalizeLeaves(s1, r, Cancelled, text, false);
    LeavesAfter(s, s1, Finalize(s1, r, Cancelled, text, false), r);
  }

  lemma ResumeFine(s: State, r: RunId, spawned: bool)
    requires AllFine(s) && LaneInv(s) && r in s.live
    ensures AllFine(ResumeParked(s, r, spawned))
  {
    FineIds(s);
    HandlesOf(s, r);
    hide Leaves, AllFine, ResumeParked;
    ResumeLeaves(s, r, spawned);
    LeavesFine(s, ResumeParked(s, r, spawned), r);
  }

  lemma MarkFine(s: State, r: RunId)
    requires AllFine(s)
    ensures AllFine(MarkRestart(s, r))
  {
    PutSpares(s, r, s.Get(r).(restartCancelled := true));
    var s1 := MarkRestart(s, r);
    assert Fine(s, r);
    assert Fine(s1, r) by {
      if ReleasePending(s, r) { var t :| t in s.tasks && s.tasks[t].Releasing? && s.tasks[t].run == r; assert t in s1.tasks; }
      if ScreenshotPending(s, r) { var t :| t in s.tasks && s.tasks[t].Capturing? && s.tasks[t].run == r; assert t in s1.tasks; }
      if StartPending(s, r) { var t :| t in s.tasks && StartTask(s.tasks[t]) && s.tasks[t].run == r; assert t in s1.tasks; }
    }
    SparesAll(s, s1, {r});
  }

  /** Settling queued runs one after the other; none of them is starting or live. */
  lemma {:induction false} SettleAllFine(s: State, rs: seq<RunId>)
    requires AllFine(s) && forall r :: r in rs ==> r !in s.live && r !in s.starting
    ensures AllFine(SettleAll(s, rs))
    ensures SettleAll(s, rs).live == s.live && SettleAll(s, rs).starting == s.starting && SettleAll(s, rs).queue == s.queue
    decreases |rs|
  {
    hide SettleQueued, AllFine;
    if rs != [] {
      var r, s1 := rs[0], MarkRestart(s, rs[0]);
      var s2 := SettleQueued(s1, r, Cancelled, RESTART_TEXT);
      MarkFine(s, r);
      SettleFine(s1, r);
      assert forall x :: x in rs[1..] ==> x in rs;
      SettleAllFine(s2, rs[1..]);
    }
  }

  lemma SettleFine(s: State, r: RunId)
    requires AllFine(s) && r !in s.live && r !in s.starting
    ensures var s' := SettleQueued(s, r, Cancelled, RESTART_TEXT);
            AllFine(s') && s'.live == s.live && s'.starting == s.starting && s'.queue == s.queue
  {
    FineIds(s);
    HandlesOf(s, r);
    Safety.SettleKeeps(s.Put(r, s.Get(r).(phase := Cancelled, result := Some(RESTART_TEXT))), r);
    assert Without(s.starting, r) == s.starting by { Unaffected(s.starting, r); }
    assert s.(starting := Without(s.starting, r)) == s;
    hide Leaves, AllFine, SettleQueued;
    SettledLeaves(s, s, r, Cancelled, RESTART_TEXT);
    LeavesFine(s, SettleQueued(s, r, Cancelled, RESTART_TEXT), r);
  }

  lemma {:induction false} Unaffected(q: seq<RunId>, r: RunId)
    requires r !in q
    ensures Without(q, r) == q
  {
    if q != [] {
      assert q == [q[0]] + q[1..];
      Unaffected(q[1..], r);
    }
  }

  lemma {:induction false} FinalizeAllFine(s: State, rs: seq<RunId>)
    requires AllFine(s) && s.queue == [] && forall r :: r in rs ==> r !in s.starting
    ensures AllFine(FinalizeAll(s, rs))
    decreases |rs|
  {
    hide Finalize, AllFine;
    if rs != [] {
      var r, s1 := rs[0], MarkRestart(s, rs[0]);
      var s2 := Finalize(s1, r, Cancelled, RESTART_TEXT, false);
      MarkFine(s, r);
      FinalizeFine(s1, r);
      assert forall x :: x in rs[1..] ==> x in rs;
      FinalizeAllFine(s2, rs[1..]);
    }
  }

  lemma FinalizeFine(s: State, r: RunId)
    requires AllFine(s) && s.queue == [] && r !in s.starting
    ensures var s' := Finalize(s, r, Cancelled, RESTART_TEXT, false);
            AllFine(s') && s'.queue == [] && s'.starting == s.starting
  {
    FineIds(s);
    HandlesOf(s, r);
    FinalizePlaces(s, r);
    hide Leaves, AllFine, Finalize;
    FinalizeLeaves(s, r, Cancelled, RESTART_TEXT, false);
    LeavesFine(s, Finalize(s, r, Cancelled, RESTART_TEXT, false), r);
  }

  lemma FinalizePlaces(s: State, r: RunId)
    requires s.queue == []
    ensures var s' := Finalize(s, r, Cancelled, RESTART_TEXT, false); s'.queue == [] && s'.starting == s.starting
  {
    hide Settle;
    if s.Get(r).phase.Active() {
      var s1 := Conclude(s, r, Cancelled, RESTART_TEXT);
      ConcludePlaces(s, r, Cancelled, RESTART_TEXT);
      var s2 := s1.Put(r, Verified(s1.Get(r), Cancelled, false, s1.Get(r).proofFiles));
      Safety.SettleKeeps(s2.(live := Without(s2.live, r)), r);
      assert FillLanes(Settle(s2.(live := Without(s2.live, r)), r)) == Settle(s2.(live := Without(s2.live, r)), r);
    }
  }

  lemma StopAllFine(s: State)
    requires AllFine(s) && LaneInv(s) && Delivery.Ready(s)
    ensures AllFine(StopAll(s))
  {
    var s1 := Quiet(s).(queue := []);
    QuietFine(s, s1);
    hide AllFine, SettleAll, FinalizeAll, Quiet;
    SettleAllFine(s1, s.queue);
    FinalizeAllFine(SettleAll(s1, s.queue), SettleAll(s1, s.queue).live);
    StopAllIs(s);
  }

  lemma StopAllIs(s: State)
    ensures var s2 := SettleAll(Quiet(s).(queue := []), s.queue); StopAll(s) == FinalizeAll(s2, s2.live)
  {
    hide FinalizeAll, SettleAll;
  }

  lemma DropDaemon(s: State, h: Option<TaskId>)
    requires h.Some? && h.value in s.tasks ==> !Owned(s.tasks[h.value])
    ensures Spares(s, s.Drop(h), {})
  {
  }

  lemma RetryTimers(s: State)
    requires Delivery.Ready(s)
    ensures IdsUsed(s)
    ensures s.outcomeTimer.Some? && s.outcomeTimer.value in s.tasks ==> !Owned(s.tasks[s.outcomeTimer.value])
    ensures s.queueTimer.Some? && s.queueTimer.value in s.tasks ==> !Owned(s.tasks[s.queueTimer.value])
  {
    hide Delivery.Bounded, Delivery.Handles;
  }

  lemma DropTwo(s: State, a: Option<TaskId>, b: Option<TaskId>)
    requires IdsUsed(s)
    requires a.Some? && a.value in s.tasks ==> !Owned(s.tasks[a.value])
    requires b.Some? && b.value in s.tasks ==> !Owned(s.tasks[b.value])
    ensures Spares(s, s.Drop(a).Drop(b), {})
  {
    var s1 := s.Drop(a);
    assert b.Some? && b.value in s1.tasks ==> s1.tasks[b.value] == s.tasks[b.value];
    hide Owned;
    DropDaemon(s, a);
    DropDaemon(s1, b);
    hide Spares;
    SparesTrans(s, s1, s1.Drop(b), {});
  }

  lemma QuietSpares(s: State)
    requires Delivery.Ready(s)
    ensures Spares(s, Quiet(s), {}) && IdsUsed(s) && Quiet(s).runs == s.runs
  {
    RetryTimers(s);
    hide Delivery.Ready, Owned;
    var s0 := s.(stopping := true);
    var s2 := s0.Drop(s.outcomeTimer).Drop(s.queueTimer);
    SameSpares(s, s0, {});
    DropTwo(s0, s.outcomeTimer, s.queueTimer);
    SameSpares(s2, Quiet(s), {});
    hide Spares;
    SparesTrans(s, s0, s2, {});
    SparesTrans(s, s2, Quiet(s), {});
  }

  lemma QuietFine(s: State, s1: State)
    requires AllFine(s) && LaneInv(s) && Delivery.Ready(s) && s1 == Quiet(s).(queue := [])
    ensures AllFine(s1) && s1.queue == [] && s1.live == s.live && s1.starting == s.starting
    ensures forall r :: r in s.queue ==> r !in s1.live && r !in s1.starting
    ensures forall r :: r in s1.live ==> r !in s1.starting
  {
    QuietSpares(s);
    SameSpares(Quiet(s), s1, {});
    hide Spares, AllFine, Delivery.Ready;
    SparesTrans(s, Quiet(s), s1, {});
    SparesFine(s, s1);
  }

  lemma RecoverFine(s: State)
    requires AllFine(s) && !s.recovered && Seats(s)
    ensures AllFine(Recover(s))
  {
    hide Adopt, RecoverNext, Persist;
    var s0 := s.(orphans := []);
    var s1 := Adopt(s0, s.orphans).(recovered := true);
    Sync.AdoptKeeps(s0, s.orphans);
    AdoptHandles(s0, s.orphans);
    AdoptTasks(s0, s.orphans);
    assert forall x: RunId :: s0.Get(x) == s.Get(x);
    assert AllFine(s1) by {
      forall x: RunId ensures Fine(s1, x) { assert Fine(s, x); }
    }
    PersistSpares(s1);
    SparesFine(s1, Persist(s1));
    FineIds(Persist(s1));
    hide AllFine;
    RecoverNextSpares(Persist(s1), Persist(s1).finished);
    SparesFine(Persist(s1), Recover(s));
  }

  lemma {:induction false} AdoptHandles(s: State, rs: seq<RunId>)
    ensures forall x: RunId :: var run, run' := s.Get(x), Adopt(s, rs).Get(x);
              run'.child == run.child && run'.hardTimer == run.hardTimer && run'.questionTimer == run.questionTimer
    decreases |rs|
  {
    if rs != [] {
      var s1 := s.Put(rs[0], Orphaned(s.Get(rs[0])));
      AdoptHandles(s1.(finished := s1.finished + [rs[0]]), rs[1..]);
    }
  }

  /** Boot: no tasks, no lanes, and rows remember no handles. */
  lemma CrashFine(s: State)
    requires Delivery.RowsOk(s.disk, s.nextRun)
    ensures AllFine(Restart(s))
  {
    forall x: RunId ensures Fine(Restart(s), x) { LoadedHandles(s.disk, s.nextRun, x); }
  }

  lemma {:induction false} LoadedHandles(rows: seq<Row>, n: RunId, x: RunId)
    requires forall i :: 0 <= i < |rows| ==> rows[i].run == Durable(rows[i].run)
    ensures x in Loaded(rows) ==> Loaded(rows)[x] == Durable(Loaded(rows)[x])
  {
    if rows != [] { LoadedHandles(rows[..|rows| - 1], n, x); }
  }

  /** Every enabled event keeps everyone fine. */
  lemma FineStep(s: State, e: Event)
    requires Sound(s) && AllFine(s) && Enabled(s, e)
    ensures AllFine(Next(s, e))
  {
    hide AllFine, Delivery.AllCovered, Seats, LaneInv, Continue, Stop, StopAll, Recover, Restart, ResumeParked, Spares, Delivery.RowsOk;
    match e
    case Fire(t, o) => FireFine(s, t, o);
    case StopRun(r, text) => StopFine(s, r, text);
    case StopEverything => StopAllFine(s);
    case CallRecover => RecoverFine(s);
    case Crash => CrashFine(s);
    case Answer(r, spawned) => if r in s.live && s.Get(r).phase.Waiting? { ResumeFine(s, r, spawned); }
    case Steer(r, spawned) => if r !in s.queue && r in s.live && s.Get(r).phase.Waiting? { ResumeFine(s, r, spawned); }
    case _ => PlainFine(s, e);
  }

  lemma PlainFine(s: State, e: Event)
    requires AllFine(s) && (e.Dispatch? || e.LeaseLost? || e.DiskFault?)
    ensures AllFine(Next(s, e))
  {
    AddSpares(s, Admitting);
    if e.Dispatch? && !s.stopping { SparesFine(s, s.Add(Admitting)); }
    else {
      SameSpares(s, Next(s, e), {});
      SparesFine(s, Next(s, e));
    }
  }

  // --------------------------------------------------------------- whole runs

  lemma {:induction false} FineRun(s: State, es: seq<Event>)
    requires Sound(s) && AllFine(s) && AllEnabled(s, es)
    ensures Sound(Execute(s, es)) && AllFine(Execute(s, es))
    decreases |es|
  {
    hide Sound, AllFine, Next, Enabled;
    if es != [] {
      SoundStep(s, es[0]);
      FineStep(s, es[0]);
      FineRun(Next(s, es[0]), es[1..]);
    }
  }

  /**
   * In every reachable state, through crashes, disk faults, lost leases and stale screenshots: a run that
   * is starting has its start pending; a live run that runs has its leg pending with the timer that will
   * kill that leg, or its screenshot; one that waits has the timer of its question; one that has its
   * verdict has its release.
   */
  lemma NeverStuck(cap: nat, es: seq<Event>, x: RunId)
    requires cap >= 1 && AllEnabled(Init(cap), es)
    ensures var s := Execute(Init(cap), es);
            && (x in s.starting ==> StartPending(s, x))
            && (x in s.live ==>
                  match s.Get(x).phase
                  case Queued => false
                  case Running => LegPending(s, x) || ScreenshotPending(s, x)
                  case Waiting => QuestionPending(s, x)
                  case _ => ReleasePending(s, x))
  {
    InitSound(cap);
    assert AllFine(Init(cap));
    FineRun(Init(cap), es);
    FineIds(Execute(Init(cap), es));
    assert Fine(Execute(Init(cap), es), x);
  }
}
