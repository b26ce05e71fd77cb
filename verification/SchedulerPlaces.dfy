/**
 * Where runs are, over all enabled events: waiting runs have done nothing yet, a run in the history
 * holds no lane, and a run that is nowhere and has nothing pending is never touched again.
 */
module SchedulerPlaces {
  import opened Wrappers
  import opened SchedulerState
  import opened SchedulerSteps
  import opened SchedulerEffects
  import opened SchedulerVerdicts
  import opened SchedulerMoves
  import opened SchedulerCapacity
  import Delivery = SchedulerDelivery
  import Safety = SchedulerSafety

  // ------------------------------------------------------------- one stretch

  /** A computation or a timer of one run, other than reporting its outcome. */
  predicate Owned(task: Task) {
    StartTask(task) || task.LegWait? || task.Capturing? || task.Asking? || task.Releasing? || task.RunTimer()
  }

  /**
   * Only the runs `rs` are touched: no other phase changes, new computations are theirs or start a
   * queued run, and what enters the history is one of them and not live.
   */
  ghost predicate Touch(s: State, s': State, rs: seq<RunId>) {
    && s'.nextRun == s.nextRun && s'.recovered == s.recovered
    && (forall x: RunId :: x !in rs ==> s'.Get(x).phase == s.Get(x).phase)
    && (forall x: RunId :: x in s'.queue ==> x in s.queue)
    && (forall x: RunId :: x in s'.starting ==> x in s.starting || x in s.queue)
    && (forall x: RunId :: x in s'.live ==> x in s.live)
    && (forall x: RunId :: x in s'.finished ==> x in s.finished || (x in rs && x !in s'.live))
    && (forall t :: t in s'.tasks && Owned(s'.tasks[t]) ==>
          || (t in s.tasks && s'.tasks[t] == s.tasks[t])
          || s'.tasks[t].run in rs
          || (StartTask(s'.tasks[t]) && s'.tasks[t].run in s.queue))
  }

  lemma TouchTrans(s: State, t: State, u: State, rs: seq<RunId>)
    requires Touch(s, t, rs) && Touch(t, u, rs)
    ensures Touch(s, u, rs)
  {
  }

  lemma TouchMore(s: State, s': State, rs: seq<RunId>, more: seq<RunId>)
    requires Touch(s, s', rs) && forall r :: r in rs ==> r in more
    ensures Touch(s, s', more)
  {
  }

  /** Lists and tasks as they were, and only these records changed. */
  ghost predicate Edits(s: State, s': State, rs: seq<RunId>) {
    && s'.queue == s.queue && s'.starting == s.starting && s'.live == s.live
    && s'.nextRun == s.nextRun && s'.recovered == s.recovered
    && (forall x: RunId :: x in s'.finished ==> x in s.finished)
    && (forall t :: t in s'.tasks ==> (t in s.tasks && s'.tasks[t] == s.tasks[t]) || !Owned(s'.tasks[t]) || s'.tasks[t].run in rs)
    && (forall x: RunId :: x !in rs ==> s'.Get(x).phase == s.Get(x).phase)
  }

  lemma EditsTouch(s: State, s': State, rs: seq<RunId>)
    requires Edits(s, s', rs)
    ensures Touch(s, s', rs)
  {
  }

  lemma WrittenEdits(s: State, s1: State, rs: seq<RunId>)
    requires Edits(s, s1, rs)
    ensures Edits(s, Persist(s1), rs)
  {
    PersistKeeps(s1);
  }

  lemma SettleTouch(s: State, r: RunId)
    requires r !in s.live
    ensures Touch(s, Settle(s, r), [r])
  {
    Safety.SettleKeeps(s, r);
  }

  lemma SettleQueuedTouch(s: State, r: RunId, final: Phase, text: string)
    requires r !in s.live
    ensures Touch(s, SettleQueued(s, r, final, text), [r])
  {
    hide Settle;
    var s1 := s.Put(r, s.Get(r).(phase := final, result := Some(text)));
    EditsTouch(s, s1, [r]);
    SettleTouch(s1, r);
    TouchTrans(s, s1, Settle(s1, r), [r]);
  }

  lemma {:induction false} FillTouch(s: State)
    ensures Touch(s, FillLanes(s), [])
    decreases |s.queue|
  {
    if s.queue != [] && s.Busy() < s.cap {
      var s1 := StartDispatch(s.(queue := s.queue[1..]), s.queue[0], false);
      assert s.queue[0] in s.queue;
      assert Touch(s, s1, []);
      FillTouch(s1);
      TouchTrans(s, s1, FillLanes(s1), []);
    }
  }

  lemma RefillTouch(s: State, n: State, rs: seq<RunId>)
    requires Touch(s, n, rs)
    ensures Touch(s, MaybeStartNext(n), rs)
  {
    hide Touch, FillLanes;
    if !n.stopping {
      FillTouch(n);
      TouchMore(n, FillLanes(n), [], rs);
      TouchTrans(s, n, FillLanes(n), rs);
    }
  }

  lemma FinalizeEndTouch(s: State, r: RunId, final: Phase, captureProof: bool, proofs: nat)
    ensures Touch(s, FinalizeEnd(s, r, final, captureProof, proofs), [r])
  {
    hide Settle, MaybeStartNext;
    var s2 := s.Put(r, Verified(s.Get(r), final, captureProof, proofs)).(live := Without(s.live, r));
    assert Touch(s, s2, [r]);
    SettleTouch(s2, r);
    TouchTrans(s, s2, Settle(s2, r), [r]);
    RefillTouch(s, Settle(s2, r), [r]);
  }

  lemma DropTouch(s: State, h: Option<TaskId>, rs: seq<RunId>)
    ensures Touch(s, s.Drop(h), rs)
  {
    EditsTouch(s, s.Drop(h), rs);
  }

  lemma PutTouch(s: State, r: RunId, run: Run)
    ensures Touch(s, s.Put(r, run), [r])
  {
    EditsTouch(s, s.Put(r, run), [r]);
  }

  lemma ConcludeTouch(s: State, r: RunId, final: Phase, text: string)
    ensures Touch(s, Conclude(s, r, final, text), [r])
  {
    hide Touch;
    var run := s.Get(r).(phase := final, result := Some(text));
    var s1 := s.Put(r, run);
    var s2 := s1.Drop(run.hardTimer);
    var s3 := s2.Drop(run.questionTimer);
    var s4 := s3.Put(r, run.(hardTimer := None, questionTimer := None));
    PutTouch(s, r, run);
    DropTouch(s1, run.hardTimer, [r]);
    TouchTrans(s, s1, s2, [r]);
    DropTouch(s2, run.questionTimer, [r]);
    TouchTrans(s, s2, s3, [r]);
    PutTouch(s3, r, run.(hardTimer := None, questionTimer := None));
    TouchTrans(s, s3, s4, [r]);
    PutTouch(s4, r, s4.Get(r).(child := None));
    TouchTrans(s, s4, s4.Put(r, s4.Get(r).(child := None)), [r]);
  }

  lemma FinalizeTouch(s: State, r: RunId, final: Phase, text: string, captureProof: bool)
    ensures Touch(s, Finalize(s, r, final, text, captureProof), [r])
  {
    hide Conclude, FinalizeEnd, Touch;
    EditsTouch(s, s, [r]);
    if s.Get(r).phase.Active() {
      var s1 := Conclude(s, r, final, text);
      ConcludeTouch(s, r, final, text);
      EditsTouch(s1, s1.Add(Releasing(r, final, captureProof)), [r]);
      FinalizeEndTouch(s1, r, final, captureProof, s1.Get(r).proofFiles);
      TouchTrans(s, s1, Finalize(s, r, final, text, captureProof), [r]);
    }
  }

  lemma ExecuteLegTouch(s: State, r: RunId, attempt: nat, resumed: bool, spawned: bool)
    ensures Touch(s, ExecuteLeg(s, r, attempt, resumed, spawned), [r])
  {
    hide Finalize, Touch;
    if spawned { EditsTouch(s, ExecuteLeg(s, r, attempt, resumed, spawned), [r]); }
    else { FinalizeTouch(s, r, Error, SPAWN_TEXT, false); }
  }

  lemma SpawnLegTouch(s: State, r: RunId, resumed: bool, spawned: bool)
    ensures Touch(s, SpawnLeg(s, r, resumed, spawned), [r])
  {
    hide Persist, ExecuteLeg, Touch;
    WrittenEdits(s, s.Put(r, s.Get(r).(phase := Running, question := None, anchor := None)), [r]);
    EditsTouch(s, Relaunch(s, r), [r]);
    ExecuteLegTouch(Relaunch(s, r), r, 1, resumed, spawned);
    TouchTrans(s, Relaunch(s, r), SpawnLeg(s, r, resumed, spawned), [r]);
  }

  lemma ResumeTouch(s: State, r: RunId, spawned: bool)
    ensures Touch(s, ResumeParked(s, r, spawned), [r])
  {
    hide SpawnLeg, Touch;
    EditsTouch(s, Unpark(s, r), [r]);
    SpawnLegTouch(Unpark(s, r), r, true, spawned);
    TouchTrans(s, Unpark(s, r), ResumeParked(s, r, spawned), [r]);
  }

  lemma HonourTouch(s: State, r: RunId, o: LegResult)
    ensures Touch(s, ApplyLegOutcome(s, r, o), [r])
  {
    hide Finalize, Touch;
    match o
    case Broken(text) => FinalizeTouch(s, r, Error, text, false);
    case NeedsInput(q) =>
      EditsTouch(s, s.Add(Capturing(r, q)), [r]);
      FinalizeTouch(s, r, Error, NO_QUESTION_TEXT, false);
    case Failed(text) => FinalizeTouch(s, r, Error, text, false);
    case Completed(text, proof) => FinalizeTouch(s, r, Done, text, proof);
  }

  lemma AfterLegTouch(s: State, leg: Task, attached: bool, o: LegResult, respawned: bool)
    requires leg.LegWait?
    ensures Touch(s, AfterLeg(s, leg, attached, o, respawned), [leg.run])
  {
    hide Touch, ApplyLegOutcome, Finalize, ExecuteLeg;
    if attached { HonourTouch(s, leg.run, o); }
    else if leg.attempt >= LEG_MAX_ATTEMPTS { FinalizeTouch(s, leg.run, Error, ATTACH_TEXT, false); }
    else { ExecuteLegTouch(s, leg.run, leg.attempt + 1, leg.resumed, respawned); }
  }

  lemma LegDoneTouch(s: State, t: TaskId, leg: Task, attached: bool, o: LegResult, respawned: bool)
    requires leg.LegWait?
    ensures Touch(s, LegDone(s, t, leg, attached, o, respawned), [leg.run])
  {
    hide Touch, AfterLeg;
    EditsTouch(s, s, [leg.run]);
    EditsTouch(s, Reap(s, leg.run), [leg.run]);
    AfterLegTouch(Reap(s, leg.run), leg, attached, o, respawned);
    TouchTrans(s, Reap(s, leg.run), AfterLeg(Reap(s, leg.run), leg, attached, o, respawned), [leg.run]);
  }

  lemma ParkTouch(s: State, r: RunId, text: string)
    ensures Touch(s, Park(s, r, text), [r])
  {
    hide Persist, Touch;
    var s1 := s.Add(QuestionTimer(r));
    var s2 := s1.Put(r, s1.Get(r).(phase := Waiting, question := Some(text), questionTimer := Some(s.nextTask)));
    assert Edits(s, s2, [r]);
    WrittenEdits(s, s2, [r]);
    EditsTouch(s, Park(s, r, text), [r]);
  }

  lemma AskedTouch(s: State, r: RunId, anchor: string)
    ensures Touch(s, Asked(s, r, anchor), [r])
  {
    hide Persist, Touch;
    EditsTouch(s, s, [r]);
    WrittenEdits(s, s.Put(r, s.Get(r).(anchor := Some(anchor))), [r]);
    EditsTouch(s, Persist(s.Put(r, s.Get(r).(anchor := Some(anchor)))), [r]);
  }

  /** Reporting touches no run's phase and starts no computation. */
  lemma AnsweredTouch(s: State, r: RunId, accepted: bool)
    ensures Touch(s, if accepted then Delivered(s, r) else ScheduleOutcomeRetry(s), [])
  {
    hide Persist, Touch;
    if accepted {
      WrittenEdits(s, s.Put(r, s.Get(r).(delivered := true)), []);
      EditsTouch(s, Delivered(s, r), []);
    } else {
      EditsTouch(s, ScheduleOutcomeRetry(s), []);
    }
  }

  lemma {:induction false} DeliverAllTouch(s: State, rs: seq<RunId>)
    ensures Edits(s, DeliverAll(s, rs), [])
    decreases |rs|
  {
    if rs != [] { DeliverAllTouch(if s.Get(rs[0]).delivered then s else s.Add(Delivering(rs[0])), rs[1..]); }
  }

  lemma {:induction false} RecoverNextTouch(s: State, rest: seq<RunId>)
    ensures Touch(s, RecoverNext(s, rest), [])
    decreases |rest|
  {
    hide Touch, MaybeStartNext;
    EditsTouch(s, s, []);
    if rest == [] { RefillTouch(s, s, []); }
    else if s.Get(rest[0]).delivered { RecoverNextTouch(s, rest[1..]); }
    else { EditsTouch(s, s.Add(Recovering(rest[0], rest[1..])), []); }
  }

  lemma {:induction false} SettleAllTouch(s: State, rs: seq<RunId>, all: seq<RunId>)
    requires forall r: RunId :: r in rs ==> r in all && r !in s.live
    ensures Touch(s, SettleAll(s, rs), all)
    decreases |rs|
  {
    hide SettleQueued;
    if rs == [] {
      EditsTouch(s, s, all);
    } else {
      var r := rs[0];
      var s1 := MarkRestart(s, r);
      var s2 := SettleQueued(s1, r, Cancelled, RESTART_TEXT);
      EditsTouch(s, s1, all);
      SettleQueuedTouch(s1, r, Cancelled, RESTART_TEXT);
      TouchMore(s1, s2, [r], all);
      TouchTrans(s, s1, s2, all);
      SettleAllTouch(s2, rs[1..], all);
      TouchTrans(s, s2, SettleAll(s2, rs[1..]), all);
    }
  }

  lemma {:induction false} FinalizeAllTouch(s: State, rs: seq<RunId>, all: seq<RunId>)
    requires forall r: RunId :: r in rs ==> r in all
    ensures Touch(s, FinalizeAll(s, rs), all)
    decreases |rs|
  {
    hide Finalize, Touch;
    if rs == [] {
      EditsTouch(s, s, all);
    } else {
      var r := rs[0];
      var s1 := MarkRestart(s, r);
      var s2 := Finalize(s1, r, Cancelled, RESTART_TEXT, false);
      EditsTouch(s, s1, all);
      FinalizeTouch(s1, r, Cancelled, RESTART_TEXT, false);
      TouchMore(s1, s2, [r], all);
      TouchTrans(s, s1, s2, all);
      FinalizeAllTouch(s2, rs[1..], all);
      TouchTrans(s, s2, FinalizeAll(s2, rs[1..]), all);
    }
  }

  // ------------------------------------------------------------ the invariant

  /** Waiting runs are untouched, the history holds no lane, and before recovery nothing goes on. */
  ghost predicate Seats(s: State) {
    && (forall r: RunId :: r in s.queue || r in s.starting ==> s.Get(r).phase.Queued?)
    && (forall t :: t in s.tasks && Owned(s.tasks[t]) && !StartTask(s.tasks[t]) ==> !Waits(s, s.tasks[t].run))
    && (forall r: RunId :: r in s.finished ==> !InLanes(s, r))
    && (!s.recovered ==> s.queue == [] && s.starting == [] && s.live == [] && s.tasks == map[])
  }

  /** The run is in no lane and nothing of its own is pending. */
  ghost predicate Aside(s: State, x: RunId) {
    x < s.nextRun && !InLanes(s, x) && forall t :: t in s.tasks && Owned(s.tasks[t]) ==> s.tasks[t].run != x
  }

  ghost predicate AsideKept(s: State, s': State) {
    forall x: RunId :: Aside(s, x) ==> Aside(s', x) && s'.Get(x).phase == s.Get(x).phase
  }

  ghost predicate Settled(s: State, s': State) {
    Seats(s') && AsideKept(s, s')
  }

  lemma SettledTrans(s: State, t: State, u: State)
    requires AsideKept(s, t) && Settled(t, u)
    ensures Settled(s, u)
  {
  }

  /** Touching runs that do not wait keeps the seats; touching none that is aside keeps those aside. */
  lemma TouchSettles(s: State, s': State, rs: seq<RunId>)
    requires Seats(s) && Touch(s, s', rs) && s.recovered
    requires forall r :: r in rs ==> !Waits(s, r) && !Aside(s, r)
    ensures Settled(s, s')
  {
    forall x: RunId | Aside(s, x) ensures Aside(s', x) { assert x !in rs; }
  }

  lemma DropSettles(s: State, t: TaskId)
    requires Seats(s)
    ensures Settled(s, s.Drop(Some(t)))
  {
  }

  /** The own computation `task` of a run that does not wait goes on. */
  lemma RunTaskSettles(s: State, t: TaskId, o: Outcome)
    requires Seats(s) && s.recovered && t in s.tasks && Fits(s.tasks[t], o)
    requires Owned(s.tasks[t]) && !StartTask(s.tasks[t])
    ensures Settled(s, Next(s, Fire(t, o)))
  {
    hide Continue;
    var task := s.tasks[t];
    var r := task.run;
    EditsTouch(s, s.Drop(Some(t)), [r]);
    RunTaskTouch(s.Drop(Some(t)), t, task, o);
    TouchTrans(s, s.Drop(Some(t)), Next(s, Fire(t, o)), [r]);
    TouchSettles(s, Next(s, Fire(t, o)), [r]);
  }

  lemma RunTaskTouch(s: State, t: TaskId, task: Task, o: Outcome)
    requires Fits(task, o) && Owned(task) && !StartTask(task)
    ensures Touch(s, Continue(s, t, task, o), [task.run])
  {
    hide Touch, LegDone, Park, Asked, Finalize, FinalizeEnd;
    EditsTouch(s, s, [task.run]);
    match task
    case LegWait(r, attempt, resumed) => LegDoneTouch(s, t, task, o.attached, o.result, o.respawned);
    case Capturing(r, text) => ParkTouch(s, r, text); FinalizeTouch(s, r, Error, ASK_TEXT, false);
    case Asking(r) =>
      FinalizeTouch(s, r, Error, ASK_TEXT, false);
      if o.Posted? { AskedTouch(s, r, o.anchor); }
    case Releasing(r, final, captureProof) =>
      EditsTouch(s, Free(s, r, o.freed), [r]);
      FinalizeEndTouch(Free(s, r, o.freed), r, final, captureProof, o.proofs);
      TouchTrans(s, Free(s, r, o.freed), Continue(s, t, task, o), [r]);
    case HardTimer(r, leg) => FinalizeTouch(s, r, Timeout, HARD_TIMEOUT_TEXT, false);
    case QuestionTimer(r) => FinalizeTouch(s, r, Timeout, QUESTION_TIMEOUT_TEXT, false);
  }

  // ------------------------------------------------------------------ starts

  lemma GoLiveSettles(s: State, r: RunId)
    requires Seats(s) && LaneInv(s) && s.recovered && r in s.starting && NoStartOf(s, r)
    ensures Settled(s, GoLive(s, r)) && !Waits(GoLive(s, r), r) && r in GoLive(s, r).live
  {
    var s' := GoLive(s, r);
    assert forall x: RunId :: InLanes(s', x) ==> InLanes(s, x);
  }

  lemma GrantedSettles(s: State, r: RunId, spawned: bool)
    requires Seats(s) && LaneInv(s) && s.recovered && r in s.starting && NoStartOf(s, r)
    ensures Settled(s, StartSucceeded(s, r, spawned))
  {
    hide GoLive, SpawnLeg, Seats;
    GoLiveSettles(s, r);
    SpawnLegTouch(GoLive(s, r), r, false, spawned);
    GoLiveIsUp(s, r);
    TouchSettles(GoLive(s, r), StartSucceeded(s, r, spawned), [r]);
    SettledTrans(s, GoLive(s, r), StartSucceeded(s, r, spawned));
  }

  lemma GoLiveIsUp(s: State, r: RunId)
    ensures GoLive(s, r).recovered == s.recovered
  {
  }

  lemma RetryEdits(s: State, m: State)
    requires Edits(s, m, [])
    ensures Edits(s, ScheduleQueueRetry(m), [])
  {
  }

  lemma RequeueWritten(s: State, r: RunId, immediate: bool)
    ensures Edits(Requeued(s, r, immediate), StartFailed(s, r, immediate, true), [])
  {
    hide Persist, SettleQueued, MaybeStartNext;
    var s2 := Requeued(s, r, immediate);
    assert Edits(s2, s2, []);
    hide Edits;
    WrittenEdits(s2, s2, []);
    RetryEdits(s2, Persist(s2));
  }

  /** A lost race: the run waits as before. */
  lemma RequeueSettles(s: State, r: RunId, immediate: bool)
    requires Seats(s) && LaneInv(s) && s.recovered && r in s.starting && NoStartOf(s, r)
    ensures Settled(s, StartFailed(s, r, immediate, true))
  {
    var s2 := Requeued(s, r, immediate);
    RequeuedSeats(s, r, immediate);
    hide LaneInv, Seats, AsideKept, Touch, Edits, StartFailed, Requeued;
    RequeueWritten(s, r, immediate);
    EditsTouch(s2, StartFailed(s, r, immediate, true), []);
    TouchSettles(s2, StartFailed(s, r, immediate, true), []);
    SettledTrans(s, s2, StartFailed(s, r, immediate, true));
  }

  lemma RequeuedSeats(s: State, r: RunId, immediate: bool)
    requires Seats(s) && s.recovered && r in s.starting && r !in s.queue
    ensures Settled(s, Requeued(s, r, immediate))
  {
    var s2 := Requeued(s, r, immediate);
    assert forall x: RunId :: Waits(s2, x) ==> Waits(s, x);
  }

  /** A failed start: the run leaves its lane and is settled. */
  lemma FailedStartSettles(s: State, r: RunId, immediate: bool)
    requires Seats(s) && LaneInv(s) && s.recovered && r in s.starting && NoStartOf(s, r)
    ensures Settled(s, StartFailed(s, r, immediate, false))
  {
    hide SettleQueued, MaybeStartNext;
    var s1 := s.(starting := Without(s.starting, r));
    var s2 := SettleQueued(s1, r, Error, START_TEXT);
    SettleQueuedTouch(s1, r, Error, START_TEXT);
    RefillTouch(s1, s2, [r]);
    UnseatedSettles(s, s1, r);
    OneLeft(s, s1, s2, r);
    OneLeft(s, s1, MaybeStartNext(s2), r);
  }

  /** The run `r`, not in the history, has left queue and starting. */
  lemma UnseatedSettles(s: State, s1: State, r: RunId)
    requires Seats(s) && LaneInv(s)
    requires (r in s.starting && s1 == s.(starting := Without(s.starting, r)))
             || (r in s.queue && s1 == s.(queue := Without(s.queue, r)))
    ensures Seats(s1) && AsideKept(s, s1) && !InLanes(s1, r)
  {
  }

  /** Only `r`, which waited, was touched, and it waits no more. */
  lemma OneLeft(s: State, s1: State, s': State, r: RunId)
    requires Seats(s1) && AsideKept(s, s1) && s1.recovered && Touch(s1, s', [r]) && !InLanes(s1, r) && Waits(s, r)
    requires s1.nextRun == s.nextRun && forall t :: t in s1.tasks ==> t in s.tasks && s1.tasks[t] == s.tasks[t]
    requires forall x: RunId :: InLanes(s1, x) ==> InLanes(s, x)
    requires forall x: RunId :: s1.Get(x).phase == s.Get(x).phase
    ensures Settled(s, s')
  {
    forall x: RunId | Aside(s, x) ensures Aside(s', x) && s'.Get(x).phase == s.Get(x).phase {
      assert x != r && Aside(s1, x);
    }
  }

  lemma HalfTakenSettles(s: State, r: RunId, immediate: bool, race: bool, leases: set<RunId>)
    requires Seats(s) && s.recovered && r in s.starting
    ensures Settled(s, s.(leases := leases).Add(Unwinding(r, immediate, race)))
  {
  }

  lemma StartTaskSettles(s: State, t: TaskId, task: Task, o: Outcome)
    requires Seats(s) && LaneInv(s) && s.recovered && Fits(task, o) && StartTask(task)
    requires task.run in s.starting && NoStartOf(s, task.run)
    ensures Settled(s, Continue(s, t, task, o))
  {
    hide StartSucceeded, StartFailed, Seats, AsideKept;
    var r := task.run;
    if o.Granted? {
      GrantedSettles(s, r, o.spawned);
    } else if o.GrantedThenFailed? {
      HalfTakenSettles(s, r, task.immediate, false, s.leases + {r});
    } else if o.Refused? && r in s.leases {
      assert s.(leases := s.leases) == s;
      HalfTakenSettles(s, r, task.immediate, o.race, s.leases);
    } else {
      var freed := o.Unwound? && o.freed;
      var race := if o.Refused? then o.race else task.race;
      FreeSettles(s, r, freed);
      if race { RequeueSettles(Free(s, r, freed), r, task.immediate); }
      else { FailedStartSettles(Free(s, r, freed), r, task.immediate); }
      SettledTrans(s, Free(s, r, freed), Continue(s, t, task, o));
    }
  }

  lemma FreeSettles(s: State, r: RunId, freed: bool)
    requires Seats(s) && LaneInv(s)
    ensures Settled(s, Free(s, r, freed)) && LaneInv(Free(s, r, freed))
  {
  }

  lemma StartFires(s: State, t: TaskId, o: Outcome)
    requires Seats(s) && LaneInv(s) && s.recovered && t in s.tasks && Fits(s.tasks[t], o) && StartTask(s.tasks[t])
    ensures Settled(s, Next(s, Fire(t, o)))
  {
    hide Continue, Seats;
    var s1, task := s.Drop(Some(t)), s.tasks[t];
    assert task.run in s1.starting && NoStartOf(s1, task.run);
    DropSettles(s, t);
    DropCalm(s, Some(t));
    CalmMoves(s, s1);
    assert LaneInv(s1);
    hide LaneInv;
    StartTaskSettles(s1, t, task, o);
    SettledTrans(s, s1, Next(s, Fire(t, o)));
  }

  // ------------------------------------------------------------ other events

  /** A new run is nowhere, and nothing is known of it. */
  lemma FreshSeats(s: State)
    requires Seats(s) && LaneInv(s) && s.recovered && Delivery.Bounded(s)
    ensures var r, s1 := s.nextRun, s.Put(s.nextRun, FRESH_RUN).(nextRun := s.nextRun + 1);
            && Seats(s1) && AsideKept(s, s1) && Aside(s1, r) && r !in s1.finished && s1.Get(r).phase.Queued?
  {
    hide Delivery.RowsOk;
    forall t | t in s.tasks && Owned(s.tasks[t]) ensures s.tasks[t].run < s.nextRun { assert Delivery.Names(s.tasks[t], s.nextRun); }
    assert forall x: RunId :: x in s.finished ==> x < s.nextRun;
  }

  /** A run with nothing pending begins to wait. */
  lemma BeginsToWait(s: State, s': State, r: RunId)
    requires Seats(s) && s.recovered && s'.recovered && Aside(s, r) && r !in s.finished && s.Get(r).phase.Queued?
    requires s'.live == s.live && s'.nextRun == s.nextRun && s'.runs == s.runs
    requires forall x: RunId :: x in s'.finished ==> x in s.finished
    requires forall x: RunId :: x in s'.queue || x in s'.starting ==> x in s.queue || x in s.starting || x == r
    requires forall t :: t in s'.tasks && Owned(s'.tasks[t]) ==>
               (t in s.tasks && s'.tasks[t] == s.tasks[t]) || (StartTask(s'.tasks[t]) && s'.tasks[t].run == r)
    ensures Seats(s') && forall x: RunId :: x != r && Aside(s, x) ==> Aside(s', x)
  {
  }

  lemma AdmitSettles(s: State)
    requires Seats(s) && LaneInv(s) && s.recovered && Delivery.Bounded(s)
    ensures Settled(s, Admit(s))
  {
    hide Seats, LaneInv, Delivery.Bounded, Aside, Admit;
    FreshSeats(s);
    AdmitIs(s);
    BeginsToWait(s.Put(s.nextRun, FRESH_RUN).(nextRun := s.nextRun + 1), Admit(s), s.nextRun);
    NotYet(s);
  }

  lemma AdmitIs(s: State)
    ensures var s' := Admit(s);
            && s'.runs == s.runs[s.nextRun := FRESH_RUN] && s'.live == s.live && s'.nextRun == s.nextRun + 1
            && s'.recovered == s.recovered
            && (forall x: RunId :: x in s'.finished ==> x in s.finished)
            && (forall x: RunId :: x in s'.queue || x in s'.starting ==> x in s.queue || x in s.starting || x == s.nextRun)
            && (forall t :: t in s'.tasks ==>
                  (t in s.tasks && s'.tasks[t] == s.tasks[t]) || (StartTask(s'.tasks[t]) && s'.tasks[t].run == s.nextRun))
  {
    hide Persist;
    var s1 := s.Put(s.nextRun, FRESH_RUN).(nextRun := s.nextRun + 1);
    PersistKeeps(s1.(queue := s1.queue + [s.nextRun]));
  }

  lemma NotYet(s: State)
    ensures !Aside(s, s.nextRun)
  {
  }

  lemma DaemonTaskSettles(s: State, t: TaskId, task: Task, o: Outcome)
    requires Seats(s) && LaneInv(s) && s.recovered && Delivery.Bounded(s) && Fits(task, o) && !Owned(task)
    ensures Settled(s, Continue(s, t, task, o))
  {
    hide Seats, Touch, Admit, Delivered, ScheduleOutcomeRetry, RecoverNext, DeliverAll, MaybeStartNext, LaneInv;
    EditsTouch(s, s, []);
    match task
    case Admitting =>
      if o.ok { AdmitSettles(s); } else { TouchSettles(s, s, []); }
    case Delivering(r) =>
      AnsweredTouch(s, r, o.Accepted?);
      TouchSettles(s, Continue(s, t, task, o), []);
    case Recovering(r, rest) =>
      var m := if o.Accepted? then Delivered(s, r) else ScheduleOutcomeRetry(s);
      AnsweredTouch(s, r, o.Accepted?);
      RecoverNextTouch(m, rest);
      TouchTrans(s, m, RecoverNext(m, rest), []);
      TouchSettles(s, RecoverNext(m, rest), []);
    case OutcomeRetry =>
      var s1 := s.(outcomeTimer := None);
      DeliverAllTouch(s1, s.finished);
      assert Edits(s, DeliverAll(s1, s.finished), []);
      EditsTouch(s, DeliverAll(s1, s.finished), []);
      TouchSettles(s, DeliverAll(s1, s.finished), []);
    case QueueRetry =>
      EditsTouch(s, s.(queueTimer := None), []);
      RefillTouch(s, s.(queueTimer := None), []);
      TouchSettles(s, MaybeStartNext(s.(queueTimer := None)), []);
  }

  lemma FireSettles(s: State, t: TaskId, o: Outcome)
    requires Seats(s) && LaneInv(s) && s.recovered && Delivery.Bounded(s) && t in s.tasks && Fits(s.tasks[t], o)
    ensures Settled(s, Next(s, Fire(t, o)))
  {
    var task := s.tasks[t];
    if StartTask(task) { StartFires(s, t, o); }
    else if Owned(task) { RunTaskSettles(s, t, o); }
    else {
      hide Continue, Seats;
      var s1 := s.Drop(Some(t));
      DropSettles(s, t);
      DropCalm(s, Some(t));
      CalmMoves(s, s1);
      assert Delivery.Bounded(s1);
      DaemonTaskSettles(s1, t, task, o);
      SettledTrans(s, s1, Next(s, Fire(t, o)));
    }
  }

  lemma StopSettles(s: State, r: RunId, text: string)
    requires Seats(s) && LaneInv(s) && s.recovered
    ensures Settled(s, Stop(s, r, text))
  {
    hide SettleQueued, Finalize;
    if r in s.queue {
      var s1 := s.(queue := Without(s.queue, r));
      SettleQueuedTouch(s1, r, Cancelled, text);
      UnseatedSettles(s, s1, r);
      OneLeft(s, s1, Stop(s, r, text), r);
    } else if r in s.live {
      var s1 := s.Put(r, s.Get(r).(child := None));
      EditsTouch(s, s1, [r]);
      FinalizeTouch(s1, r, Cancelled, text, false);
      TouchTrans(s, s1, Stop(s, r, text), [r]);
      TouchSettles(s, Stop(s, r, text), [r]);
    } else {
      EditsTouch(s, s, []);
      TouchSettles(s, s, []);
    }
  }

  lemma ResumeSettles(s: State, r: RunId, spawned: bool)
    requires Seats(s) && LaneInv(s) && s.recovered && r in s.live
    ensures Settled(s, ResumeParked(s, r, spawned))
  {
    hide ResumeParked, Seats;
    ResumeTouch(s, r, spawned);
    TouchSettles(s, ResumeParked(s, r, spawned), [r]);
  }

  /** Shutdown settles the queue, none of which is starting or live, and finalizes what is live. */
  lemma StopAllSettles(s: State)
    requires Seats(s) && LaneInv(s) && s.recovered
    ensures Settled(s, StopAll(s))
  {
    hide SettleAll, FinalizeAll, Quiet, Touch, Seats;
    var s1 := Quiet(s).(queue := []);
    var s2 := SettleAll(s1, s.queue);
    var all := s.queue + s.live;
    QuietKept(s, s1);
    SettleAllTouch(s1, s.queue, all);
    SettledLive(s1, s2, all);
    FinalizeAllTouch(s2, s2.live, all);
    TouchTrans(s1, s2, StopAll(s), all);
    TouchAside(s, s1, StopAll(s), all);
    AllSettle(s1, StopAll(s), all);
  }

  lemma SettledLive(s: State, s': State, rs: seq<RunId>)
    requires Touch(s, s', rs)
    ensures forall x: RunId :: x in s'.live ==> x in s.live
  {
  }

  lemma QuietKept(s: State, s1: State)
    requires Seats(s) && s1 == Quiet(s).(queue := [])
    ensures Seats(s1) && AsideKept(s, s1) && s1.queue == [] && s1.starting == s.starting && s1.live == s.live
    ensures s1.recovered == s.recovered && s1.nextRun == s.nextRun
    ensures StopAll(s) == FinalizeAll(SettleAll(s1, s.queue), SettleAll(s1, s.queue).live)
  {
    hide Quiet;
    Delivery.QuietTasks(s);
  }

  /** None of those touched was aside in `s`. */
  lemma TouchAside(s: State, s1: State, s': State, rs: seq<RunId>)
    requires AsideKept(s, s1) && Touch(s1, s', rs) && forall r :: r in rs ==> !Aside(s, r)
    ensures AsideKept(s, s')
  {
  }

  lemma AllSettle(s: State, s': State, rs: seq<RunId>)
    requires Seats(s) && Touch(s, s', rs) && s.recovered && forall r :: r in rs ==> !Waits(s, r)
    ensures Seats(s')
  {
  }

  lemma RecoverSettles(s: State)
    requires Seats(s) && !s.recovered
    ensures Seats(Recover(s))
  {
    hide Adopt, Persist, RecoverNext;
    var s1 := Adopt(s.(orphans := []), s.orphans).(recovered := true);
    AdoptLevel(s.(orphans := []), s.orphans);
    AdoptTasks(s.(orphans := []), s.orphans);
    PersistKeeps(s1);
    var s2 := Persist(s1);
    assert Seats(s2);
    RecoverNextTouch(s2, s2.finished);
    TouchSettles(s2, Recover(s), []);
  }

  lemma {:induction false} AdoptTasks(s: State, rs: seq<RunId>)
    ensures Adopt(s, rs).tasks == s.tasks
    decreases |rs|
  {
    if rs != [] {
      var s1 := s.Put(rs[0], Orphaned(s.Get(rs[0])));
      AdoptTasks(s1.(finished := s1.finished + [rs[0]]), rs[1..]);
    }
  }

  lemma SameSettles(s: State, s': State)
    requires Seats(s) && Edits(s, s', []) && s.recovered
    ensures Settled(s, s')
  {
    EditsTouch(s, s', []);
    TouchSettles(s, s', []);
  }

  /** Every enabled step keeps the seats; all but boot and recovery leave alone what is aside. */
  lemma SeatsStep(s: State, e: Event)
    requires Seats(s) && LaneInv(s) && Delivery.Bounded(s) && Enabled(s, e)
    ensures Seats(Next(s, e))
    ensures !e.Crash? && s.recovered ==> AsideKept(s, Next(s, e))
  {
    hide Seats, LaneInv, Touch, Delivery.Bounded, Stop, StopAll, Recover, ResumeParked, Continue;
    match e
    case Fire(t, o) => FireSettles(s, t, o);
    case StopRun(r, text) => StopSettles(s, r, text);
    case StopEverything => StopAllSettles(s);
    case CallRecover => RecoverSettles(s);
    case Answer(r, spawned) => SameSettles(s, s); if r in s.live { ResumeSettles(s, r, spawned); }
    case Steer(r, spawned) => SameSettles(s, s); if r in s.live { ResumeSettles(s, r, spawned); }
    case Dispatch => SameSettles(s, Next(s, e));
    case LeaseLost(r) => SameSettles(s, Next(s, e));
    case DiskFault(b) => FaultSettles(s, b);
    case Crash => CrashSeats(s);
  }

  lemma FaultSettles(s: State, broken: bool)
    requires Seats(s)
    ensures Settled(s, s.(diskBroken := broken))
  {
  }

  lemma CrashSeats(s: State)
    ensures Seats(Restart(s))
  {
  }

  // ------------------------------------------------------------- whole runs

  /** Everything that holds of every reachable state. */
  ghost predicate Sound(s: State) {
    LaneInv(s) && Seats(s) && Delivery.Ready(s) && Delivery.AllCovered(s)
  }

  lemma SoundStep(s: State, e: Event)
    requires Sound(s) && Enabled(s, e)
    ensures Sound(Next(s, e))
  {
    hide Next, Enabled, LaneInv, Seats, Delivery.AllCovered, Delivery.Bounded;
    LaneStep(s, e);
    SeatsStep(s, e);
    Delivery.CoveredStep(s, e);
  }

  lemma InitSound(cap: nat)
    requires cap >= 1
    ensures Sound(Init(cap))
  {
  }

  lemma {:induction false} SoundRun(s: State, es: seq<Event>)
    requires Sound(s) && AllEnabled(s, es)
    ensures Sound(Execute(s, es))
    decreases |es|
  {
    hide Next, Enabled, Sound;
    if es != [] {
      SoundStep(s, es[0]);
      SoundRun(Next(s, es[0]), es[1..]);
    }
  }

  /** While the daemon stays up, a run that is aside stays there with its phase. */
  lemma {:induction false} AsideStays(s: State, es: seq<Event>, x: RunId)
    requires Sound(s) && s.recovered && AllEnabled(s, es) && Aside(s, x) && forall i :: 0 <= i < |es| ==> !es[i].Crash?
    ensures Execute(s, es).Get(x).phase == s.Get(x).phase && Aside(Execute(s, es), x)
    decreases |es|
  {
    if es != [] {
      hide Next, Sound, Aside, Enabled;
      Up(s, es[0]);
      SoundStep(s, es[0]);
      StepAside(s, es[0], x);
      AsideStays(Next(s, es[0]), es[1..], x);
    }
  }

  lemma StepAside(s: State, e: Event, x: RunId)
    requires Sound(s) && s.recovered && Enabled(s, e) && Aside(s, x) && !e.Crash?
    ensures Next(s, e).Get(x).phase == s.Get(x).phase && Aside(Next(s, e), x)
  {
    hide Next, Enabled, LaneInv, Seats;
    SeatsStep(s, e);
  }

  lemma Up(s: State, e: Event)
    requires Sound(s) && s.recovered && Enabled(s, e) && !e.Crash?
    ensures Next(s, e).recovered
  {
    hide Seats, Delivery.AllCovered, Delivery.Ready;
    if Admits(s, e) {
      var s0 := s.Drop(Some(e.task));
      if s0.Busy() >= s0.cap || s0.queue != [] { QueuedAdmission(s0); } else { ImmediateAdmission(s0); }
    } else if !e.DiskFault? {
      StaysUp(s, e);
    }
  }

  /**
   * In every reachable state, through any crashes, disk faults and stale screenshots: each run is in at
   * most one of queue, starting, live and finished, in the first three at most once, and lanes are
   * within the cap.  Without stale screenshots it is at most once in finished too, with a verdict, and
   * an active run is live.
   */
  lemma OnePlaceAlways(cap: nat, es: seq<Event>, r: RunId)
    requires cap >= 1 && AllEnabled(Init(cap), es)
    ensures var s := Execute(Init(cap), es);
            && Distinct(s.queue) && Distinct(s.starting) && Distinct(s.live) && s.Busy() <= s.cap
            && (r in s.queue ==> r !in s.starting && r !in s.live && r !in s.finished)
            && (r in s.starting ==> r !in s.live && r !in s.finished)
            && (r in s.live ==> r !in s.finished)
    ensures Clean(Init(cap), es) ==>
              var s := Execute(Init(cap), es);
              && Distinct(s.finished) && (r in s.finished ==> s.Get(r).phase.Terminal())
              && (s.recovered && s.Get(r).phase.Active() ==> r in s.live)
  {
    InitSound(cap);
    SoundRun(Init(cap), es);
    if Clean(Init(cap), es) {
      InitInv(cap);
      RunInv(Init(cap), es);
      assert Safety.RunOk(Execute(Init(cap), es), r);
    }
  }
}
