/**
 * Verdicts over all enabled events: a run loses its verdict only to a stale screenshot of its own, and
 * so gets at most one verdict more than it has stale screenshots.
 */
module SchedulerRevival {
  import opened Wrappers
  import opened SchedulerState
  import opened SchedulerSteps
  import opened SchedulerEffects
  import opened SchedulerVerdicts
  import opened SchedulerMoves
  import opened SchedulerCapacity
  import opened SchedulerPlaces

  /** Nobody loses a verdict. */
  ghost predicate Decided(s: State, s': State) {
    forall x: RunId :: s.Get(x).phase.Terminal() ==> s'.Get(x).phase.Terminal()
  }

  lemma DecidedTrans(s: State, t: State, u: State)
    requires Decided(s, t) && Decided(t, u)
    ensures Decided(s, u)
  {
  }

  /** Only runs without a verdict are touched. */
  lemma TouchDecides(s: State, s': State, rs: seq<RunId>)
    requires Touch(s, s', rs) && forall r :: r in rs ==> !s.Get(r).phase.Terminal()
    ensures Decided(s, s')
  {
  }

  lemma FinalizeDecides(s: State, r: RunId, final: Phase, text: string, captureProof: bool)
    ensures Decided(s, Finalize(s, r, final, text, captureProof))
  {
    hide Touch, Conclude, FinalizeEnd;
    if s.Get(r).phase.Active() {
      FinalizeTouch(s, r, final, text, captureProof);
      TouchDecides(s, Finalize(s, r, final, text, captureProof), [r]);
    }
  }

  lemma LegDoneDecides(s: State, t: TaskId, leg: Task, attached: bool, o: LegResult, respawned: bool)
    requires leg.LegWait?
    ensures Decided(s, LegDone(s, t, leg, attached, o, respawned))
  {
    hide Touch, Reap, AfterLeg;
    if s.Get(leg.run).phase.Running? {
      LegDoneTouch(s, t, leg, attached, o, respawned);
      TouchDecides(s, LegDone(s, t, leg, attached, o, respawned), [leg.run]);
    }
  }

  lemma AskedDecides(s: State, r: RunId, anchor: string)
    ensures Decided(s, Asked(s, r, anchor))
  {
    hide Touch, Persist;
    if s.Get(r).phase.Waiting? {
      AskedTouch(s, r, anchor);
      TouchDecides(s, Asked(s, r, anchor), [r]);
    }
  }

  /** The release only turns one verdict into another. */
  lemma ReleasedDecides(s: State, r: RunId, final: Phase, captureProof: bool, freed: bool, proofs: nat)
    ensures Decided(s, FinalizeEnd(Free(s, r, freed), r, final, captureProof, proofs))
  {
    hide FinalizeEnd;
    var s1 := Free(s, r, freed);
    var s' := FinalizeEnd(s1, r, final, captureProof, proofs);
    FinalizeEndTouch(s1, r, final, captureProof, proofs);
    if s.Get(r).phase.Terminal() {
      assert r in s1.runs;
      Safety.FinalizeEndKeeps(s1, r, final, captureProof, proofs);
      assert s'.Get(r).phase.Terminal();
    }
  }

  /** Everything a run's own computation does, but for the arrival of a stale screenshot. */
  lemma RunTaskDecides(s: State, t: TaskId, task: Task, o: Outcome)
    requires Fits(task, o) && Owned(task) && !StartTask(task)
    requires task.Capturing? && o.Captured? ==> !s.Get(task.run).phase.Terminal()
    ensures Decided(s, Continue(s, t, task, o))
  {
    hide Touch, LegDone, Park, Asked, Finalize, FinalizeEnd;
    match task
    case LegWait(r, attempt, resumed) => LegDoneDecides(s, t, task, o.attached, o.result, o.respawned);
    case Capturing(r, text) =>
      FinalizeDecides(s, r, Error, ASK_TEXT, false);
      if o.Captured? {
        ParkTouch(s, r, text);
        TouchDecides(s, Park(s, r, text), [r]);
      }
    case Asking(r) =>
      FinalizeDecides(s, r, Error, ASK_TEXT, false);
      if o.Posted? { AskedDecides(s, r, o.anchor); }
    case Releasing(r, final, captureProof) => ReleasedDecides(s, r, final, captureProof, o.freed, o.proofs);
    case HardTimer(r, leg) => FinalizeDecides(s, r, Timeout, HARD_TIMEOUT_TEXT, false);
    case QuestionTimer(r) => FinalizeDecides(s, r, Timeout, QUESTION_TIMEOUT_TEXT, false);
  }

  // ------------------------------------------------------------------ starts

  /** A start touches no run but its own, and that has no verdict. */
  lemma StartDecides(s: State, t: TaskId, task: Task, o: Outcome)
    requires Fits(task, o) && StartTask(task) && !s.Get(task.run).phase.Terminal()
    ensures Decided(s, Continue(s, t, task, o))
  {
    hide Touch, StartSucceeded, StartFailed;
    var r := task.run;
    if o.Granted? { GrantedDecides(s, r, o.spawned); }
    else if o.Refused? { FailedDecides(s, r, task.immediate, o.race); }
    else if o.Unwound? { FailedDecides(Free(s, r, o.freed), r, task.immediate, task.race); }
  }

  lemma GrantedDecides(s: State, r: RunId, spawned: bool)
    requires !s.Get(r).phase.Terminal()
    ensures Decided(s, StartSucceeded(s, r, spawned))
  {
    hide Touch, SpawnLeg;
    SpawnLegTouch(GoLive(s, r), r, false, spawned);
    TouchDecides(GoLive(s, r), StartSucceeded(s, r, spawned), [r]);
    DecidedTrans(s, GoLive(s, r), StartSucceeded(s, r, spawned));
  }

  lemma FailedDecides(s: State, r: RunId, immediate: bool, race: bool)
    requires !s.Get(r).phase.Terminal()
    ensures Decided(s, StartFailed(s, r, immediate, race))
  {
    hide Persist, FillLanes;
    if race {
      PersistKeeps(Requeued(s, r, immediate));
    } else {
      var s2 := s.(starting := Without(s.starting, r)).Put(r, s.Get(r).(phase := Error, result := Some(START_TEXT)));
      Safety.SettleKeeps(s2, r);
      Safety.FillLanesKeeps(Settle(s2, r));
    }
  }

  // ------------------------------------------------------------ other events

  lemma AdmitDecides(s: State)
    requires s.nextRun !in s.runs
    ensures Decided(s, Admit(s))
  {
    hide Admit;
    AdmitIs(s);
  }

  lemma DaemonTaskDecides(s: State, t: TaskId, task: Task, o: Outcome)
    requires Fits(task, o) && !Owned(task) && s.nextRun !in s.runs
    ensures Decided(s, Continue(s, t, task, o))
  {
    hide Touch, Admit, Delivered, ScheduleOutcomeRetry, RecoverNext, DeliverAll, MaybeStartNext;
    match task
    case Admitting => AdmitDecides(s);
    case Delivering(r) =>
      AnsweredTouch(s, r, o.Accepted?);
      TouchDecides(s, Continue(s, t, task, o), []);
    case Recovering(r, rest) =>
      var m := if o.Accepted? then Delivered(s, r) else ScheduleOutcomeRetry(s);
      AnsweredTouch(s, r, o.Accepted?);
      RecoverNextTouch(m, rest);
      TouchTrans(s, m, RecoverNext(m, rest), []);
      TouchDecides(s, RecoverNext(m, rest), []);
    case OutcomeRetry =>
      DeliverAllTouch(s.(outcomeTimer := None), s.finished);
    case QueueRetry =>
      EditsTouch(s.(queueTimer := None), s.(queueTimer := None), []);
      RefillTouch(s.(queueTimer := None), s.(queueTimer := None), []);
      TouchDecides(s.(queueTimer := None), MaybeStartNext(s.(queueTimer := None)), []);
  }

  lemma FireDecides(s: State, t: TaskId, o: Outcome)
    requires Seats(s) && LaneInv(s) && s.nextRun !in s.runs && t in s.tasks && Fits(s.tasks[t], o)
    requires !Safety.StaleCapture(s, Fire(t, o))
    ensures Decided(s, Next(s, Fire(t, o)))
  {
    hide Continue;
    var s1, task := s.Drop(Some(t)), s.tasks[t];
    if StartTask(task) { StartDecides(s1, t, task, o); }
    else if Owned(task) { RunTaskDecides(s1, t, task, o); }
    else { DaemonTaskDecides(s1, t, task, o); }
  }

  lemma StopDecides(s: State, r: RunId, text: string)
    requires Seats(s) && LaneInv(s)
    ensures Decided(s, Stop(s, r, text))
  {
    hide SettleQueued, Finalize;
    if r in s.queue {
      var s1 := s.(queue := Without(s.queue, r));
      SettleQueuedTouch(s1, r, Cancelled, text);
      TouchDecides(s1, Stop(s, r, text), [r]);
    } else if r in s.live {
      FinalizeDecides(s.Put(r, s.Get(r).(child := None)), r, Cancelled, text, false);
    }
  }

  lemma ResumeDecides(s: State, r: RunId, spawned: bool)
    requires s.Get(r).phase.Waiting?
    ensures Decided(s, ResumeParked(s, r, spawned))
  {
    hide Touch, ResumeParked;
    ResumeTouch(s, r, spawned);
    TouchDecides(s, ResumeParked(s, r, spawned), [r]);
  }

  lemma {:induction false} FinalizeAllDecides(s: State, rs: seq<RunId>)
    ensures Decided(s, FinalizeAll(s, rs))
    decreases |rs|
  {
    hide Finalize;
    if rs != [] {
      var s1 := MarkRestart(s, rs[0]);
      var s2 := Finalize(s1, rs[0], Cancelled, RESTART_TEXT, false);
      FinalizeDecides(s1, rs[0], Cancelled, RESTART_TEXT, false);
      FinalizeAllDecides(s2, rs[1..]);
    }
  }

  lemma StopAllDecides(s: State)
    requires Seats(s) && LaneInv(s)
    ensures Decided(s, StopAll(s))
  {
    hide SettleAll, FinalizeAll, Quiet, Touch;
    var s1 := Quiet(s).(queue := []);
    QuietKept(s, s1);
    SettleAllTouch(s1, s.queue, s.queue);
    QuietRuns(s);
    TouchDecides(s1, SettleAll(s1, s.queue), s.queue);
    FinalizeAllDecides(SettleAll(s1, s.queue), SettleAll(s1, s.queue).live);
  }

  lemma QuietRuns(s: State)
    ensures Quiet(s).runs == s.runs
  {
  }

  lemma {:induction false} AdoptDecides(s: State, rs: seq<RunId>)
    ensures Decided(s, Adopt(s, rs))
    decreases |rs|
  {
    if rs != [] {
      var s1 := s.Put(rs[0], Orphaned(s.Get(rs[0])));
      AdoptDecides(s1.(finished := s1.finished + [rs[0]]), rs[1..]);
    }
  }

  lemma RecoverDecides(s: State)
    ensures Decided(s, Recover(s))
  {
    hide Adopt, Persist, RecoverNext;
    var s1 := Adopt(s.(orphans := []), s.orphans).(recovered := true);
    AdoptDecides(s.(orphans := []), s.orphans);
    PersistKeeps(s1);
    RecoverNextTouch(Persist(s1), Persist(s1).finished);
    TouchDecides(Persist(s1), Recover(s), []);
    assert forall x: RunId :: s.(orphans := []).Get(x) == s.Get(x);
    assert forall x: RunId :: Persist(s1).Get(x) == Adopt(s.(orphans := []), s.orphans).Get(x);
  }

  /** No step but a stale screenshot, and no boot, takes a verdict away. */
  lemma DecidedStep(s: State, e: Event)
    requires Sound(s) && Enabled(s, e) && !e.Crash? && !Safety.StaleCapture(s, e)
    ensures Decided(s, Next(s, e))
  {
    hide Stop, StopAll, Recover, ResumeParked, Continue;
    match e
    case Fire(t, o) => FireDecides(s, t, o);
    case StopRun(r, text) => StopDecides(s, r, text);
    case StopEverything => StopAllDecides(s);
    case CallRecover => RecoverDecides(s);
    case Answer(r, spawned) => if s.Get(r).phase.Waiting? { ResumeDecides(s, r, spawned); }
    case Steer(r, spawned) => if s.Get(r).phase.Waiting? { ResumeDecides(s, r, spawned); }
    case Dispatch =>
    case LeaseLost(r) =>
    case DiskFault(b) =>
  }

  lemma StaleRevives(s: State, e: Event)
    requires Safety.StaleCapture(s, e)
    ensures var r := s.tasks[e.task].run;
            && Next(s, e).Get(r).phase.Waiting?
            && forall x: RunId :: x != r ==> Next(s, e).Get(x).phase == s.Get(x).phase
  {
    hide Persist;
    var r := s.tasks[e.task].run;
    var s1 := s.Drop(Some(e.task)).Add(QuestionTimer(r));
    PersistKeeps(s1.Put(r, s1.Get(r).(phase := Waiting, question := Some(s.tasks[e.task].text), questionTimer := Some(s.nextTask))));
  }

  /**
   * Exactly, in every reachable state: a step takes some run out of a terminal state if and only if it is
   * the arrival of a screenshot for a run that already has its verdict; and it is that run.
   */
  lemma RevivalIff(s: State, e: Event)
    requires Sound(s) && Enabled(s, e) && !e.Crash?
    ensures (exists x :: s.Get(x).phase.Terminal() && !Next(s, e).Get(x).phase.Terminal()) <==> Safety.StaleCapture(s, e)
    ensures forall x :: s.Get(x).phase.Terminal() && !Next(s, e).Get(x).phase.Terminal() ==> Stale(s, e, x)
  {
    hide Sound, Next, Enabled;
    if Safety.StaleCapture(s, e) {
      StaleRevives(s, e);
      assert !Next(s, e).Get(s.tasks[e.task].run).phase.Terminal();
    } else {
      DecidedStep(s, e);
    }
  }

  /** The stale screenshot is this run's. */
  predicate Stale(s: State, e: Event, r: RunId) {
    Safety.StaleCapture(s, e) && s.tasks[e.task].run == r
  }

  // ------------------------------------------------------------- whole runs

  /** How often a run goes from having no verdict to having one. */
  ghost function VerdictCount(s: State, es: seq<Event>, r: RunId): nat
    decreases |es|
  {
    if es == [] then 0
    else
      (if !s.Get(r).phase.Terminal() && Next(s, es[0]).Get(r).phase.Terminal() then 1 else 0)
      + VerdictCount(Next(s, es[0]), es[1..], r)
  }

  ghost function StaleCount(s: State, es: seq<Event>, r: RunId): nat
    decreases |es|
  {
    if es == [] then 0
    else (if Stale(s, es[0], r) then 1 else 0) + StaleCount(Next(s, es[0]), es[1..], r)
  }

  /**
   * Between two restarts, whatever is enabled and happens: the verdicts a run gets, and the one it began
   * with, are as many as its stale screenshots and the one it ends with; so it gets at most one verdict
   * more than it has stale screenshots.
   */
  lemma {:induction false} FinalizedAtMostOnce(s: State, es: seq<Event>, r: RunId)
    requires Sound(s) && AllEnabled(s, es) && forall i :: 0 <= i < |es| ==> !es[i].Crash?
    ensures VerdictCount(s, es, r) + (if s.Get(r).phase.Terminal() then 1 else 0)
            == StaleCount(s, es, r) + (if Execute(s, es).Get(r).phase.Terminal() then 1 else 0)
    ensures VerdictCount(s, es, r) <= 1 + StaleCount(s, es, r)
    decreases |es|
  {
    hide Sound, Next, Enabled, Stale;
    if es != [] {
      SoundStep(s, es[0]);
      LostIff(s, es[0], r);
      FinalizedAtMostOnce(Next(s, es[0]), es[1..], r);
    }
  }

  lemma LostIff(s: State, e: Event, r: RunId)
    requires Sound(s) && Enabled(s, e) && !e.Crash?
    ensures s.Get(r).phase.Terminal() && !Next(s, e).Get(r).phase.Terminal() <==> Stale(s, e, r)
  {
    hide Sound, Next, Enabled;
    RevivalIff(s, e);
    if Stale(s, e, r) { StaleRevives(s, e); }
  }
}
