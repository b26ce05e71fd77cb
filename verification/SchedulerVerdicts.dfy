/**
 * A run gets one verdict: over every interleaving it is finalized at most once, and a finished run
 * never becomes running or waiting again, exactly as long as no screenshot arrives for a run that
 * has already been given its verdict.
 */
module SchedulerVerdicts {
  import opened Wrappers
  import opened SchedulerState
  import opened SchedulerSteps
  import opened SchedulerSafety
  import opened SchedulerEffects

  /** Verdicts already given stay as they are. */
  ghost predicate Frozen(s: State, s': State) {
    forall x :: s.Get(x).phase.Terminal() ==> s'.Get(x).phase == s.Get(x).phase && s'.Get(x).result == s.Get(x).result
  }

  /** `finalize` discovers, after the release, that a claimed success left no proof. */
  predicate ProofMissing(s: State, e: Event, r: RunId) {
    e.Fire? && e.task in s.tasks && s.tasks[e.task] == Releasing(r, Done, true) && e.outcome.Released? && e.outcome.proofs == 0
  }

  ghost predicate VerdictKept(s: State, e: Event, s': State, r: RunId) {
    || (s'.Get(r).phase == s.Get(r).phase && s'.Get(r).result == s.Get(r).result)
    || (ProofMissing(s, e, r) && s.Get(r).phase.Done? && s'.Get(r).phase.Error?)
  }

  // ------------------------------------------------------------ the steps

  lemma ReachedFrozen(s: State, n: State, s': State, r: RunId)
    requires OnlyRun(s, n, r) && Reached(s, n, s')
    ensures Frozen(s, s')
  {
    FillLanesKeeps(n);
  }

  lemma StartFailedFrozen(s: State, r: RunId, immediate: bool, race: bool)
    requires !s.Get(r).phase.Terminal()
    ensures Frozen(s, StartFailed(s, r, immediate, race))
  {
    var s1 := s.(starting := Without(s.starting, r));
    if race {
      PersistKeeps(s1.(queue := if immediate then s1.queue + [r] else [r] + s1.queue));
    } else {
      var s2 := s1.Put(r, s1.Get(r).(phase := Error, result := Some(START_TEXT)));
      SettleKeeps(s2, r);
      FillLanesKeeps(Settle(s2, r));
    }
  }

  lemma GrantedFrozen(s: State, r: RunId, spawned: bool)
    requires Inv(s) && s.recovered && r in s.starting && NoStart(s, r)
    ensures Frozen(s, StartSucceeded(s, r, spawned))
  {
    assert RunOk(s, r);
    GoLiveInv(s, r);
    assert Frozen(s, GoLive(s, r));
    var n := SpawnLegEffect(GoLive(s, r), r, false, spawned);
    ReachedFrozen(GoLive(s, r), n, StartSucceeded(s, r, spawned), r);
  }

  lemma StartFrozen(s: State, t: TaskId, task: Task, o: Outcome)
    requires Inv(s) && s.recovered && Fits(task, o) && (task.Acquiring? || task.Unwinding?)
    requires task.run in s.starting && NoStart(s, task.run)
    ensures Frozen(s, Continue(s, t, task, o))
  {
    hide StartSucceeded, StartFailed;
    var r := task.run;
    assert RunOk(s, r);
    if o.Granted? { GrantedFrozen(s, r, o.spawned); }
    else if o.Refused? { StartFailedFrozen(s, r, task.immediate, o.race); }
    else if o.Unwound? { StartFailedFrozen(Free(s, r, o.freed), r, task.immediate, task.race); }
  }

  lemma AdmitFrozen(s: State)
    requires Inv(s)
    ensures Frozen(s, Admit(s))
  {
    assert RunOk(s, s.nextRun);
    var s1 := s.Put(s.nextRun, FRESH_RUN).(nextRun := s.nextRun + 1);
    PersistKeeps(s1.(queue := s1.queue + [s.nextRun]));
  }

  lemma {:induction false} DeliverAllKeeps(s: State, rs: seq<RunId>)
    ensures DeliverAll(s, rs) == s.(tasks := DeliverAll(s, rs).tasks, nextTask := DeliverAll(s, rs).nextTask)
    decreases |rs|
  {
    if rs != [] { DeliverAllKeeps(if s.Get(rs[0]).delivered then s else s.Add(Delivering(rs[0])), rs[1..]); }
  }

  lemma {:induction false} RecoverNextKeeps(s: State, rest: seq<RunId>)
    ensures RecoverNext(s, rest).runs == s.runs && RecoverNext(s, rest).finished == s.finished
    decreases |rest|
  {
    if rest == [] { FillLanesKeeps(s); }
    else if s.Get(rest[0]).delivered { RecoverNextKeeps(s, rest[1..]); }
  }

  lemma {:induction false} SettleAllFrozen(s: State, rs: seq<RunId>)
    requires Distinct(rs) && forall r :: r in rs ==> r in s.runs && !s.Get(r).phase.Terminal()
    ensures Frozen(s, SettleAll(s, rs))
    decreases |rs|
  {
    if rs != [] {
      var r := rs[0];
      var s1 := MarkRestart(s, r).Put(r, MarkRestart(s, r).Get(r).(phase := Cancelled, result := Some(RESTART_TEXT)));
      SettleKeeps(s1, r);
      SettleAllFrozen(Settle(s1, r), rs[1..]);
    }
  }

  lemma FrozenTrans(s: State, m: State, s': State)
    requires Frozen(s, m) && Frozen(m, s')
    ensures Frozen(s, s')
  {
  }

  lemma FinalizeFrozen(s: State, r: RunId, final: Phase, text: string, captureProof: bool)
    requires Inv(s) && s.recovered && final.Terminal()
    ensures Frozen(s, Finalize(s, r, final, text, captureProof))
  {
    var n := FinalizeEffect(s, r, final, text, captureProof);
    ReachedFrozen(s, n, Finalize(s, r, final, text, captureProof), r);
  }

  lemma {:induction false} FinalizeAllFrozen(s: State, rs: seq<RunId>)
    requires Inv(s) && s.recovered && forall r :: r in rs ==> r in s.runs
    ensures Frozen(s, FinalizeAll(s, rs))
    decreases |rs|
  {
    if rs != [] {
      var r := rs[0];
      var s1 := MarkRestart(s, r);
      var s2 := Finalize(s1, r, Cancelled, RESTART_TEXT, false);
      MarkRestartInv(s, r);
      FinalizeInv(s1, r, Cancelled, RESTART_TEXT, false);
      FinalizeKeeps(s1, r, Cancelled, RESTART_TEXT, false);
      FinalizeFrozen(s1, r, Cancelled, RESTART_TEXT, false);
      FrozenTrans(s, s1, s2);
      FinalizeAllFrozen(s2, rs[1..]);
      FrozenTrans(s, s2, FinalizeAll(s2, rs[1..]));
    }
  }

  lemma StopAllFrozen(s: State)
    requires Inv(s) && s.recovered
    ensures Frozen(s, StopAll(s))
  {
    var s2, s3 := StopAllStages(s);
    QueueStageFrozen(s, s2);
    FinalizeAllFrozen(s3, s3.live);
    FrozenTrans(s, s3, FinalizeAll(s3, s3.live));
  }

  lemma QueueStageFrozen(s: State, s2: State)
    requires s2.runs == s.runs && Distinct(s.queue)
    requires forall r :: r in s.queue ==> r in s2.runs && s2.Get(r).phase.Queued?
    ensures Frozen(s, SettleAll(s2, s.queue))
  {
    SettleAllFrozen(s2, s.queue);
    SameRunsFrozen(s, s2);
    FrozenTrans(s, s2, SettleAll(s2, s.queue));
  }

  lemma SameRunsFrozen(s: State, s': State)
    requires s'.runs == s.runs
    ensures Frozen(s, s')
  {
  }

  lemma {:induction false} AdoptFrozen(s: State, rs: seq<RunId>)
    requires Distinct(rs) && forall r :: r in rs ==> !s.Get(r).phase.Terminal()
    ensures Frozen(s, Adopt(s, rs))
    decreases |rs|
  {
    if rs != [] {
      var s1 := s.Put(rs[0], Orphaned(s.Get(rs[0])));
      assert forall i :: 1 <= i < |rs| ==> rs[i] in rs && rs[i] != rs[0];
      AdoptFrozen(s1.(finished := s1.finished + [rs[0]]), rs[1..]);
    }
  }

  lemma RecoverFrozen(s: State)
    requires Inv(s)
    ensures Frozen(s, Recover(s))
  {
    forall r | r in s.orphans ensures !s.Get(r).phase.Terminal() { assert RunOk(s, r); }
    var s0 := s.(orphans := []);
    AdoptFrozen(s0, s.orphans);
    var s1 := Adopt(s0, s.orphans).(recovered := true);
    assert forall x :: s0.Get(x) == s.Get(x) && s1.Get(x) == Adopt(s0, s.orphans).Get(x);
    assert Frozen(s, s1);
    PersistKeeps(s1);
    RecoverNextKeeps(Persist(s1), Persist(s1).finished);
    assert Recover(s) == RecoverNext(Persist(s1), Persist(s1).finished);
  }

  lemma RunTaskFrozen(s: State, t: TaskId, task: Task, o: Outcome)
    requires Inv(s) && s.recovered && Fits(task, o)
    requires task.LegWait? || task.Capturing? || task.Asking? || task.HardTimer? || task.QuestionTimer?
    requires task.Capturing? && o.Captured? ==> !s.Get(task.run).phase.Terminal()
    ensures Frozen(s, Continue(s, t, task, o))
  {
    var n := RunTaskEffect(s, t, task, o);
    ReachedFrozen(s, n, Continue(s, t, task, o), task.run);
  }

  lemma ReleasedKept(s: State, r: RunId, final: Phase, captureProof: bool, proofs: nat, x: RunId)
    requires r in s.runs && s.Get(r).phase == final && IdsUsed(s)
    ensures
      var s' := FinalizeEnd(s, r, final, captureProof, proofs);
      || (s'.Get(x).phase == s.Get(x).phase && s'.Get(x).result == s.Get(x).result)
      || (x == r && final.Done? && captureProof && proofs == 0 && s'.Get(x).phase.Error?)
  {
    var n := FinalizeEndEffect(s, r, final, captureProof, proofs);
    FillLanesKeeps(n);
  }

  lemma DaemonTaskFrozen(s: State, t: TaskId, task: Task, o: Outcome)
    requires Inv(s) && s.recovered && Fits(task, o)
    requires task.Admitting? || task.Delivering? || task.Recovering? || task.OutcomeRetry? || task.QueueRetry?
    requires task.Delivering? || task.Recovering? ==> task.run in s.runs
    ensures Frozen(s, Continue(s, t, task, o))
  {
    match task
    case Admitting => AdmitFrozen(s);
    case Delivering(r) => DeliveredKeeps(s, r);
    case Recovering(r, rest) =>
      DeliveredKeeps(s, r);
      RecoverNextKeeps(if o.Accepted? then Delivered(s, r) else ScheduleOutcomeRetry(s), rest);
    case OutcomeRetry => DeliverAllKeeps(s.(outcomeTimer := None), s.finished);
    case QueueRetry => FillLanesKeeps(s.(queueTimer := None));
  }

  lemma FireKept(s: State, t: TaskId, o: Outcome, x: RunId)
    requires Inv(s) && s.recovered && t in s.tasks && Fits(s.tasks[t], o) && !StaleCapture(s, Fire(t, o))
    requires s.Get(x).phase.Terminal()
    ensures VerdictKept(s, Fire(t, o), Next(s, Fire(t, o)), x)
  {
    hide Admit, RecoverNext, StartSucceeded, StartFailed, LegDone, Park, Finalize, FinalizeEnd, DeliverAll, MaybeStartNext;
    var s1 := s.Drop(Some(t));
    var task := s.tasks[t];
    DropInv(s, Some(t));
    assert TaskOk(s, t, task);
    assert s1.Get(x) == s.Get(x);
    if task.Acquiring? || task.Unwinding? {
      assert IsStart(task, task.run);
      StartFrozen(s1, t, task, o);
    } else if task.Releasing? {
      TaskIds(s);
      assert RunOk(s, task.run);
      ReleasedKept(Free(s1, task.run, o.freed), task.run, task.final, task.captureProof, o.proofs, x);
    } else if task.Admitting? || task.Delivering? || task.Recovering? || task.OutcomeRetry? || task.QueueRetry? {
      assert task.Recovering? ==> task.run in [task.run] + task.rest;
      DaemonTaskFrozen(s1, t, task, o);
    } else {
      RunTaskFrozen(s1, t, task, o);
    }
  }

  lemma StopFrozen(s: State, r: RunId, text: string)
    requires Inv(s) && s.recovered
    ensures Frozen(s, Stop(s, r, text))
  {
    assert RunOk(s, r);
    if r in s.queue {
      var s1 := s.(queue := Without(s.queue, r)).Put(r, s.Get(r).(phase := Cancelled, result := Some(text)));
      SettleKeeps(s1, r);
    } else if r in s.live {
      var n := StopLiveEffect(s, r, text);
      ReachedFrozen(s, n, Stop(s, r, text), r);
    }
  }

  /**
   * No step of the running daemon changes the state or the result of a run that has its verdict,
   * except that the same `finalize` may turn a success without proof into an error.
   */
  lemma VerdictsAreFinal(s: State, e: Event, x: RunId)
    requires Inv(s) && Enabled(s, e) && !e.Crash? && !StaleCapture(s, e)
    requires s.Get(x).phase.Terminal()
    ensures VerdictKept(s, e, Next(s, e), x)
  {
    match e
    case Fire(t, o) => FireKept(s, t, o, x);
    case StopRun(r, text) => StopFrozen(s, r, text);
    case StopEverything => StopAllFrozen(s);
    case CallRecover => RecoverFrozen(s);
    case Answer(r, spawned) =>
      if r in s.live && s.Get(r).phase.Waiting? {
        var n := ResumeParkedEffect(s, r, spawned);
        ReachedFrozen(s, n, ResumeParked(s, r, spawned), r);
      }
    case Steer(r, spawned) =>
      if r in s.live && s.Get(r).phase.Waiting? {
        var n := ResumeParkedEffect(s, r, spawned);
        ReachedFrozen(s, n, ResumeParked(s, r, spawned), r);
      }
    case Dispatch =>
    case LeaseLost(r) =>
    case DiskFault(b) =>
  }

  // ----------------------------------------------------------- whole runs

  ghost function Execute(s: State, es: seq<Event>): State
    decreases |es|
  {
    if es == [] then s else Execute(Next(s, es[0]), es[1..])
  }

  /** Every event of the run is enabled when it happens, and none is a stale screenshot. */
  ghost predicate Clean(s: State, es: seq<Event>)
    decreases |es|
  {
    es == [] || (Enabled(s, es[0]) && !StaleCapture(s, es[0]) && Clean(Next(s, es[0]), es[1..]))
  }

  lemma InitInv(cap: nat)
    requires cap >= 1
    ensures Inv(Init(cap))
  {
    forall r ensures RunOk(Init(cap), r) {}
  }

  lemma {:induction false} RunInv(s: State, es: seq<Event>)
    requires Inv(s) && Clean(s, es)
    ensures Inv(Execute(s, es))
    decreases |es|
  {
    if es != [] {
      NextInv(s, es[0]);
      RunInv(Next(s, es[0]), es[1..]);
    }
  }
}
