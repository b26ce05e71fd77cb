/**
 * What the record of each run and its lease look like after each event, said run by run; and so what
 * causes each verdict.
 */
module SchedulerRecords {
  import opened Wrappers
  import opened SchedulerState
  import opened SchedulerSteps
  import opened SchedulerEffects
  import opened SchedulerVerdicts
  import opened SchedulerMoves
  import opened SchedulerPlaces
  import Delivery = SchedulerDelivery
  import Recovery = SchedulerRecovery
  import Safety = SchedulerSafety
  import Sync = SchedulerSync

  // ------------------------------------------------------ what an event means

  /** The run's agent has just exited with the browser tool attached, and this is what it reported. */
  function ReportOf(s: State, e: Event, x: RunId): Option<LegResult> {
    if LegExits(s, e, x) && e.outcome.attached then Some(e.outcome.result) else None
  }

  /** The child process that the running run waits for exits. */
  predicate LegExits(s: State, e: Event, x: RunId) {
    && e.Fire? && e.task in s.tasks && s.tasks[e.task].LegWait? && e.outcome.Exited?
    && s.tasks[e.task].run == x && s.Get(x).phase.Running? && s.Get(x).child == Some(e.task)
  }

  /** Someone answers or steers a run that is parked on a question. */
  predicate Resumes(s: State, e: Event, x: RunId) {
    (e.Answer? || e.Steer?) && e.run == x && x in s.live && s.Get(x).phase.Waiting?
  }

  /** A suspended computation of the run goes on. */
  predicate Goes(s: State, e: Event, x: RunId) {
    e.Fire? && e.task in s.tasks && Fits(s.tasks[e.task], e.outcome) && Owned(s.tasks[e.task]) && s.tasks[e.task].run == x
  }

  /** The start of the run ends without a lease, other than by losing the race for one. */
  predicate StartFails(s: State, e: Event, x: RunId) {
    && Goes(s, e, x)
    && match s.tasks[e.task]
       case Acquiring(_, _) => e.outcome.Refused? && !e.outcome.race && x !in s.leases
       case Unwinding(_, _, race) => !race
       case _ => false
  }

  predicate LeaseGranted(s: State, e: Event, x: RunId) {
    Goes(s, e, x) && s.tasks[e.task].Acquiring? && e.outcome.Granted?
  }

  /** A new child process was asked for and could not be spawned. */
  predicate SpawnFails(s: State, e: Event, x: RunId) {
    || ((e.Answer? || e.Steer?) && Resumes(s, e, x) && !e.spawned)
    || (LeaseGranted(s, e, x) && !e.outcome.spawned)
    || (LegExits(s, e, x) && !e.outcome.attached && s.tasks[e.task].attempt < 3 && !e.outcome.respawned)
  }

  /** The question could not be photographed or posted while the run was still undecided. */
  predicate AskFails(s: State, e: Event, x: RunId) {
    && Goes(s, e, x) && (s.tasks[e.task].Capturing? || s.tasks[e.task].Asking?)
    && e.outcome.Rejected? && s.Get(x).phase.Active()
  }

  /** The lease is gone, and a success that was to be proved has no proof. */
  predicate NoProof(s: State, e: Event, x: RunId) {
    Goes(s, e, x) && s.tasks[e.task] == Releasing(x, Done, true) && e.outcome.proofs == 0
  }

  /** One of the run's own two timers fires in time. */
  predicate TimesOut(s: State, e: Event, x: RunId) {
    && Goes(s, e, x)
    && match s.tasks[e.task]
       case HardTimer(_, leg) => s.Get(x).phase.Running? && s.Get(x).child == Some(leg)
       case QuestionTimer(_) => s.Get(x).phase.Active()
       case _ => false
  }

  /** Someone stops the run, or everything, before the run has a verdict. */
  predicate Stops(s: State, e: Event, x: RunId) {
    && ((e.StopRun? && e.run == x) || e.StopEverything?)
    && (x in s.queue || (x in s.live && s.Get(x).phase.Active()))
  }

  // ------------------------------------------------------------- the record

  /** A verdict; a success that was to be proved is no success if nothing is left to prove it. */
  function Judged(run: Run, final: Phase, text: string): Run {
    run.(phase := final, result := Some(text))
  }

  function Succeeds(run: Run, text: string, proof: bool, held: bool): Run {
    if proof && !held && run.proofFiles == 0 then Judged(run, Error, text + UNVERIFIED_TEXT) else Judged(run, Done, text)
  }

  function Launched(run: Run, spawned: bool): Run {
    var next := run.(phase := Running, question := None, anchor := None);
    if spawned then next else Judged(next, Error, SPAWN_TEXT)
  }

  function AfterReport(run: Run, report: LegResult, held: bool): Run {
    match report
    case Broken(text) => Judged(run, Error, text)
    case Failed(text) => Judged(run, Error, text)
    case NeedsInput(question) => if question == "" then Judged(run, Error, NO_QUESTION_TEXT) else run
    case Completed(text, proof) => Succeeds(run, text, proof, held)
  }

  /** The record of `x` after the event, without its handles. */
  function After(s: State, e: Event, x: RunId): Run {
    var run := Durable(s.Get(x));
    if ReportOf(s, e, x).Some? then AfterReport(run, ReportOf(s, e, x).value, x in s.leases)
    else if LegExits(s, e, x) && s.tasks[e.task].attempt >= 3 then Judged(run, Error, ATTACH_TEXT)
    else if LegExits(s, e, x) then (if e.outcome.respawned then run else Judged(run, Error, SPAWN_TEXT))
    else if Resumes(s, e, x) then Launched(run, e.spawned)
    else if LeaseGranted(s, e, x) then Launched(run, e.outcome.spawned)
    else if StartFails(s, e, x) then Judged(run, Error, START_TEXT)
    else if AskFails(s, e, x) then Judged(run, Error, ASK_TEXT)
    else if TimesOut(s, e, x) then
      Judged(run, Timeout, if s.tasks[e.task].QuestionTimer? then QUESTION_TIMEOUT_TEXT else HARD_TIMEOUT_TEXT)
    else if e.StopRun? && Stops(s, e, x) then Judged(run, Cancelled, e.text)
    else if e.StopEverything? then
      if Stops(s, e, x) then Judged(run, Cancelled, RESTART_TEXT).(restartCancelled := true)
      else if x in s.live then run.(restartCancelled := true)
      else run
    else if e.CallRecover? && x in s.orphans then
      run.(phase := Cancelled, restartCancelled := true, delivered := false,
           result := if run.result.Some? then run.result else Some(RESTART_TEXT))
    else if e.Fire? && e.task in s.tasks && Fits(s.tasks[e.task], e.outcome) then AfterTask(s, run, s.tasks[e.task], e.outcome, x)
    else run
  }

  /** The events that give no verdict, and the end of a release. */
  function AfterTask(s: State, run: Run, task: Task, o: Outcome, x: RunId): Run
    requires Fits(task, o)
  {
    match task
    case Capturing(r, text) =>
      if r == x && o.Captured? then run.(phase := Waiting, question := Some(text)) else run
    case Asking(r) =>
      if r == x && o.Posted? && run.phase.Waiting? && x in s.leases then run.(anchor := Some(o.anchor)) else run
    case Releasing(r, final, proof) =>
      if r != x then run
      else if final.Done? && proof && o.proofs == 0 then
        run.(proofFiles := 0, phase := Error,
             result := Some((if run.result.Some? then run.result.value else "") + UNVERIFIED_TEXT))
      else run.(proofFiles := o.proofs)
    case Delivering(r) => if r == x && o.Accepted? then run.(delivered := true) else run
    case Recovering(r, _) => if r == x && o.Accepted? then run.(delivered := true) else run
    case _ => run
  }

  // -------------------------------------------------------- stretch by stretch

  /** Only the record of `r` changes, handles apart, and no lease does. */
  ghost predicate Writes(s: State, s': State, r: RunId, run: Run) {
    && s'.leases == s.leases
    && forall x: RunId :: Durable(s'.Get(x)) == if x == r then run else Durable(s.Get(x))
  }

  lemma WritesThen(s: State, m: State, s': State, r: RunId, run1: Run, run2: Run)
    requires Writes(s, m, r, run1) && Writes(m, s', r, run2)
    ensures Writes(s, s', r, run2)
  {
  }

  lemma SettleWrites(s: State, r: RunId, final: Phase, text: string)
    ensures Writes(s, SettleQueued(s, r, final, text), r, Judged(Durable(s.Get(r)), final, text))
  {
    Safety.SettleKeeps(s.Put(r, s.Get(r).(phase := final, result := Some(text))), r);
  }

  lemma RefillWrites(s: State, n: State, r: RunId, run: Run)
    requires Writes(s, n, r, run)
    ensures Writes(s, MaybeStartNext(n), r, run)
  {
    hide FillLanes;
    Safety.FillLanesKeeps(n);
    assert forall x: RunId :: MaybeStartNext(n).Get(x) == n.Get(x);
  }

  lemma StartFailedWrites(s: State, r: RunId, immediate: bool, race: bool)
    ensures Writes(s, StartFailed(s, r, immediate, race), r,
                   if race then Durable(s.Get(r)) else Judged(Durable(s.Get(r)), Error, START_TEXT))
  {
    hide SettleQueued, MaybeStartNext, Persist;
    var s1 := s.(starting := Without(s.starting, r));
    if race {
      PersistKeeps(s1.(queue := if immediate then s1.queue + [r] else [r] + s1.queue));
    } else {
      var s2 := SettleQueued(s1, r, Error, START_TEXT);
      SettleWrites(s1, r, Error, START_TEXT);
      assert Writes(s, s2, r, Judged(Durable(s.Get(r)), Error, START_TEXT));
      RefillWrites(s, s2, r, Judged(Durable(s.Get(r)), Error, START_TEXT));
    }
  }

  lemma EndWrites(s: State, r: RunId, final: Phase, proof: bool, proofs: nat)
    ensures Writes(s, FinalizeEnd(s, r, final, proof, proofs), r, Durable(Verified(Durable(s.Get(r)), final, proof, proofs)))
  {
    hide Settle, MaybeStartNext;
    var s1 := s.Put(r, Verified(s.Get(r), final, proof, proofs));
    var s2 := s1.(live := Without(s1.live, r));
    Safety.SettleKeeps(s2, r);
    RefillWrites(s, Settle(s2, r), r, Durable(Verified(Durable(s.Get(r)), final, proof, proofs)));
  }

  lemma ConcludeWrites(s: State, r: RunId, final: Phase, text: string)
    ensures Writes(s, Conclude(s, r, final, text), r, Judged(Durable(s.Get(r)), final, text))
  {
  }

  /** `finalize` gives a verdict to an undecided run and leaves any other alone. */
  lemma FinalizeWrites(s: State, r: RunId, final: Phase, text: string, proof: bool)
    requires final != Done ==> !proof
    ensures var run := Durable(s.Get(r));
            Writes(s, Finalize(s, r, final, text, proof), r,
                   if !run.phase.Active() then run
                   else if final == Done then Succeeds(run, text, proof, r in s.leases)
                   else Judged(run, final, text))
  {
    hide Conclude, FinalizeEnd;
    if s.Get(r).phase.Active() {
      var s1 := Conclude(s, r, final, text);
      ConcludeWrites(s, r, final, text);
      var run := Judged(Durable(s.Get(r)), final, text);
      EndWrites(s1, r, final, proof, s1.Get(r).proofFiles);
      assert Durable(s1.Get(r)) == run && s1.Get(r).proofFiles == run.proofFiles;
      WritesThen(s, s1, FinalizeEnd(s1, r, final, proof, s1.Get(r).proofFiles), r, run,
                 Durable(Verified(run, final, proof, run.proofFiles)));
    }
  }

  // ------------------------------------------------------------------- legs

  lemma ExecuteWrites(s: State, r: RunId, attempt: nat, resumed: bool, spawned: bool)
    requires s.Get(r).phase.Active()
    ensures Writes(s, ExecuteLeg(s, r, attempt, resumed, spawned), r,
                   if spawned then Durable(s.Get(r)) else Judged(Durable(s.Get(r)), Error, SPAWN_TEXT))
  {
    hide Finalize;
    if !spawned { FinalizeWrites(s, r, Error, SPAWN_TEXT, false); }
  }

  lemma SpawnWrites(s: State, r: RunId, resumed: bool, spawned: bool)
    ensures Writes(s, SpawnLeg(s, r, resumed, spawned), r, Launched(Durable(s.Get(r)), spawned))
  {
    hide ExecuteLeg, Persist;
    var run := s.Get(r).(phase := Running, question := None, anchor := None);
    PersistKeeps(s.Put(r, run));
    var s1 := Relaunch(s, r);
    ExecuteWrites(s1, r, 1, resumed, spawned);
    WritesThen(s, s1, SpawnLeg(s, r, resumed, spawned), r, Durable(run), Launched(Durable(s.Get(r)), spawned));
  }

  lemma ResumeWrites(s: State, r: RunId, spawned: bool)
    ensures Writes(s, ResumeParked(s, r, spawned), r, Launched(Durable(s.Get(r)), spawned))
  {
    hide SpawnLeg;
    var s1 := Unpark(s, r);
    SpawnWrites(s1, r, true, spawned);
    WritesThen(s, s1, ResumeParked(s, r, spawned), r, Durable(s.Get(r)), Launched(Durable(s.Get(r)), spawned));
  }

  lemma HonourWrites(s: State, r: RunId, o: LegResult)
    requires s.Get(r).phase.Active()
    ensures Writes(s, ApplyLegOutcome(s, r, o), r, AfterReport(Durable(s.Get(r)), o, r in s.leases))
  {
    hide Finalize;
    match o
    case Broken(text) => FinalizeWrites(s, r, Error, text, false);
    case NeedsInput(q) => if q == "" { FinalizeWrites(s, r, Error, NO_QUESTION_TEXT, false); }
    case Failed(text) => FinalizeWrites(s, r, Error, text, false);
    case Completed(text, proof) => FinalizeWrites(s, r, Done, text, proof);
  }

  function AfterExit(run: Run, leg: Task, attached: bool, o: LegResult, respawned: bool, held: bool): Run
    requires leg.LegWait?
  {
    if attached then AfterReport(run, o, held)
    else if leg.attempt >= 3 then Judged(run, Error, ATTACH_TEXT)
    else if respawned then run
    else Judged(run, Error, SPAWN_TEXT)
  }

  lemma ExitWrites(s: State, leg: Task, attached: bool, o: LegResult, respawned: bool)
    requires leg.LegWait? && s.Get(leg.run).phase.Active()
    ensures Writes(s, AfterLeg(s, leg, attached, o, respawned), leg.run,
                   AfterExit(Durable(s.Get(leg.run)), leg, attached, o, respawned, leg.run in s.leases))
  {
    hide Finalize, ExecuteLeg, ApplyLegOutcome;
    if attached { HonourWrites(s, leg.run, o); }
    else if leg.attempt >= LEG_MAX_ATTEMPTS { FinalizeWrites(s, leg.run, Error, ATTACH_TEXT, false); }
    else { ExecuteWrites(s, leg.run, leg.attempt + 1, leg.resumed, respawned); }
  }

  lemma LegWrites(s: State, t: TaskId, leg: Task, attached: bool, o: LegResult, respawned: bool)
    requires leg.LegWait?
    ensures var run := Durable(s.Get(leg.run));
            Writes(s, LegDone(s, t, leg, attached, o, respawned), leg.run,
                   if s.Get(leg.run).phase.Running? && s.Get(leg.run).child == Some(t)
                   then AfterExit(run, leg, attached, o, respawned, leg.run in s.leases) else run)
  {
    hide AfterLeg, AfterExit;
    var r := leg.run;
    if s.Get(r).phase.Running? && s.Get(r).child == Some(t) {
      var s1 := Reap(s, r);
      ExitWrites(s1, leg, attached, o, respawned);
      assert Writes(s, s1, r, Durable(s.Get(r)));
    }
  }

  lemma ParkWrites(s: State, r: RunId, text: string)
    ensures Writes(s, Park(s, r, text), r, Durable(s.Get(r)).(phase := Waiting, question := Some(text)))
  {
    hide Persist;
    var s1 := s.Add(QuestionTimer(r));
    PersistKeeps(s1.Put(r, s1.Get(r).(phase := Waiting, question := Some(text), questionTimer := Some(s.nextTask))));
  }

  lemma AskedWrites(s: State, r: RunId, anchor: string)
    ensures var run := Durable(s.Get(r));
            Writes(s, Asked(s, r, anchor), r,
                   if run.phase.Waiting? && r in s.leases then run.(anchor := Some(anchor)) else run)
  {
    hide Persist;
    PersistKeeps(s.Put(r, s.Get(r).(anchor := Some(anchor))));
  }

  lemma DeliveredWrites(s: State, r: RunId)
    ensures Writes(s, Delivered(s, r), r, Durable(s.Get(r)).(delivered := true))
  {
    hide Persist;
    PersistKeeps(s.Put(r, s.Get(r).(delivered := true)));
  }

  // ------------------------------------------------------- shutdown and recovery

  function Swept(run: Run): Run {
    Judged(run, Cancelled, RESTART_TEXT).(restartCancelled := true)
  }

  lemma {:induction false} SettleAllWrites(s: State, rs: seq<RunId>)
    ensures SettleAll(s, rs).leases == s.leases && SettleAll(s, rs).live == s.live
    ensures forall x: RunId :: Durable(SettleAll(s, rs).Get(x)) == if x in rs then Swept(Durable(s.Get(x))) else Durable(s.Get(x))
    decreases |rs|
  {
    hide Settle;
    if rs != [] {
      var r, s1 := rs[0], MarkRestart(s, rs[0]);
      var s2 := SettleQueued(s1, r, Cancelled, RESTART_TEXT);
      Safety.SettleKeeps(s1.Put(r, s1.Get(r).(phase := Cancelled, result := Some(RESTART_TEXT))), r);
      assert forall x: RunId :: Durable(s2.Get(x)) == if x == r then Swept(Durable(s.Get(x))) else Durable(s.Get(x));
      SettleAllWrites(s2, rs[1..]);
      assert forall x: RunId :: x in rs <==> x == r || x in rs[1..];
    }
  }

  /** What shutdown makes of a live run. */
  function Ended(run: Run): Run {
    if run.phase.Active() then Swept(run) else run.(restartCancelled := true)
  }

  lemma {:induction false} FinalizeAllWrites(s: State, rs: seq<RunId>)
    ensures FinalizeAll(s, rs).leases == s.leases
    ensures forall x: RunId :: Durable(FinalizeAll(s, rs).Get(x)) == if x in rs then Ended(Durable(s.Get(x))) else Durable(s.Get(x))
    decreases |rs|
  {
    hide Finalize;
    if rs != [] {
      var r, s1 := rs[0], MarkRestart(s, rs[0]);
      var s2 := Finalize(s1, r, Cancelled, RESTART_TEXT, false);
      FinalizeWrites(s1, r, Cancelled, RESTART_TEXT, false);
      assert forall x: RunId :: Durable(s2.Get(x)) == if x == r then Ended(Durable(s.Get(x))) else Durable(s.Get(x));
      FinalizeAllWrites(s2, rs[1..]);
      assert forall x: RunId :: x in rs <==> x == r || x in rs[1..];
    }
  }

  lemma StopAllWrites(s: State)
    requires LaneInv(s)
    ensures StopAll(s).leases == s.leases
    ensures forall x: RunId :: Durable(StopAll(s).Get(x)) ==
              if x in s.queue then Swept(Durable(s.Get(x)))
              else if x in s.live then Ended(Durable(s.Get(x)))
              else Durable(s.Get(x))
  {
    hide SettleAll, FinalizeAll;
    var s1 := Quiet(s).(queue := []);
    var s2 := SettleAll(s1, s.queue);
    SettleAllWrites(s1, s.queue);
    FinalizeAllWrites(s2, s.live);
    assert StopAll(s) == FinalizeAll(s2, s.live);
    assert forall x: RunId :: s1.Get(x) == s.Get(x);
  }

  lemma {:induction false} RecoverNextWrites(s: State, rest: seq<RunId>)
    ensures RecoverNext(s, rest).leases == s.leases && RecoverNext(s, rest).runs == s.runs
    decreases |rest|
  {
    if rest == [] { Safety.FillLanesKeeps(s); }
    else if s.Get(rest[0]).delivered { RecoverNextWrites(s, rest[1..]); }
  }

  lemma RecoverWrites(s: State)
    ensures Recover(s).leases == s.leases
    ensures forall x: RunId :: Recover(s).Get(x) == if x in s.orphans then Orphaned(s.Get(x)) else s.Get(x)
  {
    hide Adopt, RecoverNext, Persist;
    var s0 := s.(orphans := []);
    var s1 := Adopt(s0, s.orphans).(recovered := true);
    Recovery.AdoptedRuns(s0, s.orphans);
    Sync.AdoptKeeps(s0, s.orphans);
    PersistKeeps(s1);
    RecoverNextWrites(Persist(s1), Persist(s1).finished);
    assert forall x: RunId :: Recover(s).Get(x) == Adopt(s0, s.orphans).Get(x) && s0.Get(x) == s.Get(x);
  }

  // ------------------------------------------------------------ event by event

  /** Who holds a lease after the event. */
  predicate HoldsAfter(s: State, e: Event, x: RunId) {
    if e.LeaseLost? && e.run == x then false
    else if !Goes(s, e, x) then x in s.leases
    else if s.tasks[e.task].Acquiring? && !e.outcome.Refused? then true
    else if (s.tasks[e.task].Unwinding? || s.tasks[e.task].Releasing?) && e.outcome.freed then false
    else x in s.leases
  }

  /** The event does to every record and every lease what it should. */
  ghost predicate Exact(s: State, e: Event, s': State) {
    forall x: RunId :: Durable(s'.Get(x)) == After(s, e, x) && (x in s'.leases <==> HoldsAfter(s, e, x))
  }

  lemma LegFires(s: State, t: TaskId, o: Outcome)
    requires t in s.tasks && Fits(s.tasks[t], o) && s.tasks[t].LegWait?
    ensures Exact(s, Fire(t, o), Next(s, Fire(t, o)))
  {
    hide LegDone;
    LegWrites(s.Drop(Some(t)), t, s.tasks[t], o.attached, o.result, o.respawned);
  }

  lemma QuestionFires(s: State, t: TaskId, o: Outcome)
    requires t in s.tasks && Fits(s.tasks[t], o) && (s.tasks[t].Capturing? || s.tasks[t].Asking?)
    ensures Exact(s, Fire(t, o), Next(s, Fire(t, o)))
  {
    hide Park, Asked, Finalize;
    var s1, task := s.Drop(Some(t)), s.tasks[t];
    FinalizeWrites(s1, task.run, Error, ASK_TEXT, false);
    if o.Captured? { ParkWrites(s1, task.run, task.text); }
    if o.Posted? { AskedWrites(s1, task.run, o.anchor); }
  }

  lemma ReleaseIs(s: State, t: TaskId, o: Outcome)
    requires t in s.tasks && Fits(s.tasks[t], o) && s.tasks[t].Releasing?
    ensures var e, task := Fire(t, o), s.tasks[t];
            && Next(s, e) == FinalizeEnd(Free(s.Drop(Some(t)), task.run, o.freed), task.run, task.final, task.captureProof, o.proofs)
            && (forall x: RunId :: x != task.run ==> After(s, e, x) == Durable(s.Get(x)) && (HoldsAfter(s, e, x) <==> x in s.leases))
            && (HoldsAfter(s, e, task.run) <==> task.run in Free(s, task.run, o.freed).leases)
            && After(s, e, task.run) == Durable(Verified(Durable(s.Get(task.run)), task.final, task.captureProof, o.proofs))
  {
    hide FinalizeEnd;
  }

  lemma ReleaseFires(s: State, t: TaskId, o: Outcome)
    requires t in s.tasks && Fits(s.tasks[t], o) && s.tasks[t].Releasing?
    ensures Exact(s, Fire(t, o), Next(s, Fire(t, o)))
  {
    hide FinalizeEnd, After, HoldsAfter, Next, Verified;
    var task := s.tasks[t];
    ReleaseIs(s, t, o);
    EndWrites(Free(s.Drop(Some(t)), task.run, o.freed), task.run, task.final, task.captureProof, o.proofs);
  }

  lemma TimerFires(s: State, t: TaskId, o: Outcome)
    requires t in s.tasks && Fits(s.tasks[t], o) && s.tasks[t].RunTimer()
    ensures Exact(s, Fire(t, o), Next(s, Fire(t, o)))
  {
    hide Finalize;
    var s1, r := s.Drop(Some(t)), s.tasks[t].run;
    FinalizeWrites(s1, r, Timeout, HARD_TIMEOUT_TEXT, false);
    FinalizeWrites(s1, r, Timeout, QUESTION_TIMEOUT_TEXT, false);
  }

  /** What an event of the pending start `task` says about the run's record, in one place. */
  lemma StartSays(s: State, t: TaskId, o: Outcome)
    requires t in s.tasks && Fits(s.tasks[t], o) && StartTask(s.tasks[t])
    ensures var e, r := Fire(t, o), s.tasks[t].run;
            && (forall x: RunId :: x != r ==> After(s, e, x) == Durable(s.Get(x)) && (HoldsAfter(s, e, x) <==> x in s.leases))
            && (HoldsAfter(s, e, r) <==> o.Granted? || o.GrantedThenFailed? || (r in s.leases && !(o.Unwound? && o.freed)))
            && After(s, e, r) == (if o.Granted? then Launched(Durable(s.Get(r)), o.spawned)
                                  else if StartFails(s, e, r) then Judged(Durable(s.Get(r)), Error, START_TEXT)
                                  else Durable(s.Get(r)))
  {
  }

  lemma GrantFires(s: State, t: TaskId, o: Outcome)
    requires t in s.tasks && s.tasks[t].Acquiring? && o.Granted?
    ensures Exact(s, Fire(t, o), Next(s, Fire(t, o)))
  {
    hide SpawnLeg, After, Launched;
    var s1, r := s.Drop(Some(t)), s.tasks[t].run;
    StartSays(s, t, o);
    SpawnWrites(GoLive(s1, r), r, false, o.spawned);
    LaunchedIs(s.Get(r), GoLive(s1, r).Get(r), o.spawned);
  }

  lemma LaunchedIs(run: Run, run': Run, spawned: bool)
    requires run' == run.(phase := Running)
    ensures Launched(Durable(run'), spawned) == Launched(Durable(run), spawned)
  {
  }

  lemma RefusedFires(s: State, t: TaskId, o: Outcome)
    requires t in s.tasks && s.tasks[t].Acquiring? && o.Refused?
    ensures Exact(s, Fire(t, o), Next(s, Fire(t, o)))
  {
    hide StartFailed, StartSucceeded, After, HoldsAfter;
    StartSays(s, t, o);
    StartFailedWrites(s.Drop(Some(t)), s.tasks[t].run, s.tasks[t].immediate, o.race);
  }

  lemma UnwoundFires(s: State, t: TaskId, o: Outcome)
    requires t in s.tasks && s.tasks[t].Unwinding? && o.Unwound?
    ensures Exact(s, Fire(t, o), Next(s, Fire(t, o)))
  {
    hide StartFailed, StartSucceeded, After, HoldsAfter;
    var task := s.tasks[t];
    StartSays(s, t, o);
    StartFailedWrites(Free(s.Drop(Some(t)), task.run, o.freed), task.run, task.immediate, task.race);
  }

  lemma HalfTakenFires(s: State, t: TaskId, o: Outcome)
    requires t in s.tasks && s.tasks[t].Acquiring? && o.GrantedThenFailed?
    ensures Exact(s, Fire(t, o), Next(s, Fire(t, o)))
  {
    hide After;
    StartSays(s, t, o);
  }

  lemma StartGoes(s: State, t: TaskId, o: Outcome)
    requires t in s.tasks && Fits(s.tasks[t], o) && StartTask(s.tasks[t])
    ensures Exact(s, Fire(t, o), Next(s, Fire(t, o)))
  {
    hide Exact, Next;
    if o.Granted? { GrantFires(s, t, o); }
    else if o.Refused? { RefusedFires(s, t, o); }
    else if o.Unwound? { UnwoundFires(s, t, o); }
    else { HalfTakenFires(s, t, o); }
  }

  /** An event that is nobody's own computation changes one delivery mark at most. */
  lemma DaemonSays(s: State, t: TaskId, o: Outcome)
    requires t in s.tasks && Fits(s.tasks[t], o) && !Owned(s.tasks[t])
    ensures var e, task := Fire(t, o), s.tasks[t];
            forall x: RunId ::
              && (HoldsAfter(s, e, x) <==> x in s.leases)
              && After(s, e, x) ==
                   if (task.Delivering? || task.Recovering?) && task.run == x && o.Accepted?
                   then Durable(s.Get(x)).(delivered := true) else Durable(s.Get(x))
  {
  }

  /** The concierge answered: a delivery mark, or a retry. */
  lemma MarkedIs(s: State, r: RunId, accepted: bool)
    ensures var m := if accepted then Delivered(s, r) else ScheduleOutcomeRetry(s);
            && m.leases == s.leases
            && forall x: RunId :: Durable(m.Get(x)) == if accepted && x == r then Durable(s.Get(x)).(delivered := true) else Durable(s.Get(x))
  {
    hide Delivered;
    DeliveredWrites(s, r);
  }

  lemma ReportFires(s: State, t: TaskId, o: Outcome)
    requires t in s.tasks && Fits(s.tasks[t], o) && (s.tasks[t].Delivering? || s.tasks[t].Recovering?)
    ensures Exact(s, Fire(t, o), Next(s, Fire(t, o)))
  {
    hide Delivered, ScheduleOutcomeRetry, RecoverNext, After, HoldsAfter;
    var s1, task := s.Drop(Some(t)), s.tasks[t];
    var m := if o.Accepted? then Delivered(s1, task.run) else ScheduleOutcomeRetry(s1);
    DaemonSays(s, t, o);
    MarkedIs(s1, task.run, o.Accepted?);
    if task.Recovering? {
      RecoverNextWrites(m, task.rest);
      assert forall x: RunId :: RecoverNext(m, task.rest).Get(x) == m.Get(x);
    } else {
      assert Next(s, Fire(t, o)) == m;
    }
    assert forall x: RunId :: s1.Get(x) == s.Get(x);
  }

  lemma QuietFires(s: State, t: TaskId, o: Outcome)
    requires t in s.tasks && Fits(s.tasks[t], o) && !Owned(s.tasks[t]) && s.nextRun !in s.runs
    requires !s.tasks[t].Delivering? && !s.tasks[t].Recovering?
    ensures Next(s, Fire(t, o)).leases == s.leases
    ensures forall x: RunId :: Next(s, Fire(t, o)).Get(x) == s.Get(x)
  {
    hide Admit, DeliverAll, FillLanes;
    var s1 := s.Drop(Some(t));
    match s.tasks[t]
    case Admitting => AdmitWrites(s1);
    case OutcomeRetry => DeliverAllKeeps(s1.(outcomeTimer := None), s1.finished);
    case QueueRetry => Safety.FillLanesKeeps(s1.(queueTimer := None));
  }

  lemma DaemonFires(s: State, t: TaskId, o: Outcome)
    requires t in s.tasks && Fits(s.tasks[t], o) && !Owned(s.tasks[t]) && s.nextRun !in s.runs
    ensures Exact(s, Fire(t, o), Next(s, Fire(t, o)))
  {
    hide Next;
    if s.tasks[t].Delivering? || s.tasks[t].Recovering? {
      hide Exact;
      ReportFires(s, t, o);
    } else {
      hide After, HoldsAfter;
      DaemonSays(s, t, o);
      QuietFires(s, t, o);
    }
  }

  lemma AdmitWrites(s: State)
    requires s.nextRun !in s.runs
    ensures Admit(s).leases == s.leases && forall x: RunId :: Admit(s).Get(x) == s.Get(x)
  {
    hide Persist;
    var s1 := s.Put(s.nextRun, FRESH_RUN).(nextRun := s.nextRun + 1);
    PersistKeeps(s1.(queue := s1.queue + [s.nextRun]));
  }

  lemma StopWrites(s: State, r: RunId, text: string)
    requires LaneInv(s)
    ensures Exact(s, StopRun(r, text), Stop(s, r, text))
  {
    hide SettleQueued, Finalize;
    if r in s.queue { SettleWrites(s.(queue := Without(s.queue, r)), r, Cancelled, text); }
    else if r in s.live { FinalizeWrites(s.Put(r, s.Get(r).(child := None)), r, Cancelled, text, false); }
  }

  /**
   * After every enabled event of the running daemon, in every reachable state, the record of every run is
   * the one said by `After` and its lease is where `HoldsAfter` says.
   */
  lemma EveryRecord(s: State, e: Event)
    requires Sound(s) && Enabled(s, e) && !e.Crash?
    ensures Exact(s, e, Next(s, e))
  {
    hide Seats, Delivery.Ready, Delivery.AllCovered, Exact, Continue, Stop, StopAll, Recover, ResumeParked;
    match e
    case Fire(t, o) => EveryTask(s, t, o);
    case StopRun(r, text) => StopWrites(s, r, text);
    case StopEverything => SweepIsExact(s);
    case CallRecover => RecoveryIsExact(s);
    case Answer(r, spawned) => ResumeIsExact(s, e);
    case Steer(r, spawned) => ResumeIsExact(s, e);
    case _ => NothingIsExact(s, e);
  }

  lemma EveryTask(s: State, t: TaskId, o: Outcome)
    requires Sound(s) && t in s.tasks && Fits(s.tasks[t], o)
    ensures Exact(s, Fire(t, o), Next(s, Fire(t, o)))
  {
    hide Exact, Seats, LaneInv, Next;
    var task := s.tasks[t];
    if StartTask(task) { StartGoes(s, t, o); }
    else if task.LegWait? { LegFires(s, t, o); }
    else if task.Capturing? || task.Asking? { QuestionFires(s, t, o); }
    else if task.Releasing? { ReleaseFires(s, t, o); }
    else if task.RunTimer() { TimerFires(s, t, o); }
    else { FreshIsUnknown(s); DaemonFires(s, t, o); }
  }

  lemma FreshIsUnknown(s: State)
    requires Delivery.Ready(s)
    ensures s.nextRun !in s.runs
  {
  }

  lemma SweepIsExact(s: State)
    requires LaneInv(s)
    ensures Exact(s, StopEverything, StopAll(s))
  {
    hide StopAll;
    StopAllWrites(s);
  }

  lemma RecoveryIsExact(s: State)
    ensures Exact(s, CallRecover, Recover(s))
  {
    hide Recover;
    RecoverWrites(s);
  }

  lemma ResumeIsExact(s: State, e: Event)
    requires LaneInv(s) && (e.Answer? || e.Steer?)
    ensures Exact(s, e, Next(s, e))
  {
    hide ResumeParked;
    if Resumes(s, e, e.run) { ResumeWrites(s, e.run, e.spawned); }
  }

  lemma NothingIsExact(s: State, e: Event)
    requires e.Dispatch? || e.LeaseLost? || e.DiskFault?
    ensures Exact(s, e, Next(s, e))
  {
  }

  // -------------------------------------------------- what causes each verdict

  /** Done: the run's agent, with the browser tool attached, reported success, and no proof is missing. */
  lemma DoneIff(s: State, e: Event, x: RunId)
    requires Sound(s) && Enabled(s, e) && !e.Crash? && !s.Get(x).phase.Done?
    ensures Next(s, e).Get(x).phase.Done? <==>
              && ReportOf(s, e, x).Some? && ReportOf(s, e, x).value.Completed?
              && (ReportOf(s, e, x).value.proofApplicable ==> x in s.leases || s.Get(x).proofFiles > 0)
  {
    hide Sound, Next, Enabled;
    EveryRecord(s, e);
    assert Next(s, e).Get(x).phase == After(s, e, x).phase;
  }

  /** Timed out: one of the run's own timers fired, the leg's on the leg it was armed for. */
  lemma TimeoutIff(s: State, e: Event, x: RunId)
    requires Sound(s) && Enabled(s, e) && !e.Crash? && !s.Get(x).phase.Timeout?
    ensures Next(s, e).Get(x).phase.Timeout? <==> TimesOut(s, e, x)
  {
    hide Sound, Next, Enabled;
    EveryRecord(s, e);
    assert Next(s, e).Get(x).phase == After(s, e, x).phase;
  }

  /** Cancelled: someone stopped the run or everything, or a restart found it unfinished. */
  lemma CancelledIff(s: State, e: Event, x: RunId)
    requires Sound(s) && Enabled(s, e) && !e.Crash? && !s.Get(x).phase.Cancelled?
    ensures Next(s, e).Get(x).phase.Cancelled? <==> Stops(s, e, x) || (e.CallRecover? && x in s.orphans)
  {
    hide Sound, Next, Enabled;
    EveryRecord(s, e);
    assert Next(s, e).Get(x).phase == After(s, e, x).phase;
  }

  /** The agent's own report of a failure, or a report that nobody can honour. */
  predicate ReportsFailure(s: State, e: Event, x: RunId) {
    && ReportOf(s, e, x).Some?
    && match ReportOf(s, e, x).value
       case Broken(_) => true
       case Failed(_) => true
       case NeedsInput(question) => question == ""
       case Completed(_, proof) => proof && x !in s.leases && s.Get(x).proofFiles == 0
  }

  /** The third leg in a row ran without the browser tool. */
  predicate NeverAttached(s: State, e: Event, x: RunId) {
    LegExits(s, e, x) && !e.outcome.attached && s.tasks[e.task].attempt >= 3
  }

  /** Error: everything else that can go wrong, and nothing more. */
  lemma ErrorIff(s: State, e: Event, x: RunId)
    requires Sound(s) && Enabled(s, e) && !e.Crash? && !s.Get(x).phase.Error?
    ensures Next(s, e).Get(x).phase.Error? <==>
              || ReportsFailure(s, e, x) || NeverAttached(s, e, x) || SpawnFails(s, e, x)
              || StartFails(s, e, x) || AskFails(s, e, x) || NoProof(s, e, x)
  {
    hide Sound, Next, Enabled;
    EveryRecord(s, e);
    assert Next(s, e).Get(x).phase == After(s, e, x).phase;
  }

  /** Waiting: the screenshot for the run's question arrived. */
  lemma WaitingIff(s: State, e: Event, x: RunId)
    requires Sound(s) && Enabled(s, e) && !e.Crash? && !s.Get(x).phase.Waiting?
    ensures Next(s, e).Get(x).phase.Waiting? <==> Goes(s, e, x) && s.tasks[e.task].Capturing? && e.outcome.Captured?
  {
    hide Sound, Next, Enabled;
    EveryRecord(s, e);
    assert Next(s, e).Get(x).phase == After(s, e, x).phase;
  }

  /** Running: the run got its lease, or its question was answered, and a child process with it. */
  lemma RunningIff(s: State, e: Event, x: RunId)
    requires Sound(s) && Enabled(s, e) && !e.Crash? && !s.Get(x).phase.Running?
    ensures Next(s, e).Get(x).phase.Running? <==>
              (Resumes(s, e, x) && e.spawned) || (LeaseGranted(s, e, x) && e.outcome.spawned)
  {
    hide Sound, Next, Enabled;
    EveryRecord(s, e);
    assert Next(s, e).Get(x).phase == After(s, e, x).phase;
  }

  /** Delivered: the concierge accepted this run's outcome. */
  lemma DeliveredIff(s: State, e: Event, x: RunId)
    requires Sound(s) && Enabled(s, e) && !e.Crash? && !s.Get(x).delivered
    ensures Next(s, e).Get(x).delivered <==>
              && e.Fire? && e.outcome.Accepted?
              && (s.tasks[e.task].Delivering? || s.tasks[e.task].Recovering?) && s.tasks[e.task].run == x
  {
    hide Sound, Next;
    EveryRecord(s, e);
    assert Next(s, e).Get(x).delivered == After(s, e, x).delivered;
  }
}
