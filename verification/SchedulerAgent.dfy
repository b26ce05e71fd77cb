/**
 * The scheduler as the daemon runs it: one object whose fields the operations update in place.
 * Every operation is proved to do to the fields exactly what SchedulerSteps says of the state.
 */
module SchedulerAgent {
  import opened Wrappers
  import opened SchedulerState
  import opened SchedulerSteps
  import Capacity = SchedulerCapacity
  import Moves = SchedulerMoves
  import Places = SchedulerPlaces
  import Safety = SchedulerSafety
  import Verdicts = SchedulerVerdicts

  /** What every step of the running daemon promises. */
  ghost predicate Promised(s: State, e: Event, s': State) {
    && (Safety.Inv(s) && !Safety.StaleCapture(s, e) ==>
          && Safety.Inv(s')
          && forall r :: s.Get(r).phase.Terminal() ==> Verdicts.VerdictKept(s, e, s', r))
    && (Places.Sound(s) ==> Places.Sound(s') && Capacity.NoneBack(s, s'))
  }

  lemma SoundKept(s: State, e: Event)
    requires Enabled(s, e) && Places.Sound(s)
    ensures Places.Sound(Next(s, e)) && Capacity.NoneBack(s, Next(s, e))
  {
    hide Next, Enabled, Moves.LaneInv;
    Places.SoundStep(s, e);
    Capacity.LaneStep(s, e);
  }

  lemma KeepsPromises(s: State, e: Event)
    requires Enabled(s, e) && !e.Crash?
    ensures Promised(s, e, Next(s, e))
  {
    hide Next, Enabled, Safety.Inv, Safety.StaleCapture, Places.Sound, Verdicts.VerdictKept;
    if Safety.Inv(s) && !Safety.StaleCapture(s, e) {
      Safety.NextInv(s, e);
      forall r | s.Get(r).phase.Terminal() ensures Verdicts.VerdictKept(s, e, Next(s, e), r) {
        Verdicts.VerdictsAreFinal(s, e, r);
      }
    }
    if Places.Sound(s) { SoundKept(s, e); }
  }

  class BrowserAgent {
    const cap: nat
    var runs: map<RunId, Run>
    var queue: seq<RunId>
    var starting: seq<RunId>
    var live: seq<RunId>
    var finished: seq<RunId>
    var orphans: seq<RunId>
    var tasks: map<TaskId, Task>
    var outcomeTimer: Option<TaskId>
    var queueTimer: Option<TaskId>
    var stopping: bool
    var recovered: bool
    var leases: set<RunId>
    var disk: seq<Row>
    var diskBroken: bool
    ghost var writes: nat
    var nextRun: RunId
    var nextTask: TaskId

    ghost function Snap(): State
      reads this
    {
      State(cap, runs, queue, starting, live, finished, orphans, tasks, outcomeTimer, queueTimer,
            stopping, recovered, leases, disk, diskBroken, writes, nextRun, nextTask)
    }

    function Get(r: RunId): (run: Run)
      reads this
      ensures run == Snap().Get(r)
    {
      if r in runs then runs[r] else FRESH_RUN
    }

    // ------------------------------------------------------------ boot

    /** Boot on whatever the previous process left in the ledger file. */
    constructor (before: State)
      ensures Snap() == Restart(before)
    {
      cap := before.cap;
      runs, queue, starting, live, finished, orphans := map[], [], [], [], [], [];
      tasks, outcomeTimer, queueTimer, stopping, recovered := map[], None, None, false, false;
      leases, disk, diskBroken, writes := {}, before.disk, before.diskBroken, before.writes;
      nextRun, nextTask := before.nextRun, before.nextTask;
      new;
      LoadLedger();
    }

    method LoadLedger()
      requires runs == map[] && finished == [] && orphans == []
      modifies this`runs, this`finished, this`orphans
      ensures runs == Loaded(disk) && finished == Ids(disk, true) && orphans == Ids(disk, false)
    {
      for i := 0 to |disk|
        invariant LoadedSoFar(disk[..i], runs, finished, orphans)
      {
        LoadRow(disk[..i], disk[i]);
        assert disk[..i + 1] == disk[..i] + [disk[i]];
      }
      assert disk[..|disk|] == disk;
    }

    method LoadRow(ghost rows: seq<Row>, row: Row)
      requires LoadedSoFar(rows, runs, finished, orphans)
      modifies this`runs, this`finished, this`orphans
      ensures LoadedSoFar(rows + [row], runs, finished, orphans)
    {
      LoadOne(rows, row, runs, finished, orphans);
      runs := runs[row.id := row.run];
      if row.run.phase.Terminal() { finished := finished + [row.id]; }
      else { orphans := orphans + [row.id]; }
    }

    // ---------------------------------------------------------- ledger

    method FindDelivered() returns (k: nat)
      ensures k == FirstDelivered(finished, runs)
    {
      k := 0;
      while k < |finished| && !(finished[k] in runs && runs[finished[k]].delivered)
        invariant k <= |finished|
        invariant FirstDelivered(finished, runs) == k + FirstDelivered(finished[k..], runs)
      {
        assert finished[k..][1..] == finished[k + 1..];
        k := k + 1;
      }
    }

    method TrimFinished()
      modifies this`finished
      ensures finished == Trim(old(finished), runs)
    {
      while |finished| > LEDGER_FINISHED_CAP
        invariant Trim(finished, runs) == Trim(old(finished), runs)
        decreases |finished|
      {
        var k := FindDelivered();
        var i := if k < |finished| then k else 0;
        finished := finished[..i] + finished[i + 1..];
      }
    }

    method PersistLedger()
      modifies this`finished, this`disk, this`writes
      ensures Snap() == Persist(old(Snap()))
    {
      hide Trim;
      TrimFinished();
      if !diskBroken {
        disk := Rows(live + starting + queue + finished, runs);
        writes := writes + 1;
      }
    }

    // ------------------------------------------------------------ tasks

    method Spawn(task: Task) returns (t: TaskId)
      modifies this`tasks, this`nextTask
      ensures t == old(nextTask) && Snap() == old(Snap()).Add(task)
    {
      t := nextTask;
      tasks := tasks[t := task];
      nextTask := t + 1;
    }

    static function Less(tasks: map<TaskId, Task>, t: Option<TaskId>): map<TaskId, Task> {
      if t.None? then tasks else tasks - {t.value}
    }

    method Clear(t: Option<TaskId>)
      modifies this`tasks
      ensures tasks == Less(old(tasks), t) && Snap() == old(Snap()).Drop(t)
    {
      if t.Some? { tasks := tasks - {t.value}; }
    }

    // --------------------------------------------------------- delivery

    method ArmOutcomeRetry()
      modifies this
      ensures Snap() == ScheduleOutcomeRetry(old(Snap()))
    {
      if !stopping && outcomeTimer.None? {
        var t := Spawn(OutcomeRetry);
        outcomeTimer := Some(t);
      }
    }

    method OutcomeAccepted(r: RunId)
      modifies this
      ensures Snap() == Delivered(old(Snap()), r)
    {
      runs := runs[r := Get(r).(delivered := true)];
      PersistLedger();
    }

    method RetryOutcomes()
      modifies this
      ensures Snap() == DeliverAll(old(Snap()).(outcomeTimer := None), old(finished))
    {
      outcomeTimer := None;
      ghost var start := Snap();
      for i := 0 to |finished|
        invariant finished == start.finished
        invariant DeliverAll(Snap(), finished[i..]) == DeliverAll(start, finished)
      {
        assert finished[i..][0] == finished[i] && finished[i..][1..] == finished[i + 1..];
        if !Get(finished[i]).delivered {
          var _ := Spawn(Delivering(finished[i]));
        }
      }
    }

    // ---------------------------------------------- queue and admission

    method ArmQueueRetry()
      modifies this
      ensures Snap() == ScheduleQueueRetry(old(Snap()))
    {
      if !stopping && queueTimer.None? {
        var t := Spawn(QueueRetry);
        queueTimer := Some(t);
      }
    }

    method BeginStart(r: RunId, immediate: bool)
      modifies this
      ensures Snap() == StartDispatch(old(Snap()), r, immediate)
    {
      starting := if r in starting then starting else starting + [r];
      var _ := Spawn(Acquiring(r, immediate));
    }

    method FillFreeLanes()
      modifies this
      ensures Snap() == MaybeStartNext(old(Snap()))
    {
      if stopping { return; }
      while |queue| > 0 && |live| + |starting| < cap
        invariant FillLanes(Snap()) == FillLanes(old(Snap()))
        decreases |queue|
      {
        var next := queue[0];
        queue := queue[1..];
        BeginStart(next, false);
      }
    }

    method SettleRun(r: RunId)
      modifies this
      ensures Snap() == Settle(old(Snap()), r)
    {
      finished := finished + [r];
      PersistLedger();
      var _ := Spawn(Delivering(r));
    }

    method SettleUnstarted(r: RunId, final: Phase, text: string)
      modifies this
      ensures Snap() == SettleQueued(old(Snap()), r, final, text)
    {
      runs := runs[r := Get(r).(phase := final, result := Some(text))];
      SettleRun(r);
    }

    method StartRejected(r: RunId, immediate: bool, race: bool)
      modifies this
      ensures Snap() == StartFailed(old(Snap()), r, immediate, race)
    {
      hide Persist, ScheduleQueueRetry, SettleQueued, MaybeStartNext;
      starting := Without(starting, r);
      if race {
        queue := if immediate then queue + [r] else [r] + queue;
        PersistLedger();
        ArmQueueRetry();
      } else {
        SettleUnstarted(r, Error, START_TEXT);
        if !immediate { FillFreeLanes(); }
      }
    }

    /** `run`, up to the keychain read: refused while the daemon is stopping. */
    method Dispatch() returns (ok: bool)
      modifies this
      ensures ok == !old(stopping)
      ensures Snap() == Next(old(Snap()), Event.Dispatch)
    {
      ok := !stopping;
      if ok { var _ := Spawn(Admitting); }
    }

    /** The part of `run` after validation; `queued` is the position reported to the caller. */
    method AdmitDispatch() returns (r: RunId, queued: Option<nat>)
      modifies this
      ensures Snap() == Admit(old(Snap()))
      ensures r == old(nextRun)
      ensures queued.Some? ==> queued.value == |queue| && queue == old(queue) + [r]
      ensures queued.None? <==> |old(live)| + |old(starting)| < cap && old(queue) == []
    {
      hide Persist, StartDispatch;
      r := nextRun;
      runs := runs[r := FRESH_RUN];
      nextRun := r + 1;
      if |live| + |starting| >= cap || |queue| > 0 {
        queue := queue + [r];
        PersistLedger();
        queued := Some(|queue|);
      } else {
        BeginStart(r, true);
        queued := None;
      }
    }

    // --------------------------------------------------------- finalize

    method ClearRunTimers(r: RunId)
      modifies this
      ensures Snap() == ClearTimers(old(Snap()), r)
    {
      var run := Get(r);
      Clear(run.hardTimer);
      Clear(run.questionTimer);
      runs := runs[r := run.(hardTimer := None, questionTimer := None)];
    }

    method EndFinalize(r: RunId, final: Phase, captureProof: bool, proofs: nat)
      modifies this
      ensures Snap() == FinalizeEnd(old(Snap()), r, final, captureProof, proofs)
    {
      hide Settle, MaybeStartNext;
      var run := Get(r).(proofFiles := proofs);
      if final.Done? && captureProof && proofs == 0 {
        var text := if run.result.Some? then run.result.value else "";
        run := run.(phase := Error, result := Some(text + UNVERIFIED_TEXT));
      }
      runs := runs[r := run];
      live := Without(live, r);
      SettleRun(r);
      FillFreeLanes();
    }

    method FinalizeRun(r: RunId, final: Phase, text: string, captureProof: bool)
      modifies this
      ensures Snap() == Finalize(old(Snap()), r, final, text, captureProof)
    {
      hide FinalizeEnd, ClearTimers;
      if !Get(r).phase.Active() { return; }
      runs := runs[r := Get(r).(phase := final, result := Some(text))];
      ClearRunTimers(r);
      runs := runs[r := Get(r).(child := None)];
      if r in leases {
        var _ := Spawn(Releasing(r, final, captureProof));
      } else {
        EndFinalize(r, final, captureProof, Get(r).proofFiles);
      }
    }

    // ------------------------------------------------------------- legs

    method LaunchLeg(r: RunId, attempt: nat, resumed: bool, spawned: bool)
      modifies this
      ensures Snap() == ExecuteLeg(old(Snap()), r, attempt, resumed, spawned)
    {
      if !spawned {
        FinalizeRun(r, Error, SPAWN_TEXT, false);
        return;
      }
      var c := Spawn(LegWait(r, attempt, resumed));
      var h := Spawn(HardTimer(r, c));
      runs := runs[r := Get(r).(child := Some(c), hardTimer := Some(h))];
    }

    method DriveLeg(r: RunId, resumed: bool, spawned: bool)
      modifies this
      ensures Snap() == SpawnLeg(old(Snap()), r, resumed, spawned)
    {
      runs := runs[r := Get(r).(phase := Running, question := None, anchor := None)];
      PersistLedger();
      LaunchLeg(r, 1, resumed, spawned);
    }

    method StartGranted(r: RunId, spawned: bool)
      modifies this
      ensures Snap() == StartSucceeded(old(Snap()), r, spawned)
    {
      EnterLive(r);
      DriveLeg(r, false, spawned);
    }

    method EnterLive(r: RunId)
      modifies this
      ensures Snap() == GoLive(old(Snap()), r)
    {
      runs := runs[r := Get(r).(phase := Running)];
      live := if r in live then live else live + [r];
      starting := Without(starting, r);
      leases := leases + {r};
    }

    method HonourOutcome(r: RunId, o: LegResult)
      modifies this
      ensures Snap() == ApplyLegOutcome(old(Snap()), r, o)
    {
      match o
      case Broken(text) => FinalizeRun(r, Error, text, false);
      case NeedsInput(q) =>
        if q == "" { FinalizeRun(r, Error, NO_QUESTION_TEXT, false); }
        else { var _ := Spawn(Capturing(r, q)); }
      case Failed(text) => FinalizeRun(r, Error, text, false);
      case Completed(text, proof) => FinalizeRun(r, Done, text, proof);
    }

    method LegExited(t: TaskId, leg: Task, attached: bool, o: LegResult, respawned: bool)
      requires leg.LegWait?
      modifies this
      ensures Snap() == LegDone(old(Snap()), t, leg, attached, o, respawned)
    {
      hide ApplyLegOutcome, Finalize, ExecuteLeg;
      var r := leg.run;
      if Get(r).child != Some(t) || !Get(r).phase.Running? { return; }
      Clear(Get(r).hardTimer);
      runs := runs[r := Get(r).(hardTimer := None, child := None)];
      if attached { HonourOutcome(r, o); }
      else if leg.attempt >= LEG_MAX_ATTEMPTS { FinalizeRun(r, Error, ATTACH_TEXT, false); }
      else { LaunchLeg(r, leg.attempt + 1, leg.resumed, respawned); }
    }

    // -------------------------------------------------------- questions

    method ParkRun(r: RunId, text: string)
      modifies this
      ensures Snap() == Park(old(Snap()), r, text)
    {
      var q := Spawn(QuestionTimer(r));
      runs := runs[r := Get(r).(phase := Waiting, question := Some(text), questionTimer := Some(q))];
      PersistLedger();
      var _ := Spawn(Asking(r));
    }

    method QuestionPosted(r: RunId, anchor: string)
      modifies this
      ensures Snap() == Asked(old(Snap()), r, anchor)
    {
      if !Get(r).phase.Waiting? || r !in leases { return; }
      runs := runs[r := Get(r).(anchor := Some(anchor))];
      PersistLedger();
    }

    method Unblock(r: RunId, spawned: bool)
      modifies this
      ensures Snap() == ResumeParked(old(Snap()), r, spawned)
    {
      Clear(Get(r).questionTimer);
      runs := runs[r := Get(r).(questionTimer := None)];
      DriveLeg(r, true, spawned);
    }

    /** `resume`: refused unless the run is parked on a question and the answer is not blank. */
    method Answer(r: RunId, blank: bool, spawned: bool) returns (ok: bool)
      modifies this
      ensures ok == (r in old(live) && old(Get(r)).phase.Waiting? && !blank)
      ensures Snap() == if ok then Next(old(Snap()), Event.Answer(r, spawned)) else old(Snap())
    {
      ok := r in live && Get(r).phase.Waiting? && !blank;
      if ok { Unblock(r, spawned); }
    }

    /** `steer`: a note for a queued or running run is only remembered, a parked run is resumed. */
    method Steer(r: RunId, blank: bool, spawned: bool) returns (ok: bool, resumed: bool)
      modifies this
      ensures ok == ((r in old(queue) || r in old(live)) && !blank)
      ensures resumed == (ok && r !in old(queue) && old(Get(r)).phase.Waiting?)
      ensures Snap() == if ok then Next(old(Snap()), Event.Steer(r, spawned)) else old(Snap())
      ensures !resumed ==> Snap() == old(Snap())
    {
      ok := (r in queue || r in live) && !blank;
      resumed := ok && r !in queue && Get(r).phase.Waiting?;
      if resumed { Unblock(r, spawned); }
    }

    // ------------------------------------------------------------- stop

    method StopRun(r: RunId, text: string) returns (ok: bool)
      modifies this
      ensures ok == (r in old(queue) || r in old(live))
      ensures Snap() == Stop(old(Snap()), r, text)
    {
      ok := r in queue || r in live;
      if r in queue {
        queue := Without(queue, r);
        SettleUnstarted(r, Cancelled, text);
      } else if r in live {
        runs := runs[r := Get(r).(child := None)];
        FinalizeRun(r, Cancelled, text, false);
      }
    }

    method StopEverything()
      modifies this
      ensures Snap() == StopAll(old(Snap()))
    {
      hide SettleAll, FinalizeAll;
      Silence();
      var waiting := queue;
      queue := [];
      SettleEach(waiting);
      FinalizeEach(live);
    }

    method Silence()
      modifies this`stopping, this`tasks, this`outcomeTimer, this`queueTimer
      ensures Snap() == Quiet(old(Snap()))
    {
      QuietIs(Snap());
      hide Quiet, Less;
      stopping := true;
      Clear(outcomeTimer);
      outcomeTimer := None;
      Clear(queueTimer);
      queueTimer := None;
    }

    static lemma QuietIs(s: State)
      ensures Quiet(s) == s.(stopping := true, outcomeTimer := None, queueTimer := None,
                             tasks := Less(Less(s.tasks, s.outcomeTimer), s.queueTimer))
    {
    }

    method SettleEach(rs: seq<RunId>)
      modifies this
      ensures Snap() == SettleAll(old(Snap()), rs)
    {
      hide SettleQueued;
      for i := 0 to |rs|
        invariant SettleAll(Snap(), rs[i..]) == SettleAll(old(Snap()), rs)
      {
        assert rs[i..][0] == rs[i] && rs[i..][1..] == rs[i + 1..];
        runs := runs[rs[i] := Get(rs[i]).(restartCancelled := true)];
        SettleUnstarted(rs[i], Cancelled, RESTART_TEXT);
      }
    }

    method FinalizeEach(rs: seq<RunId>)
      modifies this
      ensures Snap() == FinalizeAll(old(Snap()), rs)
    {
      for i := 0 to |rs|
        invariant FinalizeAll(Snap(), rs[i..]) == FinalizeAll(old(Snap()), rs)
      {
        assert rs[i..][0] == rs[i] && rs[i..][1..] == rs[i + 1..];
        runs := runs[rs[i] := Get(rs[i]).(restartCancelled := true)];
        FinalizeRun(rs[i], Cancelled, RESTART_TEXT, false);
      }
    }

    // --------------------------------------------------------- recovery

    method AdoptEach(rs: seq<RunId>)
      modifies this
      ensures Snap() == Adopt(old(Snap()), rs)
    {
      for i := 0 to |rs|
        invariant Adopt(Snap(), rs[i..]) == Adopt(old(Snap()), rs)
      {
        assert rs[i..][0] == rs[i] && rs[i..][1..] == rs[i + 1..];
        runs := runs[rs[i] := Orphaned(Get(rs[i]))];
        finished := finished + [rs[i]];
      }
    }

    /** The sequential delivery loop of `recover`, up to its next await. */
    method RecoverRest(rest: seq<RunId>)
      modifies this
      ensures Snap() == RecoverNext(old(Snap()), rest)
    {
      var i := 0;
      while i < |rest| && Get(rest[i]).delivered
        invariant 0 <= i <= |rest| && Snap() == old(Snap())
        invariant RecoverNext(Snap(), rest[i..]) == RecoverNext(old(Snap()), rest)
      {
        assert rest[i..][1..] == rest[i + 1..];
        i := i + 1;
      }
      if i < |rest| {
        assert rest[i..][0] == rest[i] && rest[i..][1..] == rest[i + 1..];
        var _ := Spawn(Recovering(rest[i], rest[i + 1..]));
      } else {
        FillFreeLanes();
      }
    }

    method RecoverOrphans()
      modifies this
      ensures Snap() == Recover(old(Snap()))
    {
      var taken := orphans;
      orphans := [];
      AdoptEach(taken);
      recovered := true;
      PersistLedger();
      RecoverRest(finished);
    }

    // ----------------------------------------------------- continuation

    method RemoveTask(t: TaskId)
      modifies this`tasks
      ensures Snap() == old(Snap()).Drop(Some(t))
    {
      tasks := tasks - {t};
    }

    /** A suspended computation resumes, or an armed timer fires. */
    method Fire(t: TaskId, o: Outcome)
      requires t in tasks && Fits(tasks[t], o)
      modifies this
      ensures Snap() == Next(old(Snap()), Event.Fire(t, o))
      ensures old(recovered) ==> Promised(old(Snap()), Event.Fire(t, o), Snap())
    {
      hide Continue, Promised;
      if recovered { KeepsPromises(Snap(), Event.Fire(t, o)); }
      var task := tasks[t];
      RemoveTask(t);
      if task.Acquiring? || task.Unwinding? { ResumeStart(t, task, o); }
      else if task.LegWait? || task.Capturing? || task.Asking? { ResumeLeg(t, task, o); }
      else if task.Releasing? || task.RunTimer() { ResumeEnding(t, task, o); }
      else { ResumeDaemon(t, task, o); }
    }

    method ResumeLeg(t: TaskId, task: Task, o: Outcome)
      requires (task.LegWait? || task.Capturing? || task.Asking?) && Fits(task, o)
      modifies this
      ensures Snap() == Continue(old(Snap()), t, task, o)
    {
      match task
      case LegWait(_, _, _) => LegExited(t, task, o.attached, o.result, o.respawned);
      case Capturing(r, text) =>
        if o.Captured? { ParkRun(r, text); } else { FinalizeRun(r, Error, ASK_TEXT, false); }
      case Asking(r) =>
        if o.Posted? { QuestionPosted(r, o.anchor); } else { FinalizeRun(r, Error, ASK_TEXT, false); }
    }

    method ResumeEnding(t: TaskId, task: Task, o: Outcome)
      requires (task.Releasing? || task.RunTimer()) && Fits(task, o)
      modifies this
      ensures Snap() == Continue(old(Snap()), t, task, o)
    {
      match task
      case Releasing(r, final, captureProof) =>
        if o.freed { leases := leases - {r}; }
        EndFinalize(r, final, captureProof, o.proofs);
      case HardTimer(r, leg) =>
        if Get(r).phase.Running? && Get(r).child == Some(leg) { FinalizeRun(r, Timeout, HARD_TIMEOUT_TEXT, false); }
      case QuestionTimer(r) => FinalizeRun(r, Timeout, QUESTION_TIMEOUT_TEXT, false);
    }

    method ResumeDaemon(t: TaskId, task: Task, o: Outcome)
      requires task.Admitting? || task.Delivering? || task.Recovering? || task.OutcomeRetry? || task.QueueRetry?
      requires Fits(task, o)
      modifies this
      ensures Snap() == Continue(old(Snap()), t, task, o)
    {
      hide Admit, RecoverNext, DeliverAll, MaybeStartNext, Delivered, ScheduleOutcomeRetry;
      match task
      case Admitting => if o.ok { var _, _ := AdmitDispatch(); }
      case Delivering(r) => DeliveryAnswered(r, o.Accepted?);
      case Recovering(r, rest) =>
        DeliveryAnswered(r, o.Accepted?);
        RecoverRest(rest);
      case OutcomeRetry => RetryOutcomes();
      case QueueRetry =>
        queueTimer := None;
        FillFreeLanes();
    }

    method DeliveryAnswered(r: RunId, accepted: bool)
      modifies this
      ensures Snap() == if accepted then Delivered(old(Snap()), r) else ScheduleOutcomeRetry(old(Snap()))
    {
      if accepted { OutcomeAccepted(r); } else { ArmOutcomeRetry(); }
    }

    method ResumeStart(t: TaskId, task: Task, o: Outcome)
      requires (task.Acquiring? || task.Unwinding?) && Fits(task, o)
      modifies this
      ensures Snap() == Continue(old(Snap()), t, task, o)
    {
      var r := task.run;
      if o.Granted? {
        StartGranted(r, o.spawned);
      } else if o.GrantedThenFailed? {
        leases := leases + {r};
        var _ := Spawn(Unwinding(r, task.immediate, false));
      } else if o.Refused? {
        if r in leases { var _ := Spawn(Unwinding(r, task.immediate, o.race)); }
        else { StartRejected(r, task.immediate, o.race); }
      } else {
        if o.freed { leases := leases - {r}; }
        StartRejected(r, task.immediate, task.race);
      }
    }
  }

  ghost predicate LoadedSoFar(rows: seq<Row>, runs: map<RunId, Run>, finished: seq<RunId>, orphans: seq<RunId>) {
    runs == Loaded(rows) && finished == Ids(rows, true) && orphans == Ids(rows, false)
  }

  lemma LoadOne(rows: seq<Row>, row: Row, runs: map<RunId, Run>, finished: seq<RunId>, orphans: seq<RunId>)
    requires LoadedSoFar(rows, runs, finished, orphans)
    ensures LoadedSoFar(rows + [row], runs[row.id := row.run],
                        if row.run.phase.Terminal() then finished + [row.id] else finished,
                        if row.run.phase.Terminal() then orphans else orphans + [row.id])
  {
    IdsAppend(rows, row, true);
    IdsAppend(rows, row, false);
    assert (rows + [row])[..|rows|] == rows;
  }

  lemma {:induction false} IdsAppend(rows: seq<Row>, row: Row, terminal: bool)
    ensures Ids(rows + [row], terminal) == Ids(rows, terminal) + if row.run.phase.Terminal() == terminal then [row.id] else []
  {
    if rows != [] {
      IdsAppend(rows[1..], row, terminal);
      assert (rows + [row])[1..] == rows[1..] + [row];
    }
  }
}
