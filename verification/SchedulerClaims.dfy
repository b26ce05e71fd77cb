/**
 * Success is only reported if it was claimed: over whole runs, in memory and in the file, crashes
 * included, a run is done only if its agent said so, and with the words it said; and what a crash makes
 * of a claim that was still to be proved.
 */
module SchedulerClaims {
  import opened Wrappers
  import opened SchedulerState
  import opened SchedulerSteps
  import opened SchedulerEffects
  import opened SchedulerVerdicts
  import opened SchedulerMoves
  import opened SchedulerPlaces
  import opened SchedulerRecords
  import Delivery = SchedulerDelivery
  import Recovery = SchedulerRecovery
  import Safety = SchedulerSafety
  import Sync = SchedulerSync

  /** Somewhere, in memory or in the file, the run is done with these words. */
  ghost predicate Shown(s: State, x: RunId, words: Option<string>) {
    (s.Get(x).phase.Done? && s.Get(x).result == words) || Written(s.disk, x, words)
  }

  ghost predicate Written(disk: seq<Row>, x: RunId, words: Option<string>) {
    exists i :: 0 <= i < |disk| && disk[i].id == x && disk[i].run.phase.Done? && disk[i].run.result == words
  }

  /** Nobody is done who was not, or with other words. */
  ghost predicate NoNews(s: State, s': State) {
    forall x: RunId, words: Option<string> :: Shown(s', x, words) ==> Shown(s, x, words)
  }

  ghost predicate OneNews(s: State, s': State, r: RunId, text: string) {
    forall x: RunId, words: Option<string> :: Shown(s', x, words) ==> Shown(s, x, words) || (x == r && words == Some(text))
  }

  lemma Trans(s: State, m: State, s': State)
    requires NoNews(s, m) && NoNews(m, s')
    ensures NoNews(s, s')
  {
  }

  /** The file is as it was, and every record that is done was done before with the same words. */
  lemma SameFile(s: State, s': State)
    requires s'.disk == s.disk
    requires forall x: RunId :: s'.Get(x).phase.Done? ==> s.Get(x).phase.Done? && s'.Get(x).result == s.Get(x).result
    ensures NoNews(s, s')
  {
  }

  lemma PersistNews(s: State)
    ensures NoNews(s, Persist(s))
  {
    PersistKeeps(s);
  }

  lemma SettleNews(s: State, r: RunId)
    ensures NoNews(s, Settle(s, r))
  {
    hide Persist;
    var s1 := s.(finished := s.finished + [r]);
    SameFile(s, s1);
    PersistNews(s1);
    Trans(s, s1, Persist(s1));
    SameFile(Persist(s1), Settle(s, r));
    Trans(s, Persist(s1), Settle(s, r));
  }

  lemma SettleQueuedNews(s: State, r: RunId, final: Phase, text: string)
    requires !final.Done?
    ensures NoNews(s, SettleQueued(s, r, final, text))
  {
    hide Settle, NoNews;
    var s1 := s.Put(r, s.Get(r).(phase := final, result := Some(text)));
    SameFile(s, s1);
    SettleNews(s1, r);
    Trans(s, s1, Settle(s1, r));
  }

  lemma RefillNews(s: State)
    ensures NoNews(s, MaybeStartNext(s))
  {
    hide FillLanes;
    Safety.FillLanesKeeps(s);
    SameFile(s, MaybeStartNext(s));
  }

  lemma EndNews(s: State, r: RunId, final: Phase, proof: bool, proofs: nat)
    ensures NoNews(s, FinalizeEnd(s, r, final, proof, proofs))
  {
    hide Settle, MaybeStartNext, NoNews;
    var s1 := s.Put(r, Verified(s.Get(r), final, proof, proofs));
    var s2 := s1.(live := Without(s1.live, r));
    SameFile(s, s2);
    SettleNews(s2, r);
    Trans(s, s2, Settle(s2, r));
    RefillNews(Settle(s2, r));
    Trans(s, Settle(s2, r), FinalizeEnd(s, r, final, proof, proofs));
  }

  lemma ConcludeNews(s: State, r: RunId, final: Phase, text: string)
    ensures OneNews(s, Conclude(s, r, final, text), r, text)
    ensures !final.Done? ==> NoNews(s, Conclude(s, r, final, text))
  {
  }

  lemma FinalizeNews(s: State, r: RunId, final: Phase, text: string, proof: bool)
    ensures OneNews(s, Finalize(s, r, final, text, proof), r, text)
    ensures !final.Done? ==> NoNews(s, Finalize(s, r, final, text, proof))
  {
    hide Conclude, FinalizeEnd;
    if s.Get(r).phase.Active() {
      var s1 := Conclude(s, r, final, text);
      ConcludeNews(s, r, final, text);
      if r in s1.leases { SameFile(s1, Finalize(s, r, final, text, proof)); }
      else { EndNews(s1, r, final, proof, s1.Get(r).proofFiles); }
    }
  }

  lemma ExecuteNews(s: State, r: RunId, attempt: nat, resumed: bool, spawned: bool)
    ensures NoNews(s, ExecuteLeg(s, r, attempt, resumed, spawned))
  {
    hide Finalize;
    if spawned { SameFile(s, ExecuteLeg(s, r, attempt, resumed, spawned)); }
    else { FinalizeNews(s, r, Error, SPAWN_TEXT, false); }
  }

  lemma SpawnNews(s: State, r: RunId, resumed: bool, spawned: bool)
    ensures NoNews(s, SpawnLeg(s, r, resumed, spawned))
  {
    hide Persist, ExecuteLeg, NoNews;
    var s0 := s.Put(r, s.Get(r).(phase := Running, question := None, anchor := None));
    SameFile(s, s0);
    PersistNews(s0);
    Trans(s, s0, Relaunch(s, r));
    ExecuteNews(Relaunch(s, r), r, 1, resumed, spawned);
    Trans(s, Relaunch(s, r), SpawnLeg(s, r, resumed, spawned));
  }

  /** A state that differs from `s` in no file and no finished record, and what follows it. */
  lemma After(s: State, s1: State, s': State)
    requires s1.disk == s.disk && NoNews(s1, s')
    requires forall x: RunId :: s1.Get(x).phase.Done? ==> s.Get(x).phase.Done? && s1.Get(x).result == s.Get(x).result
    ensures NoNews(s, s')
  {
    SameFile(s, s1);
    Trans(s, s1, s');
  }

  /** What an honoured report claims. */
  ghost predicate Claim(s: State, s': State, r: RunId, attached: bool, o: LegResult) {
    if attached && o.Completed? then OneNews(s, s', r, o.summary) else NoNews(s, s')
  }

  lemma HonourNews(s: State, r: RunId, o: LegResult)
    ensures Claim(s, ApplyLegOutcome(s, r, o), r, true, o)
  {
    hide Finalize;
    match o
    case Broken(text) => FinalizeNews(s, r, Error, text, false);
    case NeedsInput(q) =>
      if q == "" { FinalizeNews(s, r, Error, NO_QUESTION_TEXT, false); } else { SameFile(s, s.Add(Capturing(r, q))); }
    case Failed(text) => FinalizeNews(s, r, Error, text, false);
    case Completed(text, proof) => FinalizeNews(s, r, Done, text, proof);
  }

  lemma ExitNews(s: State, leg: Task, attached: bool, o: LegResult, respawned: bool)
    requires leg.LegWait?
    ensures Claim(s, AfterLeg(s, leg, attached, o, respawned), leg.run, attached, o)
  {
    hide ApplyLegOutcome, Finalize, ExecuteLeg, NoNews, OneNews;
    if attached { HonourNews(s, leg.run, o); }
    else if leg.attempt >= LEG_MAX_ATTEMPTS { FinalizeNews(s, leg.run, Error, ATTACH_TEXT, false); }
    else { ExecuteNews(s, leg.run, leg.attempt + 1, leg.resumed, respawned); }
  }

  lemma LegNews(s: State, t: TaskId, leg: Task, attached: bool, o: LegResult, respawned: bool)
    requires leg.LegWait?
    ensures var s' := LegDone(s, t, leg, attached, o, respawned);
            if s.Get(leg.run).phase.Running? && s.Get(leg.run).child == Some(t) then Claim(s, s', leg.run, attached, o) else s' == s
  {
    hide AfterLeg;
    ExitNews(Reap(s, leg.run), leg, attached, o, respawned);
    SameFile(s, Reap(s, leg.run));
  }

  lemma ParkNews(s: State, r: RunId, text: string)
    ensures NoNews(s, Park(s, r, text))
  {
    hide Persist, NoNews;
    var s1 := s.Add(QuestionTimer(r));
    var s2 := s1.Put(r, s1.Get(r).(phase := Waiting, question := Some(text), questionTimer := Some(s.nextTask)));
    SameFile(s, s2);
    PersistNews(s2);
    Trans(s, s2, Persist(s2));
    SameFile(Persist(s2), Park(s, r, text));
    Trans(s, Persist(s2), Park(s, r, text));
  }

  lemma PutPersistNews(s: State, r: RunId, run: Run)
    requires run.phase == s.Get(r).phase && run.result == s.Get(r).result
    ensures NoNews(s, Persist(s.Put(r, run)))
  {
    hide Persist, NoNews;
    SameFile(s, s.Put(r, run));
    PersistNews(s.Put(r, run));
    Trans(s, s.Put(r, run), Persist(s.Put(r, run)));
  }

  lemma StartFailedNews(s: State, r: RunId, immediate: bool, race: bool)
    ensures NoNews(s, StartFailed(s, r, immediate, race))
  {
    hide Persist, SettleQueued, MaybeStartNext, NoNews;
    var s1 := s.(starting := Without(s.starting, r));
    if race {
      var s2 := s1.(queue := if immediate then s1.queue + [r] else [r] + s1.queue);
      PersistNews(s2);
      SameFile(Persist(s2), ScheduleQueueRetry(Persist(s2)));
      Trans(s2, Persist(s2), ScheduleQueueRetry(Persist(s2)));
      After(s, s2, StartFailed(s, r, immediate, race));
    } else {
      var s2 := SettleQueued(s1, r, Error, START_TEXT);
      SettleQueuedNews(s1, r, Error, START_TEXT);
      RefillNews(s2);
      Trans(s1, s2, MaybeStartNext(s2));
      After(s, s1, StartFailed(s, r, immediate, race));
    }
  }

  lemma {:induction false} SettleAllNews(s: State, rs: seq<RunId>)
    ensures NoNews(s, SettleAll(s, rs))
    decreases |rs|
  {
    hide SettleQueued;
    if rs != [] {
      var s1 := MarkRestart(s, rs[0]);
      var s2 := SettleQueued(s1, rs[0], Cancelled, RESTART_TEXT);
      SettleQueuedNews(s1, rs[0], Cancelled, RESTART_TEXT);
      After(s, s1, s2);
      SettleAllNews(s2, rs[1..]);
      Trans(s, s2, SettleAll(s2, rs[1..]));
    }
  }

  lemma {:induction false} FinalizeAllNews(s: State, rs: seq<RunId>)
    ensures NoNews(s, FinalizeAll(s, rs))
    decreases |rs|
  {
    hide Finalize;
    if rs != [] {
      var s1 := MarkRestart(s, rs[0]);
      var s2 := Finalize(s1, rs[0], Cancelled, RESTART_TEXT, false);
      FinalizeNews(s1, rs[0], Cancelled, RESTART_TEXT, false);
      After(s, s1, s2);
      FinalizeAllNews(s2, rs[1..]);
      Trans(s, s2, FinalizeAll(s2, rs[1..]));
    }
  }

  lemma StopAllNews(s: State)
    ensures NoNews(s, StopAll(s))
  {
    hide SettleAll, FinalizeAll, NoNews;
    var s1 := Quiet(s).(queue := []);
    var s2 := SettleAll(s1, s.queue);
    SettleAllNews(s1, s.queue);
    FinalizeAllNews(s2, s2.live);
    Trans(s1, s2, FinalizeAll(s2, s2.live));
    After(s, s1, StopAll(s));
  }

  lemma StopNews(s: State, r: RunId, text: string)
    ensures NoNews(s, Stop(s, r, text))
  {
    hide SettleQueued, Finalize;
    if r in s.queue {
      SettleQueuedNews(s.(queue := Without(s.queue, r)), r, Cancelled, text);
      After(s, s.(queue := Without(s.queue, r)), Stop(s, r, text));
    } else if r in s.live {
      FinalizeNews(s.Put(r, s.Get(r).(child := None)), r, Cancelled, text, false);
      After(s, s.Put(r, s.Get(r).(child := None)), Stop(s, r, text));
    }
  }

  lemma RecoverNews(s: State)
    ensures NoNews(s, Recover(s))
  {
    hide Adopt, RecoverNext, Persist, NoNews;
    var s1 := Adopt(s.(orphans := []), s.orphans).(recovered := true);
    Recovery.AdoptedRuns(s.(orphans := []), s.orphans);
    Sync.AdoptKeeps(s.(orphans := []), s.orphans);
    assert forall x: RunId :: s1.Get(x) == if x in s.orphans then Orphaned(s.Get(x)) else s.Get(x);
    PersistNews(s1);
    RecoverNextNews(Persist(s1), Persist(s1).finished);
    Trans(s1, Persist(s1), Recover(s));
    After(s, s1, Recover(s));
  }

  lemma {:induction false} RecoverNextNews(s: State, rest: seq<RunId>)
    ensures NoNews(s, RecoverNext(s, rest))
    decreases |rest|
  {
    hide MaybeStartNext;
    if rest == [] { RefillNews(s); }
    else if s.Get(rest[0]).delivered { RecoverNextNews(s, rest[1..]); }
    else { SameFile(s, RecoverNext(s, rest)); }
  }

  lemma {:induction false} LoadedIsWritten(rows: seq<Row>, x: RunId)
    ensures x in Loaded(rows) ==> exists i :: 0 <= i < |rows| && rows[i] == Row(x, Loaded(rows)[x])
  {
    if rows != [] {
      var n := |rows| - 1;
      LoadedIsWritten(rows[..n], x);
      if x in Loaded(rows) {
        if rows[n].id == x { assert rows[n] == Row(x, Loaded(rows)[x]); }
        else {
          var i :| 0 <= i < n && rows[..n][i] == Row(x, Loaded(rows)[x]);
          assert rows[i] == Row(x, Loaded(rows)[x]);
        }
      }
    }
  }

  /** Boot knows what the file says. */
  lemma RestartNews(s: State)
    ensures NoNews(s, Restart(s))
  {
    forall x: RunId, words: Option<string> | Shown(Restart(s), x, words) ensures Shown(s, x, words) { LoadedIsWritten(s.disk, x); }
  }

  // ------------------------------------------------------------ event by event

  /** The run's agent, with the browser tool attached, reports success in these words. */
  predicate Claims(s: State, e: Event, x: RunId, words: Option<string>) {
    var report := ReportOf(s, e, x);
    report.Some? && report.value.Completed? && words == Some(report.value.summary)
  }

  ghost predicate OnlyClaimed(s: State, e: Event, s': State) {
    forall x: RunId, words: Option<string> :: Shown(s', x, words) ==> Shown(s, x, words) || Claims(s, e, x, words)
  }

  lemma LegClaims(s: State, t: TaskId, o: Outcome)
    requires t in s.tasks && Fits(s.tasks[t], o) && s.tasks[t].LegWait?
    ensures OnlyClaimed(s, Fire(t, o), Next(s, Fire(t, o)))
  {
    hide LegDone;
    var s1, leg := s.Drop(Some(t)), s.tasks[t];
    LegNews(s1, t, leg, o.attached, o.result, o.respawned);
    SameFile(s, s1);
  }

  lemma OtherTaskNews(s: State, t: TaskId, task: Task, o: Outcome)
    requires Fits(task, o) && !task.LegWait?
    ensures NoNews(s, Continue(s, t, task, o))
  {
    hide StartSucceeded, StartFailed, Park, Asked, Finalize, FinalizeEnd, Admit, Delivered, RecoverNext, DeliverAll, MaybeStartNext;
    match task
    case Admitting => AdmitNews(s);
    case Acquiring(r, immediate) =>
      if o.Granted? { GrantNews(s, r, o.spawned); }
      else if o.Refused? { StartFailedNews(s, r, immediate, o.race); }
      SameFile(s, s.Add(Unwinding(r, immediate, o.Refused? && o.race)));
      SameFile(s, s.(leases := s.leases + {r}).Add(Unwinding(r, immediate, false)));
    case Unwinding(r, immediate, race) =>
      StartFailedNews(Free(s, r, o.freed), r, immediate, race);
      After(s, Free(s, r, o.freed), Continue(s, t, task, o));
    case Capturing(r, text) => ParkNews(s, r, text); FinalizeNews(s, r, Error, ASK_TEXT, false);
    case Asking(r) =>
      FinalizeNews(s, r, Error, ASK_TEXT, false);
      if o.Posted? { AskedNews(s, r, o.anchor); }
    case Releasing(r, final, proof) =>
      EndNews(Free(s, r, o.freed), r, final, proof, o.proofs);
      After(s, Free(s, r, o.freed), Continue(s, t, task, o));
    case Delivering(r) => MarkNews(s, r, o.Accepted?);
    case Recovering(r, rest) =>
      var m := if o.Accepted? then Delivered(s, r) else ScheduleOutcomeRetry(s);
      MarkNews(s, r, o.Accepted?);
      RecoverNextNews(m, rest);
      Trans(s, m, RecoverNext(m, rest));
    case HardTimer(r, leg) => FinalizeNews(s, r, Timeout, HARD_TIMEOUT_TEXT, false);
    case QuestionTimer(r) => FinalizeNews(s, r, Timeout, QUESTION_TIMEOUT_TEXT, false);
    case OutcomeRetry =>
      DeliverAllKeeps(s.(outcomeTimer := None), s.finished);
      SameFile(s, Continue(s, t, task, o));
    case QueueRetry =>
      RefillNews(s.(queueTimer := None));
      After(s, s.(queueTimer := None), Continue(s, t, task, o));
  }

  lemma AdmitNews(s: State)
    ensures NoNews(s, Admit(s))
  {
    hide Persist;
    var s1 := s.Put(s.nextRun, FRESH_RUN).(nextRun := s.nextRun + 1);
    PersistNews(s1.(queue := s1.queue + [s.nextRun]));
    After(s, s1.(queue := s1.queue + [s.nextRun]), Persist(s1.(queue := s1.queue + [s.nextRun])));
    SameFile(s, StartDispatch(s1, s.nextRun, true));
  }

  lemma GrantNews(s: State, r: RunId, spawned: bool)
    ensures NoNews(s, StartSucceeded(s, r, spawned))
  {
    hide SpawnLeg;
    SpawnNews(GoLive(s, r), r, false, spawned);
    After(s, GoLive(s, r), StartSucceeded(s, r, spawned));
  }

  lemma AskedNews(s: State, r: RunId, anchor: string)
    ensures NoNews(s, Asked(s, r, anchor))
  {
    hide Persist;
    PutPersistNews(s, r, s.Get(r).(anchor := Some(anchor)));
  }

  lemma MarkNews(s: State, r: RunId, accepted: bool)
    ensures NoNews(s, if accepted then Delivered(s, r) else ScheduleOutcomeRetry(s))
  {
    hide Persist;
    PutPersistNews(s, r, s.Get(r).(delivered := true));
    SameFile(s, ScheduleOutcomeRetry(s));
  }

  lemma ResumeNews(s: State, r: RunId, spawned: bool)
    ensures NoNews(s, ResumeParked(s, r, spawned))
  {
    hide SpawnLeg;
    SpawnNews(Unpark(s, r), r, true, spawned);
    After(s, Unpark(s, r), ResumeParked(s, r, spawned));
  }

  /** One event, crashes and boots included, from any state: only what is claimed becomes done. */
  lemma ClaimStep(s: State, e: Event)
    ensures OnlyClaimed(s, e, Next(s, e))
  {
    hide Continue, Stop, StopAll, Recover, Restart, ResumeParked;
    match e
    case Fire(t, o) =>
      if t in s.tasks && Fits(s.tasks[t], o) {
        if s.tasks[t].LegWait? { LegClaims(s, t, o); }
        else {
          OtherTaskNews(s.Drop(Some(t)), t, s.tasks[t], o);
          After(s, s.Drop(Some(t)), Next(s, e));
        }
      }
    case StopRun(r, text) => StopNews(s, r, text);
    case StopEverything => StopAllNews(s);
    case CallRecover => RecoverNews(s);
    case Crash => RestartNews(s);
    case Answer(r, spawned) => ResumeNews(s, r, spawned);
    case Steer(r, spawned) => ResumeNews(s, r, spawned);
    case Dispatch => SameFile(s, Next(s, e));
    case LeaseLost(r) => SameFile(s, Next(s, e));
    case DiskFault(b) => SameFile(s, Next(s, e));
  }

  // ---------------------------------------------------------------- whole runs

  ghost predicate ClaimedAt(s: State, es: seq<Event>, k: nat, x: RunId, words: Option<string>) {
    k < |es| && Claims(Execute(s, es[..k]), es[k], x, words)
  }

  lemma {:induction false} ClaimedBefore(s: State, es: seq<Event>, x: RunId, words: Option<string>)
    requires Shown(Execute(s, es), x, words) && !Shown(s, x, words)
    ensures exists k: nat :: ClaimedAt(s, es, k, x, words)
    decreases |es|
  {
    if es != [] {
      hide Next, Shown, Claims;
      var s1, rest := Next(s, es[0]), es[1..];
      ClaimStep(s, es[0]);
      if Shown(s1, x, words) {
        assert es[..0] == [];
        assert ClaimedAt(s, es, 0, x, words);
      } else {
        ClaimedBefore(s1, rest, x, words);
        var k: nat :| ClaimedAt(s1, rest, k, x, words);
        assert es[..k + 1][1..] == rest[..k];
        assert ClaimedAt(s, es, k + 1, x, words);
      }
    }
  }

  /**
   * No false success: after any events whatever, in memory or in the file, a run that is done has the
   * words of its own agent, which reported success with the browser tool attached at some moment before.
   */
  lemma NoFalseSuccess(cap: nat, es: seq<Event>, x: RunId, words: Option<string>)
    requires Shown(Execute(Init(cap), es), x, words)
    ensures exists k: nat :: ClaimedAt(Init(cap), es, k, x, words)
  {
    ClaimedBefore(Init(cap), es, x, words);
  }

  // --------------------------------------------------- a claim that was still to be proved

  /**
   * Exactly: after a crash and recovery a run is done if and only if the file says so, be it only because
   * some other run's write caught it between its claim and the proof of it; nobody verifies it any more,
   * and its outcome is reported as it stands.
   */
  lemma DoneAfterCrashIff(s: State, x: RunId)
    requires Delivery.RowsAgree(s.disk)
    ensures var after := Recover(Restart(s)).Get(x);
            && (after.phase.Done? <==> exists words :: Written(s.disk, x, words))
            && (after.phase.Done? ==> Row(x, after) in s.disk)
  {
    hide Recover, Restart;
    Recovery.RestartSafety(s);
    Recovery.SurvivesOnDisk(s, x);
    var after := Recover(Restart(s));
    if words :| Written(s.disk, x, words) {
      var i :| 0 <= i < |s.disk| && s.disk[i].id == x && s.disk[i].run.phase.Done? && s.disk[i].run.result == words;
      assert s.disk[i] in s.disk;
    }
    if after.Get(x).phase.Done? {
      assert x in after.runs;
      var i :| 0 <= i < |s.disk| && s.disk[i].id == x;
      assert s.disk[i] in s.disk && after.Get(x) == Recovery.RecoveredRun(s.disk[i].run);
      assert Written(s.disk, x, s.disk[i].run.result);
      assert s.disk[i] == Row(x, after.Get(x));
    }
  }
}
