/**
 * What every step does to queue, starting and live, and what it writes: proved for all enabled events,
 * stale screenshots included, because none of it looks at phases or history.
 */
module SchedulerMoves {
  import opened Wrappers
  import opened SchedulerState
  import opened SchedulerSteps
  import opened SchedulerEffects

  ghost predicate Waits(s: State, r: RunId) {
    r in s.queue || r in s.starting
  }

  ghost predicate InLanes(s: State, r: RunId) {
    Waits(s, r) || r in s.live
  }

  predicate StartTask(task: Task) {
    task.Acquiring? || task.Unwinding?
  }

  predicate SameStart(a: Task, b: Task) {
    StartTask(a) && StartTask(b) && a.run == b.run
  }

  /** A start that `maybeStartNext` took from the queue. */
  predicate QueuedStart(task: Task, r: RunId) {
    StartTask(task) && task.run == r && !task.immediate
  }

  /** The run waits in the queue, or its start came from there. */
  ghost predicate FromQueue(s: State, r: RunId) {
    r in s.queue || exists t :: t in s.tasks && QueuedStart(s.tasks[t], r)
  }

  // ------------------------------------------------------------- the lanes

  ghost predicate Disjoint(s: State) {
    && (forall r: RunId :: r in s.queue ==> r !in s.starting && r !in s.live)
    && (forall r: RunId :: r in s.starting ==> r !in s.live)
  }

  /** Each pending start belongs to a starting run, and each run has at most one. */
  ghost predicate StartsOk(s: State) {
    && (forall t :: t in s.tasks && StartTask(s.tasks[t]) ==> s.tasks[t].run in s.starting)
    && (forall t, u :: t in s.tasks && u in s.tasks && SameStart(s.tasks[t], s.tasks[u]) ==> t == u)
  }

  ghost predicate LaneInv(s: State) {
    && Distinct(s.queue) && Distinct(s.starting) && Distinct(s.live) && Disjoint(s)
    && 1 <= s.cap && s.Busy() <= s.cap
    && (forall r: RunId :: r in s.queue || r in s.starting || r in s.live ==> r < s.nextRun)
    && StartsOk(s)
    && (s.recovered ==> s.orphans == [])
  }

  // ----------------------------------------------------------- the relation

  ghost predicate NothingWritten(s: State, s': State) {
    && s'.disk == s.disk
    && (forall r: RunId :: r in s'.queue || r in s'.starting ==> r in s.queue || r in s.starting)
    && (!s.diskBroken ==> NothingNew(s, s'))
  }

  /** Nothing comes to need a row. */
  ghost predicate NothingNew(s: State, s': State) {
    && (forall r: RunId :: FromQueue(s', r) ==> FromQueue(s, r))
    && (forall r: RunId :: r in s'.live ==> r in s.live)
    && (forall r: RunId :: r in s'.finished ==> r in s.finished)
  }

  ghost predicate AllRecorded(s: State) {
    forall r: RunId :: r in s.queue || r in s.starting || r in s.live || r in s.finished ==> OnDisk(s.disk, r)
  }

  /**
   * Lanes stay sound, no earlier run comes back into them, and the file either is as it was, with
   * nothing new that needs a row, or names every run.
   */
  ghost predicate Moves(s: State, s': State) {
    && s'.nextRun == s.nextRun && s.writes <= s'.writes && s'.diskBroken == s.diskBroken
    && (s.recovered ==> s'.recovered) && (s.diskBroken ==> s'.writes == s.writes)
    && (LaneInv(s) ==> LaneInv(s'))
    && (forall r: RunId :: r in s'.queue || r in s'.starting || r in s'.live ==> InLanes(s, r))
    && (if s'.writes == s.writes then NothingWritten(s, s') else AllRecorded(s'))
  }

  lemma MovesTrans(s: State, t: State, u: State)
    requires Moves(s, t) && Moves(t, u)
    ensures Moves(s, u)
  {
  }

  /** Nothing enters or leaves a lane; a write names every run. */
  ghost predicate Calm(s: State, s': State) {
    && s'.queue == s.queue && s'.starting == s.starting && s'.live == s.live && s'.cap == s.cap
    && s'.nextRun == s.nextRun && s'.diskBroken == s.diskBroken
    && s'.recovered == s.recovered && s'.orphans == s.orphans
    && (forall t :: t in s'.tasks && StartTask(s'.tasks[t]) ==> t in s.tasks && s'.tasks[t] == s.tasks[t])
    && s.writes <= s'.writes && (s.diskBroken ==> s'.writes == s.writes)
    && (if s'.writes == s.writes then s'.disk == s.disk && (!s.diskBroken ==> FinishedWithin(s, s')) else AllRecorded(s'))
  }

  ghost predicate FinishedWithin(s: State, s': State) {
    forall r: RunId :: r in s'.finished ==> r in s.finished
  }

  /** ... and neither leases nor the reasons not to refill lanes change. */
  ghost predicate Still(s: State, s': State) {
    Calm(s, s') && s'.leases == s.leases && s'.queueTimer == s.queueTimer && s'.stopping == s.stopping
  }

  lemma CalmTrans(s: State, t: State, u: State)
    requires Calm(s, t) && Calm(t, u)
    ensures Calm(s, u)
    ensures Still(s, t) && Still(t, u) ==> Still(s, u)
  {
    if u.writes > s.writes {
      if u.writes == t.writes { assert AllRecorded(t); }
    }
  }

  lemma CalmMoves(s: State, s': State)
    requires Calm(s, s')
    ensures Moves(s, s')
  {
    forall r | FromQueue(s', r) ensures FromQueue(s, r) {
      if r !in s'.queue {
        var t :| t in s'.tasks && QueuedStart(s'.tasks[t], r);
        assert t in s.tasks && QueuedStart(s.tasks[t], r);
      }
    }
  }

  // ----------------------------------------------------------- calm stretches

  /** Records, history and tasks other than starts may differ. */
  ghost predicate Level(s: State, s1: State) {
    && s1.queue == s.queue && s1.starting == s.starting && s1.live == s.live && s1.cap == s.cap
    && s1.nextRun == s.nextRun && s1.diskBroken == s.diskBroken && s1.disk == s.disk && s1.writes == s.writes
    && s1.leases == s.leases && s1.queueTimer == s.queueTimer && s1.stopping == s.stopping
    && (forall t :: t in s1.tasks && StartTask(s1.tasks[t]) ==> t in s.tasks && s1.tasks[t] == s.tasks[t])
  }

  lemma PersistRecords(s: State)
    ensures Level(s, Persist(s).(disk := s.disk, writes := s.writes))
    ensures Persist(s).recovered == s.recovered && Persist(s).orphans == s.orphans
    ensures !s.diskBroken ==> Persist(s).writes == s.writes + 1 && AllRecorded(Persist(s))
    ensures s.diskBroken ==> Persist(s).writes == s.writes && Persist(s).disk == s.disk
  {
    PersistKeeps(s);
    if !s.diskBroken {
      var s' := Persist(s);
      var ids := Recorded(s');
      forall r: RunId | r in s'.queue || r in s'.starting || r in s'.live || r in s'.finished ensures OnDisk(s'.disk, r) {
        assert r in ids;
        var i :| 0 <= i < |ids| && ids[i] == r;
        assert s'.disk[i].id == r;
      }
    }
  }

  /** Whatever changes in records and history is calm once it is written. */
  lemma WriteStill(s: State, s1: State)
    requires Level(s, s1) && s1.recovered == s.recovered && s1.orphans == s.orphans
    ensures Still(s, Persist(s1))
  {
    hide Persist, AllRecorded;
    PersistRecords(s1);
  }

  lemma AddCalm(s: State, task: Task)
    requires !StartTask(task)
    ensures Still(s, s.Add(task))
  {
  }

  lemma DropCalm(s: State, t: Option<TaskId>)
    ensures Still(s, s.Drop(t))
  {
  }

  lemma PutCalm(s: State, r: RunId, run: Run)
    ensures Still(s, s.Put(r, run))
  {
  }

  lemma SettleCalm(s: State, r: RunId)
    ensures Still(s, Settle(s, r))
  {
    hide Persist, AllRecorded;
    var s1 := s.(finished := s.finished + [r]);
    WriteStill(s, s1);
    AddCalm(Persist(s1), Delivering(r));
    CalmTrans(s, Persist(s1), Settle(s, r));
  }

  lemma SettleQueuedCalm(s: State, r: RunId, final: Phase, text: string)
    ensures Still(s, SettleQueued(s, r, final, text))
  {
    var s1 := s.Put(r, s.Get(r).(phase := final, result := Some(text)));
    SettleCalm(s1, r);
    CalmTrans(s, s1, Settle(s1, r));
  }

  lemma DeliveredCalm(s: State, r: RunId)
    ensures Still(s, Delivered(s, r))
  {
    WriteStill(s, s.Put(r, s.Get(r).(delivered := true)));
  }

  lemma {:induction false} DeliverAllCalm(s: State, rs: seq<RunId>)
    ensures Still(s, DeliverAll(s, rs))
    decreases |rs|
  {
    if rs != [] {
      var s1 := if s.Get(rs[0]).delivered then s else s.Add(Delivering(rs[0]));
      DeliverAllCalm(s1, rs[1..]);
      CalmTrans(s, s1, DeliverAll(s1, rs[1..]));
    }
  }

  lemma {:induction false} SettleAllCalm(s: State, rs: seq<RunId>)
    ensures Still(s, SettleAll(s, rs))
    decreases |rs|
  {
    if rs != [] {
      var s1 := MarkRestart(s, rs[0]);
      var s2 := SettleQueued(s1, rs[0], Cancelled, RESTART_TEXT);
      SettleQueuedCalm(s1, rs[0], Cancelled, RESTART_TEXT);
      CalmTrans(s, s1, s2);
      SettleAllCalm(s2, rs[1..]);
      CalmTrans(s, s2, SettleAll(s2, rs[1..]));
    }
  }

  lemma {:induction false} AdoptLevel(s: State, rs: seq<RunId>)
    ensures Level(s, Adopt(s, rs)) && Adopt(s, rs).orphans == s.orphans
    decreases |rs|
  {
    if rs != [] {
      var s1 := s.Put(rs[0], Orphaned(s.Get(rs[0])));
      AdoptLevel(s1.(finished := s1.finished + [rs[0]]), rs[1..]);
    }
  }

  lemma ConcludeCalm(s: State, r: RunId, final: Phase, text: string)
    ensures Still(s, Conclude(s, r, final, text))
  {
    hide AllRecorded;
    var s1 := s.Put(r, s.Get(r).(phase := final, result := Some(text)));
    var s2 := s1.Drop(s1.Get(r).hardTimer);
    var s3 := s2.Drop(s1.Get(r).questionTimer);
    assert Still(s, s1);
    DropCalm(s1, s1.Get(r).hardTimer);
    CalmTrans(s, s1, s2);
    DropCalm(s2, s1.Get(r).questionTimer);
    CalmTrans(s, s2, s3);
  }

  lemma RelaunchCalm(s: State, r: RunId)
    ensures Still(s, Relaunch(s, r))
  {
    WriteStill(s, s.Put(r, s.Get(r).(phase := Running, question := None, anchor := None)));
  }

  lemma ParkCalm(s: State, r: RunId, text: string)
    ensures Still(s, Park(s, r, text))
  {
    var s1 := s.Add(QuestionTimer(r));
    var s2 := s1.Put(r, s1.Get(r).(phase := Waiting, question := Some(text), questionTimer := Some(s.nextTask)));
    WriteStill(s, s2);
    AddCalm(Persist(s2), Asking(r));
    CalmTrans(s, Persist(s2), Park(s, r, text));
  }

  lemma AskedCalm(s: State, r: RunId, anchor: string)
    ensures Still(s, Asked(s, r, anchor))
  {
    WriteStill(s, s.Put(r, s.Get(r).(anchor := Some(anchor))));
  }

  // ------------------------------------------------------------- lane moves

  /** No start of the run is pending. */
  ghost predicate NoStartOf(s: State, r: RunId) {
    forall t :: t in s.tasks && StartTask(s.tasks[t]) ==> s.tasks[t].run != r
  }

  lemma HeadStarts(s: State)
    requires s.queue != [] && s.Busy() < s.cap
    ensures Moves(s, StartDispatch(s.(queue := s.queue[1..]), s.queue[0], false))
  {
    var r, s' := s.queue[0], StartDispatch(s.(queue := s.queue[1..]), s.queue[0], false);
    assert s.queue == [r] + s.queue[1..];
    forall x | FromQueue(s', x) ensures FromQueue(s, x) {
      if x !in s'.queue {
        var t :| t in s'.tasks && QueuedStart(s'.tasks[t], x);
        if t != s.nextTask { assert t in s.tasks && QueuedStart(s.tasks[t], x); }
      }
    }
    if LaneInv(s) { HeadStartsInv(s); }
  }

  lemma HeadStartsInv(s: State)
    requires LaneInv(s) && s.queue != [] && s.Busy() < s.cap
    ensures LaneInv(StartDispatch(s.(queue := s.queue[1..]), s.queue[0], false))
  {
    var r, s' := s.queue[0], StartDispatch(s.(queue := s.queue[1..]), s.queue[0], false);
    assert s.queue == [r] + s.queue[1..] && r in s.queue && r !in s.starting;
    assert s'.starting == s.starting + [r];
    assert r !in s.queue[1..] by { forall j | 1 <= j < |s.queue| ensures s.queue[j] != r { } }
    assert forall t :: t in s'.tasks && t != s.nextTask ==> t in s.tasks && s'.tasks[t] == s.tasks[t];
  }

  lemma {:induction false} FillMoves(s: State)
    ensures Moves(s, FillLanes(s))
    decreases |s.queue|
  {
    if s.queue != [] && s.Busy() < s.cap {
      var s1 := StartDispatch(s.(queue := s.queue[1..]), s.queue[0], false);
      HeadStarts(s);
      FillMoves(s1);
      MovesTrans(s, s1, FillLanes(s1));
    } else {
      CalmMoves(s, s);
    }
  }

  lemma RefillMoves(s: State, n: State)
    requires Moves(s, n)
    ensures Moves(s, MaybeStartNext(n))
  {
    if !n.stopping {
      FillMoves(n);
      MovesTrans(s, n, FillLanes(n));
    }
  }

  /** A lane is given back. */
  lemma LeaveLiveMoves(s: State, r: RunId)
    ensures Moves(s, s.(live := Without(s.live, r)))
  {
    var s' := s.(live := Without(s.live, r));
    if LaneInv(s) { WithoutDistinct(s.live, r); }
    assert forall x :: FromQueue(s', x) ==> FromQueue(s, x);
  }

  lemma LeaveQueueMoves(s: State, r: RunId)
    ensures Moves(s, s.(queue := Without(s.queue, r)))
  {
    var s' := s.(queue := Without(s.queue, r));
    if LaneInv(s) { WithoutDistinct(s.queue, r); }
    assert forall x :: FromQueue(s', x) ==> FromQueue(s, x);
  }

  lemma FinalizeEndMoves(s: State, r: RunId, final: Phase, captureProof: bool, proofs: nat)
    ensures Moves(s, FinalizeEnd(s, r, final, captureProof, proofs))
  {
    var s1 := s.Put(r, Verified(s.Get(r), final, captureProof, proofs));
    var s2 := s1.(live := Without(s1.live, r));
    PutCalm(s, r, Verified(s.Get(r), final, captureProof, proofs));
    CalmMoves(s, s1);
    LeaveLiveMoves(s1, r);
    SettleCalm(s2, r);
    CalmMoves(s2, Settle(s2, r));
    MovesTrans(s, s1, s2);
    MovesTrans(s, s2, Settle(s2, r));
    RefillMoves(s, Settle(s2, r));
  }

  lemma FinalizeMoves(s: State, r: RunId, final: Phase, text: string, captureProof: bool)
    ensures Moves(s, Finalize(s, r, final, text, captureProof))
  {
    if s.Get(r).phase.Active() {
      var s1 := Conclude(s, r, final, text);
      ConcludeCalm(s, r, final, text);
      CalmMoves(s, s1);
      if r in s1.leases {
        AddCalm(s1, Releasing(r, final, captureProof));
        CalmTrans(s, s1, s1.Add(Releasing(r, final, captureProof)));
        CalmMoves(s, s1.Add(Releasing(r, final, captureProof)));
      } else {
        FinalizeEndMoves(s1, r, final, captureProof, s1.Get(r).proofFiles);
        MovesTrans(s, s1, Finalize(s, r, final, text, captureProof));
      }
    } else {
      CalmMoves(s, s);
    }
  }

  lemma ExecuteLegMoves(s: State, r: RunId, attempt: nat, resumed: bool, spawned: bool)
    ensures Moves(s, ExecuteLeg(s, r, attempt, resumed, spawned))
  {
    if spawned { CalmMoves(s, ExecuteLeg(s, r, attempt, resumed, spawned)); }
    else { FinalizeMoves(s, r, Error, SPAWN_TEXT, false); }
  }

  lemma SpawnLegMoves(s: State, r: RunId, resumed: bool, spawned: bool)
    ensures Moves(s, SpawnLeg(s, r, resumed, spawned))
  {
    var s1 := Relaunch(s, r);
    RelaunchCalm(s, r);
    CalmMoves(s, s1);
    ExecuteLegMoves(s1, r, 1, resumed, spawned);
    MovesTrans(s, s1, SpawnLeg(s, r, resumed, spawned));
  }

  lemma ResumeParkedMoves(s: State, r: RunId, spawned: bool)
    ensures Moves(s, ResumeParked(s, r, spawned))
  {
    CalmMoves(s, Unpark(s, r));
    SpawnLegMoves(Unpark(s, r), r, true, spawned);
    MovesTrans(s, Unpark(s, r), ResumeParked(s, r, spawned));
  }

  lemma LegDoneMoves(s: State, t: TaskId, leg: Task, attached: bool, o: LegResult, respawned: bool)
    requires leg.LegWait?
    ensures Moves(s, LegDone(s, t, leg, attached, o, respawned))
  {
    if s.Get(leg.run).child != Some(t) || !s.Get(leg.run).phase.Running? {
      CalmMoves(s, s);
    } else {
      var s1 := Reap(s, leg.run);
      CalmMoves(s, s1);
      AfterLegMoves(s1, leg, attached, o, respawned);
      MovesTrans(s, s1, AfterLeg(s1, leg, attached, o, respawned));
    }
  }

  lemma HonourMoves(s: State, r: RunId, o: LegResult)
    ensures Moves(s, ApplyLegOutcome(s, r, o))
  {
    match o
    case Broken(text) => FinalizeMoves(s, r, Error, text, false);
    case NeedsInput(q) =>
      AddCalm(s, Capturing(r, q));
      CalmMoves(s, s.Add(Capturing(r, q)));
      FinalizeMoves(s, r, Error, NO_QUESTION_TEXT, false);
    case Failed(text) => FinalizeMoves(s, r, Error, text, false);
    case Completed(text, proof) => FinalizeMoves(s, r, Done, text, proof);
  }

  lemma AfterLegMoves(s: State, leg: Task, attached: bool, o: LegResult, respawned: bool)
    requires leg.LegWait?
    ensures Moves(s, AfterLeg(s, leg, attached, o, respawned))
  {
    hide Moves, ApplyLegOutcome, Finalize, ExecuteLeg;
    if attached { HonourMoves(s, leg.run, o); }
    else if leg.attempt >= LEG_MAX_ATTEMPTS { FinalizeMoves(s, leg.run, Error, ATTACH_TEXT, false); }
    else { ExecuteLegMoves(s, leg.run, leg.attempt + 1, leg.resumed, respawned); }
  }

  // ------------------------------------------------------------------ starts

  lemma LeaveStartingMoves(s: State, r: RunId)
    requires NoStartOf(s, r)
    ensures Moves(s, s.(starting := Without(s.starting, r)))
  {
    var s' := s.(starting := Without(s.starting, r));
    if LaneInv(s) { WithoutDistinct(s.starting, r); }
    assert forall x :: FromQueue(s', x) ==> FromQueue(s, x);
  }

  /** A run whose start is over goes live: its lane is held on. */
  lemma GoLiveInv(s: State, r: RunId)
    requires LaneInv(s) && NoStartOf(s, r) && r in s.starting
    ensures LaneInv(GoLive(s, r))
  {
    WithoutDistinct(s.starting, r);
    assert r !in s.live && GoLive(s, r).live == s.live + [r];
  }

  /** ... and is written as it gets its first leg. */
  lemma FirstLegMoves(s: State, r: RunId)
    requires NoStartOf(s, r) && r in s.starting
    ensures Moves(s, Relaunch(GoLive(s, r), r))
  {
    hide Persist, AllRecorded, LaneInv;
    var s1 := GoLive(s, r);
    var s2 := s1.Put(r, s1.Get(r).(phase := Running, question := None, anchor := None));
    PersistRecords(s2);
    RelaunchCalm(s1, r);
    CalmMoves(s1, Relaunch(s1, r));
    if LaneInv(s) { GoLiveInv(s, r); }
  }

  lemma StartSucceededMoves(s: State, r: RunId, spawned: bool)
    requires NoStartOf(s, r) && r in s.starting
    ensures Moves(s, StartSucceeded(s, r, spawned))
  {
    hide Moves, ExecuteLeg, GoLive, Relaunch;
    FirstLegMoves(s, r);
    ExecuteLegMoves(Relaunch(GoLive(s, r), r), r, 1, false, spawned);
    MovesTrans(s, Relaunch(GoLive(s, r), r), StartSucceeded(s, r, spawned));
  }

  /** A start that lost the race waits again, at the tail or, if it came from the queue, at the head. */
  function Requeued(s: State, r: RunId, immediate: bool): State {
    s.(starting := Without(s.starting, r), queue := if immediate then s.queue + [r] else [r] + s.queue)
  }

  /** Every other waiting run is written with it. */
  lemma RequeueMoves(s: State, r: RunId, immediate: bool)
    requires NoStartOf(s, r) && r in s.starting
    ensures Moves(s, Persist(Requeued(s, r, immediate)))
  {
    hide Persist, AllRecorded, LaneInv;
    var s2 := Requeued(s, r, immediate);
    PersistRecords(s2);
    WriteStill(s2, s2);
    CalmMoves(s2, Persist(s2));
    if LaneInv(s) { RequeueKeepsLanes(s, r, immediate); }
    assert forall x: RunId :: x in s2.queue || x in s2.starting ==> Waits(s, x);
  }

  lemma RequeueKeepsLanes(s: State, r: RunId, immediate: bool)
    requires LaneInv(s) && NoStartOf(s, r) && r in s.starting
    ensures LaneInv(Requeued(s, r, immediate))
  {
    var s' := Requeued(s, r, immediate);
    WithoutDistinct(s.starting, r);
    assert r !in s.queue && r !in s.live;
    assert Distinct(s'.queue) && |s'.starting| == |s.starting| - 1;
    assert forall x: RunId :: x in s'.queue <==> x in s.queue || x == r;
  }

  lemma RequeuedStartMoves(s: State, r: RunId, immediate: bool)
    requires NoStartOf(s, r) && r in s.starting
    ensures Moves(s, StartFailed(s, r, immediate, true))
  {
    hide AllRecorded, Persist;
    var s2 := Persist(Requeued(s, r, immediate));
    RequeueMoves(s, r, immediate);
    CalmMoves(s2, ScheduleQueueRetry(s2));
    MovesTrans(s, s2, ScheduleQueueRetry(s2));
  }

  lemma FailedStartMoves(s: State, r: RunId, immediate: bool)
    requires NoStartOf(s, r)
    ensures Moves(s, StartFailed(s, r, immediate, false))
  {
    var s1 := s.(starting := Without(s.starting, r));
    var s2 := SettleQueued(s1, r, Error, START_TEXT);
    LeaveStartingMoves(s, r);
    SettleQueuedCalm(s1, r, Error, START_TEXT);
    CalmMoves(s1, s2);
    MovesTrans(s, s1, s2);
    RefillMoves(s, s2);
  }

  lemma StartFailedMoves(s: State, r: RunId, immediate: bool, race: bool)
    requires NoStartOf(s, r) && r in s.starting
    ensures Moves(s, StartFailed(s, r, immediate, race))
  {
    if race { RequeuedStartMoves(s, r, immediate); } else { FailedStartMoves(s, r, immediate); }
  }

  lemma JoinQueue(s: State, s2: State)
    requires LaneInv(s) && s2.queue == s.queue + [s.nextRun] && s2.nextRun == s.nextRun + 1
    requires s2.starting == s.starting && s2.live == s.live && s2.cap == s.cap && s2.tasks == s.tasks
    requires s2.recovered == s.recovered && s2.orphans == s.orphans
    ensures LaneInv(s2)
  {
    assert s.nextRun !in s.queue && s.nextRun !in s.starting && s.nextRun !in s.live;
    assert s2.Busy() == s.Busy();
  }

  /** A new run is queued, and written with everything else that waits. */
  lemma QueuedAdmission(s: State)
    requires s.Busy() >= s.cap || s.queue != []
    ensures var s' := Admit(s);
            && s'.queue == s.queue + [s.nextRun] && s'.starting == s.starting && s'.live == s.live
            && s'.nextRun == s.nextRun + 1 && s'.diskBroken == s.diskBroken && s.writes <= s'.writes
            && s'.recovered == s.recovered
            && (LaneInv(s) ==> LaneInv(s'))
            && (if s'.writes == s.writes then s.diskBroken && s'.disk == s.disk else AllRecorded(s'))
  {
    var s1 := s.Put(s.nextRun, FRESH_RUN).(nextRun := s.nextRun + 1);
    var s2 := s1.(queue := s1.queue + [s.nextRun]);
    hide Persist, LaneInv;
    PersistRecords(s2);
    WriteStill(s2, s2);
    CalmMoves(s2, Persist(s2));
    if LaneInv(s) { JoinQueue(s, s2); }
  }

  /** A new run starts at once, with nothing written. */
  lemma ImmediateAdmission(s: State)
    requires s.Busy() < s.cap && s.queue == []
    ensures var s' := Admit(s);
            && s'.queue == [] && s'.starting == Insert(s.starting, s.nextRun) && s'.live == s.live
            && s'.nextRun == s.nextRun + 1 && s'.diskBroken == s.diskBroken && s'.writes == s.writes && s'.disk == s.disk
            && s'.finished == s.finished && s'.recovered == s.recovered
            && (LaneInv(s) ==> LaneInv(s'))
            && (forall x: RunId :: FromQueue(s', x) ==> FromQueue(s, x))
  {
    var s' := Admit(s);
    forall x: RunId | FromQueue(s', x) ensures FromQueue(s, x) {
      var t :| t in s'.tasks && QueuedStart(s'.tasks[t], x);
      assert t != s.nextTask && t in s.tasks && QueuedStart(s.tasks[t], x);
    }
    if LaneInv(s) {
      assert s.nextRun !in s.starting;
      assert forall t :: t in s'.tasks && t != s.nextTask ==> t in s.tasks && s'.tasks[t] == s.tasks[t];
    }
  }

  // ------------------------------------------------------------ other events

  lemma {:induction false} RecoverNextMoves(s: State, rest: seq<RunId>)
    ensures Moves(s, RecoverNext(s, rest))
    decreases |rest|
  {
    CalmMoves(s, s);
    if rest == [] { RefillMoves(s, s); }
    else if s.Get(rest[0]).delivered { RecoverNextMoves(s, rest[1..]); }
    else { CalmMoves(s, s.Add(Recovering(rest[0], rest[1..]))); }
  }

  lemma StopMoves(s: State, r: RunId, text: string)
    ensures Moves(s, Stop(s, r, text))
  {
    CalmMoves(s, s);
    if r in s.queue {
      var s1 := s.(queue := Without(s.queue, r));
      LeaveQueueMoves(s, r);
      SettleQueuedCalm(s1, r, Cancelled, text);
      CalmMoves(s1, Stop(s, r, text));
      MovesTrans(s, s1, Stop(s, r, text));
    } else if r in s.live {
      var s1 := s.Put(r, s.Get(r).(child := None));
      CalmMoves(s, s1);
      FinalizeMoves(s1, r, Cancelled, text, false);
      MovesTrans(s, s1, Stop(s, r, text));
    }
  }

  lemma {:induction false} FinalizeAllMoves(s: State, rs: seq<RunId>)
    ensures Moves(s, FinalizeAll(s, rs))
    decreases |rs|
  {
    if rs == [] {
      CalmMoves(s, s);
    } else {
      var s1 := MarkRestart(s, rs[0]);
      var s2 := Finalize(s1, rs[0], Cancelled, RESTART_TEXT, false);
      CalmMoves(s, s1);
      FinalizeMoves(s1, rs[0], Cancelled, RESTART_TEXT, false);
      MovesTrans(s, s1, s2);
      FinalizeAllMoves(s2, rs[1..]);
      MovesTrans(s, s2, FinalizeAll(s2, rs[1..]));
    }
  }

  lemma EmptyQueueMoves(s: State)
    ensures Moves(s, s.(queue := []))
  {
    assert forall x: RunId :: FromQueue(s.(queue := []), x) ==> FromQueue(s, x);
  }

  lemma QuietCalm(s: State)
    ensures Calm(s, Quiet(s))
  {
  }

  lemma CancelQueueMoves(s: State)
    ensures Moves(s, SettleAll(Quiet(s).(queue := []), s.queue))
  {
    var s1 := Quiet(s).(queue := []);
    QuietCalm(s);
    CalmMoves(s, Quiet(s));
    EmptyQueueMoves(Quiet(s));
    MovesTrans(s, Quiet(s), s1);
    SettleAllCalm(s1, s.queue);
    CalmMoves(s1, SettleAll(s1, s.queue));
    MovesTrans(s, s1, SettleAll(s1, s.queue));
  }

  lemma StopAllMoves(s: State)
    ensures Moves(s, StopAll(s))
  {
    hide Moves, SettleAll, FinalizeAll;
    var s2 := SettleAll(Quiet(s).(queue := []), s.queue);
    CancelQueueMoves(s);
    FinalizeAllMoves(s2, s2.live);
    MovesTrans(s, s2, FinalizeAll(s2, s2.live));
  }

  /** The history takes in the orphans and is written. */
  lemma AdoptedMoves(s: State)
    ensures var s1 := Adopt(s.(orphans := []), s.orphans).(recovered := true); Moves(s, Persist(s1))
  {
    hide Persist, Adopt, AllRecorded;
    var s1 := Adopt(s.(orphans := []), s.orphans).(recovered := true);
    AdoptLevel(s.(orphans := []), s.orphans);
    PersistRecords(s1);
    var s' := Persist(s1);
    forall r: RunId | FromQueue(s', r) ensures FromQueue(s, r) {
      if r !in s'.queue {
        var t :| t in s'.tasks && QueuedStart(s'.tasks[t], r);
        assert t in s.tasks && QueuedStart(s.tasks[t], r);
      }
    }
  }

  lemma RecoverMoves(s: State)
    ensures Moves(s, Recover(s))
  {
    hide Moves, Persist, Adopt, RecoverNext;
    var s2 := Persist(Adopt(s.(orphans := []), s.orphans).(recovered := true));
    AdoptedMoves(s);
    RecoverNextMoves(s2, s2.finished);
    MovesTrans(s, s2, Recover(s));
  }

  // --------------------------------------------------------------- each step

  /** A pending start ends: it goes live, is queued again, or fails. */
  predicate EndsStart(s: State, task: Task, o: Outcome) {
    StartTask(task) && Fits(task, o) && !o.GrantedThenFailed? && !(o.Refused? && task.run in s.leases)
  }

  lemma EndedStartMoves(s: State, t: TaskId, task: Task, o: Outcome)
    requires EndsStart(s, task, o) && NoStartOf(s, task.run) && task.run in s.starting
    ensures Moves(s, Continue(s, t, task, o))
  {
    var r := task.run;
    if o.Granted? {
      StartSucceededMoves(s, r, o.spawned);
    } else if o.Refused? {
      StartFailedMoves(s, r, task.immediate, o.race);
    } else {
      var s1 := Free(s, r, o.freed);
      CalmMoves(s, s1);
      StartFailedMoves(s1, r, task.immediate, task.race);
      MovesTrans(s, s1, Continue(s, t, task, o));
    }
  }

  /** The pending start `t` is replaced by another pending start of the same run and kind. */
  ghost predicate Renamed(s: State, s': State, t: TaskId, u: TaskId) {
    && t in s.tasks && u in s'.tasks && SameStart(s'.tasks[u], s.tasks[t]) && s'.tasks[u].immediate == s.tasks[t].immediate
    && forall v :: v in s'.tasks && v != u ==> v != t && v in s.tasks && s'.tasks[v] == s.tasks[v]
  }

  lemma RenamedMoves(s: State, s': State, t: TaskId, u: TaskId)
    requires Renamed(s, s', t, u)
    requires s'.queue == s.queue && s'.starting == s.starting && s'.live == s.live && s'.cap == s.cap
    requires s'.nextRun == s.nextRun && s'.diskBroken == s.diskBroken && s'.disk == s.disk && s'.writes == s.writes
    requires s'.finished == s.finished && s'.recovered == s.recovered && s'.orphans == s.orphans
    ensures Moves(s, s')
  {
    forall x: RunId | FromQueue(s', x) ensures FromQueue(s, x) {
      if x !in s.queue {
        var v :| v in s'.tasks && QueuedStart(s'.tasks[v], x);
        assert QueuedStart(s.tasks[if v == u then t else v], x);
      }
    }
    if LaneInv(s) { RenamedInv(s, s', t, u); }
  }

  lemma RenamedInv(s: State, s': State, t: TaskId, u: TaskId)
    requires LaneInv(s) && Renamed(s, s', t, u)
    requires s'.queue == s.queue && s'.starting == s.starting && s'.live == s.live && s'.cap == s.cap && s'.nextRun == s.nextRun
    requires s'.recovered == s.recovered && s'.orphans == s.orphans
    ensures LaneInv(s')
  {
    forall v, w | v in s'.tasks && w in s'.tasks && SameStart(s'.tasks[v], s'.tasks[w]) ensures v == w {
      var v0, w0 := if v == u then t else v, if w == u then t else w;
      assert SameStart(s.tasks[v0], s.tasks[w0]);
    }
  }

  /** Giving a half-taken lease back is the same start, still pending. */
  lemma UnwindMoves(s: State, t: TaskId, o: Outcome)
    requires t in s.tasks && StartTask(s.tasks[t]) && Fits(s.tasks[t], o) && !EndsStart(s, s.tasks[t], o)
    ensures Moves(s, Next(s, Fire(t, o)))
  {
    var task, s' := s.tasks[t], Next(s, Fire(t, o));
    assert s'.tasks == (s.tasks - {t})[s.nextTask := s'.tasks[s.nextTask]];
    RenamedMoves(s, s', t, s.nextTask);
  }

  lemma RunTaskMoves(s: State, t: TaskId, task: Task, o: Outcome)
    requires Fits(task, o) && (task.LegWait? || task.Capturing? || task.Asking? || task.Releasing? || task.RunTimer())
    ensures Moves(s, Continue(s, t, task, o))
  {
    hide LegDone, Park, Asked, Finalize, FinalizeEnd, AllRecorded, NothingNew;
    CalmMoves(s, s);
    match task
    case LegWait(r, attempt, resumed) => LegDoneMoves(s, t, task, o.attached, o.result, o.respawned);
    case Capturing(r, text) =>
      if o.Captured? { ParkCalm(s, r, text); CalmMoves(s, Park(s, r, text)); }
      else { FinalizeMoves(s, r, Error, ASK_TEXT, false); }
    case Asking(r) =>
      if o.Posted? { AskedCalm(s, r, o.anchor); CalmMoves(s, Asked(s, r, o.anchor)); }
      else { FinalizeMoves(s, r, Error, ASK_TEXT, false); }
    case Releasing(r, final, captureProof) =>
      var s1 := Free(s, r, o.freed);
      CalmMoves(s, s1);
      FinalizeEndMoves(s1, r, final, captureProof, o.proofs);
      MovesTrans(s, s1, Continue(s, t, task, o));
    case HardTimer(r, leg) => FinalizeMoves(s, r, Timeout, HARD_TIMEOUT_TEXT, false);
    case QuestionTimer(r) => FinalizeMoves(s, r, Timeout, QUESTION_TIMEOUT_TEXT, false);
  }

  lemma DeliveryMoves(s: State, r: RunId, accepted: bool)
    ensures Calm(s, if accepted then Delivered(s, r) else ScheduleOutcomeRetry(s))
  {
    if accepted { DeliveredCalm(s, r); }
  }

  lemma DaemonTaskMoves(s: State, t: TaskId, task: Task, o: Outcome)
    requires Fits(task, o) && (task.Delivering? || task.Recovering? || task.OutcomeRetry? || task.QueueRetry?)
    ensures Moves(s, Continue(s, t, task, o))
  {
    match task
    case Delivering(r) => DeliveryMoves(s, r, o.Accepted?); CalmMoves(s, Continue(s, t, task, o));
    case Recovering(r, rest) =>
      var s1 := if o.Accepted? then Delivered(s, r) else ScheduleOutcomeRetry(s);
      DeliveryMoves(s, r, o.Accepted?);
      CalmMoves(s, s1);
      RecoverNextMoves(s1, rest);
      MovesTrans(s, s1, RecoverNext(s1, rest));
    case OutcomeRetry =>
      var s1 := s.(outcomeTimer := None);
      DeliverAllCalm(s1, s1.finished);
      assert Calm(s, s1);
      CalmTrans(s, s1, DeliverAll(s1, s1.finished));
      CalmMoves(s, DeliverAll(s1, s1.finished));
    case QueueRetry =>
      CalmMoves(s, s.(queueTimer := None));
      RefillMoves(s, s.(queueTimer := None));
  }

  /** The step that admits a new run. */
  predicate Admits(s: State, e: Event) {
    e.Fire? && e.task in s.tasks && s.tasks[e.task].Admitting? && e.outcome == Validated(true)
  }

  lemma FireMoves(s: State, t: TaskId, o: Outcome)
    requires LaneInv(s) && t in s.tasks && Fits(s.tasks[t], o) && !Admits(s, Fire(t, o))
    ensures Moves(s, Next(s, Fire(t, o)))
  {
    var task, s0 := s.tasks[t], s.Drop(Some(t));
    DropCalm(s, Some(t));
    CalmMoves(s, s0);
    if StartTask(task) {
      if EndsStart(s, task, o) {
        EndedStartMoves(s0, t, task, o);
        MovesTrans(s, s0, Next(s, Fire(t, o)));
      } else {
        UnwindMoves(s, t, o);
      }
    } else if !task.Admitting? {
      if task.Delivering? || task.Recovering? || task.OutcomeRetry? || task.QueueRetry? { DaemonTaskMoves(s0, t, task, o); }
      else { RunTaskMoves(s0, t, task, o); }
      MovesTrans(s, s0, Next(s, Fire(t, o)));
    }
  }

  lemma {:induction false} IdsFrom(rows: seq<Row>, terminal: bool)
    ensures forall r :: r in Ids(rows, terminal) ==> OnDisk(rows, r)
  {
    if rows != [] {
      IdsFrom(rows[1..], terminal);
      assert forall i :: 0 <= i < |rows| - 1 ==> rows[1..][i] == rows[i + 1];
      forall r | r in Ids(rows, terminal) ensures OnDisk(rows, r) {
        if r in Ids(rows[1..], terminal) {
          var i :| 0 <= i < |rows[1..]| && rows[1..][i].id == r;
          assert rows[i + 1].id == r;
        } else {
          assert rows[0].id == r;
        }
      }
    }
  }

  /** A crash empties queue and lanes, and whatever is known afterwards comes from the file. */
  lemma CrashMoves(s: State)
    ensures var s' := Restart(s);
            && s'.queue == s'.starting == s'.live == [] && s'.tasks == map[] && s'.disk == s.disk
            && s'.nextRun == s.nextRun && s'.writes == s.writes && s'.diskBroken == s.diskBroken
            && (LaneInv(s) ==> LaneInv(s'))
            && (forall r :: r in s'.finished || r in s'.orphans ==> OnDisk(s'.disk, r))
  {
    IdsFrom(s.disk, true);
    IdsFrom(s.disk, false);
  }

  /** Every enabled step but an admission, a disk fault and a crash. */
  lemma StepMoves(s: State, e: Event)
    requires LaneInv(s) && Enabled(s, e) && !Admits(s, e) && !e.DiskFault? && !e.Crash?
    ensures Moves(s, Next(s, e))
  {
    CalmMoves(s, s);
    match e
    case Dispatch => AddCalm(s, Admitting); CalmMoves(s, s.Add(Admitting));
    case Answer(r, spawned) => ResumeParkedMoves(s, r, spawned);
    case Steer(r, spawned) => ResumeParkedMoves(s, r, spawned);
    case StopRun(r, text) => StopMoves(s, r, text);
    case StopEverything => StopAllMoves(s);
    case Fire(t, o) => FireMoves(s, t, o);
    case LeaseLost(r) => CalmMoves(s, s.(leases := s.leases - {r}));
    case CallRecover => RecoverMoves(s);
    case Crash =>
    case DiskFault(_) =>
  }
}
