/**
 * Lanes and the queue: leases, work conservation and first-in-first-out order, each with the exact
 * step that can break it, for all enabled events; and what becomes of a queue that is left behind.
 */
module SchedulerLanes {
  import opened Wrappers
  import opened SchedulerState
  import opened SchedulerSteps
  import opened SchedulerEffects
  import opened SchedulerVerdicts
  import opened SchedulerMoves
  import opened SchedulerCapacity
  import Delivery = SchedulerDelivery
  import Safety = SchedulerSafety

  // --------------------------------------------------------------- leases

  /** Every held lease belongs to a run that still occupies a lane. */
  ghost predicate LeasesOwned(s: State) {
    forall r :: r in s.leases ==> r in s.live || r in s.starting
  }

  /** Whoever holds a lane gives it up, and the release leaves the lease held. */
  predicate Leak(s: State, e: Event) {
    && e.Fire? && e.task in s.tasks && Fits(s.tasks[e.task], e.outcome)
    && (s.tasks[e.task].Unwinding? || (s.tasks[e.task].Releasing? && s.tasks[e.task].run in s.live))
    && !e.outcome.freed && s.tasks[e.task].run in s.leases
  }

  // ----------------------------------------------------- work conservation

  /** A waiting dispatch means full lanes, a retry, or shutdown. */
  ghost predicate WorkConserved(s: State) {
    s.queue == [] || s.Busy() >= s.cap || s.queueTimer.Some? || s.stopping
  }

  /** This is the start of a dispatch that was admitted straight into a free lane. */
  predicate ImmediateStart(task: Task) {
    (task.Acquiring? || task.Unwinding?) && task.immediate
  }

  /** An immediate start fails outright: its handler settles the run and does nothing else. */
  predicate FailsOutright(s: State, e: Event) {
    && e.Fire? && e.task in s.tasks && Fits(s.tasks[e.task], e.outcome)
    && ImmediateStart(s.tasks[e.task])
    && (s.tasks[e.task].Unwinding? ==> !s.tasks[e.task].race)
    && (s.tasks[e.task].Acquiring? ==> e.outcome == Refused(false) && s.tasks[e.task].run !in s.leases)
  }

  predicate Strands(s: State, e: Event) {
    FailsOutright(s, e) && s.queue != [] && s.queueTimer.None? && !s.stopping
  }

  // ------------------------------------------------------------------ FIFO

  ghost predicate Ascending(q: seq<RunId>) {
    forall i, j :: 0 <= i < j < |q| ==> q[i] < q[j]
  }

  /** The queue is in dispatch order, and nothing dispatched later holds a lane. */
  ghost predicate Fifo(s: State) {
    && Ascending(s.queue)
    && (forall x, q :: (x in s.live || x in s.starting) && q in s.queue ==> x < q)
  }

  /** A start that loses the lease race re-enters the queue. */
  predicate Requeues(s: State, e: Event) {
    && e.Fire? && e.task in s.tasks && Fits(s.tasks[e.task], e.outcome)
    && ((s.tasks[e.task].Acquiring? && e.outcome == Refused(true) && s.tasks[e.task].run !in s.leases)
        || (s.tasks[e.task].Unwinding? && s.tasks[e.task].race))
  }

  /** ... behind a younger dispatch, or with a younger run already holding a lane. */
  ghost predicate Overtakes(s: State, e: Event) {
    && Requeues(s, e)
    && var r := s.tasks[e.task].run;
       || (s.tasks[e.task].immediate && s.queue != [])
       || exists x :: (x in s.live || x in s.starting) && r < x
  }

  // ------------------------------------------------- the refill of lanes

  lemma {:induction false} FillLanesOrder(s: State)
    requires Fifo(s)
    ensures Fifo(FillLanes(s))
    decreases |s.queue|
  {
    if s.queue != [] && s.Busy() < s.cap {
      var s1 := StartDispatch(s.(queue := s.queue[1..]), s.queue[0], false);
      assert forall q :: q in s1.queue ==> q in s.queue && s.queue[0] < q;
      FillLanesOrder(s1);
    }
  }

  /** A refill conserves work and order, and takes no lane away. */
  lemma RefillLanes(n: State)
    ensures WorkConserved(MaybeStartNext(n))
    ensures Fifo(n) ==> Fifo(MaybeStartNext(n))
    ensures LeasesOwned(n) ==> LeasesOwned(MaybeStartNext(n))
    ensures MaybeStartNext(n).leases == n.leases && MaybeStartNext(n).live == n.live
    ensures forall x :: x in MaybeStartNext(n).starting ==> x in n.starting || x in n.queue
  {
    if !n.stopping {
      FillLanesMoves(n);
      Safety.FillLanesKeeps(n);
      if Fifo(n) { FillLanesOrder(n); }
    }
  }

  /** All three properties carry over from `s` to `s'`. */
  ghost predicate Carries(s: State, s': State) {
    && (LeasesOwned(s) ==> LeasesOwned(s'))
    && (WorkConserved(s) ==> WorkConserved(s'))
    && (Fifo(s) ==> Fifo(s'))
  }

  ghost predicate SameLanes(s: State, s': State) {
    && s'.queue == s.queue && s'.starting == s.starting && s'.live == s.live && s'.leases == s.leases
    && s'.cap == s.cap && s'.queueTimer == s.queueTimer && s'.stopping == s.stopping
  }

  lemma CarriesTrans(s: State, t: State, u: State)
    requires Carries(s, t) && Carries(t, u)
    ensures Carries(s, u)
  {
  }

  lemma SameCarries(s: State, s': State)
    requires SameLanes(s, s')
    ensures Carries(s, s')
  {
  }

  lemma StillCarries(s: State, s': State)
    requires Still(s, s')
    ensures Carries(s, s')
  {
    SameCarries(s, s');
  }

  /** A lane is given up without a lease, and the lanes are refilled. */
  lemma LaneFreed(s: State, n: State, r: RunId)
    requires n.live == Without(s.live, r) && n.queue == s.queue && n.starting == s.starting && n.leases == s.leases
    requires r !in s.leases
    ensures Carries(s, MaybeStartNext(n))
  {
    hide MaybeStartNext;
    RefillLanes(n);
  }

  // ------------------------------------------------------------ the steps

  lemma FinalizeEndCarries(s: State, r: RunId, final: Phase, captureProof: bool, proofs: nat)
    requires r !in s.leases
    ensures Carries(s, FinalizeEnd(s, r, final, captureProof, proofs))
  {
    hide Settle, MaybeStartNext, Carries, AllRecorded;
    var s2 := s.Put(r, Verified(s.Get(r), final, captureProof, proofs)).(live := Without(s.live, r));
    SettleCalm(s2, r);
    LaneFreed(s, Settle(s2, r), r);
  }

  lemma FinalizeCarries(s: State, r: RunId, final: Phase, text: string, captureProof: bool)
    ensures Carries(s, Finalize(s, r, final, text, captureProof))
  {
    hide Conclude, FinalizeEnd, Carries, AllRecorded;
    SameCarries(s, s);
    if s.Get(r).phase.Active() {
      var s1 := Conclude(s, r, final, text);
      ConcludeCalm(s, r, final, text);
      StillCarries(s, s1);
      if r in s1.leases {
        SameCarries(s, s1.Add(Releasing(r, final, captureProof)));
      } else {
        FinalizeEndCarries(s1, r, final, captureProof, s1.Get(r).proofFiles);
        CarriesTrans(s, s1, Finalize(s, r, final, text, captureProof));
      }
    }
  }

  lemma ExecuteLegCarries(s: State, r: RunId, attempt: nat, resumed: bool, spawned: bool)
    ensures Carries(s, ExecuteLeg(s, r, attempt, resumed, spawned))
  {
    hide Carries, Finalize;
    if spawned { SameCarries(s, ExecuteLeg(s, r, attempt, resumed, spawned)); }
    else { FinalizeCarries(s, r, Error, SPAWN_TEXT, false); }
  }

  lemma SpawnLegCarries(s: State, r: RunId, resumed: bool, spawned: bool)
    ensures Carries(s, SpawnLeg(s, r, resumed, spawned))
  {
    hide Carries, Relaunch, ExecuteLeg;
    RelaunchCalm(s, r);
    StillCarries(s, Relaunch(s, r));
    ExecuteLegCarries(Relaunch(s, r), r, 1, resumed, spawned);
    CarriesTrans(s, Relaunch(s, r), SpawnLeg(s, r, resumed, spawned));
  }

  lemma ResumeCarries(s: State, r: RunId, spawned: bool)
    ensures Carries(s, ResumeParked(s, r, spawned))
  {
    hide Carries, SpawnLeg;
    SameCarries(s, Unpark(s, r));
    SpawnLegCarries(Unpark(s, r), r, true, spawned);
    CarriesTrans(s, Unpark(s, r), ResumeParked(s, r, spawned));
  }

  lemma HonourCarries(s: State, r: RunId, o: LegResult)
    ensures Carries(s, ApplyLegOutcome(s, r, o))
  {
    hide Carries, Finalize;
    match o
    case Broken(text) => FinalizeCarries(s, r, Error, text, false);
    case NeedsInput(q) =>
      SameCarries(s, s.Add(Capturing(r, q)));
      FinalizeCarries(s, r, Error, NO_QUESTION_TEXT, false);
    case Failed(text) => FinalizeCarries(s, r, Error, text, false);
    case Completed(text, proof) => FinalizeCarries(s, r, Done, text, proof);
  }

  lemma AfterLegCarries(s: State, leg: Task, attached: bool, o: LegResult, respawned: bool)
    requires leg.LegWait?
    ensures Carries(s, AfterLeg(s, leg, attached, o, respawned))
  {
    hide Carries, ApplyLegOutcome, Finalize, ExecuteLeg;
    if attached { HonourCarries(s, leg.run, o); }
    else if leg.attempt >= LEG_MAX_ATTEMPTS { FinalizeCarries(s, leg.run, Error, ATTACH_TEXT, false); }
    else { ExecuteLegCarries(s, leg.run, leg.attempt + 1, leg.resumed, respawned); }
  }

  lemma LegDoneCarries(s: State, t: TaskId, leg: Task, attached: bool, o: LegResult, respawned: bool)
    requires leg.LegWait?
    ensures Carries(s, LegDone(s, t, leg, attached, o, respawned))
  {
    hide Carries, AfterLeg;
    SameCarries(s, s);
    SameCarries(s, Reap(s, leg.run));
    AfterLegCarries(Reap(s, leg.run), leg, attached, o, respawned);
    CarriesTrans(s, Reap(s, leg.run), AfterLeg(Reap(s, leg.run), leg, attached, o, respawned));
  }

  lemma GoLiveCarries(s: State, r: RunId)
    requires r in s.starting && r !in s.live && Distinct(s.starting)
    ensures Carries(s, GoLive(s, r))
  {
    WithoutDistinct(s.starting, r);
  }

  lemma GrantedCarries(s: State, r: RunId, spawned: bool)
    requires r in s.starting && r !in s.live && Distinct(s.starting)
    ensures Carries(s, StartSucceeded(s, r, spawned))
  {
    hide Carries, GoLive, SpawnLeg;
    GoLiveCarries(s, r);
    SpawnLegCarries(GoLive(s, r), r, false, spawned);
    CarriesTrans(s, GoLive(s, r), StartSucceeded(s, r, spawned));
  }

  /** A start that fails: the three properties hold afterwards under exactly these conditions. */
  lemma StartFailedLanes(s: State, r: RunId, immediate: bool, race: bool)
    requires r in s.starting && r !in s.live && r !in s.queue && Distinct(s.starting) && s.Busy() <= s.cap
    ensures
      var s' := StartFailed(s, r, immediate, race);
      && ((forall x :: x in s.leases && x != r ==> x in s.live || x in s.starting) ==> (LeasesOwned(s') <==> r !in s.leases))
      && (WorkConserved(s') <==> !(immediate && !race && s.queue != [] && s.queueTimer.None? && !s.stopping))
      && (Fifo(s) ==> (Fifo(s') <==>
            !(race && ((immediate && s.queue != []) || exists x :: (x in s.live || x in s.starting) && r < x))))
  {
    WithoutDistinct(s.starting, r);
    var s1 := s.(starting := Without(s.starting, r));
    var s' := StartFailed(s, r, immediate, race);
    if race {
      RequeueLanes(s, s1, r, immediate);
    } else {
      var s2 := s1.Put(r, s1.Get(r).(phase := Error, result := Some(START_TEXT)));
      Safety.SettleKeeps(s2, r);
      RefillLanes(Settle(s2, r));
      assert Fifo(s) ==> Fifo(Settle(s2, r));
      if r in s.leases { assert r in s'.leases && r !in s'.live && r !in s'.starting; }
    }
  }

  lemma RequeueLanes(s: State, s1: State, r: RunId, immediate: bool)
    requires r in s.starting && r !in s.live && r !in s.queue && s1 == s.(starting := Without(s.starting, r))
    ensures
      var s' := StartFailed(s, r, immediate, true);
      && ((forall x :: x in s.leases && x != r ==> x in s.live || x in s.starting) ==> (LeasesOwned(s') <==> r !in s.leases))
      && WorkConserved(s')
      && (Fifo(s) ==> (Fifo(s') <==>
            !((immediate && s.queue != []) || exists x :: (x in s.live || x in s.starting) && r < x)))
  {
    var s2 := s1.(queue := if immediate then s1.queue + [r] else [r] + s1.queue);
    PersistKeeps(s2);
    var s' := StartFailed(s, r, immediate, true);
    assert s'.queue == s2.queue && s'.live == s.live && s'.starting == s1.starting && s'.leases == s.leases;
    if Fifo(s) { RequeueOrder(s, s', r, immediate); }
  }

  /** Behind an older run's place in the queue, or behind a younger one's lane, the order is lost. */
  lemma RequeuedTooLate(s: State, s': State, r: RunId)
    requires Fifo(s) && r in s.starting && r !in s.live && s'.live == s.live
    requires forall x :: x in s'.starting <==> x in s.starting && x != r
    requires (s'.queue == s.queue + [r] && s.queue != []) ||
             (r in s'.queue && exists x :: (x in s.live || x in s.starting) && r < x)
    ensures !Fifo(s')
  {
    if s'.queue == s.queue + [r] && s.queue != [] {
      assert s.queue[0] in s.queue;
      assert s'.queue[0] == s.queue[0] && s'.queue[|s.queue|] == r;
    } else {
      var x :| (x in s.live || x in s.starting) && r < x;
      assert x in s'.live || x in s'.starting;
    }
  }

  lemma RequeuedInOrder(s: State, s': State, r: RunId)
    requires Fifo(s) && r in s.starting && s'.queue == [r] + s.queue && s'.live == s.live
    requires forall x :: x in s'.starting ==> x in s.starting && x != r
    requires forall x :: x in s.live || x in s.starting ==> x <= r
    requires r !in s.live
    ensures Fifo(s')
  {
    assert forall q :: q in s.queue ==> r < q;
    assert forall q :: q in s'.queue <==> q == r || q in s.queue;
    forall i, j | 0 <= i < j < |s'.queue| ensures s'.queue[i] < s'.queue[j] {
      assert s'.queue[j] == s.queue[j - 1] && s.queue[j - 1] in s.queue;
      if i > 0 { assert s'.queue[i] == s.queue[i - 1]; }
    }
  }

  /** Re-entering keeps the order exactly when nothing younger is queued ahead or holds a lane. */
  lemma RequeueOrder(s: State, s': State, r: RunId, immediate: bool)
    requires Fifo(s) && r in s.starting && r !in s.live
    requires s'.queue == if immediate then s.queue + [r] else [r] + s.queue
    requires s'.live == s.live && forall x :: x in s'.starting <==> x in s.starting && x != r
    ensures Fifo(s') <==> !((immediate && s.queue != []) || exists x :: (x in s.live || x in s.starting) && r < x)
  {
    hide Fifo;
    if (immediate && s.queue != []) || exists x :: (x in s.live || x in s.starting) && r < x {
      assert r in [r];
      RequeuedTooLate(s, s', r);
    } else {
      assert immediate ==> s.queue + [r] == [r] + s.queue;
      RequeuedInOrder(s, s', r);
    }
  }

  /** A run younger than all others joins the queue. */
  lemma JoinLanes(s: State, s': State, r: RunId)
    requires s.queue != [] || s.Busy() >= s.cap
    requires s'.queue == s.queue + [r] && s'.starting == s.starting && s'.live == s.live && s'.leases == s.leases
    requires s'.cap == s.cap && s'.queueTimer == s.queueTimer && s'.stopping == s.stopping
    requires forall x :: x in s.queue || x in s.starting || x in s.live ==> x < r
    ensures Carries(s, s')
  {
    assert forall i :: 0 <= i < |s.queue| ==> s.queue[i] in s.queue;
  }

  lemma AdmitCarries(s: State)
    requires LaneInv(s)
    ensures Carries(s, Admit(s))
  {
    hide Persist;
    var r := s.nextRun;
    assert forall x :: x in s.queue || x in s.starting || x in s.live ==> x < r;
    hide LaneInv;
    var s1 := s.Put(r, FRESH_RUN).(nextRun := r + 1);
    if s1.Busy() >= s1.cap || s1.queue != [] {
      PersistKeeps(s1.(queue := s1.queue + [r]));
      JoinLanes(s, Admit(s), r);
    }
  }

  /** The release of `r` ends: leases stay owned exactly unless a lane holder's lease is left held. */
  lemma ReleasedLanes(s: State, r: RunId, final: Phase, captureProof: bool, freed: bool, proofs: nat)
    requires LaneInv(s)
    ensures
      var s' := FinalizeEnd(Free(s, r, freed), r, final, captureProof, proofs);
      && (LeasesOwned(s) ==> (LeasesOwned(s') <==> freed || r !in s.leases || r !in s.live))
      && WorkConserved(s') && (Fifo(s) ==> Fifo(s'))
  {
    hide Settle, MaybeStartNext, AllRecorded;
    var s1 := Free(s, r, freed).Put(r, Verified(s.Get(r), final, captureProof, proofs));
    var s2 := s1.(live := Without(s.live, r));
    SettleCalm(s2, r);
    LaneLost(s, Settle(s2, r), r, freed);
  }

  /** The lane of `r` was given up in `n`, with or without its lease. */
  lemma LaneLost(s: State, n: State, r: RunId, freed: bool)
    requires LaneInv(s)
    requires n.live == Without(s.live, r) && n.queue == s.queue && n.starting == s.starting
    requires n.leases == if freed then s.leases - {r} else s.leases
    ensures
      var s' := MaybeStartNext(n);
      && (LeasesOwned(s) ==> (LeasesOwned(s') <==> freed || r !in s.leases || r !in s.live))
      && WorkConserved(s') && (Fifo(s) ==> Fifo(s'))
  {
    assert r in s.live ==> r !in s.starting && r !in s.queue;
    hide LaneInv, MaybeStartNext;
    RefillLanes(n);
  }

  lemma {:induction false} RecoverNextCarries(s: State, rest: seq<RunId>)
    ensures Carries(s, RecoverNext(s, rest))
    decreases |rest|
  {
    if rest == [] { RefillLanes(s); }
    else if s.Get(rest[0]).delivered { RecoverNextCarries(s, rest[1..]); }
  }

  /** An answered delivery moves nothing. */
  lemma AnsweredCarries(s: State, r: RunId, accepted: bool)
    ensures Carries(s, if accepted then Delivered(s, r) else ScheduleOutcomeRetry(s))
  {
    hide Carries, Delivered;
    DeliveredCalm(s, r);
    StillCarries(s, Delivered(s, r));
    SameCarries(s, ScheduleOutcomeRetry(s));
  }

  lemma DaemonTaskCarries(s: State, t: TaskId, task: Task, o: Outcome)
    requires LaneInv(s) && Fits(task, o)
    requires task.Admitting? || task.Delivering? || task.Recovering? || task.OutcomeRetry? || task.QueueRetry?
    ensures Carries(s, Continue(s, t, task, o))
  {
    hide LaneInv, Admit, Delivered, ScheduleOutcomeRetry, RecoverNext, MaybeStartNext, DeliverAll;
    match task
    case Admitting =>
      SameCarries(s, s);
      AdmitCarries(s);
    case Delivering(r) => AnsweredCarries(s, r, o.Accepted?);
    case Recovering(r, rest) =>
      var m := if o.Accepted? then Delivered(s, r) else ScheduleOutcomeRetry(s);
      AnsweredCarries(s, r, o.Accepted?);
      RecoverNextCarries(m, rest);
      CarriesTrans(s, m, RecoverNext(m, rest));
    case OutcomeRetry =>
      DeliverAllCalm(s.(outcomeTimer := None), s.finished);
      SameCarries(s, DeliverAll(s.(outcomeTimer := None), s.finished));
    case QueueRetry => RefillLanes(s.(queueTimer := None));
  }

  lemma RunTaskCarries(s: State, t: TaskId, task: Task, o: Outcome)
    requires Fits(task, o) && (task.LegWait? || task.Capturing? || task.Asking? || task.RunTimer())
    ensures Carries(s, Continue(s, t, task, o))
  {
    hide Carries, LegDone, Park, Asked, Finalize, AllRecorded;
    SameCarries(s, s);
    match task
    case LegWait(r, attempt, resumed) => LegDoneCarries(s, t, task, o.attached, o.result, o.respawned);
    case Capturing(r, text) =>
      ParkCalm(s, r, text);
      StillCarries(s, Park(s, r, text));
      FinalizeCarries(s, r, Error, ASK_TEXT, false);
    case Asking(r) =>
      FinalizeCarries(s, r, Error, ASK_TEXT, false);
      if o.Posted? {
        AskedCalm(s, r, o.anchor);
        StillCarries(s, Asked(s, r, o.anchor));
      }
    case HardTimer(r, leg) => FinalizeCarries(s, r, Timeout, HARD_TIMEOUT_TEXT, false);
    case QuestionTimer(r) => FinalizeCarries(s, r, Timeout, QUESTION_TIMEOUT_TEXT, false);
  }

  lemma {:induction false} FinalizeAllCarries(s: State, rs: seq<RunId>)
    ensures Carries(s, FinalizeAll(s, rs))
    decreases |rs|
  {
    hide Carries, Finalize;
    if rs == [] {
      SameCarries(s, s);
    } else {
      var s1 := MarkRestart(s, rs[0]);
      var s2 := Finalize(s1, rs[0], Cancelled, RESTART_TEXT, false);
      SameCarries(s, s1);
      FinalizeCarries(s1, rs[0], Cancelled, RESTART_TEXT, false);
      CarriesTrans(s, s1, s2);
      FinalizeAllCarries(s2, rs[1..]);
      CarriesTrans(s, s2, FinalizeAll(s2, rs[1..]));
    }
  }

  lemma StopAllCarries(s: State)
    ensures Carries(s, StopAll(s))
  {
    hide SettleAll, FinalizeAll, AllRecorded;
    var s1 := Quiet(s).(queue := []);
    SettleAllCalm(s1, s.queue);
    var s2 := SettleAll(s1, s.queue);
    assert Carries(s, s2);
    FinalizeAllCarries(s2, s2.live);
    CarriesTrans(s, s2, StopAll(s));
  }

  lemma LeaveQueueCarries(s: State, r: RunId)
    ensures Carries(s, s.(queue := Without(s.queue, r)))
  {
    if Fifo(s) { WithoutSorted(s.queue, r); }
  }

  lemma StopCarries(s: State, r: RunId, text: string)
    ensures Carries(s, Stop(s, r, text))
  {
    hide Carries, SettleQueued, Finalize, AllRecorded;
    SameCarries(s, s);
    if r in s.queue {
      var s1 := s.(queue := Without(s.queue, r));
      LeaveQueueCarries(s, r);
      SettleQueuedCalm(s1, r, Cancelled, text);
      StillCarries(s1, Stop(s, r, text));
      CarriesTrans(s, s1, Stop(s, r, text));
    } else if r in s.live {
      var s1 := s.Put(r, s.Get(r).(child := None));
      SameCarries(s, s1);
      FinalizeCarries(s1, r, Cancelled, text, false);
      CarriesTrans(s, s1, Stop(s, r, text));
    }
  }

  lemma {:induction false} WithoutSorted(q: seq<RunId>, r: RunId)
    requires Ascending(q)
    ensures Ascending(Without(q, r))
  {
    if q != [] {
      WithoutSorted(q[1..], r);
      var w := Without(q[1..], r);
      forall j | 0 <= j < |w| ensures q[0] < w[j] { assert w[j] in w && w[j] in q[1..]; }
      assert Ascending([q[0]] + w);
    }
  }

  lemma RecoverCarries(s: State)
    ensures Carries(s, Recover(s))
  {
    hide Adopt, Persist, RecoverNext;
    var s1 := Adopt(s.(orphans := []), s.orphans).(recovered := true);
    AdoptLevel(s.(orphans := []), s.orphans);
    PersistKeeps(s1);
    SameCarries(s, Persist(s1));
    RecoverNextCarries(Persist(s1), Persist(s1).finished);
    CarriesTrans(s, Persist(s1), Recover(s));
  }

  // ----------------------------------------------------- the exact steps

  /** Each of the three properties survives the step `e` exactly if its own exception is not `e`. */
  ghost predicate Exact(s: State, s': State, e: Event) {
    && (LeasesOwned(s) ==> (LeasesOwned(s') <==> !Leak(s, e)))
    && (WorkConserved(s) ==> (WorkConserved(s') <==> !Strands(s, e)))
    && (Fifo(s) ==> (Fifo(s') <==> !Overtakes(s, e)))
  }

  /** A pending start: its run holds a lane and nothing else. */
  lemma StartReady(s: State, t: TaskId)
    requires LaneInv(s) && t in s.tasks && StartTask(s.tasks[t])
    ensures s.tasks[t].run in s.starting && s.tasks[t].run !in s.live && s.tasks[t].run !in s.queue
    ensures Distinct(s.starting) && s.Busy() <= s.cap && SameLanes(s, s.Drop(Some(t)))
  {
  }

  lemma UnwindingLanes(s: State, t: TaskId, o: Outcome)
    requires LaneInv(s) && t in s.tasks && s.tasks[t].Unwinding? && o.Unwound?
    ensures Exact(s, Next(s, Fire(t, o)), Fire(t, o))
  {
    hide LaneInv, StartFailed, Exact, LeasesOwned, WorkConserved, Fifo;
    var task := s.tasks[t];
    var s1 := Free(s.Drop(Some(t)), task.run, o.freed);
    StartReady(s, t);
    StartFailedLanes(s1, task.run, task.immediate, task.race);
    UnwoundCases(s, s1, StartFailed(s1, task.run, task.immediate, task.race), t, o);
  }

  /** Translate the conditions on the unwound state `s1` back to the event. */
  lemma UnwoundCases(s: State, s1: State, s': State, t: TaskId, o: Outcome)
    requires t in s.tasks && s.tasks[t].Unwinding? && o.Unwound? && s.tasks[t].run in s.starting
    requires s1.queue == s.queue && s1.starting == s.starting && s1.live == s.live
    requires s1.queueTimer == s.queueTimer && s1.stopping == s.stopping
    requires s1.leases == if o.freed then s.leases - {s.tasks[t].run} else s.leases
    requires
      var task := s.tasks[t];
      var r := task.run;
      && ((forall x :: x in s1.leases && x != r ==> x in s1.live || x in s1.starting) ==> (LeasesOwned(s') <==> r !in s1.leases))
      && (WorkConserved(s') <==> !(task.immediate && !task.race && s1.queue != [] && s1.queueTimer.None? && !s1.stopping))
      && (Fifo(s1) ==> (Fifo(s') <==>
            !(task.race && ((task.immediate && s1.queue != []) || exists x :: (x in s1.live || x in s1.starting) && r < x))))
    ensures Exact(s, s', Fire(t, o))
  {
  }

  lemma AcquiringLanes(s: State, t: TaskId, o: Outcome)
    requires LaneInv(s) && t in s.tasks && s.tasks[t].Acquiring? && Fits(s.tasks[t], o)
    ensures Exact(s, Next(s, Fire(t, o)), Fire(t, o))
  {
    hide LaneInv, StartSucceeded, StartFailed, Exact, Carries;
    var task := s.tasks[t];
    var s1 := s.Drop(Some(t));
    StartReady(s, t);
    if o.Refused? && task.run !in s.leases {
      AcquireRefused(s, t, o.race);
    } else {
      if o.Granted? { GrantedCarries(s1, task.run, o.spawned); }
      else { HalfTakenLanes(s1, task.run, task.immediate, o.Refused? && o.race); }
      CarriesExact(s, s1, Next(s, Fire(t, o)), Fire(t, o));
    }
  }

  /** A start whose lease is given back still holds its lane. */
  lemma HalfTakenLanes(s: State, r: RunId, immediate: bool, race: bool)
    requires r in s.starting
    ensures Carries(s, s.Add(Unwinding(r, immediate, race)))
    ensures Carries(s, s.(leases := s.leases + {r}).Add(Unwinding(r, immediate, race)))
  {
  }

  lemma CarriesExact(s: State, s1: State, s': State, e: Event)
    requires SameLanes(s, s1) && Carries(s1, s') && !Leak(s, e) && !Strands(s, e) && !Overtakes(s, e)
    ensures Exact(s, s', e)
  {
  }

  lemma AcquireRefused(s: State, t: TaskId, race: bool)
    requires LaneInv(s) && t in s.tasks && s.tasks[t].Acquiring? && s.tasks[t].run !in s.leases
    ensures Exact(s, Next(s, Fire(t, Refused(race))), Fire(t, Refused(race)))
  {
    hide LaneInv, StartFailed, WorkConserved;
    var task := s.tasks[t];
    StartReady(s, t);
    StartFailedLanes(s.Drop(Some(t)), task.run, task.immediate, race);
  }

  lemma OtherTaskLanes(s: State, t: TaskId, o: Outcome)
    requires LaneInv(s) && t in s.tasks && Fits(s.tasks[t], o)
    requires var k := s.tasks[t]; !k.Acquiring? && !k.Unwinding? && !k.Releasing?
    ensures Carries(s, Next(s, Fire(t, o)))
  {
    hide Continue, Carries;
    var s1 := s.Drop(Some(t));
    var task := s.tasks[t];
    SameCarries(s, s1);
    if task.Admitting? || task.Delivering? || task.Recovering? || task.OutcomeRetry? || task.QueueRetry? {
      DropLanes(s, t);
      DaemonTaskCarries(s1, t, task, o);
    } else {
      RunTaskCarries(s1, t, task, o);
    }
    CarriesTrans(s, s1, Next(s, Fire(t, o)));
  }

  lemma DropLanes(s: State, t: TaskId)
    requires LaneInv(s)
    ensures LaneInv(s.Drop(Some(t)))
    ensures LeasesOwned(s.Drop(Some(t))) <==> LeasesOwned(s)
    ensures Fifo(s.Drop(Some(t))) <==> Fifo(s)
  {
  }

  lemma ReleasingLanes(s: State, t: TaskId, o: Outcome)
    requires LaneInv(s) && t in s.tasks && s.tasks[t].Releasing? && o.Released?
    ensures Exact(s, Next(s, Fire(t, o)), Fire(t, o))
  {
    hide Next, LaneInv, FinalizeEnd, Exact, LeasesOwned, WorkConserved, Fifo;
    DropLanes(s, t);
    ReleasingIs(s, t, o);
    var task := s.tasks[t];
    ReleasedLanes(s.Drop(Some(t)), task.run, task.final, task.captureProof, o.freed, o.proofs);
    ReleasedCases(s, Next(s, Fire(t, o)), t, o);
  }

  lemma ReleasingIs(s: State, t: TaskId, o: Outcome)
    requires t in s.tasks && s.tasks[t].Releasing? && o.Released?
    ensures var task := s.tasks[t];
            Next(s, Fire(t, o))
            == FinalizeEnd(Free(s.Drop(Some(t)), task.run, o.freed), task.run, task.final, task.captureProof, o.proofs)
  {
    hide FinalizeEnd;
  }

  lemma ReleasedCases(s: State, s': State, t: TaskId, o: Outcome)
    requires t in s.tasks && s.tasks[t].Releasing? && o.Released?
    requires LeasesOwned(s) ==>
               (LeasesOwned(s') <==> o.freed || s.tasks[t].run !in s.leases || s.tasks[t].run !in s.live)
    requires WorkConserved(s') && (Fifo(s) ==> Fifo(s'))
    ensures Exact(s, s', Fire(t, o))
  {
    hide LeasesOwned, WorkConserved, Fifo;
  }

  lemma FireLanes(s: State, t: TaskId, o: Outcome)
    requires LaneInv(s) && t in s.tasks && Fits(s.tasks[t], o)
    ensures Exact(s, Next(s, Fire(t, o)), Fire(t, o))
  {
    var task := s.tasks[t];
    if task.Acquiring? { AcquiringLanes(s, t, o); }
    else if task.Unwinding? { UnwindingLanes(s, t, o); }
    else if task.Releasing? { ReleasingLanes(s, t, o); }
    else {
      hide Next;
      OtherTaskLanes(s, t, o);
    }
  }

  lemma EventLanes(s: State, e: Event)
    requires Enabled(s, e) && !e.Fire?
    ensures Carries(s, Next(s, e))
  {
    hide Stop, StopAll, Recover, ResumeParked;
    SameCarries(s, s);
    match e
    case StopRun(r, text) => StopCarries(s, r, text);
    case StopEverything => StopAllCarries(s);
    case CallRecover => RecoverCarries(s);
    case Answer(r, spawned) => ResumeCarries(s, r, spawned);
    case Steer(r, spawned) => ResumeCarries(s, r, spawned);
    case Dispatch =>
    case LeaseLost(r) =>
    case DiskFault(b) =>
    case Crash =>
  }

  /** Leases stay with lane holders exactly until a release fails to free one. */
  lemma LeasesIff(s: State, e: Event)
    requires LaneInv(s) && Enabled(s, e) && LeasesOwned(s)
    ensures LeasesOwned(Next(s, e)) <==> !Leak(s, e)
  {
    hide Next, LaneInv;
    if e.Fire? { FireLanes(s, e.task, e.outcome); } else { EventLanes(s, e); }
  }

  /** The queue conserves work exactly until an immediate start fails outright while others wait. */
  lemma WorkIff(s: State, e: Event)
    requires LaneInv(s) && Enabled(s, e) && WorkConserved(s)
    ensures WorkConserved(Next(s, e)) <==> !Strands(s, e)
  {
    hide Next, LaneInv;
    if e.Fire? { FireLanes(s, e.task, e.outcome); } else { EventLanes(s, e); }
  }

  /** Runs take lanes in dispatch order exactly until a lost lease race re-enters out of turn. */
  lemma FifoIff(s: State, e: Event)
    requires LaneInv(s) && Enabled(s, e) && Fifo(s)
    ensures Fifo(Next(s, e)) <==> !Overtakes(s, e)
  {
    hide Next, LaneInv;
    if e.Fire? { FireLanes(s, e.task, e.outcome); } else { EventLanes(s, e); }
  }

  // ------------------------------------------------------------ whole runs

  ghost predicate NeverLeaks(s: State, es: seq<Event>)
    decreases |es|
  {
    es == [] || (!Leak(s, es[0]) && NeverLeaks(Next(s, es[0]), es[1..]))
  }

  ghost predicate NeverStrands(s: State, es: seq<Event>)
    decreases |es|
  {
    es == [] || (!Strands(s, es[0]) && NeverStrands(Next(s, es[0]), es[1..]))
  }

  ghost predicate NeverOvertakes(s: State, es: seq<Event>)
    decreases |es|
  {
    es == [] || (!Overtakes(s, es[0]) && NeverOvertakes(Next(s, es[0]), es[1..]))
  }

  lemma {:induction false} LeasesRun(s: State, es: seq<Event>)
    requires LaneInv(s) && LeasesOwned(s) && AllEnabled(s, es) && NeverLeaks(s, es)
    ensures LeasesOwned(Execute(s, es))
    decreases |es|
  {
    if es != [] {
      LaneStep(s, es[0]);
      LeasesIff(s, es[0]);
      LeasesRun(Next(s, es[0]), es[1..]);
    }
  }

  lemma {:induction false} WorkRun(s: State, es: seq<Event>)
    requires LaneInv(s) && WorkConserved(s) && AllEnabled(s, es) && NeverStrands(s, es)
    ensures WorkConserved(Execute(s, es))
    decreases |es|
  {
    if es != [] {
      LaneStep(s, es[0]);
      WorkIff(s, es[0]);
      WorkRun(Next(s, es[0]), es[1..]);
    }
  }

  lemma {:induction false} FifoRun(s: State, es: seq<Event>)
    requires LaneInv(s) && Fifo(s) && AllEnabled(s, es) && NeverOvertakes(s, es)
    ensures Fifo(Execute(s, es))
    decreases |es|
  {
    if es != [] {
      LaneStep(s, es[0]);
      FifoIff(s, es[0]);
      FifoRun(Next(s, es[0]), es[1..]);
    }
  }

  /** From an empty ledger: only a failed release makes a lease outlive its lane. */
  lemma LeasesAlways(cap: nat, es: seq<Event>)
    requires cap >= 1 && AllEnabled(Init(cap), es) && NeverLeaks(Init(cap), es)
    ensures LeasesOwned(Execute(Init(cap), es))
  {
    InitLanes(cap);
    LeasesRun(Init(cap), es);
  }

  /** The queue's retry timer is armed, and the task that will fire is pending. */
  predicate RetryDue(s: State) {
    s.queueTimer.Some? && s.queueTimer.value in s.tasks && s.tasks[s.queueTimer.value].QueueRetry?
  }

  /**
   * From an empty ledger: only an immediate start failing outright can leave the queue to wait beside a
   * free lane with nothing pending that will look at it.
   */
  lemma WorkAlways(cap: nat, es: seq<Event>)
    requires cap >= 1 && AllEnabled(Init(cap), es) && NeverStrands(Init(cap), es)
    ensures var s := Execute(Init(cap), es); s.queue == [] || s.Busy() >= s.cap || RetryDue(s) || s.stopping
  {
    InitLanes(cap);
    WorkRun(Init(cap), es);
    Delivery.CoveredRun(Init(cap), es);
  }

  /** From an empty ledger: only a lost lease race lets a younger run go first. */
  lemma FifoAlways(cap: nat, es: seq<Event>)
    requires cap >= 1 && AllEnabled(Init(cap), es) && NeverOvertakes(Init(cap), es)
    ensures Fifo(Execute(Init(cap), es))
  {
    InitLanes(cap);
    FifoRun(Init(cap), es);
  }
}
