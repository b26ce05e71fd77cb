/** What the steps of one run leave alone: summaries used by all the theorems. */
module SchedulerEffects {
  import opened Wrappers
  import opened SchedulerState
  import opened SchedulerSteps
  import opened SchedulerSafety

  /** Everything pending in `s` that is not a timer of a run is still pending in `n`. */
  ghost predicate TasksKept(s: State, n: State) {
    forall t :: t in s.tasks && !s.tasks[t].RunTimer() ==> t in n.tasks && n.tasks[t] == s.tasks[t]
  }

  ghost predicate IdsUsed(s: State) {
    forall t :: t in s.tasks ==> t < s.nextTask
  }

  predicate OnDisk(disk: seq<Row>, r: RunId) {
    exists i :: 0 <= i < |disk| && disk[i].id == r
  }

  /**
   * Ledger writes work and the file is up to date: whatever is queued, live or orphaned has a row, and the row of
   * a finished run is its record.
   */
  ghost predicate Synced(s: State) {
    && !s.diskBroken
    && (forall r :: r in s.queue || r in s.live || r in s.orphans ==> OnDisk(s.disk, r))
    && (forall r :: r in s.finished ==> Row(r, Durable(s.Get(r))) in s.disk)
  }

  /** A completed write brings the file up to date. */
  lemma PersistSyncs(s: State)
    requires !s.diskBroken && s.orphans == []
    ensures Synced(Persist(s))
    ensures forall r :: r in s.starting ==> OnDisk(Persist(s).disk, r)
  {
    var s' := Persist(s);
    var ids := Recorded(s');
    forall r | r in ids ensures OnDisk(s'.disk, r) {
      var i :| 0 <= i < |ids| && ids[i] == r;
      assert s'.disk[i].id == r;
    }
    forall r | r in s'.finished ensures Row(r, Durable(s'.Get(r))) in s'.disk {
      assert r in ids;
      var i :| 0 <= i < |ids| && ids[i] == r;
      assert s'.disk[i] == Row(r, Durable(s'.Get(r)));
    }
  }

  ghost predicate HasDelivery(s: State, r: RunId) {
    exists t :: t in s.tasks &&
      (s.tasks[t] == Delivering(r) || (s.tasks[t].Recovering? && r in [s.tasks[t].run] + s.tasks[t].rest))
  }

  ghost predicate SameFrame(s: State, n: State) {
    && n.cap == s.cap && n.queue == s.queue && n.starting == s.starting && n.orphans == s.orphans
    && n.outcomeTimer == s.outcomeTimer && n.queueTimer == s.queueTimer && n.stopping == s.stopping
    && n.recovered == s.recovered && n.leases == s.leases && n.diskBroken == s.diskBroken && n.nextRun == s.nextRun
  }

  /**
   * Only run `r` moved: it stayed where it was, or left `live`, without a lease, for `finished`
   * with its delivery under way.
   */
  ghost predicate OnlyRun(s: State, n: State, r: RunId) {
    && SameFrame(s, n) && TasksKept(s, n) && (IdsUsed(s) ==> IdsUsed(n))
    && (s.orphans == [] && Synced(s) ==> Synced(n))
    && (forall x :: x != r ==> n.Get(x) == s.Get(x))
    && n.Get(r).delivered == s.Get(r).delivered
    && (s.Get(r).phase.Terminal() ==> n.Get(r).phase == s.Get(r).phase && n.Get(r).result == s.Get(r).result)
    && (forall x :: x in n.finished ==> x in s.finished || x == r)
    && (if n.live == s.live then forall x :: x in n.finished ==> x in s.finished
        else n.live == Without(s.live, r) && r !in s.leases && HasDelivery(n, r))
  }

  lemma PersistKeeps(s: State)
    ensures Persist(s) == s.(finished := Persist(s).finished, disk := Persist(s).disk, writes := Persist(s).writes)
    ensures forall r :: r in Persist(s).finished ==> r in s.finished
  {
    TrimSubset(s.finished, s.runs);
  }

  /** What filling lanes does besides moving the head of the queue. */
  lemma {:induction false} FillLanesTasks(s: State)
    requires IdsUsed(s)
    ensures TasksKept(s, FillLanes(s)) && IdsUsed(FillLanes(s))
    decreases |s.queue|
  {
    if s.queue != [] && s.Busy() < s.cap {
      FillLanesTasks(StartDispatch(s.(queue := s.queue[1..]), s.queue[0], false));
    }
  }

  lemma {:induction false} FillLanesMoves(s: State)
    ensures forall x :: x in s.starting ==> x in FillLanes(s).starting
    ensures forall x :: x in FillLanes(s).starting ==> x in s.starting || x in s.queue
    ensures forall x :: x in FillLanes(s).queue ==> x in s.queue
    ensures FillLanes(s).queue == [] || FillLanes(s).Busy() >= s.cap
    decreases |s.queue|
  {
    if s.queue != [] && s.Busy() < s.cap {
      FillLanesMoves(StartDispatch(s.(queue := s.queue[1..]), s.queue[0], false));
    }
  }

  lemma SettleEffect(s: State, r: RunId)
    requires IdsUsed(s)
    ensures TasksKept(s, Settle(s, r)) && HasDelivery(Settle(s, r), r)
    ensures !s.diskBroken && s.orphans == [] ==> Synced(Settle(s, r))
    ensures IdsUsed(Settle(s, r))
  {
    PersistKeeps(s.(finished := s.finished + [r]));
    var s' := Settle(s, r);
    assert s'.tasks[s.nextTask] == Delivering(r);
    if !s.diskBroken && s.orphans == [] {
      PersistSyncs(s.(finished := s.finished + [r]));
      assert forall x :: s'.Get(x) == s.Get(x);
    }
  }

  /** After the release, `finalize` moves its run to `finished` and then refills the lanes. */
  lemma FinalizeEndEffect(s: State, r: RunId, final: Phase, captureProof: bool, proofs: nat) returns (n: State)
    requires r in s.runs && IdsUsed(s)
    ensures FinalizeEnd(s, r, final, captureProof, proofs) == MaybeStartNext(n)
    ensures SameFrame(s, n) && TasksKept(s, n) && HasDelivery(n, r) && n.live == Without(s.live, r)
    ensures !s.diskBroken && s.orphans == [] ==> Synced(n)
    ensures n.runs == s.runs[r := Verified(s.runs[r], final, captureProof, proofs)]
    ensures forall x :: x in n.finished ==> x in s.finished || x == r
    ensures IdsUsed(n)
  {
    var s2 := s.Put(r, Verified(s.Get(r), final, captureProof, proofs)).(live := Without(s.live, r));
    n := Settle(s2, r);
    SettleKeeps(s2, r);
    SettleEffect(s2, r);
  }

  /** `finalize` is a step of its run alone, followed by a lane refill exactly when it ran to the end. */
  lemma FinalizeEffect(s: State, r: RunId, final: Phase, text: string, captureProof: bool) returns (n: State)
    requires Inv(s) && s.recovered && final.Terminal()
    ensures OnlyRun(s, n, r)
    ensures Finalize(s, r, final, text, captureProof) == if n.live == s.live then n else MaybeStartNext(n)
    ensures s.Get(r).phase.Terminal() ==> n == s
  {
    n := s;
    if s.Get(r).phase.Active() {
      var s1 := ConcludeEffect(s, r, final, text);
      n := ReleaseEffect(s, s1, r, final, captureProof);
    }
  }

  /** The second half of `finalize`, from the state `s1` in which the verdict is recorded. */
  lemma ReleaseEffect(s: State, s1: State, r: RunId, final: Phase, captureProof: bool) returns (n: State)
    requires SameFrame(s, s1) && TasksKept(s, s1) && r in s1.runs && r in s.live && Distinct(s.live)
    requires !s.Get(r).phase.Terminal() && (Synced(s) ==> Synced(s1))
    requires s1.live == s.live && s1.finished == s.finished
    requires (forall x :: x != r ==> s1.Get(x) == s.Get(x)) && s1.Get(r).delivered == s.Get(r).delivered
    requires IdsUsed(s1)
    ensures OnlyRun(s, n, r)
    ensures
      (if r in s1.leases then s1.Add(Releasing(r, final, captureProof))
       else FinalizeEnd(s1, r, final, captureProof, s1.Get(r).proofFiles))
      == if n.live == s.live then n else MaybeStartNext(n)
  {
    hide FinalizeEnd, MaybeStartNext;
    if r in s1.leases {
      n := s1.Add(Releasing(r, final, captureProof));
    } else {
      n := FinalizeEndEffect(s1, r, final, captureProof, s1.Get(r).proofFiles);
      assert |Without(s.live, r)| < |s.live| by { WithoutDistinct(s.live, r); }
    }
  }

  lemma ConcludeEffect(s: State, r: RunId, final: Phase, text: string) returns (n: State)
    requires Inv(s) && s.recovered && final.Terminal() && s.Get(r).phase.Active()
    ensures n == Conclude(s, r, final, text) && SameFrame(s, n) && TasksKept(s, n) && r in n.runs
    ensures r in s.live && Distinct(s.live) && (Synced(s) ==> Synced(n))
    ensures n.live == s.live && n.finished == s.finished && n.nextTask == s.nextTask
    ensures (forall x :: x != r ==> n.Get(x) == s.Get(x)) && n.Get(r).delivered == s.Get(r).delivered
    ensures IdsUsed(n)
  {
    n := Conclude(s, r, final, text);
    assert RunOk(s, r);
    ConcludeKeeps(s, r, final, text);
    ConcludeTasks(s, r, final, text);
    TaskIds(s);
  }

  lemma TaskIds(s: State)
    requires Tasks(s)
    ensures IdsUsed(s)
  {
    forall t | t in s.tasks ensures t < s.nextTask { assert TaskOk(s, t, s.tasks[t]); }
  }

  lemma ConcludeTasks(s: State, r: RunId, final: Phase, text: string)
    requires r in s.runs && HandlesOf(s, s.runs[r], r)
    ensures TasksKept(s, Conclude(s, r, final, text))
    ensures forall t :: t in Conclude(s, r, final, text).tasks ==> t in s.tasks
  {
  }

  /** `s'` is `n`, or `n` with its lanes refilled if the step freed one. */
  ghost predicate Reached(s: State, n: State, s': State) {
    s' == if n.live == s.live then n else MaybeStartNext(n)
  }

  /** Two steps of one run, the first of which keeps the run live. */
  lemma Compose(s: State, m: State, n: State, s': State, r: RunId)
    requires OnlyRun(s, m, r) && m.live == s.live && OnlyRun(m, n, r) && Reached(m, n, s')
    ensures OnlyRun(s, n, r) && Reached(s, n, s')
  {
  }

  lemma ExecuteLegEffect(s: State, r: RunId, attempt: nat, resumed: bool, spawned: bool) returns (n: State)
    requires Inv(s) && s.recovered && r in s.live && !s.Get(r).phase.Terminal()
    ensures OnlyRun(s, n, r) && Reached(s, n, ExecuteLeg(s, r, attempt, resumed, spawned))
  {
    if spawned {
      n := ExecuteLeg(s, r, attempt, resumed, spawned);
      TaskIds(s);
    } else {
      n := FinalizeEffect(s, r, Error, SPAWN_TEXT, false);
    }
  }

  lemma RelaunchEffect(s: State, r: RunId)
    requires !s.Get(r).phase.Terminal()
    ensures OnlyRun(s, Relaunch(s, r), r) && Relaunch(s, r).live == s.live
  {
    var s1 := s.Put(r, s.Get(r).(phase := Running, question := None, anchor := None));
    PersistKeeps(s1);
    if !s.diskBroken && s.orphans == [] { PersistSyncs(s1); }
  }

  lemma SpawnLegEffect(s: State, r: RunId, resumed: bool, spawned: bool) returns (n: State)
    requires Inv(s) && s.recovered && r in s.live && s.Get(r).phase.Active()
    ensures OnlyRun(s, n, r) && Reached(s, n, SpawnLeg(s, r, resumed, spawned))
  {
    var m := Relaunch(s, r);
    RelaunchInv(s, r);
    RelaunchEffect(s, r);
    n := ExecuteLegEffect(m, r, 1, resumed, spawned);
    Compose(s, m, n, SpawnLeg(s, r, resumed, spawned), r);
  }

  /** Only volatile fields of the run's record change, and only timers of runs go. */
  lemma OwnRecord(s: State, n: State, r: RunId)
    requires r in s.runs && n == s.(runs := n.runs, tasks := n.tasks) && TasksKept(s, n)
    requires n.runs == s.runs[r := n.Get(r)] && Durable(n.Get(r)) == Durable(s.Get(r))
    requires IdsUsed(s) ==> IdsUsed(n)
    ensures OnlyRun(s, n, r)
  {
    hide HasDelivery;
    assert n.Get(r).phase == Durable(n.Get(r)).phase && s.Get(r).phase == Durable(s.Get(r)).phase;
    assert n.Get(r).result == Durable(n.Get(r)).result && s.Get(r).result == Durable(s.Get(r)).result;
    assert n.Get(r).delivered == Durable(n.Get(r)).delivered && s.Get(r).delivered == Durable(s.Get(r)).delivered;
  }

  lemma UnparkEffect(s: State, r: RunId)
    requires r in s.runs && HandlesOf(s, s.runs[r], r)
    ensures OnlyRun(s, Unpark(s, r), r) && Unpark(s, r).live == s.live && Unpark(s, r).Get(r).phase == s.Get(r).phase
  {
    hide OnlyRun;
    OwnRecord(s, Unpark(s, r), r);
  }

  lemma ResumeParkedEffect(s: State, r: RunId, spawned: bool) returns (n: State)
    requires Inv(s) && s.recovered && r in s.live && s.Get(r).phase.Waiting?
    ensures OnlyRun(s, n, r) && Reached(s, n, ResumeParked(s, r, spawned))
  {
    var m := Unpark(s, r);
    assert RunOk(s, r);
    UnparkInv(s, r);
    UnparkEffect(s, r);
    n := SpawnLegEffect(m, r, true, spawned);
    Compose(s, m, n, ResumeParked(s, r, spawned), r);
  }

  lemma ApplyLegOutcomeEffect(s: State, r: RunId, o: LegResult) returns (n: State)
    requires Inv(s) && s.recovered && r in s.live && !s.Get(r).phase.Terminal()
    ensures OnlyRun(s, n, r) && Reached(s, n, ApplyLegOutcome(s, r, o))
  {
    match o
    case Broken(text) => n := FinalizeEffect(s, r, Error, text, false);
    case NeedsInput(q) =>
      if q == "" { n := FinalizeEffect(s, r, Error, NO_QUESTION_TEXT, false); }
      else { n := s.Add(Capturing(r, q)); TaskIds(s); }
    case Failed(text) => n := FinalizeEffect(s, r, Error, text, false);
    case Completed(text, proof) => n := FinalizeEffect(s, r, Done, text, proof);
  }

  lemma AfterLegEffect(s: State, leg: Task, attached: bool, o: LegResult, respawned: bool) returns (n: State)
    requires Inv(s) && s.recovered && leg.LegWait? && leg.run in s.live && !s.Get(leg.run).phase.Terminal()
    ensures OnlyRun(s, n, leg.run) && Reached(s, n, AfterLeg(s, leg, attached, o, respawned))
  {
    hide ApplyLegOutcome, Finalize, ExecuteLeg, OnlyRun;
    if attached { n := ApplyLegOutcomeEffect(s, leg.run, o); }
    else if leg.attempt >= LEG_MAX_ATTEMPTS { n := FinalizeEffect(s, leg.run, Error, ATTACH_TEXT, false); }
    else { n := ExecuteLegEffect(s, leg.run, leg.attempt + 1, leg.resumed, respawned); }
  }

  lemma ReapEffect(s: State, r: RunId)
    requires r in s.runs && HandlesOf(s, s.runs[r], r)
    ensures OnlyRun(s, Reap(s, r), r) && Reap(s, r).live == s.live && Reap(s, r).recovered == s.recovered
    ensures Reap(s, r).Get(r).phase == s.Get(r).phase
  {
    hide OnlyRun;
    OwnRecord(s, Reap(s, r), r);
  }

  lemma LegDoneEffect(s: State, t: TaskId, leg: Task, attached: bool, o: LegResult, respawned: bool) returns (n: State)
    requires Inv(s) && s.recovered && leg.LegWait?
    ensures OnlyRun(s, n, leg.run) && Reached(s, n, LegDone(s, t, leg, attached, o, respawned))
  {
    hide AfterLeg, HasDelivery, Synced;
    n := s;
    var r := leg.run;
    if s.Get(r).child == Some(t) && s.Get(r).phase.Running? {
      assert RunOk(s, r);
      ReapInv(s, r);
      ReapEffect(s, r);
      var m := Reap(s, r);
      n := AfterLegEffect(m, leg, attached, o, respawned);
      Compose(s, m, n, LegDone(s, t, leg, attached, o, respawned), r);
    }
  }

  lemma ParkSynced(s: State, r: RunId, text: string)
    requires Synced(s) && s.orphans == []
    ensures Synced(Park(s, r, text))
  {
    var s1 := s.Add(QuestionTimer(r));
    var s2 := s1.Put(r, s1.Get(r).(phase := Waiting, question := Some(text), questionTimer := Some(s.nextTask)));
    PersistKeeps(s2);
    PersistSyncs(s2);
    assert forall x :: Park(s, r, text).Get(x) == Persist(s2).Get(x);
  }

  lemma ParkFrame(s: State, r: RunId, text: string)
    requires IdsUsed(s)
    ensures var n := Park(s, r, text);
            && SameFrame(s, n) && n.live == s.live && TasksKept(s, n) && IdsUsed(n)
            && n.runs == s.runs[r := n.Get(r)] && n.Get(r).delivered == s.Get(r).delivered
            && forall x :: x in n.finished ==> x in s.finished
  {
    hide Persist;
    var s1 := s.Add(QuestionTimer(r));
    var s2 := s1.Put(r, s1.Get(r).(phase := Waiting, question := Some(text), questionTimer := Some(s.nextTask)));
    PersistKeeps(s2);
    assert Park(s, r, text).runs == s2.runs == s.runs[r := s2.Get(r)];
  }

  lemma ParkEffect(s: State, r: RunId, text: string)
    requires Inv(s) && !s.Get(r).phase.Terminal()
    ensures OnlyRun(s, Park(s, r, text), r) && Park(s, r, text).live == s.live
  {
    hide Park, OnlyRun, Synced, TaskOk;
    TaskIds(s);
    if Synced(s) && s.orphans == [] { ParkSynced(s, r, text); }
    ParkFrame(s, r, text);
    UndecidedStep(s, Park(s, r, text), r);
  }

  /** Only the record of a run without a verdict changes. */
  lemma UndecidedStep(s: State, n: State, r: RunId)
    requires SameFrame(s, n) && TasksKept(s, n) && (IdsUsed(s) ==> IdsUsed(n)) && n.live == s.live
    requires s.orphans == [] && Synced(s) ==> Synced(n)
    requires forall x :: x in n.finished ==> x in s.finished
    requires n.runs == s.runs[r := n.Get(r)] && n.Get(r).delivered == s.Get(r).delivered && !s.Get(r).phase.Terminal()
    ensures OnlyRun(s, n, r)
  {
    hide Synced, TasksKept, IdsUsed, HasDelivery;
  }

  lemma AskedEffect(s: State, r: RunId, anchor: string)
    ensures OnlyRun(s, Asked(s, r, anchor), r) && Asked(s, r, anchor).live == s.live
  {
    var s1 := s.Put(r, s.Get(r).(anchor := Some(anchor)));
    PersistKeeps(s1);
    if !s.diskBroken && s.orphans == [] { PersistSyncs(s1); }
  }

  /** A run's own continuation or timer: never touches another run, and never a verdict already given. */
  lemma RunTaskEffect(s: State, t: TaskId, task: Task, o: Outcome) returns (n: State)
    requires Inv(s) && s.recovered && Fits(task, o)
    requires task.LegWait? || task.Capturing? || task.Asking? || task.HardTimer? || task.QuestionTimer?
    requires task.Capturing? && o.Captured? ==> !s.Get(task.run).phase.Terminal()
    ensures OnlyRun(s, n, task.run) && Reached(s, n, Continue(s, t, task, o))
  {
    hide LegDone, Park, Finalize, Asked;
    match task
    case LegWait(r, _, _) => n := LegDoneEffect(s, t, task, o.attached, o.result, o.respawned);
    case Capturing(r, text) =>
      if o.Captured? { ParkEffect(s, r, text); n := Park(s, r, text); }
      else { n := FinalizeEffect(s, r, Error, ASK_TEXT, false); }
    case Asking(r) =>
      if o.Posted? { AskedEffect(s, r, o.anchor); n := Asked(s, r, o.anchor); }
      else { n := FinalizeEffect(s, r, Error, ASK_TEXT, false); }
    case HardTimer(r, leg) =>
      n := s;
      if s.Get(r).phase.Running? && s.Get(r).child == Some(leg) {
        n := FinalizeEffect(s, r, Timeout, HARD_TIMEOUT_TEXT, false);
      }
    case QuestionTimer(r) => n := FinalizeEffect(s, r, Timeout, QUESTION_TIMEOUT_TEXT, false);
  }

  lemma StopLiveEffect(s: State, r: RunId, text: string) returns (n: State)
    requires Inv(s) && s.recovered && r in s.live && r !in s.queue
    ensures OnlyRun(s, n, r) && Reached(s, n, Stop(s, r, text))
  {
    hide Finalize, OnlyRun;
    assert RunOk(s, r);
    var m := s.Put(r, s.Get(r).(child := None));
    OwnRecord(s, m, r);
    PutInv(s, r, s.Get(r).(child := None));
    n := FinalizeEffect(m, r, Cancelled, text, false);
    Compose(s, m, n, Stop(s, r, text), r);
  }
}
