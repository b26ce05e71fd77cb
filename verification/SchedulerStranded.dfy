/**
 * A queue that waits beside free lanes with nothing pending that would look at it: what happens to it,
 * whatever follows.
 */
module SchedulerStranded {
  import opened Wrappers
  import opened SchedulerState
  import opened SchedulerSteps
  import opened SchedulerEffects
  import opened SchedulerVerdicts
  import opened SchedulerMoves
  import opened SchedulerCapacity
  import opened SchedulerPlaces
  import Verdicts = SchedulerVerdicts

  /** Nothing but admissions and deliveries is pending. */
  ghost predicate Idle(tasks: map<TaskId, Task>) {
    forall t :: t in tasks ==> tasks[t].Admitting? || tasks[t].Delivering? || tasks[t].OutcomeRetry?
  }

  /** Every lane is free, and nothing is pending that would look at the queue. */
  ghost predicate NothingPending(s: State) {
    && s.recovered && s.live == [] && s.starting == [] && !s.stopping && s.queueTimer.None? && Idle(s.tasks)
  }

  /** ... although dispatches wait. */
  ghost predicate Stranded(s: State) {
    NothingPending(s) && s.queue != []
  }

  predicate GoesDown(e: Event) {
    e.StopEverything? || e.Crash?
  }

  lemma {:induction false} DeliverAllTasks(s: State, rs: seq<RunId>)
    requires Idle(s.tasks)
    ensures Idle(DeliverAll(s, rs).tasks)
    decreases |rs|
  {
    if rs != [] { DeliverAllTasks(if s.Get(rs[0]).delivered then s else s.Add(Delivering(rs[0])), rs[1..]); }
  }

  lemma StrandedAdmit(s: State)
    requires Stranded(s)
    ensures Stranded(Admit(s)) && s.queue <= Admit(s).queue
  {
    hide Persist;
    var s1 := s.Put(s.nextRun, FRESH_RUN).(nextRun := s.nextRun + 1);
    PersistKeeps(s1.(queue := s1.queue + [s.nextRun]));
  }

  lemma DeliveryIdle(s: State, r: RunId, accepted: bool)
    requires Stranded(s)
    ensures Stranded(if accepted then Delivered(s, r) else ScheduleOutcomeRetry(s))
    ensures (if accepted then Delivered(s, r) else ScheduleOutcomeRetry(s)).queue == s.queue
  {
    hide Persist;
    PersistKeeps(s.Put(r, s.Get(r).(delivered := true)));
  }

  lemma StrandedFire(s: State, t: TaskId, o: Outcome)
    requires Stranded(s) && t in s.tasks && Fits(s.tasks[t], o)
    ensures Stranded(Next(s, Fire(t, o))) && s.queue <= Next(s, Fire(t, o)).queue
  {
    hide Admit, Delivered, ScheduleOutcomeRetry;
    var s1 := s.Drop(Some(t));
    match s.tasks[t]
    case Admitting => StrandedAdmit(s1);
    case Delivering(r) => DeliveryIdle(s1, r, o.Accepted?);
    case OutcomeRetry =>
      Verdicts.DeliverAllKeeps(s1.(outcomeTimer := None), s1.finished);
      DeliverAllTasks(s1.(outcomeTimer := None), s1.finished);
  }

  /** Cancelling a waiting dispatch settles it and starts nothing. */
  lemma StrandedStop(s: State, r: RunId, text: string)
    requires Stranded(s)
    ensures var s' := Stop(s, r, text);
            && NothingPending(s') && s'.queue == Without(s.queue, r)
            && (r in s.queue ==> s'.Get(r).phase.Cancelled?)
  {
    if r in s.queue {
      Safety.SettleKeeps(s.(queue := Without(s.queue, r)).Put(r, s.Get(r).(phase := Cancelled, result := Some(text))), r);
      assert Idle(Stop(s, r, text).tasks);
    } else {
      NothingToRemove(s.queue, r);
    }
  }

  lemma {:induction false} NothingToRemove(q: seq<RunId>, r: RunId)
    requires r !in q
    ensures Without(q, r) == q
  {
    if q != [] {
      assert q == [q[0]] + q[1..];
      NothingToRemove(q[1..], r);
    }
  }

  /** Short of going down, a step leaves the queue stranded or empty, and only cancelling takes a run out of it. */
  lemma StrandedStep(s: State, e: Event, x: RunId)
    requires LaneInv(s) && Stranded(s) && Enabled(s, e) && !GoesDown(e) && x in s.queue
    ensures Stranded(Next(s, e)) || Next(s, e).queue == []
    ensures x in Next(s, e).queue || (e.StopRun? && e.run == x && Next(s, e).Get(x).phase.Cancelled? && Aside(Next(s, e), x))
  {
    match e
    case Fire(t, o) => StrandedFire(s, t, o);
    case StopRun(r, text) =>
      StrandedStop(s, r, text);
      if r == x { CancelledAside(s, x, text); }
    case _ =>
  }

  lemma CancelledAside(s: State, x: RunId, text: string)
    requires LaneInv(s) && Stranded(s) && x in s.queue
    ensures Aside(Stop(s, x, text), x)
  {
    hide Stop;
    StrandedStop(s, x, text);
    StopKeepsIds(s, x, text);
  }

  lemma StopKeepsIds(s: State, r: RunId, text: string)
    ensures Stop(s, r, text).nextRun == s.nextRun
  {
    hide Stop, Moves;
    StopMoves(s, r, text);
    MovesIds(s, Stop(s, r, text));
  }

  lemma MovesIds(s: State, s': State)
    requires Moves(s, s')
    ensures s'.nextRun == s.nextRun
  {
  }

  /** Going down cancels or forgets the queue. */
  lemma StrandedGoesDown(s: State, e: Event, x: RunId)
    requires Stranded(s) && GoesDown(e)
    ensures !InLanes(Next(s, e), x)
  {
    if e.StopEverything? {
      hide SettleAll, Quiet, AllRecorded;
      var s1 := Quiet(s).(queue := []);
      QuietLanes(s);
      SettleAllCalm(s1, s.queue);
      assert SettleAll(s1, s.queue).live == [];
    }
  }

  lemma QuietLanes(s: State)
    ensures Quiet(s).live == s.live && Quiet(s).starting == s.starting && Quiet(s).queue == s.queue
  {
  }

  /**
   * Nothing that waits in a stranded queue is ever started, whatever is enabled and happens, restarts and
   * stale screenshots included; and until the daemon goes down it stays in a stranded queue or is
   * cancelled there and remains cancelled.
   */
  lemma {:induction false} StrandedForever(s: State, es: seq<Event>, x: RunId)
    requires Sound(s) && Stranded(s) && AllEnabled(s, es) && x in s.queue
    ensures x !in Execute(s, es).starting && x !in Execute(s, es).live
    ensures (forall i :: 0 <= i < |es| ==> !GoesDown(es[i])) ==>
              (Stranded(Execute(s, es)) && x in Execute(s, es).queue) || Execute(s, es).Get(x).phase.Cancelled?
    decreases |es|
  {
    hide Next, Enabled, Seats, LaneInv;
    if es != [] {
      var s1 := Next(s, es[0]);
      SoundStep(s, es[0]);
      Waiting(s, x);
      LaneStep(s, es[0]);
      if GoesDown(es[0]) {
        StrandedGoesDown(s, es[0], x);
        NeverBack(s1, es[1..], x);
      } else {
        StrandedStep(s, es[0], x);
        if x in s1.queue {
          StrandedForever(s1, es[1..], x);
        } else {
          NeverBack(s1, es[1..], x);
          if forall i :: 0 <= i < |es| ==> !GoesDown(es[i]) {
            Up(s, es[0]);
            AsideStays(s1, es[1..], x);
          }
        }
      }
    }
  }

  lemma Waiting(s: State, x: RunId)
    requires LaneInv(s) && x in s.queue
    ensures x < s.nextRun && x !in s.starting && x !in s.live
  {
  }
}
