/**
 * Each way in which the scheduler breaks a promise of its own, on a concrete run from an empty ledger:
 * a finished run is revived, a lease leaks, a queue is stranded, a younger run overtakes, an accepted
 * run is lost.
 */
module SchedulerInstances {
  import opened Wrappers
  import opened SchedulerState
  import opened SchedulerSteps
  import opened SchedulerSafety
  import opened SchedulerEffects
  import opened SchedulerVerdicts
  import opened SchedulerLanes
  import opened SchedulerStranded
  import Capacity = SchedulerCapacity
  import Recovery = SchedulerRecovery

  /** The state but for the ledger file. */
  ghost predicate Is(s: State, expected: State) {
    s.(disk := [], writes := 0) == expected
  }

  lemma Unroll(s: State, es: seq<Event>)
    requires es != []
    ensures Execute(s, es) == Execute(Next(s, es[0]), es[1..])
    ensures Clean(s, es) <==> Enabled(s, es[0]) && !StaleCapture(s, es[0]) && Clean(Next(s, es[0]), es[1..])
  {
  }

  /** The daemon has just come up on an empty ledger. */
  function Up(cap: nat): State {
    Init(cap).(recovered := true)
  }

  lemma ComesUp(cap: nat)
    ensures Is(Next(Init(cap), CallRecover), Up(cap)) && Next(Init(cap), CallRecover).disk == []
  {
    var s1 := Adopt(Init(cap).(orphans := []), []).(recovered := true);
    PersistKeeps(s1);
    assert Trim([], s1.runs) == [];
    assert Recorded(s1) == [];
  }

  /** One dispatch was accepted into a free lane; the lease is being taken. */
  function Started(cap: nat): State {
    Up(cap).(runs := map[0 := FRESH_RUN], nextRun := 1, starting := [0],
             tasks := map[1 := Acquiring(0, true)], nextTask := 2)
  }

  lemma FirstStarts(s: State, cap: nat)
    requires cap >= 1 && Is(s, Up(cap))
    ensures Enabled(s, Dispatch) && Enabled(Next(s, Dispatch), Fire(0, Validated(true)))
    ensures !StaleCapture(Next(s, Dispatch), Fire(0, Validated(true)))
    ensures var s' := Next(Next(s, Dispatch), Fire(0, Validated(true)));
            Is(s', Started(cap)) && s'.disk == s.disk
  {
    assert s.Busy() == 0;
    assert Next(s, Dispatch).tasks == map[0 := Admitting];
    assert Next(s, Dispatch).Drop(Some(0)).tasks == map[];
  }

  /** The daemon comes up and accepts a dispatch. */
  const ACCEPTED: seq<Event> := [CallRecover, Dispatch, Fire(0, Validated(true))]

  /** Any run that begins with the first dispatch is a run from `s`, in which it is starting. */
  lemma BeginsAccepted(cap: nat, rest: seq<Event>) returns (s: State)
    requires cap >= 1
    ensures Is(s, Started(cap)) && s.disk == []
    ensures Execute(Init(cap), ACCEPTED + rest) == Execute(s, rest)
    ensures Clean(Init(cap), ACCEPTED + rest) <==> Clean(s, rest)
  {
    var es := ACCEPTED + rest;
    var s1 := Next(Init(cap), CallRecover);
    ComesUp(cap);
    FirstStarts(s1, cap);
    s := Next(Next(s1, Dispatch), Fire(0, Validated(true)));
    Unroll(Init(cap), es);
    Unroll(s1, es[1..]);
    Unroll(Next(s1, Dispatch), es[2..]);
    assert es[1..][1..] == es[2..] && es[2..][1..] == rest;
  }

  /** Two events in a row. */
  lemma Two(s: State, a: Event, b: Event, rest: seq<Event>)
    ensures Execute(s, [a, b] + rest) == Execute(Next(Next(s, a), b), rest)
    ensures Clean(s, [a, b] + rest) <==>
              && Enabled(s, a) && !StaleCapture(s, a) && Enabled(Next(s, a), b) && !StaleCapture(Next(s, a), b)
              && Clean(Next(Next(s, a), b), rest)
  {
    var es := [a, b] + rest;
    Unroll(s, es);
    Unroll(Next(s, a), es[1..]);
    assert es[1..][1..] == rest && es[1..][0] == b;
  }

  // -------------------------------------------------------- a revived run

  /** The run asks a question; while the screenshot is taken it is stopped, and its lease released. */
  const ASKS: seq<Event> := [Fire(1, Granted(true)), Fire(2, Exited(true, NeedsInput("q"), false))]
  const STOPPED: seq<Event> := [StopRun(0, "x"), Fire(5, Released(true, 0))]

  const ARRIVES := Fire(4, Captured)
  const TIMES_OUT := Fire(7, Outcome.Fired)

  const UP := Up(1).(nextRun := 1)
  const IN_LEG := UP.(
    runs := map[0 := FRESH_RUN.(phase := Running, child := Some(2), hardTimer := Some(3))],
    live := [0], leases := {0}, tasks := map[2 := LegWait(0, 1, false), 3 := HardTimer(0, 2)], nextTask := 4)
  const CAPTURING := UP.(
    runs := map[0 := FRESH_RUN.(phase := Running)],
    live := [0], leases := {0}, tasks := map[4 := Capturing(0, "q")], nextTask := 5)
  const VERDICT := FRESH_RUN.(phase := Cancelled, result := Some("x"))
  const RELEASING := UP.(
    runs := map[0 := VERDICT], live := [0], leases := {0},
    tasks := map[4 := Capturing(0, "q"), 5 := Releasing(0, Cancelled, false)], nextTask := 6)
  const ENDED := UP.(
    runs := map[0 := VERDICT], finished := [0], tasks := map[4 := Capturing(0, "q"), 6 := Delivering(0)], nextTask := 7)
  const REVIVED := UP.(
    runs := map[0 := VERDICT.(phase := Waiting, question := Some("q"), questionTimer := Some(7))],
    finished := [0], tasks := map[6 := Delivering(0), 7 := QuestionTimer(0), 8 := Asking(0)], nextTask := 9)

  lemma Granting(s: State)
    requires Is(s, Started(1))
    ensures Is(Next(s, Fire(1, Granted(true))), IN_LEG)
  {
    var s1 := s.Drop(Some(1));
    var s2 := GoLive(s1, 0);
    assert Without([0], 0) == [];
    PersistKeeps(s2.Put(0, s2.Get(0).(phase := Running, question := None, anchor := None)));
    var s3 := Relaunch(s2, 0);
    assert s3.finished == [];
    assert s3.tasks == map[];
    assert s3.leases == {0};
  }

  lemma Asks(s: State)
    requires Is(s, IN_LEG)
    ensures Is(Next(s, Fire(2, Exited(true, NeedsInput("q"), false))), CAPTURING)
  {
    var s1 := s.Drop(Some(2));
    assert s1.tasks == map[3 := HardTimer(0, 2)];
    var s2 := Reap(s1, 0);
    assert s2.tasks == map[];
    assert s2.runs == map[0 := FRESH_RUN.(phase := Running)];
  }

  lemma Stops(s: State)
    requires Is(s, CAPTURING)
    ensures Is(Next(s, StopRun(0, "x")), RELEASING)
  {
    var s1 := s.Put(0, s.Get(0).(child := None));
    var s2 := Conclude(s1, 0, Cancelled, "x");
    assert s2.runs == map[0 := VERDICT] && s2.tasks == s.tasks;
  }

  lemma Releases(s: State)
    requires Is(s, RELEASING)
    ensures Is(Next(s, Fire(5, Released(true, 0))), ENDED)
  {
    var s1 := Free(s.Drop(Some(5)), 0, true);
    assert s1.tasks == map[4 := Capturing(0, "q")] && s1.leases == {};
    assert Without([0], 0) == [];
    var s2 := s1.Put(0, VERDICT).(live := []);
    assert s2.runs == map[0 := VERDICT];
    PersistKeeps(s2.(finished := [0]));
    assert Settle(s2, 0).finished == [0];
  }

  lemma Revives(s: State)
    requires Is(s, ENDED)
    ensures StaleCapture(s, ARRIVES) && Is(Next(s, ARRIVES), REVIVED)
  {
    var s1 := s.Drop(Some(4));
    assert s1.tasks == map[6 := Delivering(0)];
    var s2 := s1.Add(QuestionTimer(0));
    var s3 := s2.Put(0, s2.Get(0).(phase := Waiting, question := Some("q"), questionTimer := Some(7)));
    PersistKeeps(s3);
    assert Persist(s3).finished == [0];
  }

  lemma EndsTwice(s: State)
    requires Is(s, REVIVED)
    ensures Next(s, TIMES_OUT).finished == [0, 0] && Next(s, TIMES_OUT).Get(0).phase.Timeout?
    ensures var disk := Next(s, TIMES_OUT).disk; |disk| == 2 && disk[0].id == disk[1].id == 0
  {
    var s1 := s.Drop(Some(7));
    var s2 := Conclude(s1, 0, Timeout, QUESTION_TIMEOUT_TEXT);
    assert Without([], 0) == [];
    var s3 := s2.Put(0, s2.Get(0)).(live := []);
    TwiceWritten(s3);
    assert Next(s, TIMES_OUT) == MaybeStartNext(Settle(s3, 0));
  }

  /** The run enters the history a second time. */
  lemma TwiceWritten(s: State)
    requires s.finished == [0] && s.live == [] && s.starting == [] && s.queue == [] && !s.diskBroken
    ensures var s' := Settle(s, 0);
            && s'.finished == [0, 0] && |s'.disk| == 2 && s'.disk[0].id == s'.disk[1].id == 0
            && s'.runs == s.runs && s'.queue == []
  {
    var s1 := s.(finished := s.finished + [0]);
    assert s1.finished == [0, 0];
    assert Trim(s1.finished, s1.runs) == s1.finished;
    assert Recorded(s1) == [0, 0];
  }

  /** From an empty ledger, by enabled steps only: finished, then waiting again, then finished twice. */
  lemma RevivalHappens()
    ensures var es := ACCEPTED + (ASKS + STOPPED);
            var s := Execute(Init(1), es);
            && Clean(Init(1), es) && StaleCapture(s, ARRIVES) && Enabled(s, ARRIVES)
            && s.finished == [0] && s.Get(0).phase.Cancelled?
            && Next(s, ARRIVES).finished == [0] && Next(s, ARRIVES).Get(0).phase.Waiting?
            && Enabled(Next(s, ARRIVES), TIMES_OUT)
            && Next(Next(s, ARRIVES), TIMES_OUT).finished == [0, 0]
  {
    var s := BeginsAccepted(1, ASKS + STOPPED);
    var s1 := AsksRun(s, STOPPED);
    var s2 := StoppedRun(s1);
    Revives(s2);
    EndsTwice(Next(s2, ARRIVES));
  }

  lemma AsksRun(s: State, rest: seq<Event>) returns (s': State)
    requires Is(s, Started(1))
    ensures Is(s', CAPTURING) && Execute(s, ASKS + rest) == Execute(s', rest)
    ensures Clean(s, ASKS + rest) <==> Clean(s', rest)
  {
    Granting(s);
    Asks(Next(s, ASKS[0]));
    Two(s, ASKS[0], ASKS[1], rest);
    s' := Next(Next(s, ASKS[0]), ASKS[1]);
  }

  lemma StopsThen(s: State, rest: seq<Event>) returns (s': State)
    requires Is(s, CAPTURING)
    ensures Is(s', ENDED) && Execute(s, STOPPED + rest) == Execute(s', rest)
    ensures Clean(s, STOPPED + rest) <==> Clean(s', rest)
  {
    Stops(s);
    Releases(Next(s, STOPPED[0]));
    Two(s, STOPPED[0], STOPPED[1], rest);
    s' := Next(Next(s, STOPPED[0]), STOPPED[1]);
  }

  lemma StoppedRun(s: State) returns (s': State)
    requires Is(s, CAPTURING)
    ensures Is(s', ENDED) && Execute(s, STOPPED) == s' && Clean(s, STOPPED)
  {
    s' := StopsThen(s, []);
    assert STOPPED + [] == STOPPED;
  }

  /** Finished twice, the run is twice in the file. */
  lemma TwoRows()
    ensures var s := Next(Next(Execute(Init(1), ACCEPTED + (ASKS + STOPPED)), ARRIVES), TIMES_OUT);
            Capacity.AllEnabled(Init(1), ACCEPTED + (ASKS + STOPPED)) && |s.disk| == 2 && s.disk[0].id == s.disk[1].id == 0
  {
    var s := BeginsAccepted(1, ASKS + STOPPED);
    var s1 := AsksRun(s, STOPPED);
    var s2 := StoppedRun(s1);
    Capacity.CleanIsEnabled(Init(1), ACCEPTED + (ASKS + STOPPED));
    Revives(s2);
    EndsTwice(Next(s2, ARRIVES));
  }

  // ------------------------------------------------------ a revoked delivery

  const REPORTS := Fire(6, Accepted)
  const REPORTED := ENDED.(
    runs := map[0 := VERDICT.(delivered := true)], tasks := map[4 := Capturing(0, "q")])

  lemma IsReported(s: State)
    requires Is(s, ENDED)
    ensures Enabled(s, REPORTS) && !StaleCapture(s, REPORTS) && Is(Next(s, REPORTS), REPORTED)
  {
    var s1 := s.Drop(Some(6));
    assert s1.tasks == map[4 := Capturing(0, "q")];
    var s2 := s1.Put(0, VERDICT.(delivered := true));
    assert s2.runs == map[0 := VERDICT.(delivered := true)];
    PersistKeeps(s2);
    assert Persist(s2).finished == [0];
  }

  lemma ParksReported(s: State)
    requires Is(s, REPORTED)
    ensures Enabled(s, ARRIVES) && StaleCapture(s, ARRIVES) && Next(s, ARRIVES).finished == [0]
  {
    var s1 := s.Drop(Some(4)).Add(QuestionTimer(0));
    PersistKeeps(s1.Put(0, s1.Get(0).(phase := Waiting, question := Some("q"), questionTimer := Some(7))));
  }

  /**
   * A run that had ended and whose outcome was delivered; its screenshot arrives, the daemon crashes and
   * recovers: the run is cancelled by the restart, and its outcome is to be delivered again.
   */
  lemma DeliveryRevoked()
    ensures var es := ACCEPTED + (ASKS + (STOPPED + [REPORTS]));
            var s := Execute(Init(1), es);
            var after := Recover(Restart(Next(s, ARRIVES))).Get(0);
            && Clean(Init(1), es) && Enabled(s, ARRIVES) && s.finished == [0] && s.Get(0).delivered && !s.Get(0).restartCancelled
            && after.phase.Cancelled? && !after.delivered && after.restartCancelled
  {
    var es := ACCEPTED + (ASKS + (STOPPED + [REPORTS]));
    var s := BeginsAccepted(1, ASKS + (STOPPED + [REPORTS]));
    var s1 := AsksRun(s, STOPPED + [REPORTS]);
    var s2 := StopsThen(s1, [REPORTS]);
    IsReported(s2);
    Unroll(s2, [REPORTS]);
    var s3 := Next(s2, REPORTS);
    ParksReported(s3);
    InitInv(1);
    RunInv(Init(1), es);
    Recovery.StaleIsRevoked(s3, ARRIVES);
  }

  // ------------------------------------------------------ an unproved success

  /** The run claims success, to be proved by its release; meanwhile another dispatch is queued. */
  const CLAIMS: seq<Event> := [Fire(1, Granted(true)), Fire(2, Exited(true, Completed("ok", true), false))]
  const QUEUES: seq<Event> := [Dispatch, Fire(5, Validated(true))]

  const CLAIM := FRESH_RUN.(phase := Done, result := Some("ok"))
  const PROVING := UP.(
    runs := map[0 := CLAIM], live := [0], leases := {0}, tasks := map[4 := Releasing(0, Done, true)], nextTask := 5)

  lemma IsClaimed(s: State)
    requires Is(s, IN_LEG)
    ensures Enabled(s, CLAIMS[1]) && !StaleCapture(s, CLAIMS[1]) && Is(Next(s, CLAIMS[1]), PROVING) && !Next(s, CLAIMS[1]).diskBroken
  {
    var s1 := s.Drop(Some(2));
    assert s1.tasks == map[3 := HardTimer(0, 2)];
    var s2 := Reap(s1, 0);
    assert s2.tasks == map[] && s2.runs == map[0 := FRESH_RUN.(phase := Running)];
    assert Conclude(s2, 0, Done, "ok").runs == map[0 := CLAIM];
    assert Next(s, CLAIMS[1]).tasks == map[4 := Releasing(0, Done, true)];
  }

  /** The claim is in the file when the other dispatch is. */
  lemma IsWritten(s: State)
    requires Is(s, PROVING)
    ensures Enabled(s, QUEUES[0]) && !StaleCapture(s, QUEUES[0]) && Enabled(Next(s, QUEUES[0]), QUEUES[1]) && !StaleCapture(Next(s, QUEUES[0]), QUEUES[1])
    ensures Next(Next(s, QUEUES[0]), QUEUES[1]).disk == [Row(0, CLAIM), Row(1, FRESH_RUN)]
    ensures Next(Next(s, QUEUES[0]), QUEUES[1]).tasks == PROVING.tasks
  {
    var s1 := Next(s, QUEUES[0]);
    assert s1.tasks == map[4 := Releasing(0, Done, true), 5 := Admitting];
    var s2 := s1.Drop(Some(5));
    assert s2.tasks == PROVING.tasks;
    var s3 := s2.Put(1, FRESH_RUN).(nextRun := 2, queue := [1]);
    assert Trim([], s3.runs) == [];
    assert Recorded(s3) == [0, 1];
    assert Durable(CLAIM) == CLAIM && Durable(FRESH_RUN) == FRESH_RUN;
    assert Rows([0, 1], s3.runs) == [Row(0, CLAIM), Row(1, FRESH_RUN)];
    assert [] + [1] == [1];
  }

  /**
   * A success that is still to be proved; another dispatch writes the file; the daemon crashes and
   * recovers: the run is done, without a proof, and its outcome is to be delivered as a success.
   */
  lemma UnprovedSuccessHappens()
    ensures var es := ACCEPTED + (CLAIMS + QUEUES);
            var s := Execute(Init(1), es);
            var after := Recover(Restart(s)).Get(0);
            && Clean(Init(1), es) && s.tasks == map[4 := Releasing(0, Done, true)]
            && after.phase.Done? && after.proofFiles == 0 && !after.delivered && !after.restartCancelled
  {
    hide Recover, Restart, Next, Enabled, StaleCapture, Clean, Execute;
    var s := BeginsAccepted(1, CLAIMS + QUEUES);
    GrantingIsClean(s);
    Granting(s);
    Two(s, CLAIMS[0], CLAIMS[1], QUEUES);
    IsClaimed(Next(s, CLAIMS[0]));
    var s1 := Next(Next(s, CLAIMS[0]), CLAIMS[1]);
    Two(s1, QUEUES[0], QUEUES[1], []);
    assert CLAIMS == [CLAIMS[0], CLAIMS[1]] && [QUEUES[0], QUEUES[1]] + [] == QUEUES;
    IsWritten(s1);
    NothingElse(Next(Next(s1, QUEUES[0]), QUEUES[1]));
    ClaimStands(Next(Next(s1, QUEUES[0]), QUEUES[1]));
  }

  lemma GrantingIsClean(s: State)
    requires Is(s, Started(1))
    ensures Enabled(s, CLAIMS[0]) && !StaleCapture(s, CLAIMS[0])
  {
  }

  lemma NothingElse(s: State)
    ensures Execute(s, []) == s && Clean(s, [])
  {
  }

  /** Recovery takes the claim for an ended run. */
  lemma ClaimStands(s: State)
    requires s.disk == [Row(0, CLAIM), Row(1, FRESH_RUN)]
    ensures Recover(Restart(s)).Get(0) == CLAIM
  {
    hide Recover, Restart;
    Recovery.RestartSafety(s);
    assert Row(0, CLAIM) in s.disk;
  }

  // ------------------------------------------------------ a leaked lease

  /** The stopped run's release is reported as failed. */
  const LEAKED: seq<Event> := [StopRun(0, "x"), Fire(5, Released(false, 0))]

  lemma Leaks(s: State)
    requires Is(s, RELEASING)
    ensures Enabled(s, Fire(5, Released(false, 0))) && Leak(s, Fire(5, Released(false, 0)))
    ensures var s' := Next(s, Fire(5, Released(false, 0))); s'.leases == {0} && s'.live == [] && s'.starting == []
  {
    var s1 := s.Drop(Some(5));
    assert s1.tasks == map[4 := Capturing(0, "q")];
    assert Without([0], 0) == [];
    FinalizeEndKeeps(s1, 0, Cancelled, false, 0);
    SettleKeeps(s1.Put(0, VERDICT).(live := []), 0);
  }

  /** The run has ended and holds no lane, and the lease is still held in its name. */
  lemma LeakHappens()
    ensures var es := ACCEPTED + (ASKS + LEAKED);
            var s := Execute(Init(1), es);
            Clean(Init(1), es) && s.leases == {0} && s.live == [] && s.starting == [] && !LeasesOwned(s)
  {
    var s0 := BeginsAccepted(1, ASKS + LEAKED);
    var s := AsksRun(s0, LEAKED);
    Stops(s);
    Leaks(Next(s, LEAKED[0]));
    Two(s, LEAKED[0], LEAKED[1], []);
    assert LEAKED + [] == LEAKED;
  }

  // ----------------------------------------------------- a stranded queue

  /** With one lane: dispatch A, dispatch B, then A's start fails outright. */
  const STRANDING: seq<Event> := ACCEPTED + ([Dispatch, Fire(2, Validated(true))] + [Fire(1, Refused(false))])

  /** A second dispatch waits behind the first. */
  const SECOND_WAITS := Started(1).(
    runs := map[0 := FRESH_RUN, 1 := FRESH_RUN], nextRun := 2, queue := [1], nextTask := 3)

  lemma SecondWaits(s: State)
    requires Is(s, Started(1))
    ensures Enabled(s, Dispatch) && Enabled(Next(s, Dispatch), Fire(2, Validated(true)))
    ensures !StaleCapture(Next(s, Dispatch), Fire(2, Validated(true)))
    ensures Is(Next(Next(s, Dispatch), Fire(2, Validated(true))), SECOND_WAITS)
  {
    var s1 := Next(s, Dispatch).Drop(Some(2));
    assert s1.tasks == map[1 := Acquiring(0, true)];
    PersistKeeps(s1.Put(1, FRESH_RUN).(nextRun := 2, queue := [1]));
  }

  lemma FirstFails(s: State)
    requires Is(s, SECOND_WAITS)
    ensures Enabled(s, Fire(1, Refused(false))) && Strands(s, Fire(1, Refused(false)))
    ensures Stranded(Next(s, Fire(1, Refused(false))))
  {
    var s1 := s.Drop(Some(1));
    assert s1.tasks == map[] && Without([0], 0) == [];
    var s2 := s1.(starting := []).Put(0, s1.Get(0).(phase := Error, result := Some(START_TEXT)));
    SettleKeeps(s2, 0);
    assert Settle(s2, 0).tasks == map[3 := Delivering(0)];
  }

  lemma StrandingHappens()
    ensures Clean(Init(1), STRANDING) && Stranded(Execute(Init(1), STRANDING))
    ensures Execute(Init(1), STRANDING).queue == [1]
  {
    var s := BeginsAccepted(1, STRANDING[3..]);
    var s2 := Next(Next(s, Dispatch), Fire(2, Validated(true)));
    SecondWaits(s);
    Two(s, Dispatch, Fire(2, Validated(true)), [Fire(1, Refused(false))]);
    FirstFails(s2);
    Unroll(s2, [Fire(1, Refused(false))]);
  }

  // -------------------------------------------------------- an overtaking

  /** With two lanes: A and B start at once, and A loses its lease race while B holds on. */
  const OVERTAKING: seq<Event> := ACCEPTED + ([Dispatch, Fire(2, Validated(true))] + [Fire(1, Refused(true))])

  const BOTH_START := Started(2).(
    runs := map[0 := FRESH_RUN, 1 := FRESH_RUN], nextRun := 2, starting := [0, 1],
    tasks := map[1 := Acquiring(0, true), 3 := Acquiring(1, true)], nextTask := 4)

  lemma SecondStarts(s: State)
    requires Is(s, Started(2))
    ensures Enabled(s, Dispatch) && Enabled(Next(s, Dispatch), Fire(2, Validated(true)))
    ensures !StaleCapture(Next(s, Dispatch), Fire(2, Validated(true)))
    ensures Is(Next(Next(s, Dispatch), Fire(2, Validated(true))), BOTH_START)
  {
    var s1 := Next(s, Dispatch).Drop(Some(2));
    assert s1.tasks == map[1 := Acquiring(0, true)];
    assert [0] + [1] == [0, 1];
  }

  lemma FirstLosesRace(s: State)
    requires Is(s, BOTH_START)
    ensures Fifo(s) && Overtakes(s, Fire(1, Refused(true)))
    ensures var s' := Next(s, Fire(1, Refused(true))); s'.queue == [0] && s'.starting == [1] && !Fifo(s')
  {
    hide Trim, Ids;
    var e := Fire(1, Refused(true));
    assert 1 in s.starting && s.tasks[1].run < 1;
    assert [0, 1][1..] == [1] && [1][1..] == [];
    assert Without([1], 0) == [1] + Without([], 0);
    assert Without([0, 1], 0) == [1];
    PersistKeeps(s.Drop(Some(1)).(starting := [1], queue := [0]));
    var s' := Next(s, e);
    assert 1 in s'.starting && 0 in s'.queue;
  }

  /** The run dispatched first is left in the queue while the second holds its lane. */
  lemma OvertakingHappens()
    ensures Clean(Init(2), OVERTAKING)
    ensures var s := Execute(Init(2), OVERTAKING); s.queue == [0] && s.starting == [1] && !Fifo(s)
  {
    var s := BeginsAccepted(2, OVERTAKING[3..]);
    var s2 := Next(Next(s, Dispatch), Fire(2, Validated(true)));
    SecondStarts(s);
    Two(s, Dispatch, Fire(2, Validated(true)), [Fire(1, Refused(true))]);
    FirstLosesRace(s2);
    Unroll(s2, [Fire(1, Refused(true))]);
  }

  // ---------------------------------------------------------- a lost start

  /** A crash before the lease is granted forgets an accepted dispatch without a trace. */
  lemma ImmediateStartCanBeLost()
    ensures var s := Execute(Init(1), ACCEPTED);
            Clean(Init(1), ACCEPTED) && s.starting == [0] && 0 in s.runs && 0 !in Recover(Restart(s)).runs
  {
    var s := BeginsAccepted(1, []);
    assert ACCEPTED + [] == ACCEPTED;
    Recovery.RecoverRuns(Restart(s));
  }
}
