/**
 * Restart safety: what boot and `recover` make of any file a crash can leave behind, and which accepted
 * runs the file names at every crash point.
 */
module SchedulerRecovery {
  import opened Wrappers
  import opened SchedulerState
  import opened SchedulerSteps
  import opened SchedulerSafety
  import opened SchedulerEffects
  import opened SchedulerVerdicts
  import opened SchedulerLedger
  import opened SchedulerMoves
  import opened SchedulerCapacity
  import opened SchedulerSync
  import Delivery = SchedulerDelivery
  import Places = SchedulerPlaces

  // ----------------------------------------------------- crash and recovery

  /** The history after boot and recovery, before trimming: first the ended runs, then the orphans. */
  function Recovered(disk: seq<Row>): seq<RunId> {
    Ids(disk, true) + Ids(disk, false)
  }

  /** What a row becomes: an ended run is kept as it is, any other is cancelled and to be reported. */
  function RecoveredRun(run: Run): Run {
    if run.phase.Terminal() then run else Orphaned(run)
  }

  /** Adopting a run twice is adopting it once. */
  lemma {:induction false} AdoptedRuns(s: State, rs: seq<RunId>)
    ensures forall r :: Adopt(s, rs).Get(r) == if r in rs then Orphaned(s.Get(r)) else s.Get(r)
    decreases |rs|
  {
    if rs != [] {
      var s1 := s.Put(rs[0], Orphaned(s.Get(rs[0])));
      var s2 := s1.(finished := s1.finished + [rs[0]]);
      AdoptedRuns(s2, rs[1..]);
      assert Orphaned(Orphaned(s.Get(rs[0]))) == Orphaned(s.Get(rs[0]));
      assert forall r :: r in rs <==> r == rs[0] || r in rs[1..];
    }
  }

  /** `recover` with an empty queue starts nothing. */
  lemma {:induction false} RecoverStartsNothing(s: State, rest: seq<RunId>)
    requires s.queue == []
    ensures var s' := RecoverNext(s, rest);
      s'.queue == [] && s'.starting == s.starting && s'.live == s.live && s'.finished == s.finished && s'.runs == s.runs
    decreases |rest|
  {
    if rest != [] && s.Get(rest[0]).delivered { RecoverStartsNothing(s, rest[1..]); }
  }

  /** `recover` in closed form. */
  lemma RecoverShape(s: State)
    requires s.queue == []
    ensures
      var s' := Recover(s);
      && s'.queue == [] && s'.starting == s.starting && s'.live == s.live && s'.orphans == []
      && s'.finished == Trim(s.finished + s.orphans, s'.runs)
      && (forall r :: s'.Get(r) == if r in s.orphans then Orphaned(s.Get(r)) else s.Get(r))
  {
    var s0 := s.(orphans := []);
    AdoptKeeps(s0, s.orphans);
    AdoptedRuns(s0, s.orphans);
    var s1 := Adopt(s0, s.orphans).(recovered := true);
    PersistKeeps(s1);
    var s2 := Persist(s1);
    RecoverStartsNothing(s2, s2.finished);
    RecoverLeavesOrphans(s2, s2.finished);
    assert forall r :: s1.Get(r) == Adopt(s0, s.orphans).Get(r) && s2.Get(r) == s1.Get(r) && Recover(s).Get(r) == s2.Get(r);
  }

  lemma {:induction false} RecoverLeavesOrphans(s: State, rest: seq<RunId>)
    ensures RecoverNext(s, rest).orphans == s.orphans
    decreases |rest|
  {
    if rest == [] { FillLanesKeeps(s); }
    else if s.Get(rest[0]).delivered { RecoverLeavesOrphans(s, rest[1..]); }
  }

  lemma {:induction false} IdsAre(rows: seq<Row>, terminal: bool)
    ensures forall r :: r in Ids(rows, terminal) <==>
              exists i :: 0 <= i < |rows| && rows[i].id == r && rows[i].run.phase.Terminal() == terminal
  {
    if rows != [] {
      var tail := rows[1..];
      IdsAre(tail, terminal);
      assert forall i :: 0 <= i < |tail| ==> tail[i] == rows[i + 1];
      assert forall i :: 1 <= i < |rows| ==> rows[i] == tail[i - 1];
    }
  }

  lemma {:induction false} LoadedAgrees(rows: seq<Row>)
    requires Delivery.RowsAgree(rows)
    ensures forall i :: 0 <= i < |rows| ==> rows[i].id in Loaded(rows) && Loaded(rows)[rows[i].id] == rows[i].run
    ensures forall r :: r in Loaded(rows) ==> OnDisk(rows, r)
  {
    if rows != [] {
      var front := rows[..|rows| - 1];
      LoadedAgrees(front);
      assert forall i :: 0 <= i < |front| ==> front[i] == rows[i];
      forall r | r in Loaded(rows) ensures OnDisk(rows, r) {
        if r in Loaded(front) {
          var i :| 0 <= i < |front| && front[i].id == r;
          assert rows[i].id == r;
        } else {
          assert rows[|rows| - 1].id == r;
        }
      }
    }
  }

  /** Boot reads each row back as it was written and sorts it by its phase. */
  lemma RowLoaded(s: State, row: Row)
    requires Delivery.RowsAgree(s.disk) && row in s.disk
    ensures Restart(s).Get(row.id) == row.run
    ensures row.id in Restart(s).orphans <==> !row.run.phase.Terminal()
    ensures row.id in Restart(s).finished <==> row.run.phase.Terminal()
  {
    IdsAre(s.disk, true);
    IdsAre(s.disk, false);
    LoadedAgrees(s.disk);
    var i :| 0 <= i < |s.disk| && s.disk[i] == row;
  }

  /** The file names no run twice. */
  ghost predicate Once(rows: seq<Row>) {
    forall i, j :: 0 <= i < j < |rows| ==> rows[i].id != rows[j].id
  }

  lemma {:induction false} TwiceInIds(rows: seq<Row>, terminal: bool, i: nat, j: nat)
    requires i < j < |rows| && rows[i].id == rows[j].id
    requires rows[i].run.phase.Terminal() == rows[j].run.phase.Terminal() == terminal
    ensures !Distinct(Ids(rows, terminal))
    decreases |rows|
  {
    var tail, ids := rows[1..], Ids(rows, terminal);
    assert tail[j - 1] == rows[j];
    if i == 0 {
      IdsAre(tail, terminal);
      assert rows[0].id in Ids(tail, terminal);
      var k :| 0 <= k < |Ids(tail, terminal)| && Ids(tail, terminal)[k] == rows[0].id;
      assert ids[k + 1] == ids[0];
    } else {
      assert tail[i - 1] == rows[i];
      TwiceInIds(tail, terminal, i - 1, j - 1);
      var a, b :| 0 <= a < b < |Ids(tail, terminal)| && Ids(tail, terminal)[a] == Ids(tail, terminal)[b];
      if ids != Ids(tail, terminal) { assert ids[a + 1] == ids[b + 1]; }
    }
  }

  /** The recovered history names the runs of the file, and each once exactly if the file does. */
  lemma RecoveredOnce(s: State)
    requires Delivery.RowsAgree(s.disk)
    ensures forall r :: r in Recovered(s.disk) <==> OnDisk(s.disk, r)
    ensures Distinct(Recovered(s.disk)) <==> Once(s.disk)
  {
    var ended, others := Ids(s.disk, true), Ids(s.disk, false);
    IdsAre(s.disk, true);
    IdsAre(s.disk, false);
    forall r | r in ended ensures r !in others {
      var i :| 0 <= i < |s.disk| && s.disk[i].id == r && s.disk[i].run.phase.Terminal();
      assert forall j :: 0 <= j < |s.disk| && s.disk[j].id == r ==> s.disk[j] == s.disk[i];
    }
    if Once(s.disk) {
      IdsOf(s.disk, true);
      IdsOf(s.disk, false);
      JoinDistinct(ended, others);
    } else {
      var i, j :| 0 <= i < j < |s.disk| && s.disk[i].id == s.disk[j].id;
      TwiceInIds(s.disk, s.disk[i].run.phase.Terminal(), i, j);
      PartsDistinct(ended, others);
    }
  }

  lemma PartsDistinct(a: seq<RunId>, b: seq<RunId>)
    ensures Distinct(a + b) ==> Distinct(a) && Distinct(b)
  {
    assert forall i :: 0 <= i < |a| ==> a[i] == (a + b)[i];
    assert forall i :: 0 <= i < |b| ==> b[i] == (a + b)[|a| + i];
  }

  lemma JoinDistinct(a: seq<RunId>, b: seq<RunId>)
    requires Distinct(a) && Distinct(b) && forall r :: r in a ==> r !in b
    ensures Distinct(a + b)
  {
    forall i, j | 0 <= i < j < |a + b| ensures (a + b)[i] != (a + b)[j] {
      if i < |a| <= j { assert a[i] in a && b[j - |a|] in b; }
    }
  }

  /** The file is written with a run twice exactly if the run is twice in the history, stale screenshots or not. */
  lemma WrittenOnceIff(s: State)
    requires Places.Sound(s) && !s.diskBroken
    ensures Once(Persist(s).disk) <==> Distinct(Persist(s).finished)
  {
    var ended := Trim(s.finished, s.runs);
    var waiting := s.live + s.starting;
    TrimSubset(s.finished, s.runs);
    hide Trim, Delivery.AllCovered, Delivery.Ready;
    JoinDistinct(s.live, s.starting);
    JoinDistinct(waiting, s.queue);
    if Distinct(ended) { JoinDistinct(waiting + s.queue, ended); }
    PartsDistinct(waiting + s.queue, ended);
    assert Once(Persist(s).disk) <==> Distinct(waiting + s.queue + ended);
  }

  /**
   * Whatever file a crash leaves, in any reachable state: boot and `recover` replay nothing and make each
   * row a terminal record; only trimming, which drops delivered runs first, removes any.
   */
  lemma RestartSafety(s: State)
    requires Delivery.RowsAgree(s.disk)
    ensures
      var s' := Recover(Restart(s));
      && s'.queue == s'.starting == s'.live == s'.orphans == []
      && (forall r :: r in Recovered(s.disk) <==> OnDisk(s.disk, r))
      && (forall row :: row in s.disk ==> s'.Get(row.id) == RecoveredRun(row.run) && s'.Get(row.id).phase.Terminal())
      && s'.finished == Trim(Recovered(s.disk), s'.runs)
  {
    hide Recover, Trim, Loaded, Ids;
    RecoveredOnce(s);
    RecoverShape(Restart(s));
    forall row | row in s.disk ensures Recover(Restart(s)).Get(row.id) == RecoveredRun(row.run) { RowLoaded(s, row); }
  }

  /** How many outcomes are still to be reported after recovery. */
  ghost function Owed(s: State): nat {
    |Undelivered(Recovered(s.disk), Recover(Restart(s)).runs)|
  }

  /** A crash in state `s` leaves a terminal record of run `r`, in the history unless more than fifty outcomes are owed. */
  ghost predicate Survives(s: State, r: RunId) {
    && Recover(Restart(s)).Get(r).phase.Terminal()
    && (Owed(s) <= 50 && !Recover(Restart(s)).Get(r).delivered ==> r in Recover(Restart(s)).finished)
  }

  lemma OnDiskSurvives(s: State, r: RunId)
    requires Delivery.RowsAgree(s.disk) && OnDisk(s.disk, r)
    ensures Survives(s, r)
  {
    RestartSafety(s);
    hide Recover, Restart, Recovered, Trim, Undelivered;
    var s' := Recover(Restart(s));
    var all := Recovered(s.disk);
    var i :| 0 <= i < |s.disk| && s.disk[i].id == r;
    assert s.disk[i] in s.disk;
    TrimLosesNothingOwed(all, s'.runs);
    UndeliveredMembers(all, s'.runs);
    UndeliveredMembers(s'.finished, s'.runs);
  }

  /**
   * At any crash point of any run in which ledger writes worked, stale screenshots included: every queued,
   * live and finished run, every run that is being started from the queue, and every run of the last boot
   * still to be adopted ends as a terminal record.  Without stale screenshots a finished one keeps its
   * verdict, its result and its delivery mark.
   */
  lemma NothingAcceptedIsLost(cap: nat, es: seq<Event>, r: RunId)
    requires cap >= 1 && AllEnabled(Init(cap), es) && forall i :: 0 <= i < |es| ==> !es[i].DiskFault?
    ensures
      var s := Execute(Init(cap), es);
      FromQueue(s, r) || r in s.live || r in s.finished || r in s.orphans ==> Survives(s, r)
    ensures
      var s := Execute(Init(cap), es);
      Clean(Init(cap), es) && r in s.finished ==> Recover(Restart(s)).Get(r) == Durable(s.Get(r))
  {
    var s := Execute(Init(cap), es);
    FileAgrees(cap, es);
    InitRows(cap);
    RowsAlways(Init(cap), es);
    hide Survives, Recover, Restart, LaneInv, Synced, Execute, AllEnabled, Clean;
    if FromQueue(s, r) || r in s.live || r in s.finished || r in s.orphans { OnDiskSurvives(s, r); }
    if Clean(Init(cap), es) && r in s.finished { HistorySurvives(cap, es, r); }
  }

  lemma HistorySurvives(cap: nat, es: seq<Event>, r: RunId)
    requires cap >= 1 && Clean(Init(cap), es) && forall i :: 0 <= i < |es| ==> !es[i].DiskFault?
    requires r in Execute(Init(cap), es).finished
    ensures var s := Execute(Init(cap), es); Recover(Restart(s)).Get(r) == Durable(s.Get(r))
  {
    InitRows(cap);
    hide Recover, Restart, LaneInv, RowsKept, Synced, Execute, Clean;
    InitInv(cap);
    RunInv(Init(cap), es);
    SyncedAlways(Init(cap), es);
    FinishedIsKept(Execute(Init(cap), es), r);
  }

  lemma InitRows(cap: nat)
    requires cap >= 1
    ensures LaneInv(Init(cap)) && RowsKept(Init(cap)) && Synced(Init(cap))
  {
  }

  /** In every reachable state two rows of one run are the same row, and rows are of admitted runs. */
  lemma FileAgrees(cap: nat, es: seq<Event>)
    requires AllEnabled(Init(cap), es)
    ensures var s := Execute(Init(cap), es); Delivery.RowsOk(s.disk, s.nextRun)
  {
    Delivery.CoveredRun(Init(cap), es);
  }

  /** A finished run whose row is its record, with its verdict, is as it was after a crash. */
  lemma FinishedIsKept(s: State, r: RunId)
    requires Inv(s) && Synced(s) && r in s.finished
    ensures Recover(Restart(s)).Get(r) == Durable(s.Get(r))
  {
    assert Row(r, Durable(s.Get(r))) in s.disk;
    assert s.Get(r).phase.Terminal() by { assert RunOk(s, r); }
    assert Delivery.RowsAgree(s.disk);
    hide Inv, Recover, Restart;
    RestartSafety(s);
  }

  // ------------------------------------------------- a crash after a stale screenshot

  /** A crash now would leave every run of the history as it is. */
  ghost predicate HistoryKept(s: State) {
    forall r :: r in s.finished ==> Recover(Restart(s)).Get(r) == Durable(s.Get(r))
  }

  lemma ParkedOnDisk(s: State, r: RunId, text: string)
    requires !s.diskBroken
    ensures var s' := Park(s, r, text);
            && Delivery.RowsAgree(s'.disk) && s'.Get(r).phase.Waiting? && s'.Get(r).result == s.Get(r).result
            && (forall x :: x != r ==> s'.Get(x) == s.Get(x))
            && (forall x :: x in s'.finished ==> x in s.finished && Row(x, Durable(s'.Get(x))) in s'.disk)
  {
    hide Trim;
    var s1 := s.Add(QuestionTimer(r));
    var s2 := s1.Put(r, s1.Get(r).(phase := Waiting, question := Some(text), questionTimer := Some(s.nextTask)));
    PersistKeeps(s2);
    Delivery.WrittenAgree(s2);
    assert forall x :: Park(s, r, text).Get(x) == s2.Get(x);
    WrittenFinished(s2);
  }

  lemma WrittenFinished(s: State)
    requires !s.diskBroken
    ensures forall x :: x in Persist(s).finished ==> Row(x, Durable(s.Get(x))) in Persist(s).disk
  {
    PersistKeeps(s);
    var s' := Persist(s);
    var ids := Recorded(s');
    forall x | x in s'.finished ensures Row(x, Durable(s.Get(x))) in s'.disk {
      assert x in ids;
      var i :| 0 <= i < |ids| && ids[i] == x;
      assert s'.disk[i] == Row(x, Durable(s.Get(x)));
    }
  }

  lemma StaleParks(s: State, e: Event)
    requires Inv(s) && Enabled(s, e) && StaleCapture(s, e)
    ensures Next(s, e) == Park(s.Drop(Some(e.task)), s.tasks[e.task].run, s.tasks[e.task].text)
    ensures forall x :: x in s.finished ==> s.Get(x).phase.Terminal()
  {
    hide Park;
    forall x | x in s.finished ensures s.Get(x).phase.Terminal() { assert RunOk(s, x); }
  }

  /** What a crash makes of a finished run after its stale screenshot: cancelled, and to be reported again. */
  lemma StaleIsRevoked(s: State, e: Event)
    requires Inv(s) && Enabled(s, e) && StaleCapture(s, e) && !s.diskBroken
    ensures var s', r := Next(s, e), s.tasks[e.task].run;
            && (forall x :: x in s'.finished && x != r ==> Recover(Restart(s')).Get(x) == Durable(s'.Get(x)))
            && (r in s'.finished ==>
                  var after := Recover(Restart(s')).Get(r);
                  && s'.Get(r).phase.Waiting? && after.phase.Cancelled? && !after.delivered && after.restartCancelled
                  && (s.Get(r).result.Some? ==> after.result == s.Get(r).result))
  {
    hide Inv, Next, Recover, Restart, Park, Persist;
    var r := s.tasks[e.task].run;
    var s1 := s.Drop(Some(e.task));
    StaleParks(s, e);
    ParkedOnDisk(s1, r, s.tasks[e.task].text);
    RecoveredRows(Next(s, e));
  }

  lemma RecoveredRows(s: State)
    requires Delivery.RowsAgree(s.disk)
    ensures forall x :: Row(x, Durable(s.Get(x))) in s.disk ==> Recover(Restart(s)).Get(x) == RecoveredRun(Durable(s.Get(x)))
  {
    hide Recover, Restart, Recovered, Trim;
    RestartSafety(s);
    forall x | Row(x, Durable(s.Get(x))) in s.disk ensures Recover(Restart(s)).Get(x) == RecoveredRun(Durable(s.Get(x))) {
      var row := Row(x, Durable(s.Get(x)));
      assert row in s.disk && row.id == x;
    }
  }

  /**
   * Exactly: while writes work, a crash after a step keeps every finished run, its verdict, result and
   * delivery mark, unless the step is a stale screenshot of a run that is in the history.
   */
  lemma HistoryKeptIff(s: State, e: Event)
    requires Inv(s) && Synced(s) && Enabled(s, e) && !e.DiskFault?
    ensures HistoryKept(Next(s, e)) <==> !(StaleCapture(s, e) && s.tasks[e.task].run in Next(s, e).finished)
  {
    hide Inv, Enabled, Next, Recover, Restart;
    if StaleCapture(s, e) {
      StaleIsRevoked(s, e);
    } else {
      NextInv(s, e);
      SyncedStep(s, e);
      forall r | r in Next(s, e).finished ensures Recover(Restart(Next(s, e))).Get(r) == Durable(Next(s, e).Get(r)) {
        FinishedIsKept(Next(s, e), r);
      }
    }
  }

  // ------------------------------------------------------- starts without a row

  /** Being on disk is all that counts. */
  lemma SurvivesOnDisk(s: State, r: RunId)
    requires Delivery.RowsAgree(s.disk)
    ensures Survives(s, r) <==> OnDisk(s.disk, r)
    ensures !OnDisk(s.disk, r) ==> r !in Recover(Restart(s)).runs
  {
    if OnDisk(s.disk, r) {
      OnDiskSurvives(s, r);
    } else {
      LoadedAgrees(s.disk);
      RecoverRuns(Restart(s));
      IdsAre(s.disk, false);
    }
  }

  /** The dispatch behind task `t` is about to be admitted straight into a free lane. */
  predicate AdmitsAtOnce(s: State, t: TaskId) {
    t in s.tasks && s.tasks[t].Admitting? && s.recovered && s.Busy() < s.cap && s.queue == []
  }

  lemma FreshHasNoRow(s: State, t: TaskId)
    requires Delivery.RowsOk(s.disk, s.nextRun) && AdmitsAtOnce(s, t)
    ensures var s' := Next(s, Fire(t, Validated(true)));
            s'.disk == s.disk && s'.writes == s.writes && s'.nextRun == s.nextRun + 1 && !OnDisk(s'.disk, s.nextRun)
  {
    ImmediateAdmission(s.Drop(Some(t)));
  }

  /**
   * The exact gap: as long as a run that was admitted straight into a lane is only being started, it
   * survives a crash if and only if some ledger write has worked since its admission; otherwise the
   * crash leaves no trace of it.
   */
  lemma StartSurvivesIff(cap: nat, before: seq<Event>, t: TaskId, after: seq<Event>)
    requires cap >= 1 && AllEnabled(Init(cap), before) && AdmitsAtOnce(Execute(Init(cap), before), t)
    requires var admitted := Next(Execute(Init(cap), before), Fire(t, Validated(true)));
             AllEnabled(admitted, after) && Execute(Init(cap), before).nextRun in Execute(admitted, after).starting
    ensures var r := Execute(Init(cap), before).nextRun;
            var admitted := Next(Execute(Init(cap), before), Fire(t, Validated(true)));
            var s := Execute(admitted, after);
            && (Survives(s, r) <==> s.writes > admitted.writes)
            && (s.writes == admitted.writes ==> r !in Recover(Restart(s)).runs)
  {
    var s0 := Execute(Init(cap), before);
    var e, r := Fire(t, Validated(true)), s0.nextRun;
    var admitted := Next(s0, e);
    AroundStep(cap, before, e, after);
    FreshHasNoRow(s0, t);
    hide Next, LaneInv, Survives, Recover, Restart;
    RowsSince(admitted, after);
    RowIffWritten(admitted, after, r);
    SurvivesOnDisk(Execute(admitted, after), r);
  }

  /** What is known before a step of a run, after it, and at the end. */
  lemma AroundStep(cap: nat, before: seq<Event>, e: Event, after: seq<Event>)
    requires cap >= 1 && AllEnabled(Init(cap), before) && Enabled(Execute(Init(cap), before), e)
    requires AllEnabled(Next(Execute(Init(cap), before), e), after)
    ensures var s := Execute(Init(cap), before);
            && Delivery.RowsOk(s.disk, s.nextRun) && LaneInv(Next(s, e))
            && Delivery.RowsAgree(Execute(Next(s, e), after).disk)
  {
    var s := Execute(Init(cap), before);
    InitLanes(cap);
    FileAgrees(cap, before);
    Delivery.CoveredRun(Init(cap), before);
    hide Next, Enabled, LaneInv, Delivery.Ready, Delivery.AllCovered;
    RunLanes(Init(cap), before);
    LaneStep(s, e);
    Delivery.CoveredStep(s, e);
    Delivery.CoveredRun(Next(s, e), after);
    ReadyAgrees(Execute(Next(s, e), after));
  }

  lemma ReadyAgrees(s: State)
    requires Delivery.Ready(s)
    ensures Delivery.RowsAgree(s.disk)
  {
  }

  lemma {:induction false} AdoptedKeys(s: State, rs: seq<RunId>)
    ensures forall r :: r in Adopt(s, rs).runs <==> r in s.runs || r in rs
    decreases |rs|
  {
    if rs != [] {
      var s1 := s.Put(rs[0], Orphaned(s.Get(rs[0])));
      AdoptedKeys(s1.(finished := s1.finished + [rs[0]]), rs[1..]);
      assert forall r :: r in rs <==> r == rs[0] || r in rs[1..];
    }
  }

  lemma RecoverRuns(s: State)
    ensures forall r :: r in Recover(s).runs <==> r in s.runs || r in s.orphans
  {
    AdoptedKeys(s.(orphans := []), s.orphans);
    var s1 := Adopt(s.(orphans := []), s.orphans).(recovered := true);
    PersistKeeps(s1);
    RecoverNextKeeps(Persist(s1), Persist(s1).finished);
  }
}
