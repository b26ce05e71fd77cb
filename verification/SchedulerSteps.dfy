/**
 * What each synchronous stretch of the scheduler's code does to the state.  The class in
 * SchedulerAgent is proved against these functions, and every property of runs is proved of them.
 */
module SchedulerSteps {
  import opened Wrappers
  import opened SchedulerState

  const LEDGER_FINISHED_CAP: nat := 50
  const LEG_MAX_ATTEMPTS: nat := 3

  const RESTART_TEXT := "Cancelled because the daemon restarted before this browser task finished."
  const STOP_TEXT := "The run was stopped by the dispatcher before it finished."
  const HARD_TIMEOUT_TEXT := "Active browser work timed out and was killed."
  const QUESTION_TIMEOUT_TEXT := "Timed out waiting for an answer."
  const ATTACH_TEXT := "The browser control tool failed to attach."
  const SPAWN_TEXT := "browser agent spawn failed"
  const NO_QUESTION_TEXT := "needs input but named no question"
  const ASK_TEXT := "Could not ask the browser question"
  const START_TEXT := "The browser run could not start. Dispatch it again to retry."
  const UNVERIFIED_TEXT := "\n\nBeckett could not capture completion proof. Treat the outcome as unverified."

  // ---------------------------------------------------------------- ledger

  /** Index of the finished run that trimming drops next. */
  function Evictable(finished: seq<RunId>, runs: map<RunId, Run>): (i: nat)
    requires finished != []
    ensures i < |finished|
  {
    var k := FirstDelivered(finished, runs);
    if k < |finished| then k else 0
  }

  function FirstDelivered(finished: seq<RunId>, runs: map<RunId, Run>): (k: nat)
    ensures k <= |finished|
    ensures k < |finished| ==> IsDelivered(finished[k], runs)
    ensures forall j :: 0 <= j < k ==> !IsDelivered(finished[j], runs)
  {
    if finished == [] then 0
    else if IsDelivered(finished[0], runs) then 0
    else 1 + FirstDelivered(finished[1..], runs)
  }

  predicate IsDelivered(r: RunId, runs: map<RunId, Run>) {
    r in runs && runs[r].delivered
  }

  function Trim(finished: seq<RunId>, runs: map<RunId, Run>): seq<RunId>
    decreases |finished|
  {
    if |finished| <= LEDGER_FINISHED_CAP then finished
    else
      var i := Evictable(finished, runs);
      Trim(finished[..i] + finished[i + 1..], runs)
  }

  function Rows(ids: seq<RunId>, runs: map<RunId, Run>): (rows: seq<Row>)
    ensures |rows| == |ids|
    ensures forall i :: 0 <= i < |ids| ==> rows[i].id == ids[i]
  {
    seq(|ids|, i requires 0 <= i < |ids| =>
      Row(ids[i], if ids[i] in runs then Durable(runs[ids[i]]) else FRESH_RUN))
  }

  /** Everything the daemon knows, in the order it is written out; `orphans` is not written. */
  function Recorded(s: State): seq<RunId> {
    s.live + s.starting + s.queue + s.finished
  }

  function Persist(s: State): State {
    var trimmed := s.(finished := Trim(s.finished, s.runs));
    if s.diskBroken then trimmed
    else trimmed.(disk := Rows(Recorded(trimmed), trimmed.runs), writes := trimmed.writes + 1)
  }

  // -------------------------------------------------------------- delivery

  function ScheduleOutcomeRetry(s: State): State {
    if s.stopping || s.outcomeTimer.Some? then s
    else s.Add(OutcomeRetry).(outcomeTimer := Some(s.nextTask))
  }

  function Delivered(s: State, r: RunId): State {
    Persist(s.Put(r, s.Get(r).(delivered := true)))
  }

  /** `deliverOutcome` for every undelivered run of the list, in order. */
  function DeliverAll(s: State, rs: seq<RunId>): State
    decreases |rs|
  {
    if rs == [] then s
    else
      var s' := if s.Get(rs[0]).delivered then s else s.Add(Delivering(rs[0]));
      DeliverAll(s', rs[1..])
  }

  // -------------------------------------------------- queue and admission

  function ScheduleQueueRetry(s: State): State {
    if s.stopping || s.queueTimer.Some? then s
    else s.Add(QueueRetry).(queueTimer := Some(s.nextTask))
  }

  function StartDispatch(s: State, r: RunId, immediate: bool): State {
    s.(starting := Insert(s.starting, r)).Add(Acquiring(r, immediate))
  }

  function FillLanes(s: State): State
    decreases |s.queue|
  {
    if s.queue != [] && s.Busy() < s.cap then
      FillLanes(StartDispatch(s.(queue := s.queue[1..]), s.queue[0], false))
    else s
  }

  function MaybeStartNext(s: State): State {
    if s.stopping then s else FillLanes(s)
  }

  /** Enter a terminal run into the history, write the ledger, start delivery. */
  function Settle(s: State, r: RunId): State {
    Persist(s.(finished := s.finished + [r])).Add(Delivering(r))
  }

  /** Terminal bookkeeping for a run that never started. */
  function SettleQueued(s: State, r: RunId, final: Phase, text: string): State {
    Settle(s.Put(r, s.Get(r).(phase := final, result := Some(text))), r)
  }

  /** The rejection handler of `startDispatch`, on the immediate or on the queued path. */
  function StartFailed(s: State, r: RunId, immediate: bool, race: bool): State {
    var s1 := s.(starting := Without(s.starting, r));
    if race then
      var s2 := s1.(queue := if immediate then s1.queue + [r] else [r] + s1.queue);
      ScheduleQueueRetry(Persist(s2))
    else
      var s2 := SettleQueued(s1, r, Error, START_TEXT);
      if immediate then s2 else MaybeStartNext(s2)
  }

  function Admit(s: State): State {
    var r := s.nextRun;
    var s1 := s.Put(r, FRESH_RUN).(nextRun := r + 1);
    if s1.Busy() >= s1.cap || s1.queue != [] then Persist(s1.(queue := s1.queue + [r]))
    else StartDispatch(s1, r, true)
  }

  // -------------------------------------------------------------- finalize

  function ClearTimers(s: State, r: RunId): State {
    var run := s.Get(r);
    s.Drop(run.hardTimer).Drop(run.questionTimer).Put(r, run.(hardTimer := None, questionTimer := None))
  }

  /** The record `finalize` leaves behind once the lease is gone. */
  function Verified(run: Run, final: Phase, captureProof: bool, proofs: nat): Run {
    if final.Done? && captureProof && proofs == 0 then
      run.(proofFiles := proofs, phase := Error,
           result := Some((if run.result.Some? then run.result.value else "") + UNVERIFIED_TEXT))
    else run.(proofFiles := proofs)
  }

  /** The part of `finalize` after the lease is gone. */
  function FinalizeEnd(s: State, r: RunId, final: Phase, captureProof: bool, proofs: nat): State {
    var s1 := s.Put(r, Verified(s.Get(r), final, captureProof, proofs));
    MaybeStartNext(Settle(s1.(live := Without(s1.live, r)), r))
  }

  /** The verdict is recorded, timers are cleared and the child is forgotten. */
  function Conclude(s: State, r: RunId, final: Phase, text: string): State {
    var s1 := ClearTimers(s.Put(r, s.Get(r).(phase := final, result := Some(text))), r);
    s1.Put(r, s1.Get(r).(child := None))
  }

  /** `finalize` up to its await: it is a no-op unless the run is still running or waiting. */
  function Finalize(s: State, r: RunId, final: Phase, text: string, captureProof: bool): State {
    if !s.Get(r).phase.Active() then s
    else
      var s1 := Conclude(s, r, final, text);
      if r in s1.leases then s1.Add(Releasing(r, final, captureProof))
      else FinalizeEnd(s1, r, final, captureProof, s1.Get(r).proofFiles)
  }

  // ------------------------------------------------------------------ legs

  function ExecuteLeg(s: State, r: RunId, attempt: nat, resumed: bool, spawned: bool): State {
    if !spawned then Finalize(s, r, Error, SPAWN_TEXT, false)
    else
      var c := s.nextTask;
      var s1 := s.Add(LegWait(r, attempt, resumed)).Add(HardTimer(r, c));
      s1.Put(r, s1.Get(r).(child := Some(c), hardTimer := Some(c + 1)))
  }

  /** A run is about to get a new leg. */
  function Relaunch(s: State, r: RunId): State {
    Persist(s.Put(r, s.Get(r).(phase := Running, question := None, anchor := None)))
  }

  function SpawnLeg(s: State, r: RunId, resumed: bool, spawned: bool): State {
    ExecuteLeg(Relaunch(s, r), r, 1, resumed, spawned)
  }

  function GoLive(s: State, r: RunId): State {
    var s1 := s.Put(r, s.Get(r).(phase := Running));
    s1.(live := Insert(s1.live, r), starting := Without(s1.starting, r), leases := s1.leases + {r})
  }

  function StartSucceeded(s: State, r: RunId, spawned: bool): State {
    SpawnLeg(GoLive(s, r), r, false, spawned)
  }

  datatype LegResult =
    | Broken(text: string)                             // non-zero exit or unreadable output
    | NeedsInput(question: string)                     // already redacted and trimmed
    | Failed(summary: string)
    | Completed(summary: string, proofApplicable: bool)

  function ApplyLegOutcome(s: State, r: RunId, o: LegResult): State {
    match o
    case Broken(text) => Finalize(s, r, Error, text, false)
    case NeedsInput(q) =>
      if q == "" then Finalize(s, r, Error, NO_QUESTION_TEXT, false)
      else s.Add(Capturing(r, q))
    case Failed(text) => Finalize(s, r, Error, text, false)
    case Completed(text, proof) => Finalize(s, r, Done, text, proof)
  }

  /** The exited child and its timer are forgotten. */
  function Reap(s: State, r: RunId): State {
    s.Drop(s.Get(r).hardTimer).Put(r, s.Get(r).(hardTimer := None, child := None))
  }

  /** The child of leg `t` has exited; `s` no longer holds that task. */
  function LegDone(s: State, t: TaskId, leg: Task, attached: bool, o: LegResult, respawned: bool): State
    requires leg.LegWait?
  {
    if s.Get(leg.run).child != Some(t) || !s.Get(leg.run).phase.Running? then s   // superseded
    else AfterLeg(Reap(s, leg.run), leg, attached, o, respawned)
  }

  /** Honour the outcome only if the browser tool was attached; otherwise try again, boundedly. */
  function AfterLeg(s: State, leg: Task, attached: bool, o: LegResult, respawned: bool): State
    requires leg.LegWait?
  {
    if attached then ApplyLegOutcome(s, leg.run, o)
    else if leg.attempt >= LEG_MAX_ATTEMPTS then Finalize(s, leg.run, Error, ATTACH_TEXT, false)
    else ExecuteLeg(s, leg.run, leg.attempt + 1, leg.resumed, respawned)
  }

  // ------------------------------------------------------------- questions

  /** The screenshot arrived: the run is parked WITHOUT looking at its phase again. */
  function Park(s: State, r: RunId, text: string): State {
    var q := s.nextTask;
    var s1 := s.Add(QuestionTimer(r));
    var s2 := s1.Put(r, s1.Get(r).(phase := Waiting, question := Some(text), questionTimer := Some(q)));
    Persist(s2).Add(Asking(r))
  }

  function Asked(s: State, r: RunId, anchor: string): State {
    if !s.Get(r).phase.Waiting? || r !in s.leases then s
    else Persist(s.Put(r, s.Get(r).(anchor := Some(anchor))))
  }

  function Unpark(s: State, r: RunId): State {
    s.Drop(s.Get(r).questionTimer).Put(r, s.Get(r).(questionTimer := None))
  }

  /** `resume`, and `steer` on a parked run. */
  function ResumeParked(s: State, r: RunId, spawned: bool): State {
    SpawnLeg(Unpark(s, r), r, true, spawned)
  }

  // ------------------------------------------------------------------ stop

  function Stop(s: State, r: RunId, text: string): State {
    if r in s.queue then SettleQueued(s.(queue := Without(s.queue, r)), r, Cancelled, text)
    else if r in s.live then Finalize(s.Put(r, s.Get(r).(child := None)), r, Cancelled, text, false)
    else s
  }

  function MarkRestart(s: State, r: RunId): State {
    s.Put(r, s.Get(r).(restartCancelled := true))
  }

  function SettleAll(s: State, rs: seq<RunId>): State
    decreases |rs|
  {
    if rs == [] then s
    else SettleAll(SettleQueued(MarkRestart(s, rs[0]), rs[0], Cancelled, RESTART_TEXT), rs[1..])
  }

  function FinalizeAll(s: State, rs: seq<RunId>): State
    decreases |rs|
  {
    if rs == [] then s
    else FinalizeAll(Finalize(MarkRestart(s, rs[0]), rs[0], Cancelled, RESTART_TEXT, false), rs[1..])
  }

  function Quiet(s: State): State {
    s.(stopping := true).Drop(s.outcomeTimer).Drop(s.queueTimer).(outcomeTimer := None, queueTimer := None)
  }

  function StopAll(s: State): State {
    var s1 := Quiet(s);
    var s2 := SettleAll(s1.(queue := []), s1.queue);
    FinalizeAll(s2, s2.live)
  }

  // ---------------------------------------------------- restart and recovery

  function Ids(rows: seq<Row>, terminal: bool): seq<RunId> {
    if rows == [] then []
    else if rows[0].run.phase.Terminal() == terminal then [rows[0].id] + Ids(rows[1..], terminal)
    else Ids(rows[1..], terminal)
  }

  function Loaded(rows: seq<Row>): map<RunId, Run> {
    if rows == [] then map[]
    else Loaded(rows[..|rows| - 1])[rows[|rows| - 1].id := rows[|rows| - 1].run]
  }

  /** Process death followed by boot: only the ledger and the id supplies survive. */
  function Restart(s: State): State {
    State(s.cap, Loaded(s.disk), [], [], [], Ids(s.disk, true), Ids(s.disk, false), map[], None, None,
          false, false, {}, s.disk, s.diskBroken, s.writes, s.nextRun, s.nextTask)
  }

  function Orphaned(run: Run): Run {
    run.(phase := Cancelled, restartCancelled := true, delivered := false,
         result := if run.result.Some? then run.result else Some(RESTART_TEXT))
  }

  function Adopt(s: State, rs: seq<RunId>): State
    decreases |rs|
  {
    if rs == [] then s
    else
      var s1 := s.Put(rs[0], Orphaned(s.Get(rs[0])));
      Adopt(s1.(finished := s1.finished + [rs[0]]), rs[1..])
  }

  /** The rest of `recover`'s sequential delivery loop. */
  function RecoverNext(s: State, rest: seq<RunId>): State
    decreases |rest|
  {
    if rest == [] then MaybeStartNext(s)
    else if s.Get(rest[0]).delivered then RecoverNext(s, rest[1..])
    else s.Add(Recovering(rest[0], rest[1..]))
  }

  function Recover(s: State): State {
    var s1 := Persist(Adopt(s.(orphans := []), s.orphans).(recovered := true));
    RecoverNext(s1, s1.finished)
  }

  function Init(cap: nat): State {
    State(cap, map[], [], [], [], [], [], map[], None, None, false, false, {}, [], false, 0, 0, 0)
  }

  // ---------------------------------------------------------------- events

  /** How a fired task continues; chosen by the environment. */
  datatype Outcome =
    | Validated(ok: bool)                                             // Admitting
    | Granted(spawned: bool)                                          // Acquiring
    | GrantedThenFailed                                               // Acquiring: the config write threw
    | Refused(race: bool)                                             // Acquiring
    | Unwound(freed: bool)                                            // Unwinding
    | Exited(attached: bool, result: LegResult, respawned: bool)      // LegWait
    | Captured                                                        // Capturing
    | Posted(anchor: string)                                          // Asking
    | Released(freed: bool, proofs: nat)                              // Releasing
    | Accepted                                                        // Delivering, Recovering
    | Rejected                                                        // Capturing, Asking, Delivering, Recovering
    | Fired                                                           // timers

  datatype Event =
    | Dispatch
    | Answer(run: RunId, spawned: bool)
    | Steer(run: RunId, spawned: bool)
    | StopRun(run: RunId, text: string)
    | StopEverything
    | Fire(task: TaskId, outcome: Outcome)
    | LeaseLost(run: RunId)              // the runtime dropped a session on its own
    | DiskFault(broken: bool)
    | Crash
    | CallRecover

  /** Can a suspended computation of this kind continue with that outcome? */
  predicate Fits(task: Task, o: Outcome) {
    match task
    case Admitting => o.Validated?
    case Acquiring(_, _) => o.Granted? || o.GrantedThenFailed? || o.Refused?
    case Unwinding(_, _, _) => o.Unwound?
    case LegWait(_, _, _) => o.Exited?
    case Capturing(_, _) => o.Captured? || o.Rejected?
    case Asking(_) => o.Posted? || o.Rejected?
    case Releasing(_, _, _) => o.Released?
    case Delivering(_) => o.Accepted? || o.Rejected?
    case Recovering(_, _) => o.Accepted? || o.Rejected?
    case HardTimer(_, _) => o.Fired?
    case QuestionTimer(_) => o.Fired?
    case OutcomeRetry => o.Fired?
    case QueueRetry => o.Fired?
  }

  /** Continue the suspended computation `task`, which is no longer in `s`. */
  function Continue(s: State, t: TaskId, task: Task, o: Outcome): State
    requires Fits(task, o)
  {
    match task
    case Admitting => if o.ok then Admit(s) else s
    case Acquiring(r, immediate) =>
      if o.Granted? then StartSucceeded(s, r, o.spawned)
      else if o.GrantedThenFailed? then s.(leases := s.leases + {r}).Add(Unwinding(r, immediate, false))
      else if r in s.leases then s.Add(Unwinding(r, immediate, o.race))
      else StartFailed(s, r, immediate, o.race)
    case Unwinding(r, immediate, race) => StartFailed(Free(s, r, o.freed), r, immediate, race)
    case LegWait(r, attempt, resumed) => LegDone(s, t, task, o.attached, o.result, o.respawned)
    case Capturing(r, text) => if o.Captured? then Park(s, r, text) else Finalize(s, r, Error, ASK_TEXT, false)
    case Asking(r) => if o.Posted? then Asked(s, r, o.anchor) else Finalize(s, r, Error, ASK_TEXT, false)
    case Releasing(r, final, captureProof) => FinalizeEnd(Free(s, r, o.freed), r, final, captureProof, o.proofs)
    case Delivering(r) => if o.Accepted? then Delivered(s, r) else ScheduleOutcomeRetry(s)
    case Recovering(r, rest) =>
      RecoverNext(if o.Accepted? then Delivered(s, r) else ScheduleOutcomeRetry(s), rest)
    case HardTimer(r, leg) =>
      if !s.Get(r).phase.Running? || s.Get(r).child != Some(leg) then s
      else Finalize(s, r, Timeout, HARD_TIMEOUT_TEXT, false)
    case QuestionTimer(r) => Finalize(s, r, Timeout, QUESTION_TIMEOUT_TEXT, false)
    case OutcomeRetry => DeliverAll(s.(outcomeTimer := None), s.finished)
    case QueueRetry => MaybeStartNext(s.(queueTimer := None))
  }

  /** A release the runtime reports as failed may leave the lease held. */
  function Free(s: State, r: RunId, freed: bool): State {
    if freed then s.(leases := s.leases - {r}) else s
  }

  /** `recover` is the first call after a boot, and is called once. */
  predicate Enabled(s: State, e: Event) {
    match e
    case Crash => true
    case DiskFault(_) => true
    case CallRecover => !s.recovered
    case Fire(t, o) => s.recovered && t in s.tasks && Fits(s.tasks[t], o)
    case _ => s.recovered
  }

  function Next(s: State, e: Event): State {
    match e
    case Dispatch => if s.stopping then s else s.Add(Admitting)
    case Answer(r, spawned) => if r in s.live && s.Get(r).phase.Waiting? then ResumeParked(s, r, spawned) else s
    case Steer(r, spawned) =>
      if r !in s.queue && r in s.live && s.Get(r).phase.Waiting? then ResumeParked(s, r, spawned) else s
    case StopRun(r, text) => Stop(s, r, text)
    case StopEverything => StopAll(s)
    case Fire(t, o) => if t in s.tasks && Fits(s.tasks[t], o) then Continue(s.Drop(Some(t)), t, s.tasks[t], o) else s
    case LeaseLost(r) => s.(leases := s.leases - {r})
    case DiskFault(broken) => s.(diskBroken := broken)
    case Crash => Restart(s)
    case CallRecover => Recover(s)
  }
}
