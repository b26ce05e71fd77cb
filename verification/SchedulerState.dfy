/**
 * State of the background browser-run scheduler.
 *
 * The daemon's closure variables become one value, `State`; a run is referred to by its id, and the
 * mutable run objects live in the store `runs`.  Every suspended `await` and every armed timer is a
 * `Task` in the pool `tasks`: firing a task is the only way a suspended computation continues, so
 * an arbitrary order of events is an arbitrary interleaving.
 */
module SchedulerState {

  import opened Wrappers

  /** Ids are handed out in admission order; the source's random UUIDs are only assumed fresh. */
  type RunId = nat

  type TaskId = nat

  datatype Phase = Queued | Running | Waiting | Done | Error | Timeout | Cancelled {

    predicate Active() {
      Running? || Waiting?
    }

    predicate Terminal() {
      Done? || Error? || Timeout? || Cancelled?
    }
  }

  /** A run record together with the volatile fields of its `LiveRun` entry (the last three). */
  datatype Run = Run(
    phase: Phase,
    result: Option<string>,
    delivered: bool,
    restartCancelled: bool,
    proofFiles: nat,
    question: Option<string>,
    anchor: Option<string>,
    child: Option<TaskId>,
    hardTimer: Option<TaskId>,
    questionTimer: Option<TaskId>)

  const FRESH_RUN := Run(Queued, None, false, false, 0, None, None, None, None, None)

  /** The part of a record that is written to the ledger. */
  function Durable(run: Run): Run {
    run.(child := None, hardTimer := None, questionTimer := None)
  }

  datatype Row = Row(id: RunId, run: Run)

  /** Suspended continuations and armed timers. */
  datatype Task =
    | Admitting                                                 // run(): awaiting the keychain
    | Acquiring(run: RunId, immediate: bool)                    // startDispatch: awaiting the lease
    | Unwinding(run: RunId, immediate: bool, race: bool)        // startDispatch: giving a half-taken lease back
    | LegWait(run: RunId, attempt: nat, resumed: bool)          // executeLeg: awaiting the child process
    | Capturing(run: RunId, text: string)                       // parkForQuestion: awaiting the screenshot
    | Asking(run: RunId)                                        // parkForQuestion: awaiting the question post
    | Releasing(run: RunId, final: Phase, captureProof: bool)   // finalize: awaiting the lease release
    | Delivering(run: RunId)                                    // deliverOutcome: awaiting the concierge
    | Recovering(run: RunId, rest: seq<RunId>)                  // recover: awaiting one delivery, `rest` to go
    | HardTimer(run: RunId, leg: TaskId)
    | QuestionTimer(run: RunId)
    | OutcomeRetry
    | QueueRetry
  {
    /** The timers that belong to one run; clearing them is the only way a task disappears unfired. */
    predicate RunTimer() {
      HardTimer? || QuestionTimer?
    }
  }

  datatype State = State(
    cap: nat,                          // concurrent browser sessions
    runs: map<RunId, Run>,             // the object store
    queue: seq<RunId>,
    starting: seq<RunId>,              // insertion order of the Map
    live: seq<RunId>,                  // insertion order of the Map
    finished: seq<RunId>,
    orphans: seq<RunId>,
    tasks: map<TaskId, Task>,
    outcomeTimer: Option<TaskId>,
    queueTimer: Option<TaskId>,
    stopping: bool,
    recovered: bool,                   // recover() has been called since boot
    leases: set<RunId>,                // the browser runtime's view
    disk: seq<Row>,                    // the ledger file
    diskBroken: bool,                  // ledger writes currently fail
    writes: nat,                       // ledger writes so far that worked; nothing reads it
    nextRun: RunId,
    nextTask: TaskId)
  {
    function Get(r: RunId): Run {
      if r in runs then runs[r] else FRESH_RUN
    }

    function Put(r: RunId, run: Run): State {
      this.(runs := runs[r := run])
    }

    function Add(task: Task): State {
      this.(tasks := tasks[nextTask := task], nextTask := nextTask + 1)
    }

    function Drop(t: Option<TaskId>): State {
      if t.None? then this else this.(tasks := tasks - {t.value})
    }

    /** Lanes in use: a lane is held from admission to the end of the release. */
    function Busy(): nat {
      |live| + |starting|
    }
  }

  ghost predicate Distinct(q: seq<RunId>) {
    forall i, j :: 0 <= i < j < |q| ==> q[i] != q[j]
  }

  /** Deletion by id, keeping the order of the rest. */
  function Without(q: seq<RunId>, r: RunId): (rest: seq<RunId>)
    ensures forall x :: x in rest <==> x in q && x != r
    ensures |rest| <= |q|
  {
    if q == [] then []
    else if q[0] == r then Without(q[1..], r)
    else
      assert q == [q[0]] + q[1..];
      [q[0]] + Without(q[1..], r)
  }

  lemma {:induction false} WithoutDistinct(q: seq<RunId>, r: RunId)
    requires Distinct(q)
    ensures Distinct(Without(q, r))
    ensures |Without(q, r)| == |q| - if r in q then 1 else 0
  {
    if q != [] {
      WithoutDistinct(q[1..], r);
      if q[0] == r {
        assert r !in q[1..];
      } else {
        assert q[0] !in q[1..];
        assert q[0] !in Without(q[1..], r);
        var rest := Without(q[1..], r);
        assert forall j :: 0 <= j < |rest| ==> rest[j] in rest;
      }
    }
  }

  /** Insertion into a Map whose iteration order is `m`. */
  function Insert(m: seq<RunId>, r: RunId): seq<RunId> {
    if r in m then m else m + [r]
  }
}
