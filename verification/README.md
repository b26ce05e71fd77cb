# A verified model of Beckett's stateful core

This project models the parts of Beckett whose correctness depends on order, interleaving and partial
failure, and proves what they keep:

- **Browser scheduler** (`Scheduler*.dfy`). The daemon's background browser runs: a bounded set of
  lanes, a FIFO queue, runs whose lease is being acquired, live runs with timers and retried legs, a
  ledger file, and recovery after a restart. The closure variables are one value `State`; every
  suspended `await` and every armed timer is a `Task` in a pool, and firing any of them, with any
  outcome that kind of await can have, is an event. So a sequence of events is an arbitrary
  interleaving, and crashes, boots, disk faults and lost browser sessions are events too.
  `SchedulerSteps` says what each stretch of code between two awaits does, `SchedulerAgent` is the
  object that updates its fields step by step and is proved to do exactly that, and the other modules
  prove properties of all runs. `SchedulerSafety.Inv` is the full invariant; a screenshot that arrives for
  a run that has ended breaks it. What holds in spite of that rests on the weaker `SchedulerMoves.LaneInv`
  and `SchedulerPlaces.Sound`, which every enabled event keeps. `SchedulerRecords` and `SchedulerWork` say
  run by run what each event does to the record, the lease and the pending work of a run, without
  following the code, and so what causes each verdict.
- **Agent registry** (`AgentStore`, `AgentLock`, `LiveRegistry`). The locked read-change-write of the
  registry file, several writers and lock-free readers over it, and the daemon's forgiving reader.
- **Publishing to an owned repository** (`Publish*.dfy`) over an abstract git and GitHub in
  which every command can fail and a remote write can also succeed while its answer is lost.
- **Secret redaction** (`Redaction`), **append-only ledgers** (`Jsonl`), **uptime** (`Uptime`),
  **spend roll-ups** (`Spend`), the **sandbox evaluator's phase clock** (`Evaluator`), the form's
  **rate limiter** (`RateLimiter`), **ranking metrics** (`Relevance`) and the **persona carve**
  (`Persona`).

Loops and objects that the source updates in place are methods and classes proved against
specification functions; the properties are lemmas about those functions.

## What turned out false, and exactly when it holds

Each row names the exact condition, for all inputs, and a concrete run or input on which the claim fails.

| claim | where it fails | exact condition | an instance |
|---|---|---|---|
| a finished browser run never becomes waiting again | the screenshot for a question arrives after the run was stopped; the park does not look at the run's state again (src/browser/agent.ts:691-692) | `SchedulerRevival.RevivalIff`; such screenshots are also the only cause of a second verdict: `SchedulerRevival.FinalizedAtMostOnce` | `SchedulerInstances.RevivalHappens` |
| a lease never outlives its lane | a release that fails is only logged (src/browser/agent.ts:522-534) | `SchedulerLanes.LeasesIff` | `SchedulerInstances.LeakHappens` |
| a waiting dispatch means full lanes, a pending retry or shutdown | an immediate start fails outright; its handler settles the run and does not refill the lanes (src/browser/agent.ts:973) | `SchedulerLanes.WorkIff`; nobody in that queue is ever started, cancelling part of it does not refill either: `SchedulerStranded.StrandedForever` | `SchedulerInstances.StrandingHappens` |
| runs start in dispatch order | a lost lease race re-enters behind a younger run | `SchedulerLanes.FifoIff` | `SchedulerInstances.OvertakingHappens` |
| "a dispatch mid-acquire can never fall out of the durable ledger" (comment at src/browser/agent.ts:433) | a start straight into a free lane writes nothing (961); its row comes with the first write made for any reason | `SchedulerRecovery.StartSurvivesIff`; a start from the queue has a row while writes work: `SchedulerRecovery.NothingAcceptedIsLost` | `SchedulerInstances.ImmediateStartCanBeLost` |
| a restart keeps the verdict and the delivery mark of an ended run | the same late screenshot: parking writes the ended run as waiting, and recovery cancels it and delivers it again (691-703, 1177-1192) | `SchedulerRecovery.HistoryKeptIff`; what recovery makes of it: `SchedulerRecovery.StaleIsRevoked` | `SchedulerInstances.DeliveryRevoked` |
| a success that was to be proved is an error without a proof (526-533) | the daemon crashes between the claim and the proof, after another run's write has put the claim in the file; boot takes it for an ended run (387-426) | `SchedulerClaims.DoneAfterCrashIff`; without a crash `SchedulerRecords.ErrorIff` | `SchedulerInstances.UnprovedSuccessHappens` |
| the ledger file names each run once | a run finished twice is in the history twice | `SchedulerRecovery.WrittenOnceIff`; recovery then keeps it twice: `SchedulerRecovery.RecoveredOnce` | `SchedulerInstances.TwoRows` |
| an existing trunk does not move before the run branch is pushed | a failed read of the trunk answers "absent" (src/agency/index.ts:703-709), and HEAD is pushed straight to it | `Publish.TrunkMovesEarlyIff` | `PublishInstances.EarlyTrunkHappens` |
| swallowing a rejected push keeps retries alive (comment at src/agency/index.ts:978-982) | the landing pushes the same branch again and does not swallow | `PublishOutcome.CanLandIff`, `PublishOutcome.WedgedLandsIff`, over any series of retries `PublishOutcome.WedgedForever` | `PublishInstances.WedgeHappens` |
| squashing keeps HEAD's tree | something else is staged; or the commit fails and then the rollback fails | `Publish.SquashKeepsTreeIff` | `PublishInstances.StagedWorkChangesTree`, `PublishInstances.FailedRollbackLosesTheRun` |
| a failed squash leaves the checkout as it was | the rollback is a hard reset and drops edits to tracked files | `Publish.LooseWorkSurvivesIff` (new files survive: `Publish.UntrackedFilesSurvive`) | `PublishInstances.RollbackDropsEdits` |
| an agent that was removed stays away | it had the id of a built-in that shipped only after it was added; seeding then brings the built-in (src/agent/store.ts:79-87, 103-114) | `AgentStore.RemovedReturnsIff` | `AgentStore.ShadowHappens` |
| concurrent registry changes lose no update | two waiters both judge a dead writer's lock stale, and the slower removes the faster one's fresh lock | `AgentLock.ExclusionIff`; one waiter in doubt at a time is enough: `AgentLock.OneDoubterNeverSteals` | `AgentLock.StealingLosesUpdates` |
| no secret of four or more characters survives redaction | the mark itself can supply part of a value | `Redaction.SurvivesIff` | `Redaction.SecretIsMade`, `Redaction.SecretInsideMark` |
| a run reported as "did not start" did nothing (comment at src/browser/evaluator-runner.ts:291-292) | the child wrote the first marker just before the kill, and it is read after it | `Evaluator.NeverStartedIff` | `Evaluator.StartedAfterAll` |
| the persona fits its budget | a budget of zero slices nothing off | `Persona.WithinBudgetIff` | `Persona.ZeroBudgetOverflows` |

The evaluator's phase can depend on how its output is cut into chunks only if the second marker
completes before the first (`Evaluator.ChunkingIrrelevantIff`). The shipped evaluator writes the first
marker before the snippet runs (src/browser/evaluator.cjs:213), so such an output is hypothetical.

## Assumptions

Scheduler:
- The lane cap does not change during a daemon's life.
- Run ids are fresh; the model hands them out in admission order.
- A failed start and its rejection handler are one step (src/browser/agent.ts:670-672, 585-599): in
  between the run is in no collection. The keychain read and the lease acquisition of a start are one
  await; a leg's exit and what the retry loop does next are one step.
- `recover` is the first call after a boot and is called once. The ledger write does not include
  `orphans` (src/browser/agent.ts:434-439), so a write before it would lose them.
- Capturing the screenshot and parking the run are separate steps.
- Leases do not survive the process. A release may report failure and leave the lease held; a ledger
  write may fail. Both are events, and the theorems say where they are excluded.
- `stopAll` leaves starting runs alone (src/browser/agent.ts:1217-1240), so nothing is claimed about
  lanes being empty after it.

Registry: renaming a file is atomic, and only the modelled writers write it. Publishing: nobody else
changes the remote during one attempt; pushes are atomic. Ledgers: one write call is one append; the
JSON of a record holds no newline and no proper prefix of it parses. Uptime: one daemon at a time.

## Model

| member | source | states |
|---|---|---|
| SchedulerSafety.NextInv | src/browser/agent.ts:367-716 | Every step of any interleaving that is not a stale screenshot keeps the whole invariant: one place a run, phases fitting the place, lanes within the cap, handles naming their own tasks, at most one start and one release under way a run |
| SchedulerPlaces.OnePlaceAlways | src/browser/agent.ts:367-372 | In every reachable state, through crashes, disk faults and stale screenshots: each run is in at most one of queue, starting, live and finished, so an ended run holds no lane; without stale screenshots it is in the history at most once, with its verdict, and an active run is live |
| SchedulerCapacity.LanesAlways | src/browser/agent.ts:367-372 | In every reachable state, stale screenshots included: queue, starting and live share no run and hold each at most once, and live plus starting never exceeds the cap |
| SchedulerCapacity.NeverBack | src/browser/agent.ts:581-602 | A run that has left queue and lanes is never queued, started or live again, through restarts and stale screenshots too |
| SchedulerCapacity.RowIffWritten | src/browser/agent.ts:428-449 | A waiting run that has no row gets one with the first ledger write that works, and not before |
| SchedulerCapacity.RowsAlways | src/browser/agent.ts:428-449 | While writes work, over all enabled events: every queued, live and finished run, every start taken from the queue and every run still to be adopted has a row |
| SchedulerVerdicts.VerdictsAreFinal | src/browser/agent.ts:513-549 | A terminal run keeps state and result over every step but a stale screenshot, except done to error when the proof is missing |
| SchedulerRevival.RevivalIff | src/browser/agent.ts:675-716 | In every reachable state: a terminal run stops being terminal in a step if and only if a screenshot arrives for a run that already has its verdict |
| SchedulerRevival.FinalizedAtMostOnce | src/browser/agent.ts:513-520 | Between two restarts, over all enabled events: the verdicts a run gets, and one if it had a verdict at the start, are as many as its stale screenshots, and one if it has a verdict at the end; so without stale screenshots it gets at most one |
| SchedulerRecords.EveryRecord | src/browser/agent.ts:513-886 | For every enabled event in every reachable state: the whole record of every run afterwards (state, result, delivery and restart marks, proofs, question) and who holds a lease, said run by run; nothing else changes |
| SchedulerRecords.DoneIff | src/browser/agent.ts:814-847 | A run becomes done if and only if its current leg exits with the browser tool attached and reports success, and, if a proof is asked for, the lease is still held or there is one |
| SchedulerRecords.ErrorIff | src/browser/agent.ts:513-886 | A run becomes an error if and only if its agent reports a failure or nothing usable, three legs ran without the tool, a spawn, a start or a question failed, or the release of a claimed success brought no proof |
| SchedulerRecords.TimeoutIff | src/browser/agent.ts:691-703 | A run times out if and only if the timer armed for its current leg fires, or that of its question while it is undecided |
| SchedulerRecords.CancelledIff | src/browser/agent.ts:1027-1048 | A run is cancelled if and only if it or everything is stopped while it is queued or undecided in its lane, or recovery finds it unfinished |
| SchedulerRecords.WaitingIff | src/browser/agent.ts:675-716 | A run begins to wait if and only if the screenshot for its question arrives |
| SchedulerRecords.RunningIff | src/browser/agent.ts:605-672 | A run begins to run if and only if it gets its lease, or its question is answered or steered, and a child process is spawned |
| SchedulerRecords.DeliveredIff | src/browser/agent.ts:451-473 | An outcome becomes delivered if and only if the concierge accepts that run's |
| SchedulerWork.EveryComputation | src/browser/agent.ts:675-886 | For every enabled event in every reachable state, exactly which legs (with their attempt), kill timers, screenshots, questions, question timers and releases (with their verdict and whether a proof is to be taken) it begins |
| SchedulerProgress.NeverStuck | src/browser/agent.ts:513-886 | In every reachable state, stale screenshots included, whatever holds a lane has something pending that moves it on: a start; a leg and the timer that will kill that leg, or its screenshot; a question's timer; or the release |
| SchedulerClaims.NoFalseSuccess | src/browser/agent.ts:814-847 | After any events whatever, crashes included, a run that is done, in memory or in the file, has as its result the words with which its own agent reported success with the browser tool attached |
| SchedulerClaims.DoneAfterCrashIff | src/browser/agent.ts:387-426 | After a crash and recovery a run is done if and only if the file has it as done, proved or not, and then exactly as the file has it |
| SchedulerInstances.UnprovedSuccessHappens | src/browser/agent.ts:513-534 | Enabled steps and a crash after which a success whose proof was never taken stands as done and undelivered |
| SchedulerInstances.RevivalHappens | src/browser/agent.ts:690-701 | Enabled steps from an empty ledger that finish a run, park it again and finish it a second time, so that it is in the history twice |
| SchedulerLanes.LeasesIff | src/browser/agent.ts:522-534 | Every held lease belongs to a starting or live run: in any state with sound lanes a step keeps this if and only if it is not the release of a live run that leaves the lease held |
| SchedulerLanes.WorkIff | src/browser/agent.ts:961-974 | A non-empty queue means full lanes, a retry timer or shutdown: in any state with sound lanes a step keeps this if and only if it is not an immediate start failing outright while others wait with no retry pending |
| SchedulerLanes.FifoIff | src/browser/agent.ts:581-601 | The queue is in dispatch order and nothing younger holds a lane: in any state with sound lanes a step keeps this if and only if no lost lease race re-enters behind a younger run |
| SchedulerLanes.LeasesAlways | src/browser/agent.ts:522-534 | From an empty ledger over all enabled events, stale screenshots included, in which no release of a live run leaves its lease held: leases stay with lane holders |
| SchedulerLanes.WorkAlways | src/browser/agent.ts:563-601 | From an empty ledger over all enabled events in which no immediate start fails outright while others wait: a dispatch waits only if all lanes are full, the daemon is stopping, or a queue retry is really pending and can fire |
| SchedulerLanes.FifoAlways | src/browser/agent.ts:563-601 | From an empty ledger over all enabled events in which no lost lease race re-enters out of turn: dispatch order holds |
| SchedulerStranded.StrandedForever | src/browser/agent.ts:940-1048 | Nothing that waits in a stranded queue is ever started, whatever enabled events follow, restarts and stale screenshots included; until the daemon goes down it stays in a stranded queue or is cancelled there and stays cancelled |
| SchedulerInstances.StrandingHappens | src/browser/agent.ts:961-974 | With one lane, two dispatches and one failed start reach that state |
| SchedulerInstances.OvertakingHappens | src/browser/agent.ts:581-601 | With two lanes, the run dispatched first loses its lease race and waits while the second holds its lane |
| SchedulerInstances.LeakHappens | src/browser/agent.ts:522-534 | A stopped run whose release fails has ended and holds no lane, and its lease is still held |
| SchedulerDelivery.CoveredStep | src/browser/agent.ts:451-473 | Every enabled step keeps: after recovery each finished run is delivered, has a delivery in flight, a pending retry will see it, or the daemon is stopping |
| SchedulerDelivery.CoveredAlways | src/browser/agent.ts:451-473 | The same in every reachable state, through crashes, disk faults and stale screenshots |
| SchedulerLedger.TrimRetains | src/browser/agent.ts:428-432 | The eviction loop leaves what dropping the oldest delivered runs first, and the oldest undelivered only when none is left, would leave |
| SchedulerLedger.TrimLosesNothingOwed | src/browser/agent.ts:428-432 | At most 50 are kept; no undelivered run is dropped unless more than 50 are undelivered, and then the newest 50 of them stay |
| SchedulerSync.SyncedStep | src/browser/agent.ts:428-449 | While writes work, every enabled step from a state with the full invariant, a stale screenshot too, leaves each queued, live and finished run in the file, finished ones with their present record |
| SchedulerRecovery.HistoryKeptIff | src/browser/agent.ts:428-449 | While writes work, a crash after a step leaves every finished run its verdict, result and delivery mark if and only if the step is not the stale screenshot of a run in the history |
| SchedulerRecovery.StaleIsRevoked | src/browser/agent.ts:691-703 | After a stale screenshot that is written, a crash and recovery make that run cancelled, undelivered and marked as restarted, with the result it had, and leave every other finished run alone |
| SchedulerInstances.DeliveryRevoked | src/browser/agent.ts:691-703 | Enabled steps from an empty ledger after which a stopped, delivered run comes back from a crash as cancelled by the restart and undelivered |
| SchedulerRecovery.RestartSafety | src/browser/agent.ts:1177-1192 | From any crash point, after any file whose rows of one run agree: boot and recovery make each run on disk a terminal record, ended ones unchanged, others cancelled, undelivered and marked as restarted, and leave nothing queued, starting or live |
| SchedulerRecovery.FileAgrees | src/browser/agent.ts:428-449 | The rows of one run agree in every reachable state, stale screenshots and disk faults included |
| SchedulerRecovery.RecoveredOnce | src/browser/agent.ts:387-426 | The recovered history holds exactly the runs of the file, each of them once if and only if the file names no run twice |
| SchedulerRecovery.WrittenOnceIff | src/browser/agent.ts:428-449 | In every reachable state a write names a run twice if and only if the history it keeps does, which takes a stale screenshot and a second verdict |
| SchedulerInstances.TwoRows | src/browser/agent.ts:428-449 | Enabled steps that finish a run twice leave two rows of it in the file |
| SchedulerRecovery.OnDiskSurvives | src/browser/agent.ts:387-426 | Whatever is on disk at any crash ends as a terminal record, kept if undelivered and at most 50 are owed |
| SchedulerRecovery.NothingAcceptedIsLost | src/browser/agent.ts:387-449 | Over all enabled events while writes work, any crash turns every queued, live and finished run, and every run being started from the queue, into a terminal record; without stale screenshots a finished one keeps verdict, result and delivery mark |
| SchedulerRecovery.StartSurvivesIff | src/browser/agent.ts:953-975 | Over all enabled events: a run admitted straight into a lane and still only starting survives a crash if and only if some ledger write has worked since its admission, and otherwise leaves no trace |
| SchedulerInstances.ImmediateStartCanBeLost | src/browser/agent.ts:953-975 | A dispatch accepted into a free lane is gone after a crash and recovery |
| SchedulerAgent.BrowserAgent.constructor | src/browser/agent.ts:367-426 | Booting on a ledger file gives the restart state: ended runs finished, all others orphans, nothing else |
| SchedulerAgent.BrowserAgent.PersistLedger | src/browser/agent.ts:428-449 | Evicts one run at a time until 50 are left, then writes live, starting, queued and finished runs in that order |
| SchedulerAgent.BrowserAgent.AdmitDispatch | src/browser/agent.ts:916-975 | Queues behind anyone waiting or when lanes are full, with the reported position, else starts at once |
| SchedulerAgent.BrowserAgent.FillFreeLanes | src/browser/agent.ts:581-602 | Starts queued dispatches from the head while lanes are free, unless stopping |
| SchedulerAgent.BrowserAgent.StartRejected | src/browser/agent.ts:585-599 | A lost race re-enters the queue (an immediate start at the tail, a queued one at the head), any other failure is settled; only the queued path refills the lanes |
| SchedulerAgent.BrowserAgent.FinalizeRun | src/browser/agent.ts:513-525 | Does nothing to a run with a verdict; otherwise records it, clears timers and child, and releases the lease or ends at once |
| SchedulerAgent.BrowserAgent.EndFinalize | src/browser/agent.ts:526-549 | After the release: proof check, lane freed, history, ledger, delivery, refill |
| SchedulerAgent.BrowserAgent.LegExited | src/browser/agent.ts:815-886 | A superseded leg changes nothing; an unattached one is retried up to three attempts; an attached one is honoured |
| SchedulerAgent.BrowserAgent.ParkRun | src/browser/agent.ts:691-703 | Parks without looking at the state, arms the question timer, writes the ledger, asks |
| SchedulerAgent.BrowserAgent.Answer | src/browser/agent.ts:978-988 | Resumes exactly a parked live run with a non-blank answer and leaves the state alone otherwise |
| SchedulerAgent.BrowserAgent.Steer | src/browser/agent.ts:990-1025 | Resumes exactly a parked run; for any other run no scheduler state changes |
| SchedulerAgent.BrowserAgent.StopRun | src/browser/agent.ts:1027-1048 | Removes and settles a queued run, finalizes a live one, refuses any other |
| SchedulerAgent.BrowserAgent.StopEverything | src/browser/agent.ts:1217-1240 | Stops the retry timers, cancels the whole queue and every live run, in order |
| SchedulerAgent.BrowserAgent.RecoverOrphans | src/browser/agent.ts:1177-1192 | Orphans become cancelled and undelivered, one write, then deliveries one after the other |
| SchedulerAgent.BrowserAgent.Fire | src/browser/agent.ts:451-473 | Resuming any await or timer is exactly the step of that event; so the object keeps the invariant and every verdict, and, stale screenshots included, sound lanes, one place for each run and the coverage of outcomes |
| AgentStore.StoreRefinesMap | src/agent/store.ts:57-128 | On any readable file in which no agent shadows a built-in, also one that lacks built-ins shipped since: every answer of every sequence of list, get, add and remove is that of a plain map started from what the file shows |
| AgentStore.FreshView | src/agent/store.ts:103-114 | An absent file shows exactly the built-ins |
| AgentStore.MutateIsPlain | src/agent/store.ts:116-128 | One mutation of such a file changes what users see as the plain map does and answers alike |
| AgentStore.RegistryStaysSane | src/agent/store.ts:67-128 | After any operations on such a file ids are unique and nothing shadows a built-in |
| AgentStore.RegistryAlwaysGood | src/agent/store.ts:67-87 | From an absent file, after any operations, an agent with a built-in's id is that built-in until removed and never again afterwards |
| AgentStore.CorruptStays | src/agent/store.ts:91-128 | On an unreadable file every operation of any sequence fails, reads included, and the file is never written over |
| AgentStore.FailsIff | src/agent/store.ts:67-128 | An operation fails if and only if the file is unreadable or an id is added that users see already, and then leaves the file alone |
| AgentStore.LookingDoesNotWrite | src/agent/store.ts:116-128 | Once an operation has answered, a list or get leaves the file alone |
| AgentStore.RemovedReturnsIff | src/agent/store.ts:79-114 | A removed agent's id is back at the next look if and only if the agent was not flagged as built-in and had the id of a built-in that had not been removed |
| AgentStore.ShadowHappens | src/agent/store.ts:79-114 | An agent is added, a release ships a built-in of that id, and removing the agent brings the built-in |
| AgentStore.AnsweredIsComplete | src/agent/store.ts:103-128 | After a mutation that answers, every built-in is in the file or in its removed list |
| AgentStore.RemovedStaysAway | src/agent/store.ts:79-87 | An absent id returns only by an explicit add of it |
| AgentStore.LoadedRegistry.Seed | src/agent/store.ts:103-114 | The seeding loop adds exactly the missing, not removed built-ins, and reports whether it changed anything |
| AgentStore.LoadedRegistry.Apply | src/agent/store.ts:57-87 | Each change edits the loaded lists in place as specified; adding a known id throws and changes nothing |
| AgentStore.Store.Perform | src/agent/store.ts:116-128 | Reads, seeds, changes; writes if seeded or changed; a throwing change or an unreadable file leaves the file alone |
| AgentLock.ExclusionIff | src/agent/store.ts:137-157 | Mutual exclusion is kept by a step if and only if the step does not remove the lock of a live writer inside |
| AgentLock.SafeStep | src/agent/store.ts:116-157 | Every other step keeps exclusion, the serial history, and every writer's standing in it |
| AgentLock.NoLostUpdate | src/agent/store.ts:116-157 | The file is the changes applied one by one in lock order; each answered writer is in that order once with the plain map's answer; refused and failed writers changed nothing |
| AgentLock.FreshLocksAreNotStolen | src/agent/store.ts:144-149 | If no lock ever looks stale no lock is stolen |
| AgentLock.ReadersSeeHistory | src/agent/registry.ts:59-75 | Every lock-free read returns the file after some number of decisions, and successive reads never an older version |
| AgentLock.CorruptFromStart | src/agent/store.ts:91-157 | From an unreadable file, whatever writers and readers do, stolen locks included, the file and every read of it stay unreadable and nobody is answered but with a failure |
| AgentLock.OneDoubterNeverSteals | src/agent/store.ts:137-157 | If no lock of a live holder ever looks stale and at most one waiter at a time is about to remove a stale one, no lock is stolen |
| AgentLock.StealingLosesUpdates | src/agent/store.ts:141-155 | Two waiters and one dead writer: both are answered as done and one update is gone, although only the dead writer's lock ever looked stale |
| AgentLock.AcquireLock | src/agent/store.ts:137-157 | Takes the lock at the first free sight within 200 attempts, fails otherwise |
| LiveRegistry.LiveAgentRegistry.Load | src/agent/registry.ts:59-114 | Never fails; answers with the valid entries of the latest readable file, sorted, an absent file counting as empty |
| LiveRegistry.SortOrdered | src/agent/registry.ts:111-113 | The result is ordered by id for any total preorder on ids |
| LiveRegistry.SortIsStable | src/agent/registry.ts:111-113 | Agents whose ids compare equal keep their order |
| LiveRegistry.EachEntryCounts | src/agent/registry.ts:98-110 | A malformed entry anywhere is skipped alone, and a valid one anywhere is in the answer at its place |
| LiveRegistry.AnswersWithTheLatest | src/agent/registry.ts:59-114 | The answer is that of the latest text that could be read, nothing if it was an absent file or there was none |
| LiveRegistry.LiveReadsAscend | src/agent/registry.ts:59-114 | While writers work and some reads fail, each answer is the sorted agents of one committed version and later answers are never of older ones |
| Publish.PrOnlyAfterBranch | src/agency/index.ts:957-997 | Whichever command fails, a pull request opens only after the finished commit itself was pushed to the run branch |
| Publish.TrunkMovesEarlyIff | src/agency/index.ts:839-896 | An existing trunk moves before the run branch is pushed if and only if its existence could not be read and the direct push goes through |
| Publish.BranchlessTrunkFirst | src/agency/index.ts:862-877 | On a repository without refs the first effect is the trunk, which becomes the default branch and is no run branch |
| Publish.DefaultNeverRunBranch | src/agency/index.ts:853-862 | An attempt never makes a run branch the default branch |
| Publish.RunBranchTrunkRefused | src/agency/index.ts:957-968 | If the trunk is a run branch the remote is untouched and the attempt throws |
| PublishOutcome.PublishOnlyForward | src/agency/index.ts:983-997 | Whatever fails, no remote ref moves backwards, and the only ref that can disappear is the run branch, exactly when a merge that happened deletes it |
| PublishOutcome.BranchThereIff | src/agency/index.ts:1471-1485 | After an attempt the run branch is on the remote if and only if it was there or was pushed, and no merge deleted it |
| PublishOutcome.MergeHoldsSquash | src/agency/index.ts:1471-1485 | After a merge the base of the pull request holds the squash on top of where it was, with HEAD's tree if HEAD was ahead of it |
| PublishOutcome.MergeTargetIs | src/agency/index.ts:1021-1084 | The merge lands on the base of the pull request that was open, and on this attempt's trunk if none was |
| PublishOutcome.LandedIsThere | src/agency/index.ts:863-896 | A reported direct push means trunk at HEAD and the run branch on the remote; a reported merge means the base holds the squash and the run branch is gone; a pull request found merged means the run branch is at HEAD |
| Publish.AttemptShape | src/agency/index.ts:839-896 | The effects of an attempt are nothing, or trunk then run branch, or run branch then pull request then merge then deletion of the run branch, cut off anywhere |
| PublishOutcome.CanLandIff | src/agency/index.ts:974-997 | With the trunk there an attempt can land if and only if the run branch on the remote is absent or an ancestor of HEAD, and GitHub lets it be merged and deleted |
| PublishOutcome.ResquashWedges | src/agency/index.ts:1199-1222 | Work added after a pushed squash and squashed again wedges the run branch |
| PublishOutcome.WedgedLandsIff | src/agency/index.ts:839-896 | A wedged attempt succeeds if and only if it does not see its trunk and both direct pushes go through; one that sees it throws and leaves the remote alone |
| PublishOutcome.WedgedForever | src/agency/index.ts:839-896 | Over any series of retries that each find their trunk, whatever the worker edits in between, every one throws and the remote never changes |
| PublishInstances.EarlyTrunkHappens | src/agency/index.ts:862-877 | One unreadable answer puts HEAD on the trunk first |
| PublishInstances.MergeDeletesBranch | src/agency/index.ts:1471-1485 | An ordinary success: the trunk has HEAD's tree and the run branch is gone |
| PublishInstances.WedgeHappens | src/agency/index.ts:974-997 | A push, a timed-out gate and one more edit, after which no retry that reads its trunk lands |
| PublishInstances.RollbackDropsEdits | src/agency/index.ts:1218-1221 | A failed commit drops an edit to a tracked file and keeps a new file |
| Publish.SquashKeepsTreeIff | src/agency/index.ts:1199-1222 | HEAD keeps its tree if and only if nothing else was staged, or, if the commit fails, the rollback works or there was nothing to change |
| Publish.SquashIsOneCommit | src/agency/index.ts:1199-1222 | A squash leaves exactly one commit over the base and all of the base's history |
| Publish.LooseWorkSurvivesIff | src/agency/index.ts:1218-1221 | The working directory is left alone if and only if there was no rollback or no tracked file had loose edits |
| Publish.UntrackedFilesSurvive | src/agency/index.ts:1218-1221 | Files git does not know survive every attempt |
| Publish.SquashIsNoGuess | src/agency/index.ts:1199-1222 | Without a base, with a base HEAD does not come from, with at most one commit since, or after any failed check, the squash leaves everything alone |
| Publish.SquashOrStay | src/agency/index.ts:1199-1222 | Otherwise the commits since the base become one, or, if the commit fails and the rollback works, stay |
| PublishWork.LooseWorkStaysHome | src/agency/index.ts:1116-1117 | In a checkout not proved to be the run's own the working directory is not looked at: for any two contents the attempt makes the same commits, effects and outcome |
| PublishWork.ConflictsStop | src/agency/index.ts:1122-1134 | A half-finished merge in the run's own checkout makes the attempt throw with nothing changed, here or on the remote |
| PublishWork.CollectedIff | src/agency/index.ts:1116-1175 | Before the squash HEAD holds the loose work if and only if there was none, or the checkout is the run's own, its status was read without conflicts, and staging and commit work |
| PublishWork.LooseWorkIsShipped | src/agency/index.ts:1116-1222 | Then, if the squash holds, every push of the attempt is of exactly the files as they lay there |
| PublishAnswers.LandsIff | src/agency/index.ts:839-896 | The exact condition, in terms of the replies and the remote before, under which an attempt succeeds, and by which way |
| PublishAnswers.MergesIff | src/agency/index.ts:1021-1084 | GitHub merges if and only if the branch is pushed, a pull request is seen, its gate is open, it is not refused, and its base is another branch that exists |
| PublishAnswers.OtherRefsStay | src/agency/index.ts:940-968 | A ticket with a target branch moves only that and its run branch, any other the default branch, or main if that cannot be read; only a pull request that was open already may merge into its own base |
| PublishCli.GitHubCli.CommitStrayWorkingTree | src/agency/index.ts:1116-1175 | Commits loose work only in a run's own worktree, refuses conflicts, and is best effort otherwise |
| PublishCli.GitHubCli.SquashLocalCommits | src/agency/index.ts:1199-1222 | The guarded soft reset, commit and hard-reset rollback, command by command |
| PublishCli.GitHubCli.PublishViaPullRequest | src/agency/index.ts:1021-1084 | Push, reuse or open the pull request, wait for the gate, merge and delete the run branch |
| PublishCli.GitHubCli.EnsurePublished | src/agency/index.ts:839-896 | The whole owned-repository attempt, command by command; so nothing on the remote moves backwards and only a merge removes the run branch |
| Redaction.SecretsAreGone | src/browser/agent.ts:1306-1318 | No given value of four or more characters is left if it has no bracket and is not part of the word "redacted" |
| Redaction.NothingLeft | src/browser/agent.ts:1306-1318 | The same for a value and its JSON-escaped form whenever no mark can supply part of it, whatever other values are redacted |
| Redaction.ReplaceNeverCreates | src/browser/agent.ts:1312 | No replacement makes an occurrence of such a value that was not there |
| Redaction.ReplaceKeepsTheRest | src/browser/agent.ts:1312 | One replacement cuts the text at the value and joins the parts with the mark: every other character stays in place |
| Redaction.SurvivesIff | src/browser/agent.ts:1309-1318 | A string of four or more characters redacted as a value or as the JSON form of one can survive in some text with some companions if and only if a mark can supply part of it, for any characters and with the escapes of JSON; if none can, it is gone under any escaping |
| Redaction.SecretIsMade | src/browser/agent.ts:1309-1318 | "a[re" appears in the redaction of a text that does not hold it |
| Redaction.SecretInsideMark | src/browser/agent.ts:1309-1318 | "dact" survives its own redaction |
| Redaction.NothingToRedact | src/browser/agent.ts:1309-1318 | A text with no value in either form is returned unchanged |
| Redaction.WholeSecretVanishes | src/browser/agent.ts:1311 | Longest first: a text that is one secret becomes exactly one mark even if other secrets are parts of it |
| Redaction.RedactSecretText | src/browser/agent.ts:1309-1318 | The loop computes that redaction |
| Jsonl.ReadsExactlyWholeRecords | src/spend.ts:84-116 | After any appends, each cut at any byte, on any prior file, reading gives what was read before and then exactly the records whose text reached the file whole, in order |
| Jsonl.AppendReads | src/spend.ts:89-101 | One cut append adds its record if its text is whole and otherwise changes nothing for readers |
| Jsonl.LedgerFile.Append | src/uptime.ts:38-49 | Puts a prefix of the framed record at the end of the file and is an error if anything is missing |
| Jsonl.ParseLines | src/spend.ts:104-116 | Blank and unparseable lines are skipped one by one |
| Uptime.LedgerAlwaysLawful | src/uptime.ts:77-97 | Over any boots, shutdowns and crashes inside any append: no two boots are adjacent, every marker follows a boot, and boots equal unclean restarts plus shutdowns directly after a boot plus one if the last event is a boot |
| Uptime.EveryBootIsReported | src/uptime.ts:77-128 | After every such run the daemon is reported up exactly if the last event is a boot; each boot was lost and counted so, or shut down, or is the one that is up; the boot time is the last boot's |
| Uptime.TimeIsConserved | src/uptime.ts:103-128 | On events in time order: downtime, finished uptime, unaccounted time and the time since the last event add up to the time since the first |
| Uptime.RunIsMonotone | src/uptime.ts:38-97 | Nondecreasing clocks over any boots, shutdowns and cut appends leave a ledger that reads back in time order |
| Uptime.ReportsFitTheClock | src/uptime.ts:77-128 | So after every such run the spans add up as above, and reported downtime plus current uptime never exceeds the time that passed |
| Uptime.LifecycleLedger.RecordBoot | src/uptime.ts:77-90 | Marks an unmatched boot first and appends the boot only if that append was whole; succeeds if and only if every append was whole, and then the ledger ends in a boot |
| Uptime.LifecycleLedger.ReadUptime | src/uptime.ts:103-128 | Windows of adjacent shutdown and boot, their sum, the last boot, current uptime and unclean restarts |
| Spend.GroupsConserve | src/spend.ts:158-184 | For any key and window the groups add up to the totals in every field, and the total cost is null if and only if every group's is |
| Spend.GroupsPartition | src/spend.ts:169-176 | The groups together hold every row exactly once |
| Spend.TicketCostIsRolledUp | src/spend.ts:191-234 | The bill of a ticket is its rolled-up cost over the same window, null as zero |
| Spend.OneMoreRecord | src/spend.ts:144-168 | One more record adds each of its fields to that total exactly if its time is not before the window, and otherwise changes nothing; an unknown cost leaves the cost alone and is counted |
| Spend.BillsAddUp | src/spend.ts:191-234 | The tickets' bills add up to the total cost of the window |
| Spend.GroupRows | src/spend.ts:169-176 | The grouping loop lists every key once and keeps each group's rows in order |
| Evaluator.OneTimerAlways | src/browser/evaluator-runner.ts:255-273 | At every moment one timer is armed, with the current phase's budget, until one has killed the child |
| Evaluator.ChunkingIrrelevantIff | src/browser/evaluator-runner.ts:324-351 | The final phase is the same for every chunking and timing if and only if no prefix of an output with the first marker has the second one alone |
| Evaluator.OrderedOutputEndsInTeardown | src/browser/evaluator-runner.ts:267-273 | With both markers in order, the phase after each event, for any chunks and timing, is startup until the first marker is complete, then snippet until the second is, then teardown, where it ends |
| Evaluator.InOrderPhases | src/browser/evaluator-runner.ts:324-351 | As long as no prefix of the output has the second marker alone, the phase after each event is that of the markers seen |
| Evaluator.PhasesAdvance | src/browser/evaluator-runner.ts:267-273 | A phase is never left for an earlier one |
| Evaluator.PhaseIsVerdict | src/browser/evaluator-runner.ts:324-351 | The phase as a function of the output and of whether the second marker was seen first |
| Evaluator.StripKeepsTheRest | src/browser/evaluator-runner.ts:297 | Removing the markers gives back everything written around them that is free of the marker byte |
| Evaluator.FinishedWorkIsReported | src/browser/evaluator-runner.ts:285-311 | An envelope written after both markers is returned unchanged, even if teardown is killed, if and only if it is well-formed and does not claim success against the exit code of an unkilled child |
| Evaluator.NeverStartedIff | src/browser/evaluator-runner.ts:290-294 | "Did not start" is reported if and only if the last timer to fire did so with no first marker in |
| Evaluator.UncertainIff | src/browser/evaluator-runner.ts:285-289 | "Uncertain" is reported if and only if it did so with the first marker in and the clock not in teardown |
| Evaluator.TooMuchOutputIff | src/browser/evaluator-runner.ts:324-351 | The size limit is reported if and only if the output is longer than a million characters |
| Evaluator.OwnWordsCount | src/browser/evaluator-runner.ts:295-311 | Otherwise the report goes by what the stripped output parses to and, if no timer fired at all, by the exit code |
| Evaluator.StartedAfterAll | src/browser/evaluator-runner.ts:290-294 | A startup kill is reported as "did not start" although the first marker is in the output |
| Evaluator.PhaseClock.OnChunk | src/browser/evaluator-runner.ts:335-348 | Grows the text, enforces the limit, fires each marker's transition once |
| Evaluator.PhaseClock.EnterPhase | src/browser/evaluator-runner.ts:267-273 | Replaces the timer, ignoring duplicate and out-of-order markers |
| RateLimiter.PruningChangesNoVerdict | forms/src/index.js:29-42 | With a clock that never goes back, the pruned and swept map decides every request as the client's whole history would |
| RateLimiter.RefusedIff | forms/src/index.js:27-42 | A request is refused if and only if the client made five or more in the last ten minutes |
| RateLimiter.CrowdIsRecent | forms/src/index.js:36-40 | While more than 5000 clients are remembered, each of them made a request in the last ten minutes |
| RateLimiter.BackwardClockForgets | forms/src/index.js:31-34 | If the clock goes back after a prune, any number of counted hits is forgotten |
| RateLimiter.Limiter.RateLimited | forms/src/index.js:29-42 | Prune, push, store, sweep above 5000 clients, compare |
| RateLimiter.Limiter.Sweep | forms/src/index.js:36-40 | The cleanup loop deletes exactly the clients without a recent hit |
| Relevance.NdcgBounds | scripts/bench/recall-relevance-lib.ts:27-38 | For a duplicate-free ranking and any positive decreasing gain nDCG is within 0 and 1, and 1 if and only if the first min(relevant, 10) places exist and are all relevant |
| Relevance.FirstPlacesAreBest | scripts/bench/recall-relevance-lib.ts:27-33 | The same hits placed first gain at least as much, and equally only if they are first |
| Relevance.DuplicatesExceedOne | scripts/bench/recall-relevance-lib.ts:27-30 | A relevant name listed twice pushes nDCG above 1 |
| Relevance.MetricsAreUnit | scripts/bench/recall-relevance-lib.ts:14-41 | Precision, reciprocal rank and nDCG are within 0 and 1 |
| Relevance.MetricsMean | scripts/bench/recall-relevance-lib.ts:20-41 | Precision times k is the number of relevant places among the first k; reciprocal rank times the first relevant rank is 1, and 0 if and only if there is none; a cut-off below 1 is refused |
| Relevance.MeanMoves | scripts/bench/recall-relevance-lib.ts:44-46 | One more value moves the mean as it should, whatever came before; the mean of none is 0 |
| Relevance.FirstIsFirst | scripts/bench/recall-relevance-lib.ts:24-25 | The reported rank is that of the first relevant name, absent if and only if there is none |
| Relevance.NothingFoundScoresZero | scripts/bench/recall-relevance-lib.ts:24-41 | A ranking without a relevant name scores zero in all three metrics and has no rank |
| Relevance.MeanIsUnit | scripts/bench/recall-relevance-lib.ts:44-46 | The mean of metrics within 0 and 1 is within 0 and 1, also of none |
| Persona.WithinBudgetIff | src/chill-system.ts:88-141 | The selected text fits its budget if and only if the budget is at least 1, or 0 with nothing to send |
| Persona.ZeroBudgetOverflows | src/chill-system.ts:88-141 | A persona of one character is sent on a budget of zero |
| Persona.WhatFitsIsSent | src/chill-system.ts:123-126 | The marked regions if there are any, else the whole file, trimmed, is sent as it is when it fits |
| Persona.CarveIsLongestTail | src/chill-system.ts:88-141 | A carve is the longest tail of whole sections that fits; without one the longest tail of whole lines, trimmed, unless only spaces are left of it; only then the last characters, trimmed |
| Persona.TrimDropsSpaces | src/chill-system.ts:124 | Trimming takes off spaces at both ends and nothing else |
| Persona.PromptIsFramed | src/chill-system.ts:144-151 | The prompt is the framing, then the text between its tags |
| Persona.DefaultPromptFits | src/chill-system.ts:61-63 | With the shipped framing the composed prompt never exceeds 2000 characters |
| Persona.PromptFitsIff | src/chill-system.ts:144-151 | For any framing and cap the prompt fits exactly under the same condition |
| Persona.NeverEmpty | src/chill-system.ts:98 | A budget of one character or more never carves a persona to nothing |
| Persona.GroupsAreLines | src/chill-system.ts:73-85 | The sections are the lines in order, cut exactly before headings |
| Persona.TextsJoin | src/chill-system.ts:73-85 | The sections are what trimming leaves of each group, in order, without the blank ones |
| Persona.SelectPersonaForGate | src/chill-system.ts:123-141 | The backwards loops compute that selection |

## Left out

- SchedulerRevival.FinalizedAtMostOnce: counts verdicts of one run of the daemon, not across restarts, where an unfinished run is cancelled by recovery.
- SchedulerAgent.BrowserAgent.Steer: the text of notes and their folding into prompts is not modelled; for a queued or running run the note is only remembered.
- SchedulerAgent.BrowserAgent.LoadLedger: rows are taken as well-formed; field-by-field defaulting of malformed rows (src/browser/agent.ts:393-417) is not modelled.
- AgentStore.StoreRefinesMap: files in which two agents have one id, which no operation writes.
- AgentStore.LoadedRegistry.Apply: list answers are sets; their order by id, which has ties wherever two ids compare equal, is modelled only in LiveRegistry.
- AgentLock.AcquireLock: waiting 25 ms between attempts and lock ages are not modelled; what an attempt sees is given.
- RateLimiter.PruningChangesNoVerdict: for clocks that never go back; how many hits a clock going back forgets depends on every prune in between.
- PublishOutcome.MergeHoldsSquash: when HEAD was behind or beside the base, the tree of GitHub's squash merge is arbitrary.
- Scheduler: the activity journal, live view, statistics, inspection, secrets handed to a running browser, regular-expression redaction of known inputs, timestamps and session ids, killing child processes.
- Registry: timestamps of agents, schema validation, file modes.
- Publishing: foreign origins, new repositories, forks, credentials, visibility, stripping of harness files before a push, polling and gating of CI (one answer of the gate is given), error wording.
- Redaction: lone surrogates, which JSON escapes too.
- Evaluator: spawning and killing the process, decoding of bytes; what the envelope parses to is given.
- Ledgers: file system calls; costs are whole numbers rather than floating point; reports and the weekly bill.
- Persona: finding marked regions (the regions are given), white space other than blank, tab, carriage return and newline.
- Relevance: floating-point rounding; the gain is any positive decreasing function instead of the logarithm.
- Image generation's aspect-ratio helper.
- Prompt texts, Discord, the browser runtime, dashboard and deployment.
