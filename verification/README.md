# Remote Control: a verified model

A control plane runs coding agents on a local host and on remote runners. It promises one writer per
working tree, keeps results across crashes, and queues jobs that wait. This project models its controller,
the runner and the protocol between them in Dafny, and proves what they keep. Check it with
`dafny verify dfyconfig.toml`.

The controller comes in three layers.

- *Transactions* (`Tables`, `Transactions`, `Matching`): the tables as maps, and one guard and one effect for
  every database commit and every change of the controller's memory. What a coroutine has read, and may act upon
  when it is out of date, is part of that memory: the progress of a placement (`Flow`), and records, handles,
  decisions and views (`Pending`). A recovery record is read in one step and written in another.
- *Runs* (`Invariants`, `Safety`, `Runs`): any interleaving of these transactions, with a crash of the
  controller anywhere, which forgets the memory, and the theorems about all runs. `CancelSafety` and
  `AdoptionWait` prove two promises exactly as far as they hold, and `Witnesses` has the runs that break them,
  from a fresh installation on.
- *Operations* (`Scheduler` with `Outcomes`, `RecoveryPass`, `LeaseQueue` with `QueueMoves`, `Admission`, `Reconnect`, `Startup`): what each
  operation does as a composition of transactions, with theorems about its outcome, which are stated on rows and
  records. The class in `JobManager` carries the operations out on fields, step by step, and each of its methods is
  proved to do exactly what the composition says.

Around it: `ProjectSessions` (the rows behind the session locks, with a refinement to the locks that the
controller sees), `RunnerJournal` and `RunnerDaemon` (the runner's file and its procedures), `RunnerGateway`
(the controller's end of the connection), `RunnerProtocol` (both nodes with ordered channels), `RunnerDelivery` (what the
protocol can always still achieve) and `RunnerRefinement` (the daemon's books are the protocol's runner),
`RecordReader`, `Steering`, `ProcessControl` with `CommandLine`, `ProjectOs`, and `Quota` with `QuotaWaits`.

The central invariant is that from its first STARTING until it ends a job holds the lease of its working tree
and the lock of its project session. The event log makes "first STARTING" durable: a job was started exactly if
the log has its edge from ASSIGNED to STARTING.

## What the proofs found

- A remote job that is being cancelled can become CANCELLED, and give its tree and its session away, before its
  runner has confirmed the end of the execution on record: when a turn is being started (`Witnesses.StaleHandle`),
  when a retry rewrites the record that it read before (`Witnesses.RetryForgets`), when a pass writes its decision
  to give an adoption up (`Witnesses.GiveUpForgets`), or when a reconnecting runner reports another execution that the
  job owns or that carries its conversation (`Witnesses.OtherExecution`). The first three, and passes that were begun
  already, can be asked for before the request (`CancelSafety.QuietRequest`); `CancelSafety.CancelEndsEarlyExactly`
  proves that these are all cases until a later pass reads such a report, and `CancelSafety.PassEndsEarlyExactly` says
  from ledger and reports which pass does.
- A wait for adoption can be replaced by one that restarts the job, or end in FAILED, when a task outlives the
  shutdown's wait (`Witnesses.QaOutlivesWait`); exactly then (`AdoptionWait.AdoptionWaitsExactly`), and never once the
  controller is down (`AdoptionWait.AdoptionOutlivesCrash`).
- When a runner reconnects, a job can be bound to an execution of another job, until `_ensure_remote_execution`
  raises: if the row of the execution is acknowledged or belongs to another host or runner instance
  (`Witnesses.HiddenRow`), or if an earlier job of the same pass has just been bound to it
  (`Witnesses.SharedExecution`). `Reconnect.BindsOnlyOwners` proves that these are all cases.
- Adoption never looks at leases. An execution that is matched by conversation alone can start a job that was
  never placed. `Reconnect.AdoptionLeases` says exactly when the one-writer rule survives, and
  `Witnesses.AdoptionWithoutLease` is a case where it does not. The rule is proved for runs that bind started jobs
  only (`Runs.OrderlyRun`), which `Reconnect.OwnedIsHeld` shows to be all jobs whose execution the ledger knows.
- A finished turn takes the pending instructions along before the state of the job is looked at: a job that is
  paused in between, or while the next turn is being started, loses them (`Steering.LostInstruction`);
  `Steering.DeliveredUnlessLost` says exactly when.
- A process that was started for a second turn and is not on record yet survives a start of the controller that
  succeeds (`ProcessControl.SecondTurnWindow`).
- A queue move between the read and the write of the place that a job keeps gives two jobs the same place
  (`Witnesses.SharedPlace`), exactly if it moved that job (`QueueMoves.KeptPlace`, `QueueMoves.PlacesStayDistinct`).
- An instruction that is accepted while an interrupted QA run is recovered stays behind when the run ends
  (`Steering.StrandsExactly`).
- `complete` of the journal accepts a STARTING entry and would then write a file that cannot be loaded
  (`RunnerJournal.CompleteLoadable`); the daemon never does so.
- A runner that dies between the reservation of an execution and the record of its process never serves again until
  somebody removes the entry; in every other case it can (`RunnerDelivery.ComesBackExactly`).
- The directory option of a command line is looked for as text: the command of a job in a directory whose name continues
  another one's after a blank is taken for a command in that one (`CommandLine.RecognisedExactly`).
- At startup an ASSIGNED job that has a QA run is noticed but not moved. It is the one exception in
  `Startup.Settled`.
- A job in a lane can be dispatched although the lane was held when the pass began: if the holder waits for its
  host, has lost its session and gives the tree back at its own turn (`RecoveryPass.HeldLaneWaits`).
- The documentation says that jobs in ADOPT mode restart after a grace period and that lease records run in
  update order. The code never restarts an ADOPT job by itself and orders the queue by position; the model
  follows the code.


## Model

| member | source | states |
|---|---|---|
| `Runs.OneWriterPerTreeAlways` | src/remote_control/controller/job_manager.py:1959-2046 | After any interleaving of transactions, crashes and restarts: every job that may run an agent holds the lease of its working tree and its project session, two such jobs never share a tree, a job has one lease at most, and a lease lies on its assigned host and belongs to no queued job; a lease outlives its job only while the release is under way. No step of the interleaving binds an execution to a job that was never started, or adopts on another host than the job's; `Reconnect.AdoptionLeases` says exactly when such an adoption breaks the rule |
| `Runs.LifecycleAlways` | src/remote_control/storage/repositories.py:135-182 | After any run, whatever is adopted, the lifecycle events of a job form a path that starts at QUEUED, continues each edge where the last one ended, uses edges of the table only, and ends in the stored state; a job exists exactly if it has events |
| `Runs.WaitingIsRecorded` | src/remote_control/controller/job_manager.py:3595-3792 | While the controller serves, every waiting job has a recovery record, or the one of its wait is about to be written; a queued one has a place in the queue, or is about to get it, and occupies neither tree nor session |
| `Runs.OwnersNeverChange` | src/remote_control/controller/job_manager.py:3235-3317 | Whatever follows, a recorded execution keeps its job, its host and its runner instance |
| `CancelSafety.CancelWaits` | src/remote_control/controller/job_manager.py:728-847 | While a remote job is CANCELLING with execution e on record, and no turn start, other handle, retry, pending record or misled pass gets in the way (quiet): along every run without a definite result of e in which no pass reads anything that leads it to another execution of the job (`Agrees`), through timeouts, disconnects, repeated cancels, crashes, restarts and adoptions, it stays CANCELLING with e on record, and stays quiet |
| `CancelSafety.AloneAgrees` | src/remote_control/controller/job_manager.py:1759-1785 | A pass agrees if no other row that it has consulted belongs to the job, and no report without such a row carries its conversation |
| `CancelSafety.NoOtherRow` | src/remote_control/controller/job_manager.py:3235-3317 | A job that has no other row when its cancellation is quiet gets none |
| `CancelSafety.CancelHolds` | src/remote_control/controller/job_manager.py:3942-3977 | ... and, along orderly runs, it keeps the lease of its tree and its project session |
| `CancelSafety.QuietRequest` | src/remote_control/controller/job_manager.py:768-774 | Whether a cancellation is quiet can be asked for before the request is made |
| `CancelSafety.CancelPendsExactly` | src/remote_control/controller/job_manager.py:774-847 | All such runs leave the job CANCELLING with e on record if and only if the cancellation is quiet |
| `CancelSafety.CancelEndsEarlyExactly` | src/remote_control/controller/job_manager.py:774-847 | Some such run ends in CANCELLED if and only if the cancellation is not quiet |
| `CancelSafety.PassEndsEarlyExactly` | src/remote_control/controller/job_manager.py:1752-1822 | When a runner reconnects during a quiet cancellation, its pass, and no later one, can end the cancellation without a result of e if and only if the latest reported execution that it owns, or else matches, is another one |
| `Witnesses.StaleHandle` | src/remote_control/controller/job_manager.py:3080-3106 | From a fresh installation: a turn is being started when the job is cancelled; the result of the old execution ends the job although the new one is on record and unconfirmed |
| `Witnesses.RetryForgets` | src/remote_control/controller/job_manager.py:2379-2391 | From a fresh installation: a QA retry rewrites its record after the job was cancelled; the job becomes CANCELLED without any result |
| `Witnesses.GiveUpForgets` | src/remote_control/controller/job_manager.py:1712-1735 | From a fresh installation: so does a pass that had decided to give the adoption up |
| `Witnesses.OtherExecution` | src/remote_control/controller/job_manager.py:1759-1785 | From a fresh installation: the controller dies between the row of a second turn and its handle, and the cancellation of the execution on record is quiet; the runner reports both executions, and the result of the second ends the job while the first is reported and unconfirmed |
| `AdoptionWait.StepAwaits` | src/remote_control/controller/job_manager.py:2303-2306 | No retry, scheduler pass, heartbeat, shutdown or restart moves an idle remote job that waits for adoption, or changes the mode of its record; the ways out are a cancel request, the adoption of an execution that a pass has picked, and the decision of a pass with a complete snapshot |
| `AdoptionWait.AdoptionOutlivesCrash` | src/remote_control/controller/job_manager.py:2073-2143 | A wait for adoption that is on record when the controller dies goes on along every run of the restarted one, whoever worked on the job before |
| `AdoptionWait.AdoptionWaitsExactly` | src/remote_control/controller/job_manager.py:3744-3792 | Along all runs without one of the ways out the job goes on waiting if and only if it is idle: no coroutine from before the wait is engaged with it, and nobody has read or is about to write a record of it with another mode |
| `AdoptionWait.EngagedWaitsAgain` | src/remote_control/controller/job_manager.py:2826-2836 | A task from before the wait that loses its connection replaces ADOPT by QA or RESUME |
| `AdoptionWait.EngagedFails` | src/remote_control/controller/job_manager.py:2925-2945 | ... or takes the job from WAITING_HOST to FAILED |
| `Witnesses.QaOutlivesWait` | src/remote_control/controller/job_manager.py:2124-2132 | From a fresh installation: shutdown records ADOPT while QA is under way, and QA replaces it |
| `AdoptionWait.AdoptionWaits` | src/remote_control/controller/job_manager.py:1590-1740 | The same as `AdoptionWait.StepAwaits` along every run |
| `Runs.RunKeeps` | src/remote_control/controller/job_manager.py:4103-4147 | Every orderly run of transactions keeps all invariants of the tables and of the controller's memory |
| `Runs.InvMeansOneWriter` | src/remote_control/controller/job_manager.py:2002-2046 | The invariants imply the one-writer rule in the words of the tables |
| `States.ReplayIsLegalPath` | src/remote_control/controller/states.py:25-94 | Replaying the events of a job succeeds exactly if they are a legal path, and ends where the path ends |
| `States.ActiveNeedsStart` | src/remote_control/controller/states.py:27-87 | Every state in which an agent may run lies behind the edge from ASSIGNED to STARTING |
| `States.TerminalIsForever` | src/remote_control/controller/states.py:25-25 | A job that has ended keeps its state: any further event of it breaks the path |
| `Safety.AssignKeeps` | src/remote_control/storage/repositories.py:294-352 | Assigning state, lease and event in one commit keeps every invariant, for new, queued and host-waiting jobs |
| `Safety.HostWaitKeeps` | src/remote_control/controller/job_manager.py:3744-3792 | Entering a host wait keeps every invariant, with the execution, the attempts and the queue position of the record kept; so does each of its two steps, whatever comes between them |
| `Safety.RecordHostWaitKeeps` | src/remote_control/controller/job_manager.py:3773-3783 | The record of a host wait may be written whatever has become of the job since its transition |
| `Safety.WriteKeeps` | src/remote_control/storage/repositories.py:729-740 | So may any other record that was made up from what was read before |
| `Safety.LeaseWaitKeeps` | src/remote_control/controller/job_manager.py:3669-3742 | Joining the queue keeps every invariant: the job occupies nothing and has a place |
| `Safety.EnterLeaseWaitKeeps` | src/remote_control/controller/job_manager.py:3680-3692 | So does its transition alone, when the place is still to come |
| `Safety.PlaceKeeps` | src/remote_control/controller/job_manager.py:3693-3730 | ... and the record with the place, whatever has become of the job since |
| `Safety.QuotaWaitKeeps` | src/remote_control/controller/job_manager.py:3595-3667 | A quota wait keeps the lease and every invariant |
| `Safety.GrantSessionKeeps` | src/remote_control/controller/job_manager.py:2209-2235 | A retry that gets its project session keeps every invariant |
| `Safety.ReturnLeaseKeeps` | src/remote_control/controller/job_manager.py:2217-2225 | A retry that finds its session busy gives its lease back and keeps every invariant |
| `Safety.RequeueKeeps` | src/remote_control/controller/job_manager.py:2220-2225 | ... and goes back to the queue with its record as it was |
| `Safety.MoveKeeps` | src/remote_control/controller/job_manager.py:4103-4119 | The transitions of tasks and user requests keep every invariant, also that of a failed QA run from WAITING_HOST to FAILED; STARTING needs a completed placement |
| `Safety.ReleaseSessionKeeps` | src/remote_control/controller/job_manager.py:4123-4135 | Releasing the project session after a terminal transition keeps every invariant |
| `Safety.ReleaseLeaseKeeps` | src/remote_control/controller/job_manager.py:4136-4145 | So does releasing the lease, after which no lease of the job is left |
| `Safety.TakeHandleKeeps` | src/remote_control/controller/job_manager.py:3357-3358 | Installing the handle of an execution keeps every invariant |
| `Safety.BindSessionKeeps` | src/remote_control/controller/job_manager.py:3808-3837 | Binding a conversation takes the session lock only if it is free or the job's own |
| `Safety.ReserveKeeps` | src/remote_control/controller/job_manager.py:3235-3268 | Reserving an execution for a turn keeps every invariant |
| `Safety.FinalizedKeeps` | src/remote_control/controller/job_manager.py:3942-3969 | Ending a cancellation keeps every invariant |
| `Safety.BindKeeps` | src/remote_control/controller/job_manager.py:1627-1637 | Binding a job that was started to a reported execution keeps every invariant, whoever owns the execution |
| `Safety.AdoptKeeps` | src/remote_control/controller/job_manager.py:1660-1660 | So does its adoption on its own host |
| `Safety.SwapKeeps` | src/remote_control/storage/repositories.py:706-727 | Exchanging two queue positions keeps every invariant |
| `Safety.CrashKeeps` | src/remote_control/controller/job_manager.py:97-153 | A crash, which forgets the memory and keeps the tables, keeps the invariants of the tables |
| `Safety.TornWaitKeeps` | src/remote_control/controller/job_manager.py:3682-3692 | So does a crash between the transition and the recovery record of a wait |
| `Safety.TornFinalizeKeeps` | src/remote_control/controller/job_manager.py:3964-3967 | So does a crash between the deletion of the record and the transition to CANCELLED |
| `Safety.ClaimLeaseKeeps` | src/remote_control/execution_leases.py:74-120 | Taking the lease of a placed job at startup keeps every invariant |
| `Matching.FindMatch` | src/remote_control/controller/job_manager.py:1826-1879 | The search returns the reported execution that may belong to the job and started last, and none if two started together |
| `Matching.MatchExactly` | src/remote_control/controller/job_manager.py:1826-1879 | The match is the execution that alone started last among the reported ones in the tree of the job, not older than the job, and owned by it or, without a row, in its conversation |
| `Matching.Latest` | src/remote_control/controller/job_manager.py:1874-1879 | The latest entry of a list, or the fact that two entries tie |
| `Matching.PickIsReported` | src/remote_control/controller/job_manager.py:1596-1625 | Whatever a pass has read, it binds a job to a reported execution only, and never to one that an owner it has read has; one that neither row nor record gives to the job runs in its conversation and its tree and is not older than the job |
| `Matching.PickExactly` | src/remote_control/controller/job_manager.py:1596-1625 | Which execution that is: a waiting job in another mode than ADOPT takes the recorded one first if it is reported and no row gives it to another job; then the last of its own rows that is reported, then the one that alone matches, then the recorded one |
| `Matching.BegunExactly` | src/remote_control/controller/job_manager.py:1531-1590 | What a pass reads: rows of this host and runner that are not acknowledged, without completed executions of ended jobs, and after a complete snapshot only reported ones |
| `Matching.PickRespectsOwner` | src/remote_control/controller/job_manager.py:1531-1587 | When the pass begins, only a row that was not consulted can give the picked execution to another job or host |
| `Reconnect.BindsOnlyOwners` | src/remote_control/controller/job_manager.py:1531-1678 | A pass over jobs that are listed once, with the owners read before the first of them, ends with an ownership error if and only if one of them is bound to an execution that a hidden row (acknowledged, or of another host or runner instance) gives to another job or host, or that an earlier job of the pass was bound to; otherwise every bound execution has a row of its own job on the reporting host |
| `Reconnect.PassRuns` | src/remote_control/controller/job_manager.py:1588-1823 | A whole pass is a run of transactions, however it ends, if it binds started jobs only |
| `Reconnect.SharedMatchIsUnplaced` | src/remote_control/controller/job_manager.py:1826-1879 | Of two waiting jobs that match the same execution one at least was never started |
| `Witnesses.HiddenRow` | src/remote_control/controller/job_manager.py:1531-1543 | From a fresh installation: an acknowledged result is reported once more, and a started job is bound to the execution of an ended one |
| `Witnesses.SharedExecution` | src/remote_control/controller/job_manager.py:1582-1587 | From a fresh installation: no row is hidden, and the second of two jobs is bound to the execution that the first one has just adopted |
| `Reconnect.AdoptionLeases` | src/remote_control/controller/job_manager.py:1661-1668 | After an adoption the one-writer rule holds exactly if the job was on the runner's host and held its lease and its session before |
| `Witnesses.AdoptionWithoutLease` | src/remote_control/controller/job_manager.py:1826-1879 | From a fresh installation: an adoption by conversation makes a job that was never placed run in the tree of another one |
| `Reconnect.OwnedIsHeld` | src/remote_control/controller/job_manager.py:1596-1610 | An execution known to the ledger is adopted by a job that holds its lease and its session |
| `Reconnect.ReconciledRuns` | src/remote_control/controller/job_manager.py:1590-1823 | The turn of one job, waiting or cancelling, is a run of the controller's transactions, also if it ends with an ownership error |
| `Reconnect.TurnExactly` | src/remote_control/controller/job_manager.py:1588-1823 | Which jobs have a turn in a pass, when it ends with an error, and that otherwise the picked execution is taken over |
| `Reconnect.TakenLeaves` | src/remote_control/controller/job_manager.py:1590-1823 | A job that takes an execution over has its handle; the record names it, keeps its mode and has no due time; the ledger gives it to the job; the reported conversation is joined; a waiting job is RUNNING on the host of the runner, a cancelling one stays as it is |
| `Reconnect.GivenUpRuns` | src/remote_control/controller/job_manager.py:1680-1740 | After a complete snapshot has been dealt with, a listed job still waits for adoption only if a reported execution may be its own, by the owners that were read when the pass began; records of other modes are untouched |
| `Reconnect.GivenUpLeaves` | src/remote_control/controller/job_manager.py:1680-1740 | Exactly the listed jobs that wait for adoption and have no execution in a complete snapshot (none by row, none that matches alone, not the recorded one) get mode RESUME or START, due now, without execution; all other records stay |
| `Scheduler.RetryLeaseRuns` | src/remote_control/controller/job_manager.py:2193-2272 | A lease retry is a run of transactions, whatever it meets: host down, tree busy, session busy, or success |
| `Scheduler.RetryHostRuns` | src/remote_control/controller/job_manager.py:2303-2419 | So is a host retry, in every recovery mode; a job that waits for adoption is not touched |
| `Scheduler.RetryQuotaRuns` | src/remote_control/controller/job_manager.py:2274-2301 | So is a quota retry |
| `Scheduler.QueuePosition` | src/remote_control/storage/repositories.py:699-704 | A position is kept, or it is the next one after all positions in use |
| `Outcomes.HostWaitLeaves` | src/remote_control/controller/job_manager.py:3744-3792 | A host wait keeps attempts, execution and place of a record; a first record names the execution of the handle |
| `Outcomes.LeaseWaitLeaves` | src/remote_control/controller/job_manager.py:3669-3742 | A lease wait starts its record anew, at the own place or behind all others |
| `Outcomes.RetryQuotaLeaves` | src/remote_control/controller/job_manager.py:2274-2301 | A quota retry makes the job RUNNING, keeps execution and attempts and clears the due time, exactly if the host is online or there is none |
| `Outcomes.RetryLeaseLeaves` | src/remote_control/controller/job_manager.py:2193-2272 | A lease retry goes ahead exactly if the host is up, nobody leases the tree and nobody else has the session: the job gets both, joins the conversation of the session and is ASSIGNED (START) or RUNNING, and its record leaves the queue with mode and attempts; otherwise no table changes but the host of the row |
| `Outcomes.RetryHostLeaves` | src/remote_control/controller/job_manager.py:2303-2419 | A host retry leaves a job in mode ADOPT alone, goes on with the host of the Project OS task, else with the host of the conversation, else with the requested one, and does nothing if that is down or the tree is taken; a finalization needs no session, anything else joins the queue without one; what becomes of row, lease, lock and record in each mode |
| `Outcomes.MadeUpLeaves` | src/remote_control/controller/job_manager.py:509-618 | A manual retry makes up a record only for a job without one: due now, RESUME or START by the conversation, and with a place if the job is queued |
| `RecoveryPass.LowestFirst` | src/remote_control/controller/job_manager.py:2169-2191 | In a pass, of the due queued jobs of a lane whose tree is free at most one is dispatched, and every one with a lower position found its session locked at its turn |
| `RecoveryPass.NobodyIsPassedOver` | src/remote_control/controller/job_manager.py:2193-2272 | A due queued job that stays in the queue found its session locked, or its tree is taken when the pass ends |
| `RecoveryPass.HeldLaneWaits` | src/remote_control/controller/job_manager.py:2203-2206 | A lane whose tree is held dispatches none, unless the holder itself waits for a host, finds its session locked and gives the tree back |
| `RecoveryPass.QueueGoesFirst` | src/remote_control/storage/repositories.py:676-685 | When a record without a position finds the tree of a lane free, every due queued job of the lane that has its place has had its turn and found its session locked |
| `RecoveryPass.ReadyTurn` | src/remote_control/controller/job_manager.py:2193-2235 | A due queued job starts at its turn exactly if its tree and its session are free; otherwise it stays queued and no table changes |
| `RecoveryPass.EarlyWaits` | src/remote_control/controller/job_manager.py:2179-2180 | The turn of an open job whose record has a due time after now changes nothing |
| `RecoveryPass.EarlyStays` | src/remote_control/controller/job_manager.py:4332-4337 | ... and such a job keeps its row and its record through the whole pass |
| `RecoveryPass.EndedIsForgotten` | src/remote_control/controller/job_manager.py:2175-2178 | The record of an ended or missing job is dropped, and nothing else changes |
| `RecoveryPass.DueIsRetried` | src/remote_control/controller/job_manager.py:2179-2191 | A record without due time, or with one that is not after now, gets the retry of the state of its job, and none in states that do not wait |
| `RecoveryPass.QuotaResumes` | src/remote_control/controller/job_manager.py:2169-2191 | When the pass is over, a WAITING_QUOTA job without due time, or with one that has come, is RUNNING with its record out of the schedule exactly if its host, if it has one, is online; otherwise row and record are as before |
| `RecoveryPass.LockedOutRequeued` | src/remote_control/controller/job_manager.py:2209-2225 | A job that gets the tree but not its session leaves nothing behind but two events |
| `RecoveryPass.PassStepOnly` | src/remote_control/controller/job_manager.py:2169-2191 | The turn of a record touches no other job and takes no lease or lock from anyone else |
| `RecoveryPass.PassRuns` | src/remote_control/controller/job_manager.py:2169-2191 | A pass is a run of transactions |
| `LeaseQueue.MoveExchanges` | src/remote_control/controller/job_manager.py:892-955 | A granted move exchanges the job with its neighbour in its own lane; every other lane keeps its order, the same positions are in use, and the neighbour belongs to the same user |
| `LeaseQueue.MoveBack` | src/remote_control/controller/job_manager.py:935-944 | The opposite move is granted next and restores every record |
| `LeaseQueue.RefusedExactly` | src/remote_control/controller/job_manager.py:904-942 | A move is refused exactly if the job is not a queued one of the user and project, has no place yet, or the neighbour belongs to someone else |
| `LeaseQueue.MoveExactly` | src/remote_control/controller/job_manager.py:892-955 | The answer to every request: refused unless the job is a queued one of the user (and project) with a place; at the end of its lane in that direction; else exchanged with the next job of the lane in that direction if it belongs to the user, and refused otherwise |
| `LeaseQueue.SameLane` | src/remote_control/controller/job_manager.py:957-965 | Two jobs are in the same lane exactly if they are bound for the same tree, or for any host with the same project |
| `LeaseQueue.ExchangeNeighbours` | src/remote_control/storage/repositories.py:706-727 | Swapping the positions of two neighbours of a lane yields the queue with exactly them exchanged |
| `LeaseQueue.QueueUnique` | src/remote_control/storage/repositories.py:687-697 | The positions determine the order of the queue |
| `QueueMoves.KeptPlace` | src/remote_control/controller/job_manager.py:3694-3741 | A place in the queue that was read before some moves and is written after them leaves positions unique exactly if the job itself is where it was |
| `QueueMoves.PlacesStayDistinct` | src/remote_control/controller/job_manager.py:3694-3741 | No two records have the same place in any state of a run, through moves, crashes, restarts and adoptions, if and only if no place is written back after another job has got it |
| `Witnesses.SharedPlace` | src/remote_control/controller/job_manager.py:3694-3730 | From a fresh installation: a job that is queued again keeps place 1, the user moves the queue after the place was read, and both jobs have place 1 |
| `Startup.RepairLeaves` | src/remote_control/controller/job_manager.py:1189-1506 | The repair of one job, by the state it is found in: an ASSIGNED, STARTING or RUNNING job on another host than the local one, without QA run, waits for its host with mode ADOPT, no due time, and the execution, attempts and place of its record, and so does, with a new record, a remote WAITING_HOST job without one; other interrupted, QUEUED and WAITING_AGENT jobs wait with RESUME or START by their conversation, due now, or with QA or FINALIZE; a remote CANCELLING job has a CANCEL record that keeps its execution, a local one is CANCELLED without record; a WAITING_LEASE job is due now and keeps its mode and its place or gets one; a WAITING_QUOTA job keeps its record or gets one due after the initial delay; all others are not touched |
| `Startup.RepairKeepsLeft` | src/remote_control/controller/job_manager.py:1452-1506 | A job that is left like that is not changed by any later repair, although a QUEUED job is gone over twice |
| `Startup.PhaseRuns` | src/remote_control/controller/job_manager.py:1189-1506 | A phase of startup is a run of transactions |
| `Startup.PhaseSettles` | src/remote_control/controller/job_manager.py:1189-1506 | A phase leaves every job of its list as `Startup.LeftAs` says, unsettles none, and touches no other; leases stay held and places distinct |
| `Startup.ReadyToServe` | src/remote_control/controller/job_manager.py:1181-1506 | When all phases are through, every job is left as its state requires, the controller may serve, and every job has ended, waits with a record (and a position), waits for a user, or is a remote CANCELLING; the exception is an ASSIGNED job with a QA run |
| `Startup.LeasedIsExact` | src/remote_control/controller/job_manager.py:1959-2000 | After the lease repair the trees of open, placed jobs outside the queue are leased by them, and no other tree is leased |
| `Startup.SweepRuns` | src/remote_control/controller/job_manager.py:1959-1974 | The lease repair leaves no lease of a missing, ended, queued or unplaced job |
| `Startup.ClaimRuns` | src/remote_control/controller/job_manager.py:1989-2000 | If startup is not refused, every open, placed, unqueued job holds the lease of its tree |
| `Startup.UnlockRuns` | src/remote_control/controller/job_manager.py:2048-2071 | The lock repair removes the locks of missing and ended jobs and no others |
| `Admission.AdmittedOutcome` | src/remote_control/controller/job_manager.py:236-365 | A new job is placed exactly if its host is up and its session and its tree are free, and then holds both; otherwise it waits for its host, keeping a session it got, or joins the queue and holds nothing; nobody else is touched |
| `Admission.AdmittedLast` | src/remote_control/controller/job_manager.py:313-362 | A new job that joins the queue joins its end |
| `Admission.AdmittedWritten` | src/remote_control/controller/job_manager.py:236-365 | The row of a new job says what was asked for, its host and the conversation of a free session; a placed job has no record, any other one that is due now in the requested mode |
| `Admission.AdmittedRuns` | src/remote_control/controller/job_manager.py:367-507 | Creating a job, or retrying a failed one, is a run of transactions |
| `Admission.CancelledWithHandle` | src/remote_control/controller/job_manager.py:774-783 | With a handle a request to cancel ends the job exactly if the runner confirms in time; otherwise the job is CANCELLING with a CANCEL record that names the execution, and keeps tree and session |
| `Admission.CancelledWithoutHandle` | src/remote_control/controller/job_manager.py:816-847 | Without a handle, and once no turn is being started, it ends the job at once unless a remote execution is recorded, which is then kept pending |
| `Admission.CancelledWhileTurning` | src/remote_control/controller/job_manager.py:785-815 | While a turn is being started a request to cancel changes the state only |
| `JobManager.JobManager.Create` | src/remote_control/controller/job_manager.py:236-365 | Creates a job as specified by Admission.Admitted |
| `JobManager.JobManager.RetryLease` | src/remote_control/controller/job_manager.py:2193-2272 | Retries a queued job as specified by Scheduler.RetryLease |
| `JobManager.JobManager.RetryHost` | src/remote_control/controller/job_manager.py:2303-2419 | Retries a job that waits for its host as specified by Scheduler.RetryHost |
| `JobManager.JobManager.RetryQuota` | src/remote_control/controller/job_manager.py:2274-2301 | Resumes a job that waits for quota if its host is online |
| `JobManager.JobManager.RetryWaiting` | src/remote_control/controller/job_manager.py:509-618 | Accepts exactly the waiting jobs, makes up the record of a host wait that is not written yet, and retries them according to their state |
| `JobManager.JobManager.RecoverDue` | src/remote_control/controller/job_manager.py:2169-2191 | Performs the pass that the RecoveryPass theorems are about: records whose time has not come are left alone, the others retried |
| `JobManager.JobManager.TryPlace` | src/remote_control/controller/job_manager.py:2202-2235 | Takes lease and session, or gives the lease back, or takes nothing |
| `JobManager.JobManager.AssignExecutionLease` | src/remote_control/controller/job_manager.py:2002-2027 | Succeeds exactly if no other job leases the tree and the job leases no other |
| `JobManager.JobManager.AcquireSession` | src/remote_control/sessions/project_sessions.py:107-166 | Succeeds exactly if the session is free or the job's own |
| `JobManager.JobManager.QueuePositionFor` | src/remote_control/storage/repositories.py:699-704 | Computes the kept or next queue position |
| `JobManager.JobManager.EnterHostWait` | src/remote_control/controller/job_manager.py:3744-3792 | Enters a host wait and keeps execution, attempts and position of the record |
| `JobManager.JobManager.EnterLeaseWait` | src/remote_control/controller/job_manager.py:3669-3742 | Enters the queue at its end or keeps its place |
| `JobManager.JobManager.EnterQuotaWait` | src/remote_control/controller/job_manager.py:3595-3667 | Enters a quota wait exactly from STARTING or RUNNING; its record and its end are what `QuotaWaits.WaitedRecord` says |
| `JobManager.JobManager.Transition` | src/remote_control/controller/job_manager.py:4103-4147 | Changes row and event together; after a terminal target the session is released, then the lease |
| `JobManager.JobManager.Pause` | src/remote_control/controller/job_manager.py:620-636 | Pauses exactly a RUNNING job, which keeps its lease |
| `JobManager.JobManager.Resume` | src/remote_control/controller/job_manager.py:638-676 | Resumes exactly a PAUSED job, or lets it wait for its offline host |
| `JobManager.JobManager.Cancel` | src/remote_control/controller/job_manager.py:728-847 | Cancels as specified by Admission.CancelledBy: asks the handle, waits for a task that starts a turn, keeps a recorded execution pending, or ends the job |
| `JobManager.JobManager.FinalizeCancellation` | src/remote_control/controller/job_manager.py:3942-3977 | Ends a CANCELLING job and releases what it held; does nothing in any other state |
| `JobManager.JobManager.MoveWaitingLease` | src/remote_control/controller/job_manager.py:892-955 | Answers as LeaseQueue.MoveAnswer and swaps exactly two positions if granted |
| `JobManager.JobManager.ReconcileStartup` | src/remote_control/controller/job_manager.py:1181-1506 | Succeeds exactly if the earlier processes are gone and no two open placed jobs outside the queue work in the same tree; then every job, by the state it was found in, is left as `Startup.LeftAs` says (a remote interrupted job with ADOPT, no due time and its execution), exactly the open placed jobs outside the queue lease their trees, and places in the queue are distinct if they were; when it fails rows and records are as before |
| `JobManager.JobManager.SweepLeases` | src/remote_control/controller/job_manager.py:1959-1987 | Leaves no stale lease; a lease that does not match its job never occurs |
| `JobManager.JobManager.ClaimLeases` | src/remote_control/controller/job_manager.py:1989-2000 | Gives every open, placed job its lease, or reports the conflict |
| `JobManager.JobManager.SweepLocks` | src/remote_control/controller/job_manager.py:2048-2071 | Removes exactly the locks of missing and ended jobs |
| `JobManager.JobManager.Repair` | src/remote_control/controller/job_manager.py:1189-1506 | Does to one job what `Startup.Repaired` says, which leaves it as `Startup.RepairLeaves` states |
| `JobManager.JobManager.BeginPass` | src/remote_control/controller/job_manager.py:1531-1590 | Reads job rows, reports and owners once |
| `JobManager.JobManager.PickExecution` | src/remote_control/controller/job_manager.py:1596-1625 | Chooses the execution that Matching.Pick describes, by the owners read when the pass began |
| `JobManager.JobManager.ReconcileJob` | src/remote_control/controller/job_manager.py:1590-1678 | Takes over a reported execution of one job as specified by Reconnect.Reconciled, or raises |
| `JobManager.JobManager.ReconcileJobs` | src/remote_control/controller/job_manager.py:1588-1823 | Goes over all listed jobs; it ends early exactly if two owners collide, and keeps all invariants if every job that it binds was started and none is in the middle of a placement |
| `JobManager.JobManager.SetHandle` | src/remote_control/controller/job_manager.py:3357-3381 | Gives the job a handle and its conversation; ledger and record name the execution, unless the ledger gives it to another job, which raises |
| `JobManager.JobManager.GiveUpAdoption` | src/remote_control/controller/job_manager.py:1680-1740 | Lets listed jobs without a reported execution be started again |
| `ProjectSessions.SoundAlways` | src/remote_control/sessions/project_sessions.py:73-391 | Over any sequence of registry operations, some cut off between their commits: at most one open session per project and user, ACTIVE exactly when locked, CLOSED exactly when closed_at is set |
| `ProjectSessions.LocksAreNotStolen` | src/remote_control/sessions/project_sessions.py:73-268 | A lock is removed exactly by a release of its own job or a stale release that names its holder, and never passes to another job in the same step |
| `ProjectSessions.RowsRefineLocks` | src/remote_control/sessions/project_sessions.py:73-391 | The session rows refine the map of locks that the controller's model uses: acquire and bind take a free or own lock, the releases clear the holder's, nothing else touches one |
| `ProjectSessions.ProjectSessionRegistry.ActiveFor` | src/remote_control/storage/repositories.py:491-506 | Finds the open session of an owner exactly if there is one |
| `ProjectSessions.ProjectSessionRegistry.Acquire` | src/remote_control/sessions/project_sessions.py:107-166 | Locks the owner's open session for the job, adding one if there is none; refuses exactly a busy one |
| `ProjectSessions.ProjectSessionRegistry.BindForJob` | src/remote_control/sessions/project_sessions.py:168-233 | Sets the conversation of the session unless another job holds it |
| `ProjectSessions.ProjectSessionRegistry.ReleaseForJob` | src/remote_control/sessions/project_sessions.py:236-268 | Frees the session unless another job holds it |
| `ProjectSessions.ProjectSessionRegistry.ReleaseStaleLock` | src/remote_control/sessions/project_sessions.py:73-105 | Frees a session exactly if the named job holds it |
| `ProjectSessions.ProjectSessionRegistry.UseSession` | src/remote_control/sessions/project_sessions.py:270-334 | Makes a free session with a conversation the open one; changes nothing when it refuses |
| `ProjectSessions.ProjectSessionRegistry.NewSession` | src/remote_control/sessions/project_sessions.py:336-391 | Closes the open session, if it is free, and opens a new one |
| `RunnerProtocol.LiveIsJournaled` | src/remote_control/runner_daemon.py:306-494 | In every reachable state of controller, runner and channels, a process that runs is STARTING or RUNNING in the journal file |
| `RunnerProtocol.AckedIsJournaled` | src/remote_control/controller/job_manager.py:3857-3889 | The controller acknowledges an accepted run only after the runner has journaled its result as COMPLETED; an acknowledged run has no process |
| `RunnerProtocol.ResolvedIsDead` | src/remote_control/transport/runner_ws.py:386-462 | A run whose future has a definite result has no process |
| `RunnerProtocol.RestartLeavesNoProcess` | src/remote_control/runner_daemon.py:584-620 | A runner that serves after a restart has left no earlier process alive |
| `RunnerProtocol.ResultsAgree` | src/remote_control/runner_daemon.py:556-568 | While the daemon serves without a fatal error, its map of results is that of the journal's COMPLETED entries |
| `RunnerProtocol.ResultSurvives` | src/remote_control/runner_daemon.py:243-252 | A journaled result stays in the file unchanged, through disconnects, crashes and restarts, until its acknowledgement is taken |
| `RunnerProtocol.NextKeeps` | src/remote_control/runner_daemon.py:218-254 | Every step of either node or of the network keeps the invariants |
| `RunnerDelivery.StartGetsThrough` | src/remote_control/runner_daemon.py:306-494 | From every state in which a connected runner is idle and nothing is on its way to it, legal steps lead to the acceptance of a new execution, with its process and its entry on disk |
| `RunnerDelivery.EndIsJournaled` | src/remote_control/runner_daemon.py:529-568 | ... and from there to its result in the journal |
| `RunnerDelivery.ResultGetsThrough` | src/remote_control/runner_daemon.py:110-141 | From every reachable state in which a runner that serves has a result, legal steps bring exactly that result to the controller, and a definite one is acknowledged and forgotten on disk |
| `RunnerDelivery.ComesBackExactly` | src/remote_control/runner_daemon.py:584-620 | A runner that is down can serve again if and only if its file has no STARTING entry; with one, no run ever leads back |
| `RunnerJournal.RoundTrip` | src/remote_control/runner_journal.py:178-211 | An entry that is written is read back, up to empty optional texts, exactly if it has an id, a boot id and a directory, and a positive process id exactly if it is not STARTING |
| `RunnerJournal.FileRoundTrip` | src/remote_control/runner_journal.py:130-176 | A whole file is read back exactly if all its entries are |
| `RunnerJournal.ResultSurvives` | src/remote_control/runner_journal.py:31-41 | A stored result is what to_result gives back |
| `RunnerJournal.CompleteLoadable` | src/remote_control/runner_journal.py:108-124 | complete keeps an entry loadable exactly if it is not STARTING |
| `RunnerJournal.Journal.Load` | src/remote_control/runner_journal.py:130-156 | Reads the list of executions, or fails at the first invalid one |
| `RunnerJournal.Journal.Persist` | src/remote_control/runner_journal.py:158-175 | Replaces the file by one that reads back as the memory, or leaves it |
| `RunnerJournal.Journal.Reserve` | src/remote_control/runner_journal.py:59-79 | Adds a STARTING entry; it stays in memory if the file cannot be written |
| `RunnerJournal.Journal.AttachPid` | src/remote_control/runner_journal.py:81-99 | Makes the entry RUNNING with a positive process id |
| `RunnerJournal.Journal.UpdateSession` | src/remote_control/runner_journal.py:101-106 | Changes the conversation of an entry |
| `RunnerJournal.Journal.Complete` | src/remote_control/runner_journal.py:108-124 | Stores a result |
| `RunnerJournal.Journal.Remove` | src/remote_control/runner_journal.py:126-128 | Forgets an entry |
| `RunnerDaemon.Daemon.StartJob` | src/remote_control/runner_daemon.py:306-494 | The execution is accepted if and only if the request is complete (id, instruction, directory, and session when resuming), its reservation is written, its process started, its process id written, and its conversation written if it is known and not yet reserved; then it runs, and its entry has process, identity and conversation. It is refused, without a process, if the request is incomplete, the reservation fails, or no process is left and its entry is removed. Otherwise there is no answer: a process may be left, or the entry of a dead one; when the daemon dies |
| `RunnerDaemon.Daemon.FinishJob` | src/remote_control/runner_daemon.py:529-568 | Journals the result before it is remembered, and sends it; if the journal cannot be written, nothing is sent and the daemon dies |
| `RunnerDaemon.Daemon.FlushCompleted` | src/remote_control/runner_daemon.py:570-582 | Sends exactly the results that are not acknowledged, and keeps them |
| `RunnerDaemon.Daemon.HandleCancel` | src/remote_control/runner_daemon.py:223-242 | Stops a running execution, reports a completed one again, and answers "cancel_unconfirmed" for any other |
| `RunnerDaemon.Daemon.HandleAck` | src/remote_control/runner_daemon.py:243-252 | Forgets the execution on disk, then in memory; the books stay in order unless it still runs |
| `RunnerDaemon.Daemon.Recover` | src/remote_control/runner_daemon.py:584-620 | Succeeds exactly if no entry is STARTING, every RUNNING one has a process that can be stopped, and its result 130 can be written; then no earlier process is left, results are kept, and stopped executions are COMPLETED and lose nothing else |
| `RunnerRefinement.ProtocolMeansSound` | src/remote_control/runner_daemon.py:218-254 | In every state that the protocol allows, the daemon's books are in order between two await points; an execution whose acknowledgement arrives has no process and is not running |
| `RunnerRefinement.ReserveRefines` | src/remote_control/runner_daemon.py:340-358 | Reserving an execution in full entries is the protocol's step, whether the file can be written or not |
| `RunnerRefinement.AttachRefines` | src/remote_control/runner_daemon.py:442-494 | So is recording the process id and accepting the execution |
| `RunnerRefinement.WithdrawRefines` | src/remote_control/runner_daemon.py:418-441 | So is removing the reservation of an execution that has no process |
| `RunnerRefinement.FinishRefines` | src/remote_control/runner_daemon.py:529-568 | So is storing a result |
| `RunnerRefinement.AckRefines` | src/remote_control/runner_daemon.py:243-252 | So is taking an acknowledgement |
| `RunnerRefinement.CancelRefines` | src/remote_control/runner_daemon.py:223-242 | So is a cancel request: it changes no book, and the answer is the same |
| `RunnerRefinement.UnsafeRefines` | src/remote_control/runner_daemon.py:399-417 | So is a start that fails and may have left a process |
| `RunnerRefinement.FailedAttachRefines` | src/remote_control/runner_daemon.py:442-454 | So is a process id that does not reach the disk |
| `RunnerRefinement.LateAttachRefines` | src/remote_control/runner_daemon.py:449-454 | ... or a conversation that does not, after the process id did |
| `RunnerRefinement.GiveUpRefines` | src/remote_control/runner_daemon.py:454-479 | So is stopping the process of a failed attach again |
| `RunnerRefinement.RecoverKeepsRefines` | src/remote_control/runner_daemon.py:584-620 | So is the recovery of a kept result, |
| `RunnerRefinement.RecoverStopsRefines` | src/remote_control/runner_daemon.py:584-620 | ... of a running execution whose process is stopped, |
| `RunnerRefinement.RecoverRefusesRefines` | src/remote_control/runner_daemon.py:584-620 | ... and the refusal to serve |
| `RunnerGateway.Gateway.Attach` | src/remote_control/transport/runner_ws.py:92-124 | Refuses exactly a second socket of another runner generation |
| `RunnerGateway.Gateway.Detach` | src/remote_control/transport/runner_ws.py:126-151 | Only the current socket detaches; exactly the unresolved runs of its host are resolved as lost |
| `RunnerGateway.Gateway.BeginStart` | src/remote_control/transport/runner_ws.py:353-369 | A run is pending, with its future, before the request is sent |
| `RunnerGateway.Gateway.SendStart` | src/remote_control/transport/runner_ws.py:379-383 | A request that cannot be sent leaves neither |
| `RunnerGateway.Gateway.StartRemote` | src/remote_control/transport/runner_ws.py:341-384 | Without an interruption a future exists exactly if the request could be sent |
| `RunnerGateway.Gateway.AdoptRemote` | src/remote_control/transport/runner_ws.py:314-339 | Returns the pending future of the run and changes nothing, or a new one for the run on that host |
| `RunnerGateway.Gateway.Handle` | src/remote_control/transport/runner_ws.py:386-462 | Resolves exactly the pending future of the run on that host; other messages change nothing and are not acknowledged |
| `RunnerGateway.Gateway.CancelRemote` | src/remote_control/transport/runner_ws.py:206-241 | For a pending run on its connected host the request is sent; the answer in time becomes the result of the future, and the call confirms exactly if it is definite; no answer is a timeout that changes nothing; another host or no connection raises and changes nothing; a run that is not pending is confirmed and nothing is sent |
| `RunnerGateway.Gateway.CancelHandle` | src/remote_control/transport/runner_ws.py:41-54 | A result that is there already decides and nothing is sent; otherwise as CancelRemote for the run of the handle |
| `RunnerGateway.Gateway.Acknowledge` | src/remote_control/transport/runner_ws.py:56-65 | Acknowledges exactly a definite result on a live connection |
| `RecordReader.ReadRecords` | src/remote_control/runners/codex.py:394-428 | However the stream is cut into chunks, the records are those of the whole stream |
| `RecordReader.JoinSplit` | src/remote_control/runners/codex.py:404-424 | The lines of a stream, joined by newlines, are the stream |
| `RecordReader.SplitJoin` | src/remote_control/runners/codex.py:404-424 | ... and they are its only decomposition into lines |
| `RecordReader.Conservation` | src/remote_control/runners/codex.py:411-428 | Kept bytes, dropped bytes and newlines add up to the length of the stream |
| `Steering.InOrderOnce` | src/remote_control/controller/job_manager.py:678-698 | Under any interleaving, crashes included: the instructions that were delivered, kept on record or lost, followed by those on their way to the next turn and the pending ones, are the accepted ones, in order and each once |
| `Steering.DeliveredUnlessLost` | src/remote_control/controller/job_manager.py:3056-3106 | Every instruction that was taken along was delivered (its turn was started and the job was RUNNING afterwards) or kept as the resume instruction of a wait if and only if no step lost one: the job RUNNING neither before nor after the start, a start that fails without such a wait, or a crash |
| `Steering.NothingUndelivered` | src/remote_control/controller/job_manager.py:2749-2766 | When a finished turn moves a job to WAITING_AGENT nothing accepted is on its way, and unless something was lost everything was delivered or kept |
| `Steering.LostInstruction` | src/remote_control/controller/job_manager.py:2786-2795 | Four steps that lose an instruction: it is taken along, and the job is paused before the next turn |
| `Steering.StrandsExactly` | src/remote_control/controller/job_manager.py:2895-2910 | A step into WAITING_AGENT leaves an instruction undelivered exactly if it ends a recovered QA run during which one was accepted |
| `Steering.StrandedInstruction` | src/remote_control/controller/job_manager.py:2895-2910 | Two steps that strand an instruction |
| `Steering.WaitingAgentHasNone` | src/remote_control/controller/job_manager.py:2697-2795 | Without such a step a job in WAITING_AGENT never has an undelivered instruction |
| `Steering.SteeredJob.Steer` | src/remote_control/controller/job_manager.py:678-698 | Accepts exactly non-empty instructions of an assigned, starting or running job |
| `Steering.SteeredJob.FinishTurn` | src/remote_control/controller/job_manager.py:2749-2795 | Takes all pending instructions along or goes on to QA |
| `Steering.SteeredJob.NextTurn` | src/remote_control/controller/job_manager.py:3065-3067 | The start of the turn begins exactly if the job is RUNNING |
| `Steering.SteeredJob.StartTurn` | src/remote_control/controller/job_manager.py:3085-3106 | The turn goes on, with the instructions delivered, exactly if it was started and the job is still RUNNING |
| `ProcessControl.StartupStopsAll` | src/remote_control/controller/job_manager.py:1881-1957 | If the startup step succeeds, the recorded process of every open local job is dead, whatever process ids were reused in the meantime |
| `ProcessControl.UnrecordedSurvives` | src/remote_control/controller/job_manager.py:1881-1900 | A process under a pid that no row records outlives a start that succeeds |
| `ProcessControl.SecondTurnWindow` | src/remote_control/controller/job_manager.py:3357-3369 | So does the process of a second turn whose row still has the pid of the first one |
| `ProcessControl.SignalsOnlyRecognised` | src/remote_control/process_control.py:42-76 | Signals only go to processes that match the executable, the start token and the directory of a recorded job |
| `ProcessControl.ReconcileExactly` | src/remote_control/controller/job_manager.py:1881-1957 | For every row: who is signalled, and what refuses the start |
| `ProcessControl.OwnProcessStops` | src/remote_control/process_control.py:42-76 | The process of a row that was started by a command for its directory is always signalled; if it obeys the start goes on, and otherwise it is refused |
| `ProcessControl.NothingLeftBehind` | src/remote_control/controller/job_manager.py:1881-1957 | A start is not refused, and nobody is signalled, if nothing runs under the pids of the open local rows |
| `ProcessControl.LegacyNeverCleared` | src/remote_control/process_control.py:79-112 | A legacy row whose process still runs is never passed over |
| `ProcessControl.LocalMachine.TerminatePersisted` | src/remote_control/process_control.py:42-76 | Signals and reports as specified; true only if the process id is free |
| `ProcessControl.LocalMachine.TerminateStale` | src/remote_control/controller/job_manager.py:1881-1957 | Handles all rows in turn, or refuses the start |
| `CommandLine.OwnCommandMatches` | src/remote_control/process_control.py:137-161 | The command that starts or resumes Codex in a canonical directory is always recognised |
| `CommandLine.RecognisedExactly` | src/remote_control/process_control.py:137-161 | The command of a job in one absolute directory is taken for one in another, without blanks, if and only if the first continues the second after a blank (or is the same) |
| `CommandLine.ShownContains` | src/remote_control/runners/codex.py:63-105 | Every such command line contains its directory option as one piece |
| `ProjectOs.ClaimedAtMostOnce` | src/remote_control/projects/adapters/project_os.py:35-157 | Across any number of calls, each cut off after any step, the claim takes effect at most once, for the project task and the host that were stored first |
| `ProjectOs.PrepareCompletes` | src/remote_control/projects/adapters/project_os.py:99-157 | A call that is not cut off and not outrun leaves the project task claimed and the record PREPARED |
| `ProjectOs.CallExactly` | src/remote_control/projects/adapters/project_os.py:35-157 | What a call leaves that dies after any number of its durable steps: whether it claims, and which record; on another host than the stored one, or without an offer, it changes nothing, and when it is outrun it claims nothing and leaves the record SELECTED |
| `ProjectOs.ProjectOsAdapter.Prepare` | src/remote_control/projects/adapters/project_os.py:35-157 | The procedure, dying after any of its durable steps, performs exactly that many of them |
| `Quota.DelayDoubles` | src/remote_control/recovery/quota.py:94-115 | The n-th consecutive wait without a usable hint is delayed by the n-th term of the doubling sequence with its ceiling |
| `QuotaWaits.NthWaitDoubles` | src/remote_control/controller/job_manager.py:3612-3631 | When a running job keeps hitting its limit, its n-th wait is counted as the n-th; it ends at reset plus grace if the provider named a reset for which that lies ahead, and else after the n-th term of the doubling sequence |
| `QuotaWaits.WaitedRecord` | src/remote_control/controller/job_manager.py:3612-3645 | The record of every quota wait: one more attempt, mode RESUME, the execution of the handle, and that due time, which lies ahead; the job keeps lease and lock |
| `Quota.DelayBounds` | src/remote_control/recovery/quota.py:111-115 | The delay is positive, never exceeds the maximum, and reaches it |
| `Quota.RetryIsAhead` | src/remote_control/recovery/quota.py:94-115 | The retry lies in the future: at reset plus grace if there is a reset for which that lies ahead, and otherwise after the term of the doubling sequence for the attempt |
| `Quota.DelayGrows` | src/remote_control/controller/job_manager.py:3612-3631 | Waiting longer never shortens the next delay |

## Left out

- Granularity: one step are the deletion of the record and the transition of `_finalize_cancellation`, and the reading of rows and owners at the beginning of a pass. A crash between the two commits of a wait, of a startup repair or of a finalization is a step of its own (`TornWait`, `TornFinalize`).
- Safety.EnterLeaseWaitKeeps: the lock that keeps a second lease wait of the same job out is not used; the runs allow more than the program does.
- CancelSafety.PassEndsEarlyExactly: the age of ledger rows is any order in which they are given, and the conversation of a job may change at any time.
- AdoptionWait.EngagedWaitsAgain: a coroutine from before the wait does not enter a host wait while a retry of the same job is between its lease and its launch.
- Tasks: the runs allow a task any edge of the transition table at any time, which covers `_execute_new`, `_execute_resume`, `_await_handle`, `_finish_or_continue`, QA and human gates; what decides between the edges is not modelled.
- Runs.OneWriterPerTreeAlways: speaks of runs in which no job is bound that was never started; `Reconnect.AdoptionLeases` gives the exact condition for a single adoption.
- JobManager.JobManager.ReconcileJobs: waiting and cancelling jobs are given as one list, and the acknowledgement of settled and absent ledger rows is part of the runs only.
- JobManager.JobManager.EnterQuotaWait: a job that a retry has just moved to STARTING has no task yet, so nobody enters a quota wait for it.
- JobManager.JobManager.Create: a failure of the insert after the session was acquired, and the variant without a recovery registry, are not modelled; all registries are configured.
- JobManager.JobManager.Cancel: returns where the source waits for a task that starts a turn; waiting for the local process tree is not modelled; a timeout or a lost connection is an unconfirmed answer. A handle that is replaced meanwhile is part of the runs (`Witnesses.StaleHandle`).
- JobManager.JobManager.ReconcileStartup: the order of `list_states` within a phase is arbitrary.
- RecoveryPass.LowestFirst: speaks of one pass that no other task interrupts, with host availability fixed; a new job can take a free tree ahead of the queue.
- RunnerProtocol.AckedIsJournaled: an execution that the runner refused is acknowledged without ever having been journaled as COMPLETED; it never had, or no longer has, a process.
- RunnerProtocol.LiveIsJournaled: execution ids are never used twice, and one daemon runs per host.
- RunnerDaemon.Daemon.StartJob: a conversation that an event names before the process id is written counts as the one of the handle; the maps of running sessions and directories are not modelled.
- RunnerDaemon.Daemon.HandleAck: the books are in order afterwards only if the acknowledged execution does not run, which `RunnerRefinement.ProtocolMeansSound` proves of every acknowledgement that arrives.
- ProcessControl.SignalsOnlyRecognised: a process id is not reused between reading a process's identity and signalling it; reuse between two rows is modelled.
- CommandLine.OwnCommandMatches: command lines as POSIX systems show them; case folding is any character-wise mapping that leaves the option itself alone.
- CommandLine.RecognisedExactly: absolute POSIX paths without backslashes, in command lines with one directory option; whether a directory with blanks also matches the options that follow is not said.
- ProjectOs.ClaimedAtMostOnce: a task this job has claimed stays listed as current until its result is submitted.
- ProjectSessions.SoundAlways: operations of one owner exclude each other, as their lock guarantees.
- RunnerJournal.RoundTrip: JSON syntax itself, and numbers and texts that JSON cannot hold, are not modelled; the order of the executions in the file is arbitrary.
- RecordReader.ReadRecords: the size of the chunks is arbitrary; decoding of a record is not modelled.
- Lease keys: the SHA-256 key of host and directory is modelled as the pair itself.
- Text: resume instructions, errors, audit events, notifications, process-id columns of the job row, and conversations of single jobs (`sessions`) are not modelled.
- QA, Project OS finalization, approvals and host routing are answers of the outside world (`World`, `Facts`).
- Telegram, Slack, HTTP, dashboard, CLI, SQL, migrations and operating system calls.
- Quota messages: detecting them and parsing their dates.
