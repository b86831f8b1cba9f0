/** The controller's database tables and its in-memory bookkeeping, as values
    (storage/models.py, execution_leases.py and the fields of JobManager). */
module Tables {
  import opened Wrappers
  import opened States

  // Identifiers are opaque; equality is all the controller uses of them.
  type HostId = nat
  type Path = nat
  type ProjectId = nat
  type UserId = nat
  type ThreadId = nat
  type ExecId = nat
  type RunnerId = nat

  /** A working tree on a host: the injective reading of the SHA-256 lease key. */
  datatype Tree = Tree(host: HostId, path: Path)

  /** Key of a project session: one conversation for one project and user. */
  datatype Owner = Owner(project: ProjectId, user: UserId)

  /** The local host and the canonical working directory of each project on each host. */
  datatype Config = Config(local: HostId, path: (ProjectId, HostId) -> Path)

  /** requested == None stands for "auto"; host is the assigned host. */
  datatype Job = Job(state: JobState, project: ProjectId, user: UserId,
                     requested: Option<HostId>, host: Option<HostId>,
                     thread: Option<ThreadId>, created: int)

  datatype Kind = HostKind | LeaseKind | QuotaKind | RestartKind
  datatype Mode = StartMode | ResumeMode | AdoptMode | FinalizeMode | CancelMode | QaMode

  datatype Recovery = Recovery(kind: Kind, mode: Mode, attempts: nat, due: Option<int>,
                               exec: Option<ExecId>, position: Option<nat>)

  datatype LedgerState = ActiveRow | ResultReceived | Acknowledged

  /** A row of remote_executions: which job owns an execution on a runner. */
  datatype Execution = Execution(job: JobId, host: HostId, runner: RunnerId, path: Path,
                                 thread: Option<ThreadId>, state: LedgerState, started: int)

  type Jobs = map<JobId, Job>
  type Leases = map<Tree, JobId>
  type Locks = map<Owner, JobId>          // the job that locks an owner's open project session
  type Recoveries = map<JobId, Recovery>
  type Ledger = map<ExecId, Execution>

  datatype Db = Db(jobs: Jobs, leases: Leases, locks: Locks, recovery: Recoveries, ledger: Ledger, log: seq<Event>)

  // ---- what a reconnecting runner reports ----

  /** One entry of a runner's RUNNING_JOBS or HEARTBEAT message. */
  datatype Report = Report(thread: Option<ThreadId>, path: Option<Path>, started: Option<int>)

  type Reports = map<ExecId, Report>

  /** at: when the controller handles it. */
  datatype Snapshot = Snapshot(host: HostId, runner: RunnerId, running: Reports, completed: Reports, complete: bool, at: int)

  /** What a reconciliation pass has read: the snapshot, the ledger rows by age, the job rows, the rows that own
      an execution, and what is left of the reports. It is read once, before the jobs get their turns. */
  datatype View = View(snap: Snapshot, order: seq<ExecId>, rows: Jobs, owned: Ledger, reported: Reports)

  // ---- memory ----

  /** Where a multi-transaction placement of a job stands. It lives in the memory of the
      coroutine that runs it, so a crash forgets it. A retry carries the record that it has read. */
  datatype Flow =
    | Creating                                  // row added, not yet placed
    | Unlocked                                  // creation found the tree busy and gave its session back
    | AwaitSession(read: Recovery, queued: bool)  // a retry took the lease and asks for the project session
    | Returned(read: Recovery, queued: bool)    // ... the session was busy and the lease was given back
    | Dequeue(read: Recovery)                   // ... a retry from the queue has both and takes its record out
    | Launch(resumed: Option<Recovery>)         // lease and session are in hand; STARTING is next
    | Midway(read: Recovery)                    // a retry moved the job to STARTING; RUNNING is next
    | Adopting(exec: ExecId)                    // an adoption moved the job to ASSIGNED; STARTING is next

  /** What a coroutine in progress remembers of the tables, or is about to do to them. Nothing keeps others
      from acting in between. */
  datatype Pending =
    | Reading(job: JobId, record: Recovery)     // a retry works with this record
    | Writing(job: JobId, record: Recovery)     // the record is about to be written
    | Entering(job: JobId, record: Recovery)    // so is the one of a host wait whose transition is done
    | Queuing(job: JobId, record: Recovery)     // and that of a lease wait, with the place that the job keeps once it is read
    | Engaged(job: JobId)                       // a task, a resume or an answer works on the job
    | Turning(job: JobId)                       // the start of a turn
    | Claim(job: JobId, e: ExecId)              // the execution is about to get its handle
    | Hold(job: JobId, e: ExecId)               // somebody has the handle of the execution in hand
    | Looking(job: JobId)                       // a cancel request found no handle
    | Ending(job: JobId)                        // ... and no recorded execution: it ends the job
    | Bound(job: JobId, e: ExecId, host: HostId)  // the job is about to adopt the execution
    | Passing(view: View)                       // a reconciliation pass

  datatype Memory = Memory(
    serving: bool,                   // false from a crash until startup reconciliation succeeds
    flow: map<JobId, Flow>,
    draining: set<JobId>,            // ended jobs whose locks are still being released
    handles: map<JobId, ExecId>,     // handles of remote executions
    confirmed: set<ExecId>,          // executions whose runner reported a definite result
    pending: multiset<Pending>)

  datatype State = State(db: Db, mem: Memory)

  function OwnerOf(job: Job): Owner {
    Owner(job.project, job.user)
  }

  function TreeOn(cfg: Config, job: Job, host: HostId): Tree {
    Tree(host, cfg.path(job.project, host))
  }

  predicate Remote(cfg: Config, job: Job) {
    job.host.Some? && job.host.value != cfg.local
  }

  predicate HoldsLease(cfg: Config, jobs: Jobs, leases: Leases, j: JobId) {
    && j in jobs && jobs[j].host.Some?
    && var t := TreeOn(cfg, jobs[j], jobs[j].host.value);
    t in leases && leases[t] == j
  }

  predicate HoldsSession(jobs: Jobs, locks: Locks, j: JobId) {
    && j in jobs
    && OwnerOf(jobs[j]) in locks && locks[OwnerOf(jobs[j])] == j
  }

  predicate HoldsBoth(cfg: Config, s: State, j: JobId) {
    HoldsLease(cfg, s.db.jobs, s.db.leases, j) && HoldsSession(s.db.jobs, s.db.locks, j)
  }

  /** An agent turn was started for the job at some time: the durable event log says so. */
  predicate Started(log: seq<Event>, j: JobId) {
    Moved(j, Assigned, Starting) in log
  }

  /** Identifiers never run out. */
  lemma FreshId(used: set<nat>) returns (n: nat)
    ensures forall k | k in used :: k < n
  {
    n := 0;
    if used != {} {
      var k :| k in used;
      var m := FreshId(used - {k});
      n := if k < m then m else k + 1;
      assert used == (used - {k}) + {k};
    }
  }

  // Elementary updates. Every transaction is built from these.

  /** transition_with_event: the row and its lifecycle event change together. */
  function Shift(d: Db, j: JobId, target: JobState, host: Option<HostId>): Db
    requires j in d.jobs
  {
    d.(jobs := d.jobs[j := d.jobs[j].(state := target, host := host)],
       log := d.log + [Moved(j, d.jobs[j].state, target)])
  }

  function PutRecovery(d: Db, j: JobId, r: Recovery): Db {
    d.(recovery := d.recovery[j := r])
  }

  /** recovery.upsert without a queue position: the stored one stays. */
  function Upsert(d: Db, j: JobId, r: Recovery): Db {
    PutRecovery(d, j, r.(position := if j in d.recovery then d.recovery[j].position else None))
  }

  function DropRecovery(d: Db, j: JobId): Db {
    d.(recovery := d.recovery - {j})
  }

  function WithoutJob(leases: Leases, j: JobId): Leases {
    map t | t in leases && leases[t] != j :: leases[t]
  }

  /** release_for_job of the project session registry: only the holder's own lock is cleared. */
  function Unlock(locks: Locks, o: Owner, j: JobId): Locks {
    if o in locks && locks[o] == j then locks - {o} else locks
  }
}
