/** The transactions of the controller: what each one reads before it acts (its `...Ok`
    predicate) and what it leaves behind. A transaction is a database commit, a region under
    an asyncio lock, or a change of the controller's memory. What a coroutine read in an earlier
    transaction is in `Memory.pending` and `Memory.flow`; it may be out of date. */
module Transactions {
  import opened Wrappers
  import opened States
  import opened Tables
  import opened Matching

  predicate Is(s: State, j: JobId, st: JobState) {
    j in s.db.jobs && s.db.jobs[j].state == st
  }

  predicate Ended(s: State, j: JobId) {
    j in s.db.jobs && Terminal(s.db.jobs[j].state)
  }

  function WithFlow(m: Memory, j: JobId, f: Flow): Memory {
    m.(flow := m.flow[j := f])
  }

  function NoFlow(m: Memory, j: JobId): Memory {
    m.(flow := m.flow - {j})
  }

  function Finishing(m: Memory, j: JobId): Memory {
    m.(draining := m.draining + {j})
  }

  function HandleOf(m: Memory, j: JobId): Option<ExecId> {
    if j in m.handles then Some(m.handles[j]) else None
  }

  function Attempts(d: Db, j: JobId): nat {
    if j in d.recovery then d.recovery[j].attempts else 0
  }

  function Position(d: Db, j: JobId): Option<nat> {
    if j in d.recovery then d.recovery[j].position else None
  }

  /** next_queue_position: one more than the largest position in use. */
  ghost predicate NextPosition(recovery: Recoveries, p: nat) {
    && (forall k | k in recovery && recovery[k].position.Some? :: recovery[k].position.value < p)
    && (p == 1 || exists k | k in recovery :: recovery[k].position.Some? && recovery[k].position.value + 1 == p)
  }

  // ---- what coroutines remember ----

  function Recall(m: Memory, t: Pending): Memory {
    m.(pending := m.pending + multiset{t})
  }

  function Discard(m: Memory, t: Pending): Memory {
    m.(pending := m.pending - multiset{t})
  }

  function With(s: State, t: Pending): State {
    s.(mem := Recall(s.mem, t))
  }

  function Without(s: State, t: Pending): State {
    s.(mem := Discard(s.mem, t))
  }

  lemma WithWithout(s: State, t: Pending)
    ensures Without(With(s, t), t) == s
  {
    assert s.mem.pending + multiset{t} - multiset{t} == s.mem.pending;
  }

  /** recovery.get of a retry. Any later transaction may change the record. */
  predicate ReadRecordOk(s: State, j: JobId) {
    s.mem.serving && j in s.db.recovery
  }

  /** A record that was prepared is written, whatever has become of the job. */
  predicate WriteOk(s: State, j: JobId, r: Recovery) {
    s.mem.serving && Writing(j, r) in s.mem.pending
  }

  function Put(s: State, j: JobId, r: Recovery): State {
    s.(db := Upsert(s.db, j, r))
  }

  function Write(s: State, j: JobId, r: Recovery): State {
    Without(Put(s, j, r), Writing(j, r))
  }

  // ---- creation ----

  /** project_sessions.acquire for a job that has no row yet. */
  predicate TakeSessionOk(s: State, j: JobId, o: Owner) {
    s.mem.serving && j !in s.db.jobs && o !in s.db.locks
  }

  function TakeSession(s: State, j: JobId, o: Owner): State {
    s.(db := s.db.(locks := s.db.locks[o := j]))
  }

  predicate AddJobOk(s: State, j: JobId, job: Job) {
    s.mem.serving && j !in s.db.jobs && job.state.Queued? && job.host == None
  }

  function AddJob(s: State, j: JobId, job: Job): State {
    s.(db := s.db.(jobs := s.db.jobs[j := job], log := s.db.log + [Created(j)]), mem := WithFlow(s.mem, j, Creating))
  }

  /** Creation found the working tree leased: it gives the project session back. */
  predicate UnlockUnplacedOk(s: State, j: JobId) {
    s.mem.serving && j in s.db.jobs && j in s.mem.flow && s.mem.flow[j].Creating?
  }

  function UnlockUnplaced(s: State, j: JobId): State
    requires j in s.db.jobs
  {
    State(s.db.(locks := Unlock(s.db.locks, OwnerOf(s.db.jobs[j]), j)), WithFlow(s.mem, j, Unlocked))
  }

  // ---- waits ----

  function NewHost(job: Job, host: Option<HostId>): Option<HostId> {
    if host.Some? then host else job.host
  }

  /** A job that waits for its host already enters another wait when the controller shuts down, for each job with
      a handle, or when a coroutine that worked on it before still does. That one does not look at the mode. */
  ghost predicate WaitsAgain(cfg: Config, s: State, j: JobId, mode: Mode)
    requires j in s.db.jobs
  {
    || Engaged(j) in s.mem.pending
    || if Remote(cfg, s.db.jobs[j]) then mode.AdoptMode? && exists e: ExecId :: Hold(j, e) in s.mem.pending
       else mode.ResumeMode? || mode.StartMode?
  }

  /** _enter_host_wait. Callers name the job's own host, or a first host for a job that has none. */
  ghost predicate HostWaitOk(cfg: Config, s: State, j: JobId, mode: Mode, host: Option<HostId>) {
    && s.mem.serving && j in s.db.jobs
    && (if s.db.jobs[j].state.WaitingHost? then WaitsAgain(cfg, s, j, mode) else Allowed(s.db.jobs[j].state, WaitingHost))
    && !s.db.jobs[j].state.WaitingLease?
    && (j in s.mem.flow ==> s.mem.flow[j].Creating? || s.mem.flow[j].Launch?)
    && (host.None? || host == s.db.jobs[j].host || s.db.jobs[j].state.Queued?)
    && (mode.AdoptMode? ==> Remote(cfg, s.db.jobs[j]))
    && (mode.FinalizeMode? ==> Started(s.db.log, j))
  }

  function HostWaitRecord(s: State, j: JobId, mode: Mode, due: int): Recovery {
    var exec := if j in s.db.recovery then s.db.recovery[j].exec else HandleOf(s.mem, j);
    Recovery(HostKind, mode, Attempts(s.db, j), Some(due), exec, None)
  }

  /** First the transition, if there is one, ... */
  function EnterHostWait(s: State, j: JobId, mode: Mode, host: Option<HostId>, due: int): State
    requires j in s.db.jobs
  {
    var s1 := State(if s.db.jobs[j].state.WaitingHost? then s.db
                    else Shift(s.db, j, WaitingHost, NewHost(s.db.jobs[j], host)), NoFlow(s.mem, j));
    With(s1, Entering(j, HostWaitRecord(s, j, mode, due)))
  }

  /** One host wait of a job is entered at a time. */
  ghost predicate EnterHostWaitOk(cfg: Config, s: State, j: JobId, mode: Mode, host: Option<HostId>) {
    HostWaitOk(cfg, s, j, mode, host) && forall r: Recovery :: Entering(j, r) !in s.mem.pending
  }

  /** ... then the record, as it was made up before the transition. */
  predicate RecordHostWaitOk(s: State, j: JobId, r: Recovery) {
    s.mem.serving && Entering(j, r) in s.mem.pending
  }

  function RecordHostWait(s: State, j: JobId, r: Recovery): State {
    Without(Put(s, j, r), Entering(j, r))
  }

  /** Both in a row. */
  function HostWait(s: State, j: JobId, mode: Mode, host: Option<HostId>, due: int): State
    requires j in s.db.jobs
  {
    var r := HostWaitRecord(s, j, mode, due);
    RecordHostWait(EnterHostWait(s, j, mode, host, due), j, r)
  }

  /** _enter_lease_wait: from creation, or from a host retry whose lease was given back. That its lock keeps a second
      wait of the job out is not needed here. */
  predicate EnterLeaseWaitOk(cfg: Config, s: State, j: JobId, mode: Mode, host: HostId) {
    && s.mem.serving && j in s.db.jobs && j in s.mem.flow
    && match s.mem.flow[j] {
         case Creating => s.db.jobs[j].state.Queued? && !HoldsSession(s.db.jobs, s.db.locks, j)
         case Unlocked => s.db.jobs[j].state.Queued? && !HoldsSession(s.db.jobs, s.db.locks, j)
         case Returned(_, queued) => s.db.jobs[j].state.Assigned? && !queued && s.db.jobs[j].host == Some(host)
         case _ => false
       }
    && !mode.FinalizeMode? && !mode.AdoptMode?
  }

  function LeaseWaitRecord(mode: Mode, due: int): Recovery {
    Recovery(LeaseKind, mode, 0, Some(due), None, None)
  }

  /** First the transition, ... */
  function EnterLeaseWait(s: State, j: JobId, mode: Mode, host: HostId, due: int): State
    requires j in s.db.jobs
  {
    With(State(Shift(s.db, j, WaitingLease, Some(host)), NoFlow(s.mem, j)), Queuing(j, LeaseWaitRecord(mode, due)))
  }

  /** ... then a place that the job has already is read, and written back later; */
  predicate KeepPlaceOk(s: State, j: JobId, r: Recovery) {
    s.mem.serving && Queuing(j, r) in s.mem.pending && r.position.None? && Position(s.db, j).Some?
  }

  function KeepPlace(s: State, j: JobId, r: Recovery): State {
    With(Without(s, Queuing(j, r)), Queuing(j, r.(position := Position(s.db, j))))
  }

  predicate WritePlaceOk(s: State, j: JobId, r: Recovery) {
    s.mem.serving && Queuing(j, r) in s.mem.pending && r.position.Some?
  }

  function WritePlace(s: State, j: JobId, r: Recovery): State {
    Without(s.(db := PutRecovery(s.db, j, r)), Queuing(j, r))
  }

  /** ... or, under the lock of the queue, the job joins its end, unless it has got a place in the meantime. */
  ghost predicate TakePlaceOk(s: State, j: JobId, r: Recovery, p: nat) {
    && s.mem.serving && Queuing(j, r) in s.mem.pending && r.position.None?
    && if Position(s.db, j).Some? then p == Position(s.db, j).value else NextPosition(s.db.recovery, p)
  }

  function TakePlace(s: State, j: JobId, r: Recovery, p: nat): State {
    Without(s.(db := PutRecovery(s.db, j, r.(position := Some(p)))), Queuing(j, r))
  }

  /** All in a row. */
  function LeaseWait(s: State, j: JobId, mode: Mode, host: HostId, p: nat, due: int): State
    requires j in s.db.jobs
  {
    State(Shift(PutRecovery(s.db, j, LeaseWaitRecord(mode, due).(position := Some(p))), j, WaitingLease, Some(host)),
          NoFlow(s.mem, j))
  }

  lemma LeaseWaitIs(s: State, j: JobId, mode: Mode, host: HostId, p: nat, due: int)
    requires j in s.db.jobs
    ensures var s1 := EnterLeaseWait(s, j, mode, host, due);
            TakePlace(s1, j, LeaseWaitRecord(mode, due), p) == LeaseWait(s, j, mode, host, p, due)
  {
    WithWithout(LeaseWait(s, j, mode, host, p, due), Queuing(j, LeaseWaitRecord(mode, due)));
  }

  /** _enter_quota_wait first counts the wait in the record ... */
  predicate CountQuotaOk(s: State, j: JobId) {
    s.mem.serving && (Is(s, j, Starting) || Is(s, j, Running))
  }

  function QuotaRecord(s: State, j: JobId, due: int): Recovery {
    Recovery(QuotaKind, ResumeMode, Attempts(s.db, j) + 1, Some(due), HandleOf(s.mem, j), None)
  }

  /** ... and then leaves STARTING or RUNNING. */
  function QuotaWait(s: State, j: JobId, due: int): State
    requires j in s.db.jobs
  {
    Move(Put(s, j, QuotaRecord(s, j, due)), j, WaitingQuota)
  }

  /** retry_waiting makes up the record of a waiting job that has none (yet). */
  predicate MakeUpOk(s: State, j: JobId) {
    && s.mem.serving && j in s.db.jobs && Waiting(s.db.jobs[j].state) && !s.db.jobs[j].state.WaitingLease?
    && j !in s.db.recovery
  }

  function MadeUpRecord(job: Job, due: int): Recovery {
    Recovery(if job.state.WaitingQuota? then QuotaKind else HostKind,
             if job.thread.Some? then ResumeMode else StartMode, 0, Some(due), None, None)
  }

  /** A queued job gets the next place along with it, under the lock of the queue. */
  ghost predicate MakeUpPlaceOk(s: State, j: JobId, p: nat) {
    s.mem.serving && Is(s, j, WaitingLease) && j !in s.db.recovery && NextPosition(s.db.recovery, p)
  }

  function MakeUpPlace(s: State, j: JobId, p: nat, due: int): State
    requires j in s.db.jobs
  {
    s.(db := PutRecovery(s.db, j, MadeUpRecord(s.db.jobs[j], due).(kind := LeaseKind, position := Some(p))))
  }

  // ---- leases ----

  /** No other job leases the tree, and the job leases no other tree. */
  predicate LeaseFree(leases: Leases, j: JobId, t: Tree) {
    (t in leases ==> leases[t] == j) && forall u | u in leases && leases[u] == j :: u == t
  }

  /** ExecutionLeaseRepository.assign_job: state, lease and event in one commit. A retry goes by the mode
      of the record it has read. */
  predicate AssignOk(cfg: Config, s: State, j: JobId, host: HostId, read: Option<Recovery>) {
    && s.mem.serving && j in s.db.jobs
    && LeaseFree(s.db.leases, j, TreeOn(cfg, s.db.jobs[j], host))
    && match s.db.jobs[j].state {
         case Queued => read == None && j in s.mem.flow && s.mem.flow[j].Creating? && HoldsSession(s.db.jobs, s.db.locks, j)
         case WaitingLease => read.Some? && j !in s.mem.flow
         case WaitingHost => read.Some? && j !in s.mem.flow && !read.value.mode.AdoptMode?
         case _ => false
       }
  }

  function AfterAssign(state: JobState, read: Option<Recovery>): Flow {
    if read.None? then Launch(None)
    else if state.WaitingLease? then AwaitSession(read.value, true)
    else if read.value.mode.FinalizeMode? then Launch(read)
    else AwaitSession(read.value, false)
  }

  function Assign(cfg: Config, s: State, j: JobId, host: HostId, read: Option<Recovery>): State
    requires j in s.db.jobs
  {
    var d := Shift(s.db, j, Assigned, Some(host));
    State(d.(leases := d.leases[TreeOn(cfg, s.db.jobs[j], host) := j]),
          WithFlow(s.mem, j, AfterAssign(s.db.jobs[j].state, read)))
  }

  /** The record with which a retry from the queue takes the job out of it. */
  function LeaseRetryRecord(r: Recovery): Recovery {
    Recovery(LeaseKind, r.mode, r.attempts, None, None, None)
  }

  /** The record with which a host retry that goes ahead takes the job out of the schedule. */
  function HostRetryRecord(r: Recovery): Recovery {
    match r.mode
    case StartMode => r.(kind := HostKind, due := None)
    case QaMode => r.(due := None, exec := None)
    case FinalizeMode => r.(due := None, exec := None)
    case _ => r.(mode := ResumeMode, due := None)
  }

  function QuotaRetryRecord(r: Recovery): Recovery {
    r.(kind := QuotaKind, mode := ResumeMode, due := None)
  }

  /** The retry got the project session. */
  predicate GrantSessionOk(s: State, j: JobId) {
    && s.mem.serving && j in s.db.jobs && j in s.mem.flow && s.mem.flow[j].AwaitSession?
    && (OwnerOf(s.db.jobs[j]) in s.db.locks ==> s.db.locks[OwnerOf(s.db.jobs[j])] == j)
  }

  function Granted(m: Memory, j: JobId, read: Recovery, queued: bool): Memory {
    if queued then WithFlow(m, j, Dequeue(read))
    else if read.mode.StartMode? then Recall(WithFlow(m, j, Launch(None)), Writing(j, HostRetryRecord(read)))
    else WithFlow(m, j, Launch(Some(read)))
  }

  function GrantSession(s: State, j: JobId): State
    requires j in s.db.jobs && j in s.mem.flow && s.mem.flow[j].AwaitSession?
  {
    State(s.db.(locks := s.db.locks[OwnerOf(s.db.jobs[j]) := j]),
          Granted(s.mem, j, s.mem.flow[j].read, s.mem.flow[j].queued))
  }

  /** The session is locked by another job: the retry gives its lease back. */
  predicate ReturnLeaseOk(s: State, j: JobId) {
    && s.mem.serving && j in s.db.jobs && j in s.mem.flow && s.mem.flow[j].AwaitSession?
    && OwnerOf(s.db.jobs[j]) in s.db.locks && s.db.locks[OwnerOf(s.db.jobs[j])] != j
  }

  function ReturnLease(s: State, j: JobId): State
    requires j in s.mem.flow && s.mem.flow[j].AwaitSession?
  {
    State(s.db.(leases := WithoutJob(s.db.leases, j)), WithFlow(s.mem, j, Returned(s.mem.flow[j].read, s.mem.flow[j].queued)))
  }

  /** ... and goes back to WAITING_LEASE with its recovery record untouched. */
  predicate RequeueOk(s: State, j: JobId) {
    && s.mem.serving && Is(s, j, Assigned) && j in s.mem.flow
    && s.mem.flow[j].Returned? && s.mem.flow[j].queued
  }

  function Requeue(s: State, j: JobId): State
    requires j in s.db.jobs
  {
    State(Shift(s.db, j, WaitingLease, s.db.jobs[j].host), NoFlow(s.mem, j))
  }

  /** A retry from the queue that goes ahead gives its place away. */
  predicate LeaveQueueOk(s: State, j: JobId) {
    s.mem.serving && j in s.db.jobs && j in s.mem.flow && s.mem.flow[j].Dequeue?
  }

  function LeaveQueue(s: State, j: JobId): State
    requires j in s.mem.flow && s.mem.flow[j].Dequeue?
  {
    State(PutRecovery(s.db, j, LeaseRetryRecord(s.mem.flow[j].read)), WithFlow(s.mem, j, Launch(None)))
  }

  /** _retry_quota, with the record it has read: RUNNING first, then the record. */
  predicate ResumeQuotaOk(s: State, j: JobId) {
    s.mem.serving && Is(s, j, WaitingQuota)
  }

  function ResumeQuota(s: State, j: JobId, r: Recovery): State
    requires j in s.db.jobs
  {
    With(s.(db := Shift(s.db, j, Running, s.db.jobs[j].host)), Writing(j, QuotaRetryRecord(r)))
  }

  // ---- execution ----

  /** A placement in progress is carried on by its own coroutine. */
  predicate Carries(f: Flow, target: JobState) {
    match f
    case Launch(_) => target.Starting?
    case Adopting(_) => target.Starting?
    case Midway(_) => target.Running?
    case _ => false
  }

  /** _transition as tasks and user requests use it. STARTING needs a completed placement. A failed QA run, or
      a rejected review, fails a job even if it waits for its host by now. */
  predicate MoveOk(s: State, j: JobId, target: JobState) {
    && s.mem.serving && j in s.db.jobs && Allowed(s.db.jobs[j].state, target)
    && var st := s.db.jobs[j].state;
    && (st.Assigned? || Active(st) || (st.WaitingHost? && Engaged(j) in s.mem.pending))
    && (target.Starting? || target.Running? || target.WaitingAgent? || target.WaitingHuman? || target.Paused?
        || target.Failed? || target.Completed? || (target.WaitingQuota? && j in s.db.recovery))
    && (j in s.mem.flow ==> Carries(s.mem.flow[j], target))
    && (target.Starting? ==> j in s.mem.flow)
  }

  /** How the coroutine of a placement goes on after its transition. */
  function Carried(m: Memory, j: JobId): Memory {
    if j !in m.flow then m
    else match m.flow[j]
      case Launch(Some(r)) =>
        if r.mode.FinalizeMode? then Recall(NoFlow(m, j), Writing(j, HostRetryRecord(r))) else WithFlow(m, j, Midway(r))
      case Midway(r) => Recall(NoFlow(m, j), Writing(j, HostRetryRecord(r)))
      case Adopting(e) => Recall(NoFlow(m, j), Claim(j, e))
      case _ => NoFlow(m, j)
  }

  function Move(s: State, j: JobId, target: JobState): State
    requires j in s.db.jobs
  {
    State(Shift(s.db, j, target, s.db.jobs[j].host),
          if target.Starting? || target.Running? then Carried(s.mem, j)
          else if Terminal(target) then Finishing(s.mem, j) else s.mem)
  }

  /** After a terminal transition: first the project session, then the lease. */
  predicate ReleaseOk(s: State, j: JobId) {
    j in s.mem.draining && Ended(s, j)
  }

  function ReleaseSession(s: State, j: JobId): State
    requires j in s.db.jobs
  {
    s.(db := s.db.(locks := Unlock(s.db.locks, OwnerOf(s.db.jobs[j]), j)))
  }

  function ReleaseLease(s: State, j: JobId): State {
    State(s.db.(leases := WithoutJob(s.db.leases, j)), s.mem.(draining := s.mem.draining - {j}))
  }

  /** recovery.delete, for jobs that have ended. */
  predicate ForgetOk(s: State, j: JobId) {
    j in s.db.jobs ==> Ended(s, j)
  }

  function Forget(s: State, j: JobId): State {
    s.(db := DropRecovery(s.db, j))
  }

  /** A task is started for the job, or a request begins to work on it. */
  predicate EngageOk(s: State, j: JobId) {
    s.mem.serving && j in s.db.jobs && (s.db.jobs[j].state.Assigned? || Active(s.db.jobs[j].state))
  }

  /** A turn is begun for a job that is starting or running. What the state becomes until the turn has its
      handle is looked at afterwards only. */
  predicate BeginTurnOk(s: State, j: JobId) {
    s.mem.serving && (Is(s, j, Starting) || Is(s, j, Running))
  }

  ghost predicate EndTurnOk(s: State, j: JobId) {
    s.mem.serving && forall e: ExecId :: Claim(j, e) !in s.mem.pending
  }

  /** _reserve_remote_execution of a turn. */
  predicate ReserveOk(s: State, e: ExecId, row: Execution) {
    s.mem.serving && Turning(row.job) in s.mem.pending && e !in s.db.ledger && row.state.ActiveRow?
  }

  function Reserve(s: State, e: ExecId, row: Execution): State {
    With(PutLedger(s, e, row), Claim(row.job, e))
  }

  /** _handles[job_id] = handle. */
  predicate TakeHandleOk(s: State, j: JobId, e: ExecId) {
    s.mem.serving && Claim(j, e) in s.mem.pending
  }

  function TakeHandle(s: State, j: JobId, e: ExecId): State {
    var m := Recall(Discard(s.mem, Claim(j, e)), Hold(j, e));
    s.(mem := m.(handles := s.mem.handles[j := e]))
  }

  /** _handles.get(job_id) of a cancel request. */
  predicate ReadHandleOk(s: State, j: JobId) {
    s.mem.serving && Is(s, j, Cancelling) && j in s.mem.handles
  }

  function DropHandle(s: State, j: JobId): State {
    s.(mem := s.mem.(handles := s.mem.handles - {j}))
  }

  /** The insert of _ensure_remote_execution. */
  predicate EnsureRowOk(s: State, e: ExecId, row: Execution) {
    s.mem.serving && Hold(row.job, e) in s.mem.pending && e !in s.db.ledger && row.state.ActiveRow?
  }

  /** mark_result_received, mark_acknowledged and session updates change a row but not its owner. */
  predicate MarkLedgerOk(s: State, e: ExecId, row: Execution) {
    && s.mem.serving && e in s.db.ledger
    && row == s.db.ledger[e].(thread := row.thread, state := row.state)
  }

  function PutLedger(s: State, e: ExecId, row: Execution): State {
    s.(db := s.db.(ledger := s.db.ledger[e := row]))
  }

  /** The upsert at the end of _set_handle, once the ledger gives the execution to the job on its host. */
  predicate NoteExecOk(cfg: Config, s: State, j: JobId, e: ExecId) {
    && s.mem.serving && Hold(j, e) in s.mem.pending && j in s.db.jobs && Remote(cfg, s.db.jobs[j])
    && e in s.db.ledger && s.db.ledger[e].job == j && s.db.jobs[j].host == Some(s.db.ledger[e].host)
  }

  function ExecRecord(d: Db, j: JobId, e: ExecId): Recovery {
    if j in d.recovery then d.recovery[j].(due := None, exec := Some(e))
    else Recovery(RestartKind, AdoptMode, 0, None, Some(e), None)
  }

  function RecordExec(s: State, j: JobId, e: ExecId): State {
    Put(s, j, ExecRecord(s.db, j, e))
  }

  /** A runner's result that is neither "host" nor "cancel_unconfirmed" resolves the future of e. */
  function Confirm(s: State, e: ExecId): State {
    s.(mem := s.mem.(confirmed := s.mem.confirmed + {e}))
  }

  /** _record_session: the job's conversation becomes known. */
  function SetThread(s: State, j: JobId, thread: Option<ThreadId>): State
    requires j in s.db.jobs
  {
    s.(db := s.db.(jobs := s.db.jobs[j := s.db.jobs[j].(thread := thread)]))
  }

  /** ... and is bound to the project session, which locks a free one. */
  predicate BindSessionOk(s: State, j: JobId) {
    && s.mem.serving && j in s.db.jobs && Started(s.db.log, j)
    && (OwnerOf(s.db.jobs[j]) in s.db.locks ==> s.db.locks[OwnerOf(s.db.jobs[j])] == j)
  }

  function BindSession(s: State, j: JobId): State
    requires j in s.db.jobs
  {
    s.(db := s.db.(locks := s.db.locks[OwnerOf(s.db.jobs[j]) := j]))
  }

  // ---- cancellation ----

  predicate CancelRequestOk(s: State, j: JobId) {
    s.mem.serving && j in s.db.jobs && Allowed(s.db.jobs[j].state, Cancelling)
  }

  function CancelRequest(s: State, j: JobId): State
    requires j in s.db.jobs
  {
    s.(db := Shift(s.db, j, Cancelling, s.db.jobs[j].host))
  }

  /** _persist_cancel_intent and _record_cancel_pending, with the handle that the coroutine has in hand. */
  predicate NoteCancelOk(s: State, j: JobId, e: ExecId) {
    s.mem.serving && Hold(j, e) in s.mem.pending && (Is(s, j, Cancelling) || Is(s, j, Cancelled))
  }

  function CancelRecord(d: Db, j: JobId, e: ExecId): Recovery {
    if j in d.recovery then d.recovery[j].(mode := CancelMode, due := None, exec := Some(e))
    else Recovery(HostKind, CancelMode, 0, None, Some(e), None)
  }

  function CancelNote(s: State, j: JobId, e: ExecId): State {
    Put(s, j, CancelRecord(s.db, j, e))
  }

  function Finalized(s: State, j: JobId): State
    requires j in s.db.jobs
  {
    State(Shift(DropRecovery(s.db, j), j, Cancelled, s.db.jobs[j].host), Finishing(s.mem, j))
  }

  /** _finalize_cancellation when the handle in hand has a definite result. Only the state is looked at again:
      by now the job may have another handle, or another execution on record. */
  predicate FinalizeOk(s: State, j: JobId, e: ExecId) {
    s.mem.serving && Is(s, j, Cancelling) && Hold(j, e) in s.mem.pending && e in s.mem.confirmed
  }

  /** cancel() finds no handle, ... */
  predicate LookOk(s: State, j: JobId) {
    s.mem.serving && Is(s, j, Cancelling) && j !in s.mem.handles
  }

  predicate LookedOk(s: State, j: JobId) {
    s.mem.serving && Is(s, j, Cancelling) && Looking(j) in s.mem.pending && Turning(j) !in s.mem.pending
  }

  /** ... waits for the task of the job, and keeps a recorded execution pending ... */
  predicate ParkOk(cfg: Config, s: State, j: JobId) {
    LookedOk(s, j) && Remote(cfg, s.db.jobs[j]) && j in s.db.recovery && s.db.recovery[j].exec.Some?
  }

  function ParkRecord(r: Recovery): Recovery {
    r.(mode := CancelMode, due := None)
  }

  function Parked(s: State, j: JobId): State
    requires j in s.db.recovery
  {
    Put(s, j, ParkRecord(s.db.recovery[j]))
  }

  /** ... or decides to end a local job, or a remote one without recorded execution, at once. */
  predicate DecideEndOk(cfg: Config, s: State, j: JobId) {
    && LookedOk(s, j)
    && (Remote(cfg, s.db.jobs[j]) ==> j in s.db.recovery ==> s.db.recovery[j].exec == None)
  }

  predicate EndAtOnceOk(s: State, j: JobId) {
    s.mem.serving && Is(s, j, Cancelling) && Ending(j) in s.mem.pending
  }

  // ---- reconnecting runners ----

  /** The job has its turn in a pass: it was listed as waiting for its host, or as being cancelled. */
  predicate Listed(s: State, v: View, j: JobId) {
    && s.mem.serving && j in v.rows && v.rows[j].host == Some(v.snap.host) && j in s.db.jobs && j in s.db.recovery
    && (v.rows[j].state.WaitingHost? || (v.rows[j].state.Cancelling? && s.db.recovery[j].mode.CancelMode?))
  }

  /** The pass goes by the rows and owners that it has read when it began. */
  ghost predicate BindOk(cfg: Config, s: State, j: JobId, e: ExecId, v: View) {
    Listed(s, v, j) && Passing(v) in s.mem.pending && Pick(cfg, v, j, s.db.recovery[j]) == Some(e)
  }

  function Rebind(s: State, j: JobId, e: ExecId): State
    requires j in s.db.recovery
  {
    Put(s, j, s.db.recovery[j].(exec := Some(e)))
  }

  /** The record is rewritten if it names another execution; then a waiting job is moved, and a cancelling one
      gets its handle. */
  function Bind(s: State, j: JobId, e: ExecId, v: View): State
    requires j in s.db.recovery && j in v.rows
  {
    var s1 := With(s, if v.rows[j].state.WaitingHost? then Bound(j, e, v.snap.host) else Claim(j, e));
    if s.db.recovery[j].exec == Some(e) then s1 else With(s1, Writing(j, s.db.recovery[j].(exec := Some(e))))
  }

  /** The first of the three transitions of an adoption; STARTING and RUNNING follow by Move. */
  predicate AdoptOk(s: State, j: JobId, e: ExecId, host: HostId) {
    && s.mem.serving && Bound(j, e, host) in s.mem.pending
    && (Is(s, j, WaitingHost) || Is(s, j, WaitingLease)) && j !in s.mem.flow
  }

  function Adopt(s: State, j: JobId, e: ExecId, host: HostId): State
    requires j in s.db.jobs
  {
    State(Shift(s.db, j, Assigned, Some(host)), WithFlow(s.mem, j, Adopting(e)))
  }

  /** After a complete snapshot (of any host) the pass decides that a job without a reported execution stops
      waiting for its adoption; it writes the record later. */
  ghost predicate GiveUpOk(cfg: Config, s: State, j: JobId, v: View, mode: Mode) {
    && s.mem.serving && Passing(v) in s.mem.pending && GivesUp(cfg, s, j, v) && (mode.ResumeMode? || mode.StartMode?)
  }

  ghost predicate GivesUp(cfg: Config, s: State, j: JobId, v: View) {
    && v.snap.complete && j in v.rows && v.rows[j].state.WaitingHost?
    && Is(s, j, WaitingHost) && j in s.db.recovery && s.db.recovery[j].mode.AdoptMode?
    && KnownExecution(cfg, v, j, s.db.recovery[j]) == None
  }

  function GiveUpRecord(r: Recovery, mode: Mode, due: int): Recovery {
    r.(mode := mode, due := Some(due), exec := None)
  }

  // ---- queue ----

  predicate SwapOk(s: State, j: JobId, k: JobId) {
    && s.mem.serving && j in s.db.recovery && k in s.db.recovery
    && s.db.recovery[j].position.Some? && s.db.recovery[k].position.Some?
  }

  function Swapped(recovery: Recoveries, j: JobId, k: JobId): Recoveries
    requires j in recovery && k in recovery
  {
    recovery[j := recovery[j].(position := recovery[k].position)][k := recovery[k].(position := recovery[j].position)]
  }

  function Swap(s: State, j: JobId, k: JobId): State
    requires j in s.db.recovery && k in s.db.recovery
  {
    s.(db := s.db.(recovery := Swapped(s.db.recovery, j, k)))
  }

  // ---- crash and startup ----

  /** The controller process dies: the tables stay, everything else is gone. */
  function Crash(s: State): State {
    s.(mem := Memory(false, map[], {}, map[], {}, multiset{}))
  }

  /** It dies after the transition of a wait and before its recovery record, when it serves or at startup. */
  predicate TornWaitOk(cfg: Config, s: State, j: JobId, target: JobState, host: Option<HostId>) {
    && j in s.db.jobs && Allowed(s.db.jobs[j].state, target)
    && match target {
         case WaitingHost => host == s.db.jobs[j].host || s.db.jobs[j].state.Queued?
         case WaitingLease =>
           !HoldsLease(cfg, s.db.jobs, s.db.leases, j) && !HoldsSession(s.db.jobs, s.db.locks, j)
         case _ => false
       }
  }

  function TornWait(s: State, j: JobId, target: JobState, host: Option<HostId>): State
    requires j in s.db.jobs
  {
    Crash(s.(db := Shift(s.db, j, target, host)))
  }

  /** It dies inside _finalize_cancellation, after the record is deleted. */
  predicate TornFinalizeOk(s: State, j: JobId, e: ExecId) {
    FinalizeOk(s, j, e) || EndAtOnceOk(s, j)
  }

  function TornFinalize(s: State, j: JobId): State {
    Crash(s.(db := DropRecovery(s.db, j)))
  }

  predicate SweepLockOk(s: State, o: Owner) {
    !s.mem.serving && o in s.db.locks && (s.db.locks[o] in s.db.jobs ==> Terminal(s.db.jobs[s.db.locks[o]].state))
  }

  function SweepLock(s: State, o: Owner): State {
    s.(db := s.db.(locks := s.db.locks - {o}))
  }

  /** Startup releases the lease of a job that is missing, ended, queued or unplaced. */
  predicate SweepLeaseOk(s: State, t: Tree) {
    && !s.mem.serving && t in s.db.leases
    && (s.db.leases[t] in s.db.jobs ==>
          var job := s.db.jobs[s.db.leases[t]];
          Terminal(job.state) || job.state.WaitingLease? || job.host.None?)
  }

  function SweepLease(s: State, t: Tree): State
    requires t in s.db.leases
  {
    s.(db := s.db.(leases := WithoutJob(s.db.leases, s.db.leases[t])))
  }

  /** ... and takes the lease of every placed job that has none, refusing to start on a conflict. */
  ghost predicate ClaimLeaseOk(cfg: Config, s: State, j: JobId) {
    && !s.mem.serving && j in s.db.jobs && s.db.jobs[j].host.Some?
    && !Terminal(s.db.jobs[j].state) && !s.db.jobs[j].state.WaitingLease?
    && LeaseFree(s.db.leases, j, TreeOn(cfg, s.db.jobs[j], s.db.jobs[j].host.value))
  }

  function ClaimLease(cfg: Config, s: State, j: JobId): State
    requires j in s.db.jobs && s.db.jobs[j].host.Some?
  {
    s.(db := s.db.(leases := s.db.leases[TreeOn(cfg, s.db.jobs[j], s.db.jobs[j].host.value) := j]))
  }

  /** A recovery record as startup may write it: it keeps the execution or drops it, and it keeps
      the queue position or takes the next one. */
  ghost predicate StartupRecord(s: State, j: JobId, r: Recovery) {
    && (r.exec.Some? ==> j in s.db.recovery && r.exec == s.db.recovery[j].exec)
    && (r.position == Position(s.db, j) || (r.position.Some? && NextPosition(s.db.recovery, r.position.value)))
    && (r.mode.FinalizeMode? ==> Started(s.db.log, j) || (j in s.db.recovery && s.db.recovery[j].mode.FinalizeMode?))
  }

  /** A job that was on its way when the controller died waits for its host again. */
  ghost predicate RestartWaitOk(cfg: Config, s: State, j: JobId, r: Recovery) {
    && !s.mem.serving && j in s.db.jobs && Allowed(s.db.jobs[j].state, WaitingHost)
    && !s.db.jobs[j].state.WaitingLease?
    && StartupRecord(s, j, r)
    && (r.mode.AdoptMode? ==> Remote(cfg, s.db.jobs[j]))
  }

  function RestartWait(s: State, j: JobId, r: Recovery): State
    requires j in s.db.jobs
  {
    s.(db := Shift(PutRecovery(s.db, j, r), j, WaitingHost, s.db.jobs[j].host))
  }

  /** A job that was waiting or being cancelled stays where it is; its record is repaired. */
  ghost predicate RestartNoteOk(cfg: Config, s: State, j: JobId, r: Recovery) {
    && !s.mem.serving && j in s.db.jobs
    && (Waiting(s.db.jobs[j].state) || s.db.jobs[j].state.Cancelling?)
    && StartupRecord(s, j, r)
    && (s.db.jobs[j].state.WaitingLease? ==> r.position.Some?)
    && (s.db.jobs[j].state.WaitingHost? ==>
          j in s.db.recovery ==> r.mode == s.db.recovery[j].mode)
    && (r.mode.AdoptMode? && j in s.db.recovery ==> s.db.recovery[j].mode.AdoptMode?)
    && (r.mode.AdoptMode? && j !in s.db.recovery ==> Remote(cfg, s.db.jobs[j]) && s.db.jobs[j].state.WaitingHost?)
    && (s.db.jobs[j].state.Cancelling? ==>
          r.mode.CancelMode? && r.exec == if j in s.db.recovery then s.db.recovery[j].exec else None)
  }

  predicate RestartCancelOk(cfg: Config, s: State, j: JobId) {
    !s.mem.serving && Is(s, j, Cancelling) && !Remote(cfg, s.db.jobs[j])
  }

  function RestartCancel(s: State, j: JobId): State
    requires j in s.db.jobs
  {
    State(Shift(s.db, j, Cancelled, s.db.jobs[j].host), Finishing(s.mem, j))
  }

  function Serve(s: State): State {
    s.(mem := s.mem.(serving := true))
  }
}
