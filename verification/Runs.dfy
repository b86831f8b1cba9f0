/** Runs of the controller: any interleaving of its transactions, with crashes anywhere, and
    what holds along every run. */
module Runs {
  import opened Wrappers
  import opened States
  import opened Tables
  import opened Matching
  import opened Transactions
  import opened Invariants
  import opened Safety

  /** Steps of placing a job. */
  datatype Placement =
    | DoTakeSession(j: JobId, o: Owner)
    | DoAddJob(j: JobId, job: Job)
    | DoUnlockUnplaced(j: JobId)
    | DoAssign(j: JobId, on: HostId, read: Option<Recovery>)
    | DoGrantSession(j: JobId)
    | DoReturnLease(j: JobId)
    | DoRequeue(j: JobId)
    | DoLeaveQueue(j: JobId)
    | DoResumeQuota(j: JobId, r: Recovery)

  /** Steps around recovery records: a record is read, a new one is prepared, and it is written. */
  datatype Note =
    | DoRead(j: JobId)
    | DoWrite(j: JobId, r: Recovery)
    | DoMakeUp(j: JobId, due: int)
    | DoNoteExec(j: JobId, e: ExecId)
    | DoCountQuota(j: JobId, due: int)
    | DoNoteCancel(j: JobId, e: ExecId)
    | DoPark(j: JobId)
    | DoDiscard(t: Pending)

  /** Steps of waiting and the queue. */
  datatype Wait =
    | DoEnterHostWait(j: JobId, mode: Mode, host: Option<HostId>, due: int)
    | DoRecordHostWait(j: JobId, r: Recovery)
    | DoEnterLeaseWait(j: JobId, mode: Mode, on: HostId, due: int)
    | DoKeepPlace(j: JobId, r: Recovery)
    | DoWritePlace(j: JobId, r: Recovery)
    | DoTakePlace(j: JobId, r: Recovery, p: nat)
    | DoMakeUpPlace(j: JobId, p: nat, due: int)
    | DoSwap(j: JobId, k: JobId)

  /** Steps of running and ending a job. */
  datatype Turn =
    | DoMove(j: JobId, target: JobState)
    | DoReleaseSession(j: JobId)
    | DoReleaseLease(j: JobId)
    | DoForget(j: JobId)
    | DoEngage(j: JobId)
    | DoSetThread(j: JobId, thread: Option<ThreadId>)
    | DoBindSession(j: JobId)

  /** Steps around its executions. */
  datatype Execute =
    | DoBeginTurn(j: JobId)
    | DoReserve(e: ExecId, row: Execution)
    | DoTakeHandle(j: JobId, e: ExecId)
    | DoReadHandle(j: JobId)
    | DoDropHandle(j: JobId)
    | DoEnsureRow(e: ExecId, row: Execution)
    | DoMarkLedger(e: ExecId, row: Execution)
    | DoConfirm(e: ExecId)

  /** Steps of cancelling it. */
  datatype Cancellation =
    | DoCancelRequest(j: JobId)
    | DoFinalize(j: JobId, e: ExecId)
    | DoLook(j: JobId)
    | DoDecideEnd(j: JobId)
    | DoEndAtOnce(j: JobId)

  /** Steps taken when a runner reports what it runs. */
  datatype Reconnection =
    | DoBeginPass(snap: Snapshot, order: seq<ExecId>)
    | DoListAgain(v: View)
    | DoBind(j: JobId, e: ExecId, v: View)
    | DoAdopt(j: JobId, e: ExecId, host: HostId)
    | DoGiveUp(j: JobId, v: View, mode: Mode, due: int)

  /** Steps of a crash and the restart after it. */
  datatype Restart =
    | DoCrash
    | DoTornWait(j: JobId, target: JobState, host: Option<HostId>)
    | DoTornFinalize(j: JobId, e: ExecId)
    | DoSweepLock(o: Owner)
    | DoSweepLease(t: Tree)
    | DoClaimLease(j: JobId)
    | DoRestartWait(j: JobId, r: Recovery)
    | DoRestartNote(j: JobId, r: Recovery)
    | DoRestartCancel(j: JobId)
    | DoServe

  datatype Action =
    | PlacementStep(placement: Placement)
    | NoteStep(note: Note)
    | WaitStep(wait: Wait)
    | TurnStep(turn: Turn)
    | ExecuteStep(execute: Execute)
    | CancellationStep(cancellation: Cancellation)
    | ReconnectionStep(reconnection: Reconnection)
    | RestartStep(restart: Restart)

  /** Startup ends when the tables are repaired; whatever was in memory before the crash is gone. */
  ghost predicate ServeOk(cfg: Config, s: State) {
    !s.mem.serving && Steady(cfg, s.db, s.mem)
  }

  ghost predicate PlacementOk(cfg: Config, s: State, a: Placement) {
    match a
    case DoTakeSession(j, o) => TakeSessionOk(s, j, o)
    case DoAddJob(j, job) => AddJobOk(s, j, job)
    case DoUnlockUnplaced(j) => UnlockUnplacedOk(s, j)
    case DoAssign(j, on, read) => AssignOk(cfg, s, j, on, read) && (read.Some? ==> Reading(j, read.value) in s.mem.pending)
    case DoGrantSession(j) => GrantSessionOk(s, j)
    case DoReturnLease(j) => ReturnLeaseOk(s, j)
    case DoRequeue(j) => RequeueOk(s, j)
    case DoLeaveQueue(j) => LeaveQueueOk(s, j)
    case DoResumeQuota(j, r) => ResumeQuotaOk(s, j) && Reading(j, r) in s.mem.pending
  }

  ghost function PlacementNext(cfg: Config, s: State, a: Placement): State
    requires PlacementOk(cfg, s, a)
  {
    match a
    case DoTakeSession(j, o) => TakeSession(s, j, o)
    case DoAddJob(j, job) => AddJob(s, j, job)
    case DoUnlockUnplaced(j) => UnlockUnplaced(s, j)
    case DoAssign(j, on, read) => Assign(cfg, if read.Some? then Without(s, Reading(j, read.value)) else s, j, on, read)
    case DoGrantSession(j) => GrantSession(s, j)
    case DoReturnLease(j) => ReturnLease(s, j)
    case DoRequeue(j) => Requeue(s, j)
    case DoLeaveQueue(j) => LeaveQueue(s, j)
    case DoResumeQuota(j, r) => ResumeQuota(Without(s, Reading(j, r)), j, r)
  }

  lemma PlacementKeeps(cfg: Config, s: State, a: Placement)
    requires Inv(cfg, s) && PlacementOk(cfg, s, a)
    ensures Inv(cfg, PlacementNext(cfg, s, a))
  {
    match a
    case DoTakeSession(j, o) => TakeSessionKeeps(cfg, s, j, o);
    case DoAddJob(j, job) => AddJobKeeps(cfg, s, j, job);
    case DoUnlockUnplaced(j) => UnlockUnplacedKeeps(cfg, s, j);
    case DoAssign(j, on, read) => ReadAssignKeeps(cfg, s, j, on, read);
    case DoGrantSession(j) => GrantSessionKeeps(cfg, s, j);
    case DoReturnLease(j) => ReturnLeaseKeeps(cfg, s, j);
    case DoRequeue(j) => RequeueKeeps(cfg, s, j);
    case DoLeaveQueue(j) => LeaveQueueKeeps(cfg, s, j);
    case DoResumeQuota(j, r) =>
      assert PendingSound(s.db.jobs, s.db.log, Reading(j, r));
      DiscardKeeps(cfg, s, Reading(j, r));
      ResumeQuotaKeeps(cfg, Without(s, Reading(j, r)), j, r);
  }

  lemma ReadAssignKeeps(cfg: Config, s: State, j: JobId, on: HostId, read: Option<Recovery>)
    requires Inv(cfg, s) && PlacementOk(cfg, s, DoAssign(j, on, read))
    ensures Inv(cfg, PlacementNext(cfg, s, DoAssign(j, on, read)))
  {
    if read.Some? {
      assert PendingSound(s.db.jobs, s.db.log, Reading(j, read.value));
      DiscardKeeps(cfg, s, Reading(j, read.value));
      AssignKeeps(cfg, Without(s, Reading(j, read.value)), j, on, read);
    } else {
      AssignKeeps(cfg, s, j, on, read);
    }
  }

  /** A coroutine is done with what it remembered. A record that was prepared is written, though, and a job that is
      to be ended is ended. */
  ghost predicate DiscardOk(s: State, t: Pending) {
    && t in s.mem.pending && !t.Writing? && !t.Entering? && !t.Queuing? && !t.Ending?
    && (t.Turning? ==> EndTurnOk(s, t.job))
  }

  ghost predicate NoteOk(cfg: Config, s: State, a: Note) {
    match a
    case DoRead(j) => ReadRecordOk(s, j)
    case DoWrite(j, r) => WriteOk(s, j, r)
    case DoMakeUp(j, due) => MakeUpOk(s, j)
    case DoNoteExec(j, e) => NoteExecOk(cfg, s, j, e)
    case DoCountQuota(j, due) => CountQuotaOk(s, j)
    case DoNoteCancel(j, e) => NoteCancelOk(s, j, e)
    case DoPark(j) => ParkOk(cfg, s, j)
    case DoDiscard(t) => DiscardOk(s, t)
  }

  ghost function NoteNext(cfg: Config, s: State, a: Note): State
    requires NoteOk(cfg, s, a)
  {
    match a
    case DoRead(j) => With(s, Reading(j, s.db.recovery[j]))
    case DoWrite(j, r) => Write(s, j, r)
    case DoMakeUp(j, due) => With(s, Writing(j, MadeUpRecord(s.db.jobs[j], due)))
    case DoNoteExec(j, e) => With(s, Writing(j, ExecRecord(s.db, j, e)))
    case DoCountQuota(j, due) => With(s, Writing(j, QuotaRecord(s, j, due)))
    case DoNoteCancel(j, e) => With(s, Writing(j, CancelRecord(s.db, j, e)))
    case DoPark(j) => With(Without(s, Looking(j)), Writing(j, ParkRecord(s.db.recovery[j])))
    case DoDiscard(t) => Without(s, t)
  }

  lemma NoteKeeps(cfg: Config, s: State, a: Note)
    requires Inv(cfg, s) && NoteOk(cfg, s, a)
    ensures Inv(cfg, NoteNext(cfg, s, a))
  {
    match a
    case DoRead(j) => RecallKeeps(cfg, s, Reading(j, s.db.recovery[j]));
    case DoWrite(j, r) => WriteKeeps(cfg, s, j, r);
    case DoMakeUp(j, due) => RecallKeeps(cfg, s, Writing(j, MadeUpRecord(s.db.jobs[j], due)));
    case DoNoteExec(j, e) =>
      ExecRecordSound(cfg, s, j, e);
      RecallKeeps(cfg, s, Writing(j, ExecRecord(s.db, j, e)));
    case DoCountQuota(j, due) =>
      QuotaRecordSound(cfg, s, j, due);
      RecallKeeps(cfg, s, Writing(j, QuotaRecord(s, j, due)));
    case DoNoteCancel(j, e) =>
      CancelRecordSound(cfg, s, j, e);
      RecallKeeps(cfg, s, Writing(j, CancelRecord(s.db, j, e)));
    case DoPark(j) =>
      DiscardKeeps(cfg, s, Looking(j));
      ChangedRecordSound(cfg, s, j, ParkRecord(s.db.recovery[j]));
      RecallKeeps(cfg, Without(s, Looking(j)), Writing(j, ParkRecord(s.db.recovery[j])));
    case DoDiscard(t) => DiscardKeeps(cfg, s, t);
  }

  ghost predicate WaitOk(cfg: Config, s: State, a: Wait) {
    match a
    case DoEnterHostWait(j, mode, host, due) => EnterHostWaitOk(cfg, s, j, mode, host)
    case DoRecordHostWait(j, r) => RecordHostWaitOk(s, j, r)
    case DoEnterLeaseWait(j, mode, on, due) => EnterLeaseWaitOk(cfg, s, j, mode, on)
    case DoKeepPlace(j, r) => KeepPlaceOk(s, j, r)
    case DoWritePlace(j, r) => WritePlaceOk(s, j, r)
    case DoTakePlace(j, r, p) => TakePlaceOk(s, j, r, p)
    case DoMakeUpPlace(j, p, due) => MakeUpPlaceOk(s, j, p)
    case DoSwap(j, k) => SwapOk(s, j, k)
  }

  ghost function WaitNext(cfg: Config, s: State, a: Wait): State
    requires WaitOk(cfg, s, a)
  {
    match a
    case DoEnterHostWait(j, mode, host, due) => EnterHostWait(s, j, mode, host, due)
    case DoRecordHostWait(j, r) => RecordHostWait(s, j, r)
    case DoEnterLeaseWait(j, mode, on, due) => EnterLeaseWait(s, j, mode, on, due)
    case DoKeepPlace(j, r) => KeepPlace(s, j, r)
    case DoWritePlace(j, r) => WritePlace(s, j, r)
    case DoTakePlace(j, r, p) => TakePlace(s, j, r, p)
    case DoMakeUpPlace(j, p, due) => MakeUpPlace(s, j, p, due)
    case DoSwap(j, k) => Swap(s, j, k)
  }

  lemma WaitKeeps(cfg: Config, s: State, a: Wait)
    requires Inv(cfg, s) && WaitOk(cfg, s, a)
    ensures Inv(cfg, WaitNext(cfg, s, a))
  {
    match a
    case DoEnterHostWait(j, mode, host, due) => EnterHostWaitKeeps(cfg, s, j, mode, host, due);
    case DoRecordHostWait(j, r) => RecordHostWaitKeeps(cfg, s, j, r);
    case DoEnterLeaseWait(j, mode, on, due) => EnterLeaseWaitKeeps(cfg, s, j, mode, on, due);
    case DoKeepPlace(j, r) => KeepPlaceKeeps(cfg, s, j, r);
    case DoWritePlace(j, r) => WritePlaceKeeps(cfg, s, j, r);
    case DoTakePlace(j, r, p) => PlaceKeeps(cfg, s, j, r, p);
    case DoMakeUpPlace(j, p, due) => MakeUpPlaceKeeps(cfg, s, j, p, due);
    case DoSwap(j, k) => SwapKeeps(cfg, s, j, k);
  }

  ghost predicate TurnOk(s: State, a: Turn) {
    match a
    case DoMove(j, target) => MoveOk(s, j, target)
    case DoReleaseSession(j) => ReleaseOk(s, j)
    case DoReleaseLease(j) => ReleaseOk(s, j)
    case DoForget(j) => ForgetOk(s, j)
    case DoEngage(j) => EngageOk(s, j)
    case DoSetThread(j, thread) => j in s.db.jobs
    case DoBindSession(j) => BindSessionOk(s, j)
  }

  ghost function TurnNext(s: State, a: Turn): State
    requires TurnOk(s, a)
  {
    match a
    case DoMove(j, target) => Move(s, j, target)
    case DoReleaseSession(j) => ReleaseSession(s, j)
    case DoReleaseLease(j) => ReleaseLease(s, j)
    case DoForget(j) => Forget(s, j)
    case DoEngage(j) => With(s, Engaged(j))
    case DoSetThread(j, thread) => SetThread(s, j, thread)
    case DoBindSession(j) => BindSession(s, j)
  }

  lemma TurnKeeps(cfg: Config, s: State, a: Turn)
    requires Inv(cfg, s) && TurnOk(s, a)
    ensures Inv(cfg, TurnNext(s, a))
  {
    match a
    case DoMove(j, target) => MoveKeeps(cfg, s, j, target);
    case DoReleaseSession(j) => ReleaseSessionKeeps(cfg, s, j);
    case DoReleaseLease(j) => ReleaseLeaseKeeps(cfg, s, j);
    case DoForget(j) => ForgetKeeps(cfg, s, j);
    case DoEngage(j) => RecallKeeps(cfg, s, Engaged(j));
    case DoSetThread(j, thread) => SetThreadKeeps(cfg, s, j, thread);
    case DoBindSession(j) => BindSessionKeeps(cfg, s, j);
  }

  ghost predicate ExecuteOk(s: State, a: Execute) {
    match a
    case DoBeginTurn(j) => BeginTurnOk(s, j)
    case DoReserve(e, row) => ReserveOk(s, e, row)
    case DoTakeHandle(j, e) => TakeHandleOk(s, j, e)
    case DoReadHandle(j) => ReadHandleOk(s, j)
    case DoDropHandle(j) => true
    case DoEnsureRow(e, row) => EnsureRowOk(s, e, row)
    case DoMarkLedger(e, row) => MarkLedgerOk(s, e, row)
    case DoConfirm(e) => s.mem.serving
  }

  ghost function ExecuteNext(s: State, a: Execute): State
    requires ExecuteOk(s, a)
  {
    match a
    case DoBeginTurn(j) => With(s, Turning(j))
    case DoReserve(e, row) => Reserve(s, e, row)
    case DoTakeHandle(j, e) => TakeHandle(s, j, e)
    case DoReadHandle(j) => With(s, Hold(j, s.mem.handles[j]))
    case DoDropHandle(j) => DropHandle(s, j)
    case DoEnsureRow(e, row) => PutLedger(s, e, row)
    case DoMarkLedger(e, row) => PutLedger(s, e, row)
    case DoConfirm(e) => Confirm(s, e)
  }

  lemma ExecuteKeeps(cfg: Config, s: State, a: Execute)
    requires Inv(cfg, s) && ExecuteOk(s, a)
    ensures Inv(cfg, ExecuteNext(s, a))
  {
    match a
    case DoBeginTurn(j) =>
      ActiveHolds(cfg, s.db, j);
      RecallKeeps(cfg, s, Turning(j));
    case DoReserve(e, row) => ReserveKeeps(cfg, s, e, row);
    case DoTakeHandle(j, e) => TakeHandleKeeps(cfg, s, j, e);
    case DoReadHandle(j) => ReadHandleKeeps(cfg, s, j);
    case DoDropHandle(j) =>
    case DoEnsureRow(e, row) => PutLedgerKeeps(cfg, s, e, row);
    case DoMarkLedger(e, row) => PutLedgerKeeps(cfg, s, e, row);
    case DoConfirm(e) =>
  }

  ghost predicate CancellationOk(cfg: Config, s: State, a: Cancellation) {
    match a
    case DoCancelRequest(j) => CancelRequestOk(s, j)
    case DoFinalize(j, e) => FinalizeOk(s, j, e)
    case DoLook(j) => LookOk(s, j)
    case DoDecideEnd(j) => DecideEndOk(cfg, s, j)
    case DoEndAtOnce(j) => EndAtOnceOk(s, j)
  }

  ghost function CancellationNext(cfg: Config, s: State, a: Cancellation): State
    requires CancellationOk(cfg, s, a)
  {
    match a
    case DoCancelRequest(j) => CancelRequest(s, j)
    case DoFinalize(j, e) => Finalized(s, j)
    case DoLook(j) => With(s, Looking(j))
    case DoDecideEnd(j) => With(Without(s, Looking(j)), Ending(j))
    case DoEndAtOnce(j) => Finalized(Without(s, Ending(j)), j)
  }

  lemma CancellationKeeps(cfg: Config, s: State, a: Cancellation)
    requires Inv(cfg, s) && CancellationOk(cfg, s, a)
    ensures Inv(cfg, CancellationNext(cfg, s, a))
  {
    match a
    case DoCancelRequest(j) => CancelRequestKeeps(cfg, s, j);
    case DoFinalize(j, e) => FinalizedKeeps(cfg, s, j);
    case DoLook(j) => RecallKeeps(cfg, s, Looking(j));
    case DoDecideEnd(j) =>
      DiscardKeeps(cfg, s, Looking(j));
      RecallKeeps(cfg, Without(s, Looking(j)), Ending(j));
    case DoEndAtOnce(j) =>
      DiscardKeeps(cfg, s, Ending(j));
      FinalizedKeeps(cfg, Without(s, Ending(j)), j);
  }

  ghost predicate ReconnectionOk(cfg: Config, s: State, a: Reconnection) {
    match a
    case DoBeginPass(snap, order) => s.mem.serving
    case DoListAgain(v) => Passing(v) in s.mem.pending
    case DoBind(j, e, v) => BindOk(cfg, s, j, e, v)
    case DoAdopt(j, e, host) => AdoptOk(s, j, e, host)
    case DoGiveUp(j, v, mode, due) => GiveUpOk(cfg, s, j, v, mode)
  }

  ghost function ReconnectionNext(cfg: Config, s: State, a: Reconnection): State
    requires ReconnectionOk(cfg, s, a)
  {
    match a
    case DoBeginPass(snap, order) => With(s, Passing(Begun(s.db, snap, order)))
    case DoListAgain(v) => With(Without(s, Passing(v)), Passing(v.(rows := s.db.jobs)))
    case DoBind(j, e, v) => Bind(s, j, e, v)
    case DoAdopt(j, e, host) => Adopt(Without(s, Bound(j, e, host)), j, e, host)
    case DoGiveUp(j, v, mode, due) => With(s, Writing(j, GiveUpRecord(s.db.recovery[j], mode, due)))
  }

  /** An adoption does not look at leases. It keeps the rules if no job is bound that was never started, and each
      job is adopted on its own host (see Reconnect.AdoptionLeases). */
  ghost predicate Orderly(s: State, a: Action) {
    match a
    case ReconnectionStep(DoBind(j, e, v)) => Started(s.db.log, j)
    case ReconnectionStep(DoAdopt(j, e, host)) => j in s.db.jobs && s.db.jobs[j].host == Some(host)
    case _ => true
  }

  lemma ReconnectionKeeps(cfg: Config, s: State, a: Reconnection)
    requires Inv(cfg, s) && ReconnectionOk(cfg, s, a) && Orderly(s, ReconnectionStep(a))
    ensures Inv(cfg, ReconnectionNext(cfg, s, a))
  {
    match a
    case DoBeginPass(snap, order) => RecallKeeps(cfg, s, Passing(Begun(s.db, snap, order)));
    case DoListAgain(v) =>
      DiscardKeeps(cfg, s, Passing(v));
      RecallKeeps(cfg, Without(s, Passing(v)), Passing(v.(rows := s.db.jobs)));
    case DoBind(j, e, v) => BindKeeps(cfg, s, j, e, v);
    case DoAdopt(j, e, host) => BoundAdoptKeeps(cfg, s, j, e, host);
    case DoGiveUp(j, v, mode, due) =>
      ChangedRecordSound(cfg, s, j, GiveUpRecord(s.db.recovery[j], mode, due));
      RecallKeeps(cfg, s, Writing(j, GiveUpRecord(s.db.recovery[j], mode, due)));
  }

  lemma BoundAdoptKeeps(cfg: Config, s: State, j: JobId, e: ExecId, host: HostId)
    requires Inv(cfg, s) && AdoptOk(s, j, e, host) && s.db.jobs[j].host == Some(host)
    ensures Inv(cfg, Adopt(Without(s, Bound(j, e, host)), j, e, host))
  {
    AdoptKeeps(cfg, s, j, e, host);
    DiscardKeeps(cfg, Adopt(s, j, e, host), Bound(j, e, host));
  }

  ghost predicate RestartOk(cfg: Config, s: State, a: Restart) {
    match a
    case DoCrash => true
    case DoTornWait(j, target, host) => TornWaitOk(cfg, s, j, target, host)
    case DoTornFinalize(j, e) => TornFinalizeOk(s, j, e)
    case DoSweepLock(o) => SweepLockOk(s, o)
    case DoSweepLease(t) => SweepLeaseOk(s, t)
    case DoClaimLease(j) => ClaimLeaseOk(cfg, s, j)
    case DoRestartWait(j, r) => RestartWaitOk(cfg, s, j, r)
    case DoRestartNote(j, r) => RestartNoteOk(cfg, s, j, r)
    case DoRestartCancel(j) => RestartCancelOk(cfg, s, j)
    case DoServe => ServeOk(cfg, s)
  }

  ghost function RestartNext(cfg: Config, s: State, a: Restart): State
    requires RestartOk(cfg, s, a)
  {
    match a
    case DoCrash => Crash(s)
    case DoTornWait(j, target, host) => TornWait(s, j, target, host)
    case DoTornFinalize(j, e) => TornFinalize(s, j)
    case DoSweepLock(o) => SweepLock(s, o)
    case DoSweepLease(t) => SweepLease(s, t)
    case DoClaimLease(j) => ClaimLease(cfg, s, j)
    case DoRestartWait(j, r) => RestartWait(s, j, r)
    case DoRestartNote(j, r) => s.(db := PutRecovery(s.db, j, r))
    case DoRestartCancel(j) => RestartCancel(s, j)
    case DoServe => Serve(s)
  }

  lemma RestartKeeps(cfg: Config, s: State, a: Restart)
    requires Inv(cfg, s) && RestartOk(cfg, s, a)
    ensures Inv(cfg, RestartNext(cfg, s, a))
  {
    match a
    case DoCrash => CrashKeeps(cfg, s);
    case DoTornWait(j, target, host) => TornWaitKeeps(cfg, s, j, target, host);
    case DoTornFinalize(j, e) => TornFinalizeKeeps(cfg, s, j);
    case DoSweepLock(o) => SweepLockKeeps(cfg, s, o);
    case DoSweepLease(t) => SweepLeaseKeeps(cfg, s, t);
    case DoClaimLease(j) => ClaimLeaseKeeps(cfg, s, j);
    case DoRestartWait(j, r) => RestartWaitKeeps(cfg, s, j, r);
    case DoRestartNote(j, r) => RestartNoteKeeps(cfg, s, j, r);
    case DoRestartCancel(j) => RestartCancelKeeps(cfg, s, j);
    case DoServe =>
  }

  ghost predicate Enabled(cfg: Config, s: State, a: Action) {
    match a
    case PlacementStep(b) => PlacementOk(cfg, s, b)
    case NoteStep(b) => NoteOk(cfg, s, b)
    case WaitStep(b) => WaitOk(cfg, s, b)
    case TurnStep(b) => TurnOk(s, b)
    case ExecuteStep(b) => ExecuteOk(s, b)
    case CancellationStep(b) => CancellationOk(cfg, s, b)
    case ReconnectionStep(b) => ReconnectionOk(cfg, s, b)
    case RestartStep(b) => RestartOk(cfg, s, b)
  }

  ghost function Next(cfg: Config, s: State, a: Action): State
    requires Enabled(cfg, s, a)
  {
    match a
    case PlacementStep(b) => PlacementNext(cfg, s, b)
    case NoteStep(b) => NoteNext(cfg, s, b)
    case WaitStep(b) => WaitNext(cfg, s, b)
    case TurnStep(b) => TurnNext(s, b)
    case ExecuteStep(b) => ExecuteNext(s, b)
    case CancellationStep(b) => CancellationNext(cfg, s, b)
    case ReconnectionStep(b) => ReconnectionNext(cfg, s, b)
    case RestartStep(b) => RestartNext(cfg, s, b)
  }

  lemma NextKeeps(cfg: Config, s: State, a: Action)
    requires Inv(cfg, s) && Enabled(cfg, s, a) && Orderly(s, a)
    ensures Inv(cfg, Next(cfg, s, a))
  {
    match a
    case PlacementStep(b) => PlacementKeeps(cfg, s, b);
    case NoteStep(b) => NoteKeeps(cfg, s, b);
    case WaitStep(b) => WaitKeeps(cfg, s, b);
    case TurnStep(b) => TurnKeeps(cfg, s, b);
    case ExecuteStep(b) => ExecuteKeeps(cfg, s, b);
    case CancellationStep(b) => CancellationKeeps(cfg, s, b);
    case ReconnectionStep(b) => ReconnectionKeeps(cfg, s, b);
    case RestartStep(b) => RestartKeeps(cfg, s, b);
  }

  /** The actions can be taken one after the other. */
  ghost predicate Legal(cfg: Config, s: State, acts: seq<Action>)
    decreases |acts|
  {
    acts != [] ==> Enabled(cfg, s, acts[0]) && Legal(cfg, Next(cfg, s, acts[0]), acts[1..])
  }

  ghost function Run(cfg: Config, s: State, acts: seq<Action>): State
    requires Legal(cfg, s, acts)
    decreases |acts|
  {
    if acts == [] then s else Run(cfg, Next(cfg, s, acts[0]), acts[1..])
  }

  /** No step of the run adopts for a job that was never started, or on another host than its own. */
  ghost predicate OrderlyRun(cfg: Config, s: State, acts: seq<Action>)
    requires Legal(cfg, s, acts)
    decreases |acts|
  {
    acts != [] ==> Orderly(s, acts[0]) && OrderlyRun(cfg, Next(cfg, s, acts[0]), acts[1..])
  }

  /** An installation before its first start. */
  function Fresh(): State {
    State(Db(map[], map[], map[], map[], map[], []), Memory(false, map[], {}, map[], {}, multiset{}))
  }

  lemma {:induction false} RunKeeps(cfg: Config, s: State, acts: seq<Action>)
    requires Inv(cfg, s) && Legal(cfg, s, acts) && OrderlyRun(cfg, s, acts)
    ensures Inv(cfg, Run(cfg, s, acts))
    decreases |acts|
  {
    if acts != [] {
      NextKeeps(cfg, s, acts[0]);
      RunKeeps(cfg, Next(cfg, s, acts[0]), acts[1..]);
    }
  }

  lemma FreshIsSafe(cfg: Config)
    ensures Inv(cfg, Fresh())
  {
  }

  lemma {:induction false} RunAppend(cfg: Config, s: State, acts: seq<Action>, more: seq<Action>)
    requires Legal(cfg, s, acts) && Legal(cfg, Run(cfg, s, acts), more)
    ensures Legal(cfg, s, acts + more) && Run(cfg, s, acts + more) == Run(cfg, Run(cfg, s, acts), more)
    ensures OrderlyRun(cfg, s, acts) && OrderlyRun(cfg, Run(cfg, s, acts), more) ==> OrderlyRun(cfg, s, acts + more)
    decreases |acts|
  {
    if acts == [] {
      assert acts + more == more;
    } else {
      assert (acts + more)[0] == acts[0] && (acts + more)[1..] == acts[1..] + more;
      RunAppend(cfg, Next(cfg, s, acts[0]), acts[1..], more);
    }
  }

  lemma OneStep(cfg: Config, s: State, a: Action)
    requires Enabled(cfg, s, a)
    ensures Legal(cfg, s, [a]) && Run(cfg, s, [a]) == Next(cfg, s, a)
    ensures Orderly(s, a) ==> OrderlyRun(cfg, s, [a])
  {
    assert [a][1..] == [];
  }

  // ---- one writer per working tree ----

  /** The lease rules of the documentation, in the words of the tables. */
  ghost predicate OneWriterPerTree(cfg: Config, s: State) {
    var jobs := s.db.jobs;
    // a job that may run an agent holds the lease of its tree and its project session
    && (forall j | j in jobs && Active(jobs[j].state) ::
          HoldsLease(cfg, jobs, s.db.leases, j) && HoldsSession(jobs, s.db.locks, j))
    // so two such jobs never share a working tree
    && (forall j, k | j in jobs && k in jobs && j != k && Active(jobs[j].state) && Active(jobs[k].state) ::
          && jobs[j].host.Some? && jobs[k].host.Some?
          && TreeOn(cfg, jobs[j], jobs[j].host.value) != TreeOn(cfg, jobs[k], jobs[k].host.value))
    // a job has one lease at most, and it is on its assigned host
    && (forall t, u | t in s.db.leases && u in s.db.leases && s.db.leases[t] == s.db.leases[u] :: t == u)
    && (forall t | t in s.db.leases ::
          && s.db.leases[t] in jobs && jobs[s.db.leases[t]].host == Some(t.host)
          && !jobs[s.db.leases[t]].state.WaitingLease? && !jobs[s.db.leases[t]].state.Queued?
          && (s.mem.serving && Terminal(jobs[s.db.leases[t]].state) ==> s.db.leases[t] in s.mem.draining))
  }

  lemma InvMeansOneWriter(cfg: Config, s: State)
    requires Inv(cfg, s)
    ensures OneWriterPerTree(cfg, s)
  {
    forall j | j in s.db.jobs && Active(s.db.jobs[j].state)
      ensures HoldsLease(cfg, s.db.jobs, s.db.leases, j) && HoldsSession(s.db.jobs, s.db.locks, j)
    {
      ActiveHolds(cfg, s.db, j);
    }
    forall t | t in s.db.leases
      ensures s.db.leases[t] in s.db.jobs && s.db.jobs[s.db.leases[t]].host == Some(t.host)
      ensures HoldsLease(cfg, s.db.jobs, s.db.leases, s.db.leases[t])
    {
    }
  }

  /** In every reachable state: after any interleaving of transactions, crashes and restarts. */
  lemma OneWriterPerTreeAlways(cfg: Config, acts: seq<Action>)
    requires Legal(cfg, Fresh(), acts) && OrderlyRun(cfg, Fresh(), acts)
    ensures OneWriterPerTree(cfg, Run(cfg, Fresh(), acts))
  {
    FreshIsSafe(cfg);
    RunKeeps(cfg, Fresh(), acts);
    InvMeansOneWriter(cfg, Run(cfg, Fresh(), acts));
  }

  // ---- the event log ----

  lemma PlacementReplays(cfg: Config, s: State, a: Placement)
    requires Replays(s.db.jobs, s.db.log) && PlacementOk(cfg, s, a)
    ensures var d := PlacementNext(cfg, s, a).db; Replays(d.jobs, d.log)
  {
    match a
    case DoAddJob(j, job) =>
      forall k ensures Replay(s.db.log + [Created(j)], k) == Advance(Replay(s.db.log, k), Created(j), k) {
        ReplayAppend(s.db.log, Created(j), k);
      }
    case DoAssign(j, on, read) => ShiftKeepsReplays(s.db, j, Assigned, Some(on));
    case DoRequeue(j) => ShiftKeepsReplays(s.db, j, WaitingLease, s.db.jobs[j].host);
    case DoResumeQuota(j, r) => ShiftKeepsReplays(s.db, j, Running, s.db.jobs[j].host);
    case _ =>
  }

  lemma WaitReplays(cfg: Config, s: State, a: Wait)
    requires Replays(s.db.jobs, s.db.log) && WaitOk(cfg, s, a)
    ensures var d := WaitNext(cfg, s, a).db; Replays(d.jobs, d.log)
  {
    match a
    case DoEnterHostWait(j, mode, host, due) =>
      if !s.db.jobs[j].state.WaitingHost? {
        ShiftKeepsReplays(s.db, j, WaitingHost, NewHost(s.db.jobs[j], host));
      }
    case DoEnterLeaseWait(j, mode, on, due) => ShiftKeepsReplays(s.db, j, WaitingLease, Some(on));
    case _ =>
  }

  lemma RestartReplays(cfg: Config, s: State, a: Restart)
    requires Replays(s.db.jobs, s.db.log) && RestartOk(cfg, s, a)
    ensures var d := RestartNext(cfg, s, a).db; Replays(d.jobs, d.log)
  {
    match a
    case DoTornWait(j, target, host) => ShiftKeepsReplays(s.db, j, target, host);
    case DoRestartWait(j, r) => ShiftKeepsReplays(s.db, j, WaitingHost, s.db.jobs[j].host);
    case DoRestartCancel(j) => ShiftKeepsReplays(s.db, j, Cancelled, s.db.jobs[j].host);
    case _ =>
  }

  lemma TurnReplays(s: State, a: Turn)
    requires Replays(s.db.jobs, s.db.log) && TurnOk(s, a)
    ensures var d := TurnNext(s, a).db; Replays(d.jobs, d.log)
  {
    if a.DoMove? {
      ShiftKeepsReplays(s.db, a.j, a.target, s.db.jobs[a.j].host);
    }
  }

  lemma CancellationReplays(cfg: Config, s: State, a: Cancellation)
    requires Replays(s.db.jobs, s.db.log) && CancellationOk(cfg, s, a)
    ensures var d := CancellationNext(cfg, s, a).db; Replays(d.jobs, d.log)
  {
    if a.DoCancelRequest? {
      ShiftKeepsReplays(s.db, a.j, Cancelling, s.db.jobs[a.j].host);
    } else if a.DoFinalize? || a.DoEndAtOnce? {
      ShiftKeepsReplays(s.db, a.j, Cancelled, s.db.jobs[a.j].host);
    }
  }

  lemma ReconnectionReplays(cfg: Config, s: State, a: Reconnection)
    requires Replays(s.db.jobs, s.db.log) && ReconnectionOk(cfg, s, a)
    ensures var d := ReconnectionNext(cfg, s, a).db; Replays(d.jobs, d.log)
  {
    if a.DoAdopt? {
      ShiftKeepsReplays(s.db, a.j, Assigned, Some(a.host));
    }
  }

  /** The other steps touch neither states nor events. */
  lemma QuietReplays(cfg: Config, s: State, a: Action)
    requires Enabled(cfg, s, a) && (a.NoteStep? || a.ExecuteStep?)
    ensures Next(cfg, s, a).db.jobs == s.db.jobs && Next(cfg, s, a).db.log == s.db.log
  {
  }

  lemma NextReplays(cfg: Config, s: State, a: Action)
    requires Replays(s.db.jobs, s.db.log) && Enabled(cfg, s, a)
    ensures var d := Next(cfg, s, a).db; Replays(d.jobs, d.log)
  {
    match a
    case PlacementStep(b) => PlacementReplays(cfg, s, b);
    case WaitStep(b) => WaitReplays(cfg, s, b);
    case TurnStep(b) => TurnReplays(s, b);
    case CancellationStep(b) => CancellationReplays(cfg, s, b);
    case ReconnectionStep(b) => ReconnectionReplays(cfg, s, b);
    case RestartStep(b) => RestartReplays(cfg, s, b);
    case _ => QuietReplays(cfg, s, a);
  }

  lemma {:induction false} RunReplays(cfg: Config, s: State, acts: seq<Action>)
    requires Replays(s.db.jobs, s.db.log) && Legal(cfg, s, acts)
    ensures var d := Run(cfg, s, acts).db; Replays(d.jobs, d.log)
    decreases |acts|
  {
    if acts != [] {
      NextReplays(cfg, s, acts[0]);
      RunReplays(cfg, Next(cfg, s, acts[0]), acts[1..]);
    }
  }

  /** In every reachable state, whatever is adopted, the events of a job are a legal path that ends in its stored
      state. */
  lemma LifecycleAlways(cfg: Config, acts: seq<Action>, j: JobId)
    requires Legal(cfg, Fresh(), acts)
    ensures var d := Run(cfg, Fresh(), acts).db;
            && LegalPath(Trail(d.log, j))
            && (j in d.jobs <==> Trail(d.log, j) != [])
            && (j in d.jobs ==> After(Trail(d.log, j)[|Trail(d.log, j)| - 1]) == d.jobs[j].state)
  {
    RunReplays(cfg, Fresh(), acts);
    ReplayIsLegalPath(Run(cfg, Fresh(), acts).db.log, j);
  }

  // ---- waiting jobs ----

  /** While the controller serves, every waiting job has a recovery record, or the one of its wait is about to be
      written; a queued job has a place in the queue, or is about to get it, and occupies neither tree nor session. */
  lemma WaitingIsRecorded(cfg: Config, acts: seq<Action>, j: JobId)
    requires Legal(cfg, Fresh(), acts) && OrderlyRun(cfg, Fresh(), acts)
    requires var s := Run(cfg, Fresh(), acts); s.mem.serving && j in s.db.jobs && Waiting(s.db.jobs[j].state)
    ensures var s := Run(cfg, Fresh(), acts); var d := s.db;
            && (j in d.recovery || (d.jobs[j].state.WaitingHost? && IsEntering(s.mem.pending, j))
                || (d.jobs[j].state.WaitingLease? && IsQueuing(s.mem.pending, j)))
            && (d.jobs[j].state.WaitingLease? ==>
                  && InLine(d.recovery, s.mem.pending, j)
                  && !HoldsLease(cfg, d.jobs, d.leases, j) && !HoldsSession(d.jobs, d.locks, j))
  {
    FreshIsSafe(cfg);
    RunKeeps(cfg, Fresh(), acts);
    var s := Run(cfg, Fresh(), acts);
    assert WaitRecorded(s.db.jobs[j], s.db.recovery, s.mem.pending, j);
  }

  // ---- the ledger ----

  ghost predicate OwnersKept(a: Ledger, b: Ledger) {
    forall e | e in a :: e in b && b[e].job == a[e].job && b[e].host == a[e].host && b[e].runner == a[e].runner
  }

  /** History is only added to. */
  ghost predicate Later(s: State, s': State) {
    s.db.log <= s'.db.log && OwnersKept(s.db.ledger, s'.db.ledger)
  }

  lemma PlacementIsLater(cfg: Config, s: State, a: Placement)
    requires PlacementOk(cfg, s, a)
    ensures Later(s, PlacementNext(cfg, s, a))
  {
  }

  lemma WaitIsLater(cfg: Config, s: State, a: Wait)
    requires WaitOk(cfg, s, a)
    ensures Later(s, WaitNext(cfg, s, a))
  {
  }

  lemma TurnIsLater(s: State, a: Turn)
    requires TurnOk(s, a)
    ensures Later(s, TurnNext(s, a))
  {
  }

  lemma NoteIsLater(cfg: Config, s: State, a: Note)
    requires NoteOk(cfg, s, a)
    ensures Later(s, NoteNext(cfg, s, a))
  {
  }

  lemma ExecuteIsLater(s: State, a: Execute)
    requires ExecuteOk(s, a)
    ensures Later(s, ExecuteNext(s, a))
  {
  }

  lemma CancellationIsLater(cfg: Config, s: State, a: Cancellation)
    requires CancellationOk(cfg, s, a)
    ensures Later(s, CancellationNext(cfg, s, a))
  {
  }

  lemma ReconnectionIsLater(cfg: Config, s: State, a: Reconnection)
    requires ReconnectionOk(cfg, s, a)
    ensures Later(s, ReconnectionNext(cfg, s, a))
  {
  }

  lemma RestartIsLater(cfg: Config, s: State, a: Restart)
    requires RestartOk(cfg, s, a)
    ensures Later(s, RestartNext(cfg, s, a))
  {
  }

  lemma NextIsLater(cfg: Config, s: State, a: Action)
    requires Enabled(cfg, s, a)
    ensures Later(s, Next(cfg, s, a))
  {
    match a
    case PlacementStep(b) => PlacementIsLater(cfg, s, b);
    case WaitStep(b) => WaitIsLater(cfg, s, b);
    case NoteStep(b) => NoteIsLater(cfg, s, b);
    case TurnStep(b) => TurnIsLater(s, b);
    case ExecuteStep(b) => ExecuteIsLater(s, b);
    case CancellationStep(b) => CancellationIsLater(cfg, s, b);
    case ReconnectionStep(b) => ReconnectionIsLater(cfg, s, b);
    case RestartStep(b) => RestartIsLater(cfg, s, b);
  }

  /** Once recorded, the owner of an execution never changes. */
  lemma {:induction false} OwnersNeverChange(cfg: Config, s: State, acts: seq<Action>)
    requires Legal(cfg, s, acts)
    ensures OwnersKept(s.db.ledger, Run(cfg, s, acts).db.ledger)
    decreases |acts|
  {
    if acts != [] {
      NextIsLater(cfg, s, acts[0]);
      OwnersNeverChange(cfg, Next(cfg, s, acts[0]), acts[1..]);
    }
  }
}
