/** Waiting for adoption: a remote job whose execution may still be alive is not started again, exactly if no coroutine
    from before the wait still works on it (job_manager.py, _enter_host_wait, shutdown, reconcile_runner). */
module AdoptionWait {
  import opened Wrappers
  import opened States
  import opened Tables
  import opened Matching
  import opened Transactions
  import opened Invariants
  import opened Safety
  import opened Runs
  import opened Scheduler

  /** A remote execution of j may still be alive; j must not be started again. */
  ghost predicate AwaitsAdoption(cfg: Config, s: State, j: JobId) {
    Is(s, j, WaitingHost) && Remote(cfg, s.db.jobs[j]) && j in s.db.recovery && s.db.recovery[j].mode.AdoptMode?
  }

  /** What a coroutine remembers does not lead it to start j, to fail it or to give its record another mode. */
  predicate Passive(t: Pending, j: JobId) {
    match t
    case Reading(k, r) => k == j ==> r.mode.AdoptMode?
    case Writing(k, r) => k == j ==> r.mode.AdoptMode?
    case Entering(k, r) => k == j ==> r.mode.AdoptMode?
    case Queuing(k, r) => k == j ==> r.mode.AdoptMode?
    case Engaged(k) => k != j
    case _ => true
  }

  ghost predicate Idle(m: Memory, j: JobId) {
    j !in m.flow && forall t | t in m.pending :: Passive(t, j)
  }

  /** The ways out: the user cancels, a reconnected runner's execution is adopted, or a pass with a complete
      snapshot decides that there is none. */
  predicate WayOut(a: Action, j: JobId) {
    match a
    case CancellationStep(DoCancelRequest(k)) => k == j
    case ReconnectionStep(DoAdopt(k, _, _)) => k == j
    case ReconnectionStep(DoGiveUp(k, _, _, _)) => k == j
    case _ => false
  }

  ghost predicate Awaiting(cfg: Config, s: State, j: JobId) {
    AwaitsAdoption(cfg, s, j) && Idle(s.mem, j)
  }

  // ---- no other step moves an idle job ----

  lemma IdleRecall(m: Memory, t: Pending, j: JobId)
    requires Idle(m, j) && Passive(t, j)
    ensures Idle(Recall(m, t), j)
  {
  }

  lemma IdleDiscard(m: Memory, t: Pending, j: JobId)
    requires Idle(m, j)
    ensures Idle(Discard(m, t), j)
  {
  }

  lemma PlacementAwaits(cfg: Config, s: State, a: Placement, j: JobId)
    requires PlacementOk(cfg, s, a) && Awaiting(cfg, s, j)
    ensures AwaitsAdoption(cfg, PlacementNext(cfg, s, a), j)
  {
  }

  lemma PlacementIdles(cfg: Config, s: State, a: Placement, j: JobId)
    requires PlacementOk(cfg, s, a) && Awaiting(cfg, s, j)
    ensures Idle(PlacementNext(cfg, s, a).mem, j)
  {
    match a
    case DoAssign(k, on, read) =>
      if read.Some? {
        assert Passive(Reading(k, read.value), j);
        IdleDiscard(s.mem, Reading(k, read.value), j);
      }
    case DoResumeQuota(k, r) =>
      IdleDiscard(s.mem, Reading(k, r), j);
      IdleRecall(Discard(s.mem, Reading(k, r)), Writing(k, QuotaRetryRecord(r)), j);
    case _ =>
  }

  /** The record that a coroutine prepares for the job keeps its mode. */
  lemma PreparedIsPassive(cfg: Config, s: State, a: Note, j: JobId)
    requires NoteOk(cfg, s, a) && Awaiting(cfg, s, j)
    requires a.DoMakeUp? || a.DoNoteExec? || a.DoCountQuota? || a.DoNoteCancel? || a.DoPark?
    ensures Passive(Writing(a.j, match a
                                 case DoMakeUp(k, due) => MadeUpRecord(s.db.jobs[k], due)
                                 case DoNoteExec(k, f) => ExecRecord(s.db, k, f)
                                 case DoCountQuota(k, due) => QuotaRecord(s, k, due)
                                 case DoNoteCancel(k, f) => CancelRecord(s.db, k, f)
                                 case DoPark(k) => ParkRecord(s.db.recovery[k])), j)
  {
  }

  lemma NoteAwaits(cfg: Config, s: State, a: Note, j: JobId)
    requires NoteOk(cfg, s, a) && Awaiting(cfg, s, j)
    ensures Awaiting(cfg, NoteNext(cfg, s, a), j)
  {
    match a
    case DoRead(k) => IdleRecall(s.mem, Reading(k, s.db.recovery[k]), j);
    case DoWrite(k, r) =>
      assert Passive(Writing(k, r), j);
      IdleDiscard(s.mem, Writing(k, r), j);
    case DoDiscard(t) => IdleDiscard(s.mem, t, j);
    case DoPark(k) =>
      PreparedIsPassive(cfg, s, a, j);
      IdleDiscard(s.mem, Looking(k), j);
      IdleRecall(Discard(s.mem, Looking(k)), Writing(k, ParkRecord(s.db.recovery[k])), j);
    case DoMakeUp(k, due) =>
      PreparedIsPassive(cfg, s, a, j);
      IdleRecall(s.mem, Writing(k, MadeUpRecord(s.db.jobs[k], due)), j);
    case DoNoteExec(k, f) =>
      PreparedIsPassive(cfg, s, a, j);
      IdleRecall(s.mem, Writing(k, ExecRecord(s.db, k, f)), j);
    case DoCountQuota(k, due) =>
      PreparedIsPassive(cfg, s, a, j);
      IdleRecall(s.mem, Writing(k, QuotaRecord(s, k, due)), j);
    case DoNoteCancel(k, f) =>
      PreparedIsPassive(cfg, s, a, j);
      IdleRecall(s.mem, Writing(k, CancelRecord(s.db, k, f)), j);
  }

  lemma QueuingAwaits(cfg: Config, s: State, a: Wait, j: JobId)
    requires WaitOk(cfg, s, a) && Awaiting(cfg, s, j)
    requires a.DoEnterLeaseWait? || a.DoKeepPlace? || a.DoWritePlace? || a.DoTakePlace? || a.DoMakeUpPlace?
    ensures Awaiting(cfg, WaitNext(cfg, s, a), j)
  {
    match a
    case DoEnterLeaseWait(k, mode, on, due) => IdleRecall(NoFlow(s.mem, k), Queuing(k, LeaseWaitRecord(mode, due)), j);
    case DoKeepPlace(k, r) =>
      assert Passive(Queuing(k, r), j);
      IdleDiscard(s.mem, Queuing(k, r), j);
      IdleRecall(Discard(s.mem, Queuing(k, r)), Queuing(k, r.(position := Position(s.db, k))), j);
    case DoWritePlace(k, r) =>
      assert Passive(Queuing(k, r), j);
      IdleDiscard(s.mem, Queuing(k, r), j);
    case DoTakePlace(k, r, p) =>
      assert Passive(Queuing(k, r), j);
      IdleDiscard(s.mem, Queuing(k, r), j);
    case DoMakeUpPlace(k, p, due) =>
  }

  lemma WaitAwaits(cfg: Config, s: State, a: Wait, j: JobId)
    requires WaitOk(cfg, s, a) && Awaiting(cfg, s, j)
    ensures Awaiting(cfg, WaitNext(cfg, s, a), j)
  {
    match a
    case DoEnterHostWait(k, mode, host, due) =>
      assert Passive(Engaged(k), j) <==> k != j;
      IdleRecall(NoFlow(s.mem, k), Entering(k, HostWaitRecord(s, k, mode, due)), j);
    case DoRecordHostWait(k, r) =>
      assert Passive(Entering(k, r), j);
      IdleDiscard(s.mem, Entering(k, r), j);
    case DoSwap(_, _) =>
    case _ => QueuingAwaits(cfg, s, a, j);
  }

  lemma TurnAwaits(cfg: Config, s: State, a: Turn, j: JobId)
    requires TurnOk(s, a) && Awaiting(cfg, s, j)
    ensures Awaiting(cfg, TurnNext(s, a), j)
  {
    match a
    case DoMove(k, target) => assert Passive(Engaged(k), j) <==> k != j;
    case DoEngage(k) => IdleRecall(s.mem, Engaged(k), j);
    case _ =>
  }

  lemma ExecuteAwaits(cfg: Config, s: State, a: Execute, j: JobId)
    requires ExecuteOk(s, a) && Awaiting(cfg, s, j)
    ensures Awaiting(cfg, ExecuteNext(s, a), j)
  {
    match a
    case DoBeginTurn(k) => IdleRecall(s.mem, Turning(k), j);
    case DoReserve(f, row) => IdleRecall(s.mem, Claim(row.job, f), j);
    case DoTakeHandle(k, f) =>
      IdleDiscard(s.mem, Claim(k, f), j);
      IdleRecall(Discard(s.mem, Claim(k, f)), Hold(k, f), j);
    case DoReadHandle(k) => IdleRecall(s.mem, Hold(k, s.mem.handles[k]), j);
    case _ =>
  }

  lemma CancellationAwaits(cfg: Config, s: State, a: Cancellation, j: JobId)
    requires CancellationOk(cfg, s, a) && Awaiting(cfg, s, j) && !WayOut(CancellationStep(a), j)
    ensures Awaiting(cfg, CancellationNext(cfg, s, a), j)
  {
    match a
    case DoLook(k) => IdleRecall(s.mem, Looking(k), j);
    case DoDecideEnd(k) =>
      IdleDiscard(s.mem, Looking(k), j);
      IdleRecall(Discard(s.mem, Looking(k)), Ending(k), j);
    case DoEndAtOnce(k) => IdleDiscard(s.mem, Ending(k), j);
    case _ =>
  }

  lemma BindAwaits(cfg: Config, s: State, k: JobId, f: ExecId, v: View, j: JobId)
    requires BindOk(cfg, s, k, f, v) && Awaiting(cfg, s, j)
    ensures Awaiting(cfg, Bind(s, k, f, v), j)
  {
    var t := if v.rows[k].state.WaitingHost? then Bound(k, f, v.snap.host) else Claim(k, f);
    IdleRecall(s.mem, t, j);
    if s.db.recovery[k].exec != Some(f) {
      IdleRecall(Recall(s.mem, t), Writing(k, s.db.recovery[k].(exec := Some(f))), j);
    }
  }

  lemma ReconnectionAwaits(cfg: Config, s: State, a: Reconnection, j: JobId)
    requires ReconnectionOk(cfg, s, a) && Awaiting(cfg, s, j) && !WayOut(ReconnectionStep(a), j)
    ensures Awaiting(cfg, ReconnectionNext(cfg, s, a), j)
  {
    match a
    case DoBeginPass(snap, order) => IdleRecall(s.mem, Passing(Begun(s.db, snap, order)), j);
    case DoListAgain(v) =>
      IdleDiscard(s.mem, Passing(v), j);
      IdleRecall(Discard(s.mem, Passing(v)), Passing(v.(rows := s.db.jobs)), j);
    case DoBind(k, f, v) => BindAwaits(cfg, s, k, f, v, j);
    case DoAdopt(k, f, host) => IdleDiscard(s.mem, Bound(k, f, host), j);
    case DoGiveUp(k, v, mode, due) => IdleRecall(s.mem, Writing(k, GiveUpRecord(s.db.recovery[k], mode, due)), j);
  }

  lemma RestartAwaits(cfg: Config, s: State, a: Restart, j: JobId)
    requires RestartOk(cfg, s, a) && Awaiting(cfg, s, j)
    ensures Awaiting(cfg, RestartNext(cfg, s, a), j)
  {
  }

  /** No retry, scheduler pass, heartbeat, shutdown or restart moves an idle job that waits for adoption. */
  lemma StepAwaits(cfg: Config, s: State, a: Action, j: JobId)
    requires Enabled(cfg, s, a) && Awaiting(cfg, s, j) && !WayOut(a, j)
    ensures Awaiting(cfg, Next(cfg, s, a), j)
  {
    match a
    case PlacementStep(b) =>
      PlacementAwaits(cfg, s, b, j);
      PlacementIdles(cfg, s, b, j);
    case NoteStep(b) => NoteAwaits(cfg, s, b, j);
    case WaitStep(b) => WaitAwaits(cfg, s, b, j);
    case TurnStep(b) => TurnAwaits(cfg, s, b, j);
    case ExecuteStep(b) => ExecuteAwaits(cfg, s, b, j);
    case CancellationStep(b) => CancellationAwaits(cfg, s, b, j);
    case ReconnectionStep(b) => ReconnectionAwaits(cfg, s, b, j);
    case RestartStep(b) => RestartAwaits(cfg, s, b, j);
  }

  lemma {:induction false} AdoptionWaits(cfg: Config, s: State, acts: seq<Action>, j: JobId)
    requires Legal(cfg, s, acts) && Awaiting(cfg, s, j) && forall a | a in acts :: !WayOut(a, j)
    ensures Awaiting(cfg, Run(cfg, s, acts), j)
    decreases |acts|
  {
    if acts != [] {
      StepAwaits(cfg, s, acts[0], j);
      AdoptionWaits(cfg, Next(cfg, s, acts[0]), acts[1..], j);
    }
  }

  /** A wait that is on record when the controller dies outlives it, whoever worked on the job then. */
  lemma AdoptionOutlivesCrash(cfg: Config, s: State, acts: seq<Action>, j: JobId)
    requires AwaitsAdoption(cfg, s, j) && Legal(cfg, Crash(s), acts) && forall a | a in acts :: !WayOut(a, j)
    ensures Awaiting(cfg, Run(cfg, Crash(s), acts), j)
  {
    AdoptionWaits(cfg, Crash(s), acts, j);
  }

  // ---- every other job can lose its wait ----

  /** s' can be reached without one of the ways out. */
  ghost predicate Undisturbed(cfg: Config, s: State, s': State, j: JobId) {
    exists acts: seq<Action> :: Legal(cfg, s, acts) && (forall a | a in acts :: !WayOut(a, j)) && Run(cfg, s, acts) == s'
  }

  lemma ByOneStep(cfg: Config, s: State, a: Action, j: JobId)
    requires Enabled(cfg, s, a) && !WayOut(a, j)
    ensures Undisturbed(cfg, s, Next(cfg, s, a), j)
  {
    OneStep(cfg, s, a);
  }

  /** The wait can get lost. */
  ghost predicate LosesWait(cfg: Config, s: State, j: JobId) {
    exists s': State :: Undisturbed(cfg, s, s', j) && !AwaitsAdoption(cfg, s', j)
  }

  /** A waiting job is nowhere in a placement. */
  lemma NoPlacement(cfg: Config, s: State, j: JobId)
    requires Inv(cfg, s) && s.mem.serving && Is(s, j, WaitingHost)
    ensures j !in s.mem.flow
  {
  }

  /** A QA run that was under way before the wait fails: so does the job. */
  lemma EngagedFails(cfg: Config, s: State, j: JobId)
    requires Inv(cfg, s) && s.mem.serving && AwaitsAdoption(cfg, s, j) && Engaged(j) in s.mem.pending
    ensures Undisturbed(cfg, s, Move(s, j, Failed), j) && Is(Move(s, j, Failed), j, Failed)
  {
    NoPlacement(cfg, s, j);
    ByOneStep(cfg, s, TurnStep(DoMove(j, Failed)), j);
  }

  /** Or it loses its connection, or a turn that is being started does: the next start of the controller resumes the job. */
  lemma EngagedWaitsAgain(cfg: Config, s: State, j: JobId, mode: Mode, due: int)
    requires s.mem.serving && AwaitsAdoption(cfg, s, j) && Engaged(j) in s.mem.pending && j !in s.mem.flow
    requires mode.QaMode? || mode.ResumeMode?
    requires forall r: Recovery :: Entering(j, r) !in s.mem.pending
    ensures var s' := HostWait(s, j, mode, None, due);
            Undisturbed(cfg, s, s', j) && Is(s', j, WaitingHost) && j in s'.db.recovery && s'.db.recovery[j].mode == mode
  {
    var r := HostWaitRecord(s, j, mode, due);
    var s1 := EnterHostWait(s, j, mode, None, due);
    OneStep(cfg, s, WaitStep(DoEnterHostWait(j, mode, None, due)));
    assert Entering(j, r) in s1.mem.pending;
    OneStep(cfg, s1, WaitStep(DoRecordHostWait(j, r)));
    RunAppend(cfg, s, [WaitStep(DoEnterHostWait(j, mode, None, due))], [WaitStep(DoRecordHostWait(j, r))]);
  }

  lemma RecordLosesWait(cfg: Config, s: State, j: JobId, r: Recovery)
    requires s.mem.serving && AwaitsAdoption(cfg, s, j) && !r.mode.AdoptMode?
    requires Writing(j, r) in s.mem.pending || Entering(j, r) in s.mem.pending
    ensures LosesWait(cfg, s, j)
  {
    if Writing(j, r) in s.mem.pending {
      ByOneStep(cfg, s, NoteStep(DoWrite(j, r)), j);
      assert !AwaitsAdoption(cfg, Write(s, j, r), j);
    } else {
      ByOneStep(cfg, s, WaitStep(DoRecordHostWait(j, r)), j);
      assert !AwaitsAdoption(cfg, RecordHostWait(s, j, r), j);
    }
  }

  lemma QueuingLosesWait(cfg: Config, s: State, j: JobId, r: Recovery)
    requires s.mem.serving && AwaitsAdoption(cfg, s, j) && Queuing(j, r) in s.mem.pending && !r.mode.AdoptMode?
    ensures LosesWait(cfg, s, j)
  {
    PlaceIsWritten(cfg, s, j, r);
    ByOneStep(cfg, s, WaitStep(PlaceStep(s, j, r)), j);
    assert !AwaitsAdoption(cfg, WaitNext(cfg, s, PlaceStep(s, j, r)), j);
  }

  /** Some host has a working tree that the job can lease. */
  lemma SomeTreeIsFree(cfg: Config, d: Db, j: JobId) returns (on: HostId)
    requires LeasesFit(cfg, d.jobs, d.leases) && j in d.jobs
    ensures LeaseFree(d.leases, j, TreeOn(cfg, d.jobs[j], on))
  {
    if u :| u in d.leases && d.leases[u] == j {
      on := u.host;
    } else {
      var hosts := set t | t in d.leases :: t.host;
      assert forall t | t in d.leases :: t.host in hosts;
      on := FreshId(hosts);
    }
  }

  /** A retry that read the record before the wait assigns the job. */
  lemma ReadingLosesWait(cfg: Config, s: State, j: JobId, r: Recovery)
    requires Inv(cfg, s) && s.mem.serving && AwaitsAdoption(cfg, s, j) && j !in s.mem.flow
    requires Reading(j, r) in s.mem.pending && !r.mode.AdoptMode?
    ensures LosesWait(cfg, s, j)
  {
    var on := SomeTreeIsFree(cfg, s.db, j);
    var a := PlacementStep(DoAssign(j, on, Some(r)));
    ByOneStep(cfg, s, a, j);
    assert !AwaitsAdoption(cfg, Assign(cfg, Without(s, Reading(j, r)), j, on, Some(r)), j);
  }

  lemma BusyLosesWait(cfg: Config, s: State, j: JobId)
    requires Inv(cfg, s) && s.mem.serving && AwaitsAdoption(cfg, s, j) && !Idle(s.mem, j)
    ensures LosesWait(cfg, s, j)
  {
    NoPlacement(cfg, s, j);
    var t :| t in s.mem.pending && !Passive(t, j);
    match t
    case Reading(_, r) => ReadingLosesWait(cfg, s, j, r);
    case Writing(_, r) => RecordLosesWait(cfg, s, j, r);
    case Entering(_, r) => RecordLosesWait(cfg, s, j, r);
    case Queuing(_, r) => QueuingLosesWait(cfg, s, j, r);
    case Engaged(_) =>
      EngagedFails(cfg, s, j);
      assert !AwaitsAdoption(cfg, Move(s, j, Failed), j);
    case _ =>
  }

  /** Without one of the ways out the job goes on waiting for its adoption, whatever happens, if and only if it is idle. */
  lemma AdoptionWaitsExactly(cfg: Config, s: State, j: JobId)
    requires Inv(cfg, s) && s.mem.serving && AwaitsAdoption(cfg, s, j)
    ensures (forall s': State | Undisturbed(cfg, s, s', j) :: AwaitsAdoption(cfg, s', j)) <==> Idle(s.mem, j)
  {
    if Idle(s.mem, j) {
      forall s': State | Undisturbed(cfg, s, s', j) ensures AwaitsAdoption(cfg, s', j) {
        var acts :| Legal(cfg, s, acts) && (forall a | a in acts :: !WayOut(a, j)) && Run(cfg, s, acts) == s';
        AdoptionWaits(cfg, s, acts, j);
      }
    } else {
      BusyLosesWait(cfg, s, j);
    }
  }
}
