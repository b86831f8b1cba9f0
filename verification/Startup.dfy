/** What the controller does to the tables when it starts again after a crash (job_manager.py,
    reconcile_startup, _reconcile_execution_leases, _reconcile_stale_project_session_locks). */
module Startup {
  import opened Wrappers
  import opened States
  import opened Tables
  import opened Matching
  import opened Transactions
  import opened Invariants
  import opened Safety
  import opened Runs
  import opened Scheduler
  import opened QueueMoves

  /** What startup asks the other registries: is there a QA run of the job, is its project finished by a
      submission of the work it has, is a conversation of it known; and the clock and the initial delay. */
  datatype Facts = Facts(hasQa: JobId -> bool, submits: JobId -> bool, conversation: JobId -> bool, now: int, quotaDelay: int)

  /** The phases in the order in which startup goes through the jobs. */
  datatype Phase = QueuedJobs | CancellingJobs | QaJobs | InterruptedJobs | AgentJobs | LeaseJobs | QuotaJobs | HostJobs | NoPhase

  function Rank(p: Phase): nat {
    match p
    case QueuedJobs => 0
    case CancellingJobs => 1
    case QaJobs => 2
    case InterruptedJobs => 3
    case AgentJobs => 4
    case LeaseJobs => 5
    case QuotaJobs => 6
    case HostJobs => 7
    case NoPhase => 8
  }

  /** The phase that deals with a job. An ASSIGNED job with a QA run is noticed but not moved. */
  function PhaseOf(f: Facts, state: JobState, j: JobId): Phase {
    match state
    case Queued => QueuedJobs
    case Cancelling => CancellingJobs
    case Assigned => if f.hasQa(j) then NoPhase else InterruptedJobs
    case Starting => if f.hasQa(j) then QaJobs else InterruptedJobs
    case Running => if f.hasQa(j) then QaJobs else InterruptedJobs
    case WaitingAgent => AgentJobs
    case WaitingLease => LeaseJobs
    case WaitingQuota => QuotaJobs
    case WaitingHost => HostJobs
    case _ => NoPhase
  }

  function Fallback(f: Facts, j: JobId): Mode {
    if f.conversation(j) then ResumeMode else StartMode
  }

  function Exec(d: Db, j: JobId): Option<ExecId> {
    if j in d.recovery then d.recovery[j].exec else None
  }

  /** ADOPT records have no due time: nobody may start the job until its runner has reported. */
  function DueAt(mode: Mode, now: int): Option<int> {
    if mode.AdoptMode? then None else Some(now)
  }

  function InterruptedMode(cfg: Config, f: Facts, job: Job, j: JobId): Mode {
    if Remote(cfg, job) then AdoptMode else Fallback(f, j)
  }

  /** The record that startup writes for a job of the phase. */
  ghost function NewRecord(cfg: Config, f: Facts, d: Db, p: Phase, j: JobId): Recovery
    requires j in d.jobs
  {
    var job := d.jobs[j];
    match p
    case QueuedJobs => Recovery(HostKind, Fallback(f, j), Attempts(d, j), Some(f.now), Exec(d, j), Position(d, j))
    case CancellingJobs =>
      if j in d.recovery then d.recovery[j].(mode := CancelMode, due := None)
      else Recovery(RestartKind, CancelMode, 0, None, None, None)
    case QaJobs => Recovery(HostKind, QaMode, Attempts(d, j), Some(f.now), Exec(d, j), Position(d, j))
    case InterruptedJobs =>
      var mode := InterruptedMode(cfg, f, job, j);
      Recovery(RestartKind, mode, Attempts(d, j), DueAt(mode, f.now), Exec(d, j), Position(d, j))
    case AgentJobs =>
      if f.hasQa(j) then Recovery(RestartKind, QaMode, 0, Some(f.now), None, Position(d, j))
      else if f.submits(j) then Recovery(RestartKind, FinalizeMode, 0, Some(f.now), None, Position(d, j))
      else Recovery(RestartKind, Fallback(f, j), Attempts(d, j), Some(f.now), None, Position(d, j))
    case LeaseJobs =>
      var mode := if j in d.recovery then d.recovery[j].mode else StartMode;
      Recovery(LeaseKind, mode, Attempts(d, j), Some(f.now), None, Some(QueuePosition(d.recovery, j)))
    case QuotaJobs =>
      if j in d.recovery then d.recovery[j] else Recovery(QuotaKind, ResumeMode, 1, Some(f.now + f.quotaDelay), None, None)
    case _ =>
      if j in d.recovery then d.recovery[j].(due := DueAt(d.recovery[j].mode, f.now))
      else
        var mode := InterruptedMode(cfg, f, job, j);
        Recovery(HostKind, mode, 0, DueAt(mode, f.now), None, None)
  }

  /** The end of a local cancellation: the transition, both releases, and the record. */
  function CancelledAtStart(s: State, j: JobId): State
    requires j in s.db.jobs
  {
    Forget(ReleaseLease(ReleaseSession(RestartCancel(s, j), j), j), j)
  }

  /** What startup does to one job. */
  ghost function Repaired(cfg: Config, f: Facts, s: State, p: Phase, j: JobId): State {
    if j !in s.db.jobs || PhaseOf(f, s.db.jobs[j].state, j) != p || p.NoPhase? then s
    else
      var r := NewRecord(cfg, f, s.db, p, j);
      match p
      case CancellingJobs =>
        if Remote(cfg, s.db.jobs[j]) then s.(db := PutRecovery(s.db, j, r)) else CancelledAtStart(s, j)
      case LeaseJobs => s.(db := PutRecovery(s.db, j, r))
      case QuotaJobs => if j in s.db.recovery then s else s.(db := PutRecovery(s.db, j, r))
      case HostJobs => s.(db := PutRecovery(s.db, j, r))
      case _ => RestartWait(s, j, r)
  }

  ghost function RepairedAll(cfg: Config, f: Facts, s: State, p: Phase, js: seq<JobId>): State {
    if js == [] then s else Repaired(cfg, f, RepairedAll(cfg, f, s, p, js[..|js| - 1]), p, js[|js| - 1])
  }

  // ---- every repair is a step of the controller ----

  predicate Restarting(s: State) {
    s.mem == Memory(false, map[], {}, map[], {}, multiset{})
  }

  lemma WaitRepairFits(cfg: Config, f: Facts, s: State, p: Phase, j: JobId)
    requires Inv(cfg, s) && Restarting(s) && j in s.db.jobs && PhaseOf(f, s.db.jobs[j].state, j) == p
    requires p.QueuedJobs? || p.QaJobs? || p.InterruptedJobs? || p.AgentJobs?
    ensures RestartWaitOk(cfg, s, j, NewRecord(cfg, f, s.db, p, j))
  {
    if p.AgentJobs? {
      ActiveNeedsStart(s.db.log, j);
    }
  }

  lemma WaitRepairRuns(cfg: Config, s: State, j: JobId, r: Recovery)
    requires Inv(cfg, s) && Restarting(s) && RestartWaitOk(cfg, s, j, r)
    ensures Reaches(cfg, s, RestartWait(s, j, r)) && Restarting(RestartWait(s, j, r))
  {
    ReachesSelf(cfg, s);
    Step(cfg, s, s, RestartStep(DoRestartWait(j, r)));
  }

  lemma NoteRepairFits(cfg: Config, f: Facts, s: State, p: Phase, j: JobId)
    requires Inv(cfg, s) && Restarting(s) && j in s.db.jobs && PhaseOf(f, s.db.jobs[j].state, j) == p
    requires p.LeaseJobs? || p.QuotaJobs? || p.HostJobs? || p.CancellingJobs?
    ensures RestartNoteOk(cfg, s, j, NewRecord(cfg, f, s.db, p, j))
  {
  }

  lemma NoteRepairRuns(cfg: Config, s: State, j: JobId, r: Recovery)
    requires Inv(cfg, s) && Restarting(s) && RestartNoteOk(cfg, s, j, r)
    ensures Reaches(cfg, s, s.(db := PutRecovery(s.db, j, r)))
  {
    ReachesSelf(cfg, s);
    Step(cfg, s, s, RestartStep(DoRestartNote(j, r)));
  }

  lemma CancelRepairRuns(cfg: Config, s: State, j: JobId)
    requires Inv(cfg, s) && Restarting(s) && RestartCancelOk(cfg, s, j)
    ensures Reaches(cfg, s, CancelledAtStart(s, j)) && Restarting(CancelledAtStart(s, j))
  {
    ReachesSelf(cfg, s);
    Step(cfg, s, s, RestartStep(DoRestartCancel(j)));
    var s1 := RestartCancel(s, j);
    Step(cfg, s, s1, TurnStep(DoReleaseSession(j)));
    var s2 := ReleaseSession(s1, j);
    Step(cfg, s, s2, TurnStep(DoReleaseLease(j)));
    Step(cfg, s, ReleaseLease(s2, j), TurnStep(DoForget(j)));
  }

  lemma RepairRuns(cfg: Config, f: Facts, s: State, p: Phase, j: JobId)
    requires Inv(cfg, s) && Restarting(s)
    ensures Reaches(cfg, s, Repaired(cfg, f, s, p, j)) && Restarting(Repaired(cfg, f, s, p, j))
  {
    ReachesSelf(cfg, s);
    if j in s.db.jobs && PhaseOf(f, s.db.jobs[j].state, j) == p && !p.NoPhase? {
      var r := NewRecord(cfg, f, s.db, p, j);
      if p.CancellingJobs? && !Remote(cfg, s.db.jobs[j]) {
        CancelRepairRuns(cfg, s, j);
      } else if p.LeaseJobs? || p.QuotaJobs? || p.HostJobs? || p.CancellingJobs? {
        NoteRepairFits(cfg, f, s, p, j);
        NoteRepairRuns(cfg, s, j, r);
      } else {
        WaitRepairFits(cfg, f, s, p, j);
        WaitRepairRuns(cfg, s, j, r);
      }
    }
  }

  // ---- what startup leaves ----

  ghost predicate SameRow<T>(a: map<JobId, T>, b: map<JobId, T>, j: JobId) {
    (j in b <==> j in a) && (j in a ==> b[j] == a[j])
  }

  ghost predicate Untouched(a: Db, b: Db, j: JobId) {
    SameRow(a.jobs, b.jobs, j) && SameRow(a.recovery, b.recovery, j)
  }

  /** How startup leaves a job, by the state that it finds it in (tables a). A remote execution may still be going on:
      such a job waits for the report of its runner, without a time at which it would be started again, and a remote
      cancellation waits for its confirmation. Any other job that was on its way can be retried at once. */
  ghost predicate LeftAs(cfg: Config, f: Facts, a: Db, b: Db, j: JobId)
    requires j in a.jobs
  {
    var job, has := a.jobs[j], j in a.recovery;
    var attempts := if has then a.recovery[j].attempts else 0;
    var exec, position := if has then a.recovery[j].exec else None, if has then a.recovery[j].position else None;
    var again := if f.conversation(j) then ResumeMode else StartMode;
    var remote := job.host.Some? && job.host.value != cfg.local;
    match job.state
    case Queued => Parked(a, b, j, Recovery(HostKind, again, attempts, Some(f.now), exec, position))
    case Cancelling =>
      if remote then
        Noted(a, b, j, if has then a.recovery[j].(mode := CancelMode, due := None)
                       else Recovery(RestartKind, CancelMode, 0, None, None, None))
      else j in b.jobs && b.jobs[j] == job.(state := Cancelled) && j !in b.recovery
    case Assigned => if f.hasQa(j) then Untouched(a, b, j) else Interrupted(f, a, b, j, remote, again, attempts, exec, position)
    case Starting =>
      if f.hasQa(j) then Parked(a, b, j, Recovery(HostKind, QaMode, attempts, Some(f.now), exec, position))
      else Interrupted(f, a, b, j, remote, again, attempts, exec, position)
    case Running =>
      if f.hasQa(j) then Parked(a, b, j, Recovery(HostKind, QaMode, attempts, Some(f.now), exec, position))
      else Interrupted(f, a, b, j, remote, again, attempts, exec, position)
    case WaitingAgent =>
      Parked(a, b, j, if f.hasQa(j) then Recovery(RestartKind, QaMode, 0, Some(f.now), None, position)
                      else if f.submits(j) then Recovery(RestartKind, FinalizeMode, 0, Some(f.now), None, position)
                      else Recovery(RestartKind, again, attempts, Some(f.now), None, position))
    case WaitingLease =>
      && j in b.recovery && b.recovery[j].position.Some? && (position.Some? ==> b.recovery[j].position == position)
      && Noted(a, b, j, Recovery(LeaseKind, if has then a.recovery[j].mode else StartMode, attempts, Some(f.now), None,
                                 b.recovery[j].position))
    case WaitingQuota =>
      Noted(a, b, j, if has then a.recovery[j] else Recovery(QuotaKind, ResumeMode, 1, Some(f.now + f.quotaDelay), None, None))
    case WaitingHost =>
      Noted(a, b, j, if has then a.recovery[j].(due := if a.recovery[j].mode == AdoptMode then None else Some(f.now))
                     else if remote then Recovery(HostKind, AdoptMode, 0, None, None, None)
                     else Recovery(HostKind, again, 0, Some(f.now), None, None))
    case _ => Untouched(a, b, j)
  }

  /** The job waits for its host now, with this record. */
  ghost predicate Parked(a: Db, b: Db, j: JobId, r: Recovery)
    requires j in a.jobs
  {
    j in b.jobs && b.jobs[j] == a.jobs[j].(state := WaitingHost) && j in b.recovery && b.recovery[j] == r
  }

  /** The job waits as before, with this record. */
  ghost predicate Noted(a: Db, b: Db, j: JobId, r: Recovery)
    requires j in a.jobs
  {
    j in b.jobs && b.jobs[j] == a.jobs[j] && j in b.recovery && b.recovery[j] == r
  }

  /** The controller died while an agent worked for the job, or was about to. */
  ghost predicate Interrupted(f: Facts, a: Db, b: Db, j: JobId, remote: bool, again: Mode, attempts: nat, exec: Option<ExecId>,
        position: Option<nat>)
    requires j in a.jobs
  {
    Parked(a, b, j, if remote then Recovery(RestartKind, AdoptMode, attempts, None, exec, position)
                    else Recovery(RestartKind, again, attempts, Some(f.now), exec, position))
  }

  /** The repair of a job leaves it like that. */
  lemma RepairLeaves(cfg: Config, f: Facts, a: Db, s: State, p: Phase, j: JobId)
    requires j in a.jobs && Untouched(a, s.db, j) && PhaseOf(f, a.jobs[j].state, j) == p
    ensures LeftAs(cfg, f, a, Repaired(cfg, f, s, p, j).db, j)
  {
  }

  /** Whatever is repaired afterwards: a job that is found in its new state, and is repaired again, is not changed. */
  lemma RepairKeepsLeft(cfg: Config, f: Facts, a: Db, s: State, p: Phase, j: JobId, k: JobId)
    requires k in a.jobs && LeftAs(cfg, f, a, s.db, k)
    ensures LeftAs(cfg, f, a, Repaired(cfg, f, s, p, j).db, k)
  {
    if k != j {
      RepairElsewhere(cfg, f, s, p, j, k);
    } else {
      RepairedTwice(cfg, f, a, s, p, j);
    }
  }

  lemma RepairedTwice(cfg: Config, f: Facts, a: Db, s: State, p: Phase, j: JobId)
    requires j in a.jobs && LeftAs(cfg, f, a, s.db, j)
    ensures Untouched(s.db, Repaired(cfg, f, s, p, j).db, j)
  {
  }

  lemma RepairElsewhere(cfg: Config, f: Facts, s: State, p: Phase, j: JobId, k: JobId)
    requires k != j || (k in s.db.jobs ==> PhaseOf(f, s.db.jobs[k].state, k) != p)
    ensures Untouched(s.db, Repaired(cfg, f, s, p, j).db, k)
  {
  }

  /** The job is somewhere the running controller will find it: it has ended, it waits with a record (and
      a place in the queue), it waits for a user, or its cancellation waits for the runner. */
  ghost predicate Settled(cfg: Config, f: Facts, jobs: Jobs, recovery: Recoveries, j: JobId) {
    j in jobs ==>
      var job := jobs[j];
      || Terminal(job.state)
      || (Waiting(job.state) && j in recovery && (job.state.WaitingLease? ==> recovery[j].position.Some?))
      || job.state.WaitingHuman? || job.state.Paused?
      || (job.state.Cancelling? && Remote(cfg, job))
      || (job.state.Assigned? && f.hasQa(j))
  }

  lemma LeftIsSettled(cfg: Config, f: Facts, a: Db, b: Db, j: JobId)
    requires j in a.jobs && LeftAs(cfg, f, a, b, j)
    ensures Settled(cfg, f, b.jobs, b.recovery, j)
  {
  }

  /** Does startup take a lease for the job? */
  predicate Claims(jobs: Jobs, j: JobId) {
    j in jobs && jobs[j].host.Some? && !Terminal(jobs[j].state) && !jobs[j].state.WaitingLease?
  }

  /** The lease table is as the lease repair leaves it. */
  ghost predicate NoStaleLease(jobs: Jobs, leases: Leases) {
    forall t | t in leases :: Claims(jobs, leases[t])
  }

  /** Every open, placed job outside the queue leases its tree. */
  ghost predicate AllLeased(cfg: Config, d: Db) {
    forall j | Claims(d.jobs, j) :: HoldsLease(cfg, d.jobs, d.leases, j)
  }

  lemma RepairKeepsLeases(cfg: Config, f: Facts, s: State, p: Phase, j: JobId)
    requires NoStaleLease(s.db.jobs, s.db.leases)
    ensures var d := Repaired(cfg, f, s, p, j).db; NoStaleLease(d.jobs, d.leases)
  {
  }

  lemma RepairKeepsLeased(cfg: Config, f: Facts, s: State, p: Phase, j: JobId, k: JobId)
    requires var d := Repaired(cfg, f, s, p, j).db; Claims(d.jobs, k) && AllLeased(cfg, s.db)
    ensures var d := Repaired(cfg, f, s, p, j).db; HoldsLease(cfg, d.jobs, d.leases, k)
  {
    assert Claims(s.db.jobs, k) by {
      if k != j {
        RepairElsewhere(cfg, f, s, p, j, k);
      }
    }
  }

  /** A new place is behind all others. */
  lemma RepairKeepsPlaces(cfg: Config, f: Facts, s: State, p: Phase, j: JobId)
    requires PositionsDistinct(s.db.recovery)
    ensures PositionsDistinct(Repaired(cfg, f, s, p, j).db.recovery)
  {
    if j in s.db.jobs {
      var r := NewRecord(cfg, f, s.db, p, j);
      RecordHasPlace(cfg, f, s.db, p, j);
      RecordKeepsPlaces(s.db.recovery, j, r);
      assert Repaired(cfg, f, s, p, j).db.recovery in {s.db.recovery, s.db.recovery[j := r], s.db.recovery - {j}};
    }
  }

  lemma RecordHasPlace(cfg: Config, f: Facts, d: Db, p: Phase, j: JobId)
    requires j in d.jobs
    ensures var r := NewRecord(cfg, f, d, p, j);
            r.position == None || r.position == Position(d, j) || NextPosition(d.recovery, r.position.value)
  {
  }

  lemma RecordKeepsPlaces(recovery: Recoveries, j: JobId, r: Recovery)
    requires PositionsDistinct(recovery)
    requires r.position == None || (j in recovery && r.position == recovery[j].position)
             || NextPosition(recovery, r.position.value)
    ensures PositionsDistinct(recovery[j := r]) && PositionsDistinct(recovery - {j})
  {
  }

  /** All placed jobs still lease their trees, and places are distinct if they were. */
  ghost predicate Keeps(cfg: Config, a: Db, b: Db) {
    (AllLeased(cfg, a) ==> AllLeased(cfg, b)) && (PositionsDistinct(a.recovery) ==> PositionsDistinct(b.recovery))
  }

  /** What a phase with the list js has done since the tables were b, on the way from the tables a: it leaves the jobs of
      the phase that are in the list as it should, and touches no other. */
  ghost predicate Progress(cfg: Config, f: Facts, a: Db, b: Db, c: Db, p: Phase, js: seq<JobId>) {
    && c.jobs.Keys == b.jobs.Keys
    && (forall k | k in a.jobs && LeftAs(cfg, f, a, b, k) :: LeftAs(cfg, f, a, c, k))
    && (forall k | k in js && k in a.jobs && PhaseOf(f, a.jobs[k].state, k) == p && Untouched(a, b, k) ::
          LeftAs(cfg, f, a, c, k))
    && (forall k | k !in js || (k in b.jobs ==> PhaseOf(f, b.jobs[k].state, k) != p) :: Untouched(b, c, k))
    && Keeps(cfg, b, c)
  }

  /** A phase is a run of the controller's transactions. */
  lemma {:induction false} PhaseRuns(cfg: Config, f: Facts, s: State, p: Phase, js: seq<JobId>)
    requires Inv(cfg, s) && Restarting(s) && NoStaleLease(s.db.jobs, s.db.leases)
    ensures var s' := RepairedAll(cfg, f, s, p, js);
            Reaches(cfg, s, s') && Restarting(s') && NoStaleLease(s'.db.jobs, s'.db.leases) && Inv(cfg, s')
  {
    ReachesSelf(cfg, s);
    if js != [] {
      var init, j := js[..|js| - 1], js[|js| - 1];
      PhaseRuns(cfg, f, s, p, init);
      var s1 := RepairedAll(cfg, f, s, p, init);
      RepairRuns(cfg, f, s1, p, j);
      ReachesOn(cfg, s, s1, Repaired(cfg, f, s1, p, j));
      ReachesKeeps(cfg, s1, Repaired(cfg, f, s1, p, j));
      RepairKeepsLeases(cfg, f, s1, p, j);
    }
  }

  /** It leaves the jobs in its list as it should, and no other job is touched. */
  lemma {:induction false} PhaseSettles(cfg: Config, f: Facts, a: Db, s: State, p: Phase, js: seq<JobId>)
    requires Inv(cfg, s) && Restarting(s) && NoStaleLease(s.db.jobs, s.db.leases)
    ensures Progress(cfg, f, a, s.db, RepairedAll(cfg, f, s, p, js).db, p, js)
  {
    if js != [] {
      var init, j := js[..|js| - 1], js[|js| - 1];
      PhaseSettles(cfg, f, a, s, p, init);
      PhaseRuns(cfg, f, s, p, init);
      OneMore(cfg, f, a, s, RepairedAll(cfg, f, s, p, init), p, init, j);
      assert js == init + [j];
    }
  }

  lemma PhaseKeeps(cfg: Config, f: Facts, a: Db, s: State, p: Phase, js: seq<JobId>)
    requires Inv(cfg, s) && Restarting(s) && NoStaleLease(s.db.jobs, s.db.leases)
    ensures var s' := RepairedAll(cfg, f, s, p, js);
            Inv(cfg, s') && Restarting(s') && NoStaleLease(s'.db.jobs, s'.db.leases) && Progress(cfg, f, a, s.db, s'.db, p, js)
  {
    PhaseRuns(cfg, f, s, p, js);
    PhaseSettles(cfg, f, a, s, p, js);
  }

  lemma OneMore(cfg: Config, f: Facts, a: Db, s: State, s1: State, p: Phase, init: seq<JobId>, j: JobId)
    requires Progress(cfg, f, a, s.db, s1.db, p, init)
    ensures Progress(cfg, f, a, s.db, Repaired(cfg, f, s1, p, j).db, p, init + [j])
  {
    var d := Repaired(cfg, f, s1, p, j).db;
    OneRepair(cfg, f, a, s1, p, j);
    MoreProgress(cfg, f, a, s.db, s1.db, d, p, init, j);
  }

  lemma RepairKeeps(cfg: Config, f: Facts, s: State, p: Phase, j: JobId)
    ensures Keeps(cfg, s.db, Repaired(cfg, f, s, p, j).db)
  {
    if PositionsDistinct(s.db.recovery) {
      RepairKeepsPlaces(cfg, f, s, p, j);
    }
    if AllLeased(cfg, s.db) {
      forall k | Claims(Repaired(cfg, f, s, p, j).db.jobs, k)
        ensures HoldsLease(cfg, Repaired(cfg, f, s, p, j).db.jobs, Repaired(cfg, f, s, p, j).db.leases, k)
      {
        RepairKeepsLeased(cfg, f, s, p, j, k);
      }
    }
  }

  /** What one repair does to k, if it is one of j. */
  ghost predicate Advances(cfg: Config, f: Facts, a: Db, b: Db, c: Db, p: Phase, j: JobId, k: JobId) {
    && (k != j || (k in b.jobs ==> PhaseOf(f, b.jobs[k].state, k) != p) ==> Untouched(b, c, k))
    && (k in a.jobs && LeftAs(cfg, f, a, b, k) ==> LeftAs(cfg, f, a, c, k))
    && (k == j && k in a.jobs && Untouched(a, b, k) && PhaseOf(f, a.jobs[k].state, k) == p ==> LeftAs(cfg, f, a, c, k))
  }

  lemma RepairAdvances(cfg: Config, f: Facts, a: Db, s: State, p: Phase, j: JobId, k: JobId)
    ensures Advances(cfg, f, a, s.db, Repaired(cfg, f, s, p, j).db, p, j, k)
  {
    if k != j || (k in s.db.jobs ==> PhaseOf(f, s.db.jobs[k].state, k) != p) {
      RepairElsewhere(cfg, f, s, p, j, k);
    }
    if k in a.jobs && LeftAs(cfg, f, a, s.db, k) {
      RepairKeepsLeft(cfg, f, a, s, p, j, k);
    }
    if k == j && k in a.jobs && Untouched(a, s.db, k) && PhaseOf(f, a.jobs[k].state, k) == p {
      RepairLeaves(cfg, f, a, s, p, j);
    }
  }

  lemma AllAdvance(cfg: Config, f: Facts, a: Db, b: Db, c: Db, p: Phase, j: JobId)
    requires c.jobs.Keys == b.jobs.Keys && Keeps(cfg, b, c)
    requires forall k :: Advances(cfg, f, a, b, c, p, j, k)
    ensures Progress(cfg, f, a, b, c, p, [j])
  {
    forall k
      ensures k !in [j] || (k in b.jobs ==> PhaseOf(f, b.jobs[k].state, k) != p) ==> Untouched(b, c, k)
      ensures k in a.jobs && LeftAs(cfg, f, a, b, k) ==> LeftAs(cfg, f, a, c, k)
      ensures k in [j] && k in a.jobs && PhaseOf(f, a.jobs[k].state, k) == p && Untouched(a, b, k) ==> LeftAs(cfg, f, a, c, k)
    {
      assert Advances(cfg, f, a, b, c, p, j, k);
    }
  }

  lemma OneRepair(cfg: Config, f: Facts, a: Db, s: State, p: Phase, j: JobId)
    ensures Progress(cfg, f, a, s.db, Repaired(cfg, f, s, p, j).db, p, [j])
  {
    RepairKeeps(cfg, f, s, p, j);
    forall k ensures Advances(cfg, f, a, s.db, Repaired(cfg, f, s, p, j).db, p, j, k) {
      RepairAdvances(cfg, f, a, s, p, j, k);
    }
    AllAdvance(cfg, f, a, s.db, Repaired(cfg, f, s, p, j).db, p, j);
  }

  lemma MoreProgress(cfg: Config, f: Facts, a: Db, b: Db, c: Db, d: Db, p: Phase, init: seq<JobId>, j: JobId)
    requires Progress(cfg, f, a, b, c, p, init) && Progress(cfg, f, a, c, d, p, [j])
    ensures Progress(cfg, f, a, b, d, p, init + [j])
  {
    forall k | k in a.jobs && PhaseOf(f, a.jobs[k].state, k) == p && Untouched(a, b, k) && k in init + [j]
      ensures LeftAs(cfg, f, a, d, k)
    {
      if k in init {
        assert LeftAs(cfg, f, a, c, k);
      } else {
        assert Untouched(b, c, k) && k in [j];
      }
    }
  }

  // ---- leases and locks ----

  /** A lease that startup releases. */
  predicate Stale(jobs: Jobs, j: JobId) {
    j in jobs ==> Terminal(jobs[j].state) || jobs[j].state.WaitingLease? || jobs[j].host.None?
  }

  function Swept(s: State, t: Tree): State {
    if t in s.db.leases && Stale(s.db.jobs, s.db.leases[t]) then SweepLease(s, t) else s
  }

  function SweptAll(s: State, ts: seq<Tree>): State {
    if ts == [] then s else Swept(SweptAll(s, ts[..|ts| - 1]), ts[|ts| - 1])
  }

  lemma {:induction false} SweepRuns(cfg: Config, s: State, ts: seq<Tree>)
    requires Inv(cfg, s) && Restarting(s)
    ensures var s' := SweptAll(s, ts);
            && Reaches(cfg, s, s') && Restarting(s') && Inv(cfg, s') && s'.db == s.db.(leases := s'.db.leases)
            && (forall t | t in s'.db.leases :: t in s.db.leases && s'.db.leases[t] == s.db.leases[t])
            && (forall t | t in ts && t in s'.db.leases :: !Stale(s.db.jobs, s'.db.leases[t]))
  {
    ReachesSelf(cfg, s);
    if ts != [] {
      var init, t := ts[..|ts| - 1], ts[|ts| - 1];
      SweepRuns(cfg, s, init);
      assert ts == init + [t];
      var s1 := SweptAll(s, init);
      if t in s1.db.leases && Stale(s1.db.jobs, s1.db.leases[t]) {
        Step(cfg, s, s1, RestartStep(DoSweepLease(t)));
      }
    }
  }

  lemma SweepKeeps(cfg: Config, s: State, ts: seq<Tree>)
    requires Inv(cfg, s) && Restarting(s)
    ensures var s' := SweptAll(s, ts);
            && Inv(cfg, s') && Restarting(s') && s'.db == s.db.(leases := s'.db.leases)
            && (forall t | t in s'.db.leases :: t in s.db.leases && s'.db.leases[t] == s.db.leases[t])
            && (forall t | t in ts && t in s'.db.leases :: !Stale(s.db.jobs, s'.db.leases[t]))
  {
    SweepRuns(cfg, s, ts);
  }

  lemma SweptIsClean(s: State, ts: seq<Tree>)
    requires var s' := SweptAll(s, ts);
             && s'.db.jobs == s.db.jobs && (forall t | t in s'.db.leases :: t in ts)
             && (forall t | t in ts && t in s'.db.leases :: !Stale(s.db.jobs, s'.db.leases[t]))
    ensures var s' := SweptAll(s, ts); NoStaleLease(s'.db.jobs, s'.db.leases)
  {
  }

  /** None refuses the start: two jobs claim the same working tree. */
  function Claimed(cfg: Config, s: State, js: seq<JobId>): Option<State> {
    if js == [] then Some(s)
    else
      var j := js[|js| - 1];
      match Claimed(cfg, s, js[..|js| - 1])
      case None => None
      case Some(s1) =>
        if !Claims(s1.db.jobs, j) then Some(s1)
        else if TreeFree(cfg, s1.db, j, s1.db.jobs[j].host.value) then Some(ClaimLease(cfg, s1, j))
        else None
  }

  lemma {:induction false} ClaimRuns(cfg: Config, s: State, js: seq<JobId>)
    requires Inv(cfg, s) && Restarting(s) && NoStaleLease(s.db.jobs, s.db.leases)
    ensures Claimed(cfg, s, js).Some? ==>
              var s' := Claimed(cfg, s, js).value;
              && Reaches(cfg, s, s') && Restarting(s') && Inv(cfg, s') && s'.db.jobs == s.db.jobs
              && NoStaleLease(s'.db.jobs, s'.db.leases)
              && (forall j | j in js && Claims(s.db.jobs, j) :: HoldsLease(cfg, s'.db.jobs, s'.db.leases, j))
  {
    ReachesSelf(cfg, s);
    if js != [] && Claimed(cfg, s, js).Some? {
      var init, j := js[..|js| - 1], js[|js| - 1];
      ClaimRuns(cfg, s, init);
      assert js == init + [j];
      var s1 := Claimed(cfg, s, init).value;
      if Claims(s1.db.jobs, j) {
        ClaimStep(cfg, s, s1, j);
        ClaimHolds(cfg, s1, j);
      }
    }
  }

  lemma ClaimStep(cfg: Config, s: State, s1: State, j: JobId)
    requires Inv(cfg, s) && Reaches(cfg, s, s1) && Restarting(s1)
    requires Claims(s1.db.jobs, j) && TreeFree(cfg, s1.db, j, s1.db.jobs[j].host.value)
    ensures Reaches(cfg, s, ClaimLease(cfg, s1, j)) && Inv(cfg, ClaimLease(cfg, s1, j))
  {
    Step(cfg, s, s1, RestartStep(DoClaimLease(j)));
  }

  lemma ClaimHolds(cfg: Config, s: State, j: JobId)
    requires NoStaleLease(s.db.jobs, s.db.leases)
    requires Claims(s.db.jobs, j) && TreeFree(cfg, s.db, j, s.db.jobs[j].host.value)
    ensures var d := ClaimLease(cfg, s, j).db;
            && NoStaleLease(d.jobs, d.leases) && HoldsLease(cfg, d.jobs, d.leases, j)
            && forall k | HoldsLease(cfg, s.db.jobs, s.db.leases, k) :: HoldsLease(cfg, d.jobs, d.leases, k)
  {
  }

  lemma ClaimKeeps(cfg: Config, s: State, js: seq<JobId>)
    requires Inv(cfg, s) && Restarting(s) && NoStaleLease(s.db.jobs, s.db.leases)
    ensures Claimed(cfg, s, js).Some? ==>
              var s' := Claimed(cfg, s, js).value;
              && Inv(cfg, s') && Restarting(s') && s'.db.jobs == s.db.jobs && NoStaleLease(s'.db.jobs, s'.db.leases)
              && (forall j | j in js && Claims(s.db.jobs, j) :: HoldsLease(cfg, s'.db.jobs, s'.db.leases, j))
  {
    ClaimRuns(cfg, s, js);
  }

  /** Two open jobs that were placed outside the queue claim the same working tree. */
  ghost predicate Conflict(cfg: Config, jobs: Jobs) {
    exists j, k | j in jobs && k in jobs && j != k ::
      && Claims(jobs, j) && Claims(jobs, k) && jobs[j].host == jobs[k].host
      && cfg.path(jobs[j].project, jobs[j].host.value) == cfg.path(jobs[k].project, jobs[k].host.value)
  }

  lemma BusyIsConflict(cfg: Config, s: State, j: JobId)
    requires Inv(cfg, s) && NoStaleLease(s.db.jobs, s.db.leases) && Claims(s.db.jobs, j)
    requires !TreeFree(cfg, s.db, j, s.db.jobs[j].host.value)
    ensures Conflict(cfg, s.db.jobs)
  {
    var t := TreeOn(cfg, s.db.jobs[j], s.db.jobs[j].host.value);
    assert t in s.db.leases && s.db.leases[t] != j;
    assert Claims(s.db.jobs, s.db.leases[t]);
  }

  lemma LeasedIsNoConflict(cfg: Config, s: State)
    requires AllLeased(cfg, s.db)
    ensures !Conflict(cfg, s.db.jobs)
  {
    forall j, k | Claims(s.db.jobs, j) && Claims(s.db.jobs, k) && j != k && s.db.jobs[j].host == s.db.jobs[k].host
      ensures TreeOn(cfg, s.db.jobs[j], s.db.jobs[j].host.value) != TreeOn(cfg, s.db.jobs[k], s.db.jobs[k].host.value)
    {
      assert HoldsLease(cfg, s.db.jobs, s.db.leases, j) && HoldsLease(cfg, s.db.jobs, s.db.leases, k);
    }
  }

  /** The job is open, was placed, and is not in the queue; its tree is t. */
  ghost predicate WorksIn(cfg: Config, jobs: Jobs, j: JobId, t: Tree) {
    && j in jobs && jobs[j].host == Some(t.host) && t.path == cfg.path(jobs[j].project, t.host)
    && jobs[j].state !in {Completed, Failed, Cancelled, WaitingLease}
  }

  /** No tree has two such jobs. */
  ghost predicate OneEach(cfg: Config, jobs: Jobs) {
    forall j, k, t | WorksIn(cfg, jobs, j, t) && WorksIn(cfg, jobs, k, t) :: j == k
  }

  /** Their trees, and no others, are leased, by them. */
  ghost predicate LeasedExactly(cfg: Config, jobs: Jobs, leases: Leases) {
    forall j, t :: (t in leases && leases[t] == j) <==> WorksIn(cfg, jobs, j, t)
  }

  lemma ConflictExactly(cfg: Config, jobs: Jobs)
    ensures Conflict(cfg, jobs) <==> !OneEach(cfg, jobs)
  {
    if Conflict(cfg, jobs) {
      var j, k :| j in jobs && k in jobs && j != k && Claims(jobs, j) && Claims(jobs, k) && jobs[j].host == jobs[k].host
                  && cfg.path(jobs[j].project, jobs[j].host.value) == cfg.path(jobs[k].project, jobs[k].host.value);
      var t := TreeOn(cfg, jobs[j], jobs[j].host.value);
      assert WorksIn(cfg, jobs, j, t) && WorksIn(cfg, jobs, k, t);
    }
    if j, k, t :| WorksIn(cfg, jobs, j, t) && WorksIn(cfg, jobs, k, t) && j != k {
      assert Claims(jobs, j) && Claims(jobs, k);
    }
  }

  lemma LeasedIsExact(cfg: Config, s: State)
    requires Inv(cfg, s) && NoStaleLease(s.db.jobs, s.db.leases) && AllLeased(cfg, s.db)
    ensures LeasedExactly(cfg, s.db.jobs, s.db.leases)
  {
    forall j, t ensures (t in s.db.leases && s.db.leases[t] == j) <==> WorksIn(cfg, s.db.jobs, j, t) {
      if t in s.db.leases && s.db.leases[t] == j {
        assert Claims(s.db.jobs, s.db.leases[t]);
      }
      if WorksIn(cfg, s.db.jobs, j, t) {
        assert Claims(s.db.jobs, j);
      }
    }
  }

  /** The lock of a job that has ended or is missing. */
  predicate StaleLock(d: Db, o: Owner) {
    o in d.locks && (d.locks[o] in d.jobs ==> Terminal(d.jobs[d.locks[o]].state))
  }

  function Unlocked(s: State, os: seq<Owner>): State {
    if os == [] then s
    else
      var s1, o := Unlocked(s, os[..|os| - 1]), os[|os| - 1];
      if StaleLock(s1.db, o) then SweepLock(s1, o) else s1
  }

  lemma {:induction false} UnlockRuns(cfg: Config, s: State, os: seq<Owner>)
    requires Inv(cfg, s) && Restarting(s)
    ensures var s' := Unlocked(s, os);
            && Reaches(cfg, s, s') && Restarting(s') && Inv(cfg, s')
            && s'.db == s.db.(locks := s'.db.locks)
            && (forall o :: o in s'.db.locks ==> o in s.db.locks && s'.db.locks[o] == s.db.locks[o])
            && (forall o | o in os :: !StaleLock(s'.db, o))
            && (forall o | o in s.db.locks && !StaleLock(s.db, o) :: o in s'.db.locks)
  {
    ReachesSelf(cfg, s);
    if os != [] {
      var init, o := os[..|os| - 1], os[|os| - 1];
      UnlockRuns(cfg, s, init);
      assert os == init + [o];
      var s1 := Unlocked(s, init);
      if StaleLock(s1.db, o) {
        Step(cfg, s, s1, RestartStep(DoSweepLock(o)));
      }
    }
  }

  lemma UnlockKeeps(cfg: Config, s: State, os: seq<Owner>)
    requires Inv(cfg, s) && Restarting(s)
    ensures var s' := Unlocked(s, os);
            && Inv(cfg, s') && Restarting(s') && s'.db == s.db.(locks := s'.db.locks)
            && (forall o :: o in s'.db.locks ==> o in s.db.locks && s'.db.locks[o] == s.db.locks[o])
            && (forall o | o in os :: !StaleLock(s'.db, o))
            && (forall o | o in s.db.locks && !StaleLock(s.db, o) :: o in s'.db.locks)
  {
    UnlockRuns(cfg, s, os);
  }

  // ---- after all phases ----

  /** The jobs of the phases before the n-th are left as they should be; the others have not been touched. */
  ghost predicate Through(cfg: Config, f: Facts, a: Db, b: Db, n: nat) {
    && b.jobs.Keys == a.jobs.Keys
    && forall j | j in a.jobs ::
         LeftAs(cfg, f, a, b, j) || (Untouched(a, b, j) && Rank(PhaseOf(f, a.jobs[j].state, j)) >= n)
  }

  lemma NothingDoneYet(cfg: Config, f: Facts, a: Db, b: Db)
    requires b.jobs == a.jobs && b.recovery == a.recovery
    ensures Through(cfg, f, a, b, 0)
  {
  }

  /** Every job is left as its state in the tables a requires. */
  ghost predicate AllLeft(cfg: Config, f: Facts, a: Db, b: Db) {
    b.jobs.Keys == a.jobs.Keys && forall j | j in a.jobs :: LeftAs(cfg, f, a, b, j)
  }

  ghost predicate AllSettled(cfg: Config, f: Facts, d: Db) {
    forall j | j in d.jobs :: Settled(cfg, f, d.jobs, d.recovery, j)
  }

  /** The phases between the listing of the jobs that waited for a host before and their repair. */
  function Middle(i: nat): (p: Phase)
    requires i < 5
    ensures Rank(p) == i + 2 && !p.NoPhase? && !p.HostJobs?
  {
    [QaJobs, InterruptedJobs, AgentJobs, LeaseJobs, QuotaJobs][i]
  }

  /** js has all jobs of the phase. */
  ghost predicate Lists(f: Facts, a: Db, p: Phase, js: seq<JobId>) {
    forall j | j in a.jobs && PhaseOf(f, a.jobs[j].state, j) == p :: j in js
  }

  /** A job that waited for its host before waits for it still, so a list that is made later has it. */
  lemma WaitersStay(cfg: Config, f: Facts, a: Db, b: Db, n: nat, js: seq<JobId>)
    requires Through(cfg, f, a, b, n) && Lists(f, b, HostJobs, js)
    ensures Lists(f, a, HostJobs, js)
  {
    forall j | j in a.jobs && a.jobs[j].state.WaitingHost? ensures j in js {
      assert LeftAs(cfg, f, a, b, j) || Untouched(a, b, j);
    }
  }

  /** The next phase goes through all jobs in its states. */
  lemma NextPhase(cfg: Config, f: Facts, a: Db, b: Db, c: Db, p: Phase, js: seq<JobId>)
    requires Through(cfg, f, a, b, Rank(p)) && Progress(cfg, f, a, b, c, p, js)
    requires Lists(f, a, p, js) || Lists(f, b, p, js)
    ensures Through(cfg, f, a, c, Rank(p) + 1)
  {
    forall j | j in a.jobs && !LeftAs(cfg, f, a, c, j)
      ensures Untouched(a, c, j) && Rank(PhaseOf(f, a.jobs[j].state, j)) > Rank(p)
    {
      LaterPhase(cfg, f, a, b, c, p, js, j);
    }
  }

  lemma LaterPhase(cfg: Config, f: Facts, a: Db, b: Db, c: Db, p: Phase, js: seq<JobId>, j: JobId)
    requires Through(cfg, f, a, b, Rank(p)) && Progress(cfg, f, a, b, c, p, js) && j in a.jobs && !LeftAs(cfg, f, a, c, j)
    requires Untouched(a, b, j) && PhaseOf(f, a.jobs[j].state, j) == p ==> j in js
    ensures Untouched(a, c, j) && Rank(PhaseOf(f, a.jobs[j].state, j)) > Rank(p)
  {
  }

  /** When all phases are through, every job is left as it should be, and the controller may serve. */
  lemma ReadyToServe(cfg: Config, f: Facts, a: Db, s: State)
    requires Inv(cfg, s) && Restarting(s) && NoStaleLease(s.db.jobs, s.db.leases) && Through(cfg, f, a, s.db, 8)
    ensures AllLeft(cfg, f, a, s.db) && AllSettled(cfg, f, s.db) && ServeOk(cfg, s)
  {
    forall j | j in a.jobs ensures LeftAs(cfg, f, a, s.db, j) && Settled(cfg, f, s.db.jobs, s.db.recovery, j) {
      LeftIsSettled(cfg, f, a, s.db, j);
    }
    MayServe(cfg, f, s);
  }

  lemma MayServe(cfg: Config, f: Facts, s: State)
    requires Inv(cfg, s) && Restarting(s) && NoStaleLease(s.db.jobs, s.db.leases) && AllSettled(cfg, f, s.db)
    ensures ServeOk(cfg, s)
  {
    forall j | j in s.db.jobs ensures WaitRecorded(s.db.jobs[j], s.db.recovery, s.mem.pending, j) {
      assert Settled(cfg, f, s.db.jobs, s.db.recovery, j);
    }
  }
}
