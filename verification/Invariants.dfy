/** What every transaction of the controller keeps. Each predicate names the tables it
    reads, so that a transaction on other tables keeps it without a proof. */
module Invariants {
  import opened Wrappers
  import opened States
  import opened Tables

  /** Foreign keys: no row speaks of a job that was never created. */
  ghost predicate Refs(jobs: Jobs, recovery: Recoveries) {
    forall j | j in recovery :: j in jobs
  }

  /** A lease lies on the tree of its job's assigned host, so a job has at most one. */
  ghost predicate LeasesFit(cfg: Config, jobs: Jobs, leases: Leases) {
    forall t | t in leases ::
      leases[t] in jobs && jobs[leases[t]].host == Some(t.host) && t == TreeOn(cfg, jobs[leases[t]], t.host)
  }

  ghost predicate StartedHold(cfg: Config, jobs: Jobs, leases: Leases, locks: Locks, log: seq<Event>, j: JobId)
    requires j in jobs
  {
    Started(log, j) && !Terminal(jobs[j].state) ==>
      && HoldsLease(cfg, jobs, leases, j) && HoldsSession(jobs, locks, j)
      && !jobs[j].state.Queued? && !jobs[j].state.WaitingLease?
  }

  /** From its first STARTING until it ends, a job holds its working tree and its session. */
  ghost predicate StartedHolds(cfg: Config, jobs: Jobs, leases: Leases, locks: Locks, log: seq<Event>) {
    forall j | j in jobs :: StartedHold(cfg, jobs, leases, locks, log, j)
  }

  /** The lifecycle events of every job replay to its stored state. */
  ghost predicate Replays(jobs: Jobs, log: seq<Event>) {
    forall j :: Replay(log, j) == if j in jobs then At(jobs[j].state) else Absent
  }

  /** Only a job that was started has executions. */
  ghost predicate RunsStarted(recovery: Recoveries, ledger: Ledger, log: seq<Event>) {
    && (forall e | e in ledger :: Started(log, ledger[e].job))
    && (forall j | j in recovery && (recovery[j].exec.Some? || recovery[j].mode.FinalizeMode?) :: Started(log, j))
  }

  /** A job that is not placed, or is queued for a lease, occupies nothing. */
  ghost predicate QueuedFree(cfg: Config, jobs: Jobs, leases: Leases, locks: Locks) {
    forall j | j in jobs ::
      && (jobs[j].state.Queued? ==> jobs[j].host == None)
      && (jobs[j].state.WaitingLease? ==> !HoldsLease(cfg, jobs, leases, j) && !HoldsSession(jobs, locks, j))
  }

  ghost predicate Core(cfg: Config, d: Db) {
    && Refs(d.jobs, d.recovery)
    && LeasesFit(cfg, d.jobs, d.leases)
    && StartedHolds(cfg, d.jobs, d.leases, d.locks, d.log)
    && Replays(d.jobs, d.log)
    && RunsStarted(d.recovery, d.ledger, d.log)
    && QueuedFree(cfg, d.jobs, d.leases, d.locks)
  }

  /** No lease outlives its job, except while the release is under way. */
  ghost predicate LeasesLive(jobs: Jobs, leases: Leases, draining: set<JobId>) {
    forall t | t in leases && leases[t] in jobs && Terminal(jobs[leases[t]].state) :: leases[t] in draining
  }

  /** A host wait of j is being entered: its record comes next. */
  ghost predicate IsEntering(pending: multiset<Pending>, j: JobId) {
    exists r: Recovery :: Entering(j, r) in pending
  }

  /** So is a lease wait. */
  ghost predicate IsQueuing(pending: multiset<Pending>, j: JobId) {
    exists r: Recovery :: Queuing(j, r) in pending
  }

  /** j has a place in the queue, or its place comes next. */
  ghost predicate InLine(recovery: Recoveries, pending: multiset<Pending>, j: JobId) {
    (j in recovery && recovery[j].position.Some?) || IsQueuing(pending, j)
  }

  ghost predicate WaitRecorded(job: Job, recovery: Recoveries, pending: multiset<Pending>, j: JobId) {
    && (job.state.WaitingQuota? ==> j in recovery)
    && (job.state.WaitingHost? ==> j in recovery || IsEntering(pending, j))
    && (job.state.WaitingLease? ==> InLine(recovery, pending, j))
  }

  /** Every waiting job can be found by the scheduler, every queued one has a place in the queue. */
  ghost predicate WaitsRecorded(jobs: Jobs, recovery: Recoveries, pending: multiset<Pending>) {
    forall j | j in jobs :: WaitRecorded(jobs[j], recovery, pending, j)
  }

  /** Only a job that was started has an execution on record, or is finished by a submission. */
  ghost predicate RecordSound(log: seq<Event>, j: JobId, r: Recovery) {
    r.exec.Some? || r.mode.FinalizeMode? ==> Started(log, j)
  }

  ghost predicate FlowSound(cfg: Config, jobs: Jobs, leases: Leases, locks: Locks, recovery: Recoveries, log: seq<Event>,
                            pending: multiset<Pending>, f: Flow, j: JobId)
    requires j in jobs
  {
    var st := jobs[j].state;
    && (st.Queued? || st.Assigned? || st.Cancelling? || Terminal(st) || (f.Midway? && st.Starting?))
    && match f
       case Creating => !Started(log, j) && !st.Assigned?
       case Unlocked => !Started(log, j) && !st.Assigned?
       case AwaitSession(r, queued) =>
         && !st.Queued? && RecordSound(log, j, r) && (queued ==> !Started(log, j))
         && (st.Assigned? ==>
               HoldsLease(cfg, jobs, leases, j) && (queued ==> InLine(recovery, pending, j)))
       case Returned(r, queued) =>
         && !st.Queued?
         && (st.Assigned? ==>
               && !HoldsLease(cfg, jobs, leases, j) && !HoldsSession(jobs, locks, j)
               && (queued ==> InLine(recovery, pending, j)))
       case Dequeue(r) =>
         && !st.Queued? && RecordSound(log, j, r)
         && (st.Assigned? ==> HoldsLease(cfg, jobs, leases, j) && HoldsSession(jobs, locks, j))
       case Launch(r) =>
         && (r.Some? ==> RecordSound(log, j, r.value))
         && (st.Assigned? ==> HoldsLease(cfg, jobs, leases, j) && HoldsSession(jobs, locks, j))
       case Midway(r) => RecordSound(log, j, r) && !st.Assigned? && !st.Queued?
       case Adopting(e) =>
         && Started(log, j) && !st.Queued?
         && (st.Assigned? ==> HoldsLease(cfg, jobs, leases, j) && HoldsSession(jobs, locks, j))
  }

  ghost predicate FlowsSound(cfg: Config, jobs: Jobs, leases: Leases, locks: Locks, recovery: Recoveries, log: seq<Event>,
                             pending: multiset<Pending>, flow: map<JobId, Flow>) {
    forall j | j in flow :: j in jobs && FlowSound(cfg, jobs, leases, locks, recovery, log, pending, flow[j], j)
  }

  ghost predicate HandlesStarted(handles: map<JobId, ExecId>, log: seq<Event>) {
    forall j | j in handles :: Started(log, j)
  }

  /** What coroutines remember of a job that was started, or of records that they will write. */
  ghost predicate PendingSound(jobs: Jobs, log: seq<Event>, t: Pending) {
    match t
    case Reading(j, r) => j in jobs && RecordSound(log, j, r)
    case Writing(j, r) => j in jobs && RecordSound(log, j, r)
    case Entering(j, r) => j in jobs && RecordSound(log, j, r)
    case Queuing(j, r) => j in jobs && RecordSound(log, j, r)
    case Turning(j) => j in jobs && Started(log, j)
    case Claim(j, _) => j in jobs && Started(log, j)
    case Hold(j, _) => j in jobs && Started(log, j)
    case Bound(j, _, _) => j in jobs && Started(log, j)
    case _ => true
  }

  ghost predicate PendingsSound(jobs: Jobs, log: seq<Event>, pending: multiset<Pending>) {
    forall t | t in pending :: PendingSound(jobs, log, t)
  }

  ghost predicate Steady(cfg: Config, d: Db, m: Memory) {
    && LeasesLive(d.jobs, d.leases, m.draining)
    && WaitsRecorded(d.jobs, d.recovery, m.pending)
    && FlowsSound(cfg, d.jobs, d.leases, d.locks, d.recovery, d.log, m.pending, m.flow)
    && HandlesStarted(m.handles, d.log)
    && PendingsSound(d.jobs, d.log, m.pending)
  }

  ghost predicate Inv(cfg: Config, s: State) {
    Core(cfg, s.db) && (s.mem.serving ==> Steady(cfg, s.db, s.mem))
  }

  // ---- a lifecycle transition ----

  /** When job j may move to `target` on host `host`. */
  ghost predicate ShiftFits(cfg: Config, d: Db, j: JobId, target: JobState, host: Option<HostId>) {
    && j in d.jobs && Allowed(d.jobs[j].state, target)
    && (HoldsLease(cfg, d.jobs, d.leases, j) ==> host == d.jobs[j].host)
    && (target.Starting? ==> HoldsLease(cfg, d.jobs, d.leases, j) && HoldsSession(d.jobs, d.locks, j))
    && (target.WaitingLease? ==> !HoldsLease(cfg, d.jobs, d.leases, j) && !HoldsSession(d.jobs, d.locks, j))
  }

  /** What a running controller adds: the record is written, the release is under way, and no
      placement is left behind. */
  ghost predicate ShiftServes(cfg: Config, d: Db, m: Memory, j: JobId, target: JobState, host: Option<HostId>) {
    && j in d.jobs
    && WaitRecorded(d.jobs[j].(state := target), d.recovery, m.pending, j)
    && (Terminal(target) ==> j in m.draining)
    && (j in m.flow ==> target.Cancelling? || Terminal(target) || (target.Starting? && m.flow[j].Midway?))
  }

  lemma ShiftHolds(cfg: Config, d: Db, j: JobId, target: JobState, host: Option<HostId>, k: JobId)
    requires ShiftFits(cfg, d, j, target, host) && LeasesFit(cfg, d.jobs, d.leases)
    ensures var d' := Shift(d, j, target, host);
            && HoldsLease(cfg, d'.jobs, d.leases, k) == HoldsLease(cfg, d.jobs, d.leases, k)
            && HoldsSession(d'.jobs, d.locks, k) == HoldsSession(d.jobs, d.locks, k)
  {
  }

  lemma ShiftKeepsLeases(cfg: Config, d: Db, j: JobId, target: JobState, host: Option<HostId>)
    requires ShiftFits(cfg, d, j, target, host) && LeasesFit(cfg, d.jobs, d.leases)
    ensures LeasesFit(cfg, Shift(d, j, target, host).jobs, d.leases)
  {
  }

  lemma ShiftKeepsStarted(cfg: Config, d: Db, j: JobId, target: JobState, host: Option<HostId>)
    requires ShiftFits(cfg, d, j, target, host) && LeasesFit(cfg, d.jobs, d.leases)
    requires StartedHolds(cfg, d.jobs, d.leases, d.locks, d.log)
    ensures var d' := Shift(d, j, target, host); StartedHolds(cfg, d'.jobs, d.leases, d.locks, d'.log)
  {
  }

  lemma ShiftKeepsReplays(d: Db, j: JobId, target: JobState, host: Option<HostId>)
    requires j in d.jobs && Allowed(d.jobs[j].state, target) && Replays(d.jobs, d.log)
    ensures var d' := Shift(d, j, target, host); Replays(d'.jobs, d'.log)
  {
  }

  lemma LongerLogKeepsRuns(recovery: Recoveries, ledger: Ledger, log: seq<Event>, e: Event)
    requires RunsStarted(recovery, ledger, log)
    ensures RunsStarted(recovery, ledger, log + [e])
  {
  }

  lemma ShiftKeepsQueued(cfg: Config, d: Db, j: JobId, target: JobState, host: Option<HostId>)
    requires ShiftFits(cfg, d, j, target, host) && LeasesFit(cfg, d.jobs, d.leases)
    requires QueuedFree(cfg, d.jobs, d.leases, d.locks)
    ensures QueuedFree(cfg, Shift(d, j, target, host).jobs, d.leases, d.locks)
  {
  }

  lemma ShiftKeepsCore(cfg: Config, d: Db, j: JobId, target: JobState, host: Option<HostId>)
    requires Core(cfg, d) && ShiftFits(cfg, d, j, target, host)
    ensures Core(cfg, Shift(d, j, target, host))
  {
    ShiftKeepsLeases(cfg, d, j, target, host);
    ShiftKeepsStarted(cfg, d, j, target, host);
    ShiftKeepsReplays(d, j, target, host);
    LongerLogKeepsRuns(d.recovery, d.ledger, d.log, Moved(j, d.jobs[j].state, target));
    ShiftKeepsQueued(cfg, d, j, target, host);
  }

  lemma ShiftKeepsFlows(cfg: Config, d: Db, m: Memory, j: JobId, target: JobState, host: Option<HostId>)
    requires ShiftFits(cfg, d, j, target, host) && ShiftServes(cfg, d, m, j, target, host)
    requires LeasesFit(cfg, d.jobs, d.leases) && FlowsSound(cfg, d.jobs, d.leases, d.locks, d.recovery, d.log, m.pending, m.flow)
    ensures var d' := Shift(d, j, target, host); FlowsSound(cfg, d'.jobs, d.leases, d.locks, d.recovery, d'.log, m.pending, m.flow)
  {
  }

  lemma ShiftKeepsSteady(cfg: Config, d: Db, m: Memory, j: JobId, target: JobState, host: Option<HostId>)
    requires ShiftFits(cfg, d, j, target, host) && ShiftServes(cfg, d, m, j, target, host)
    requires LeasesFit(cfg, d.jobs, d.leases) && Steady(cfg, d, m)
    ensures Steady(cfg, Shift(d, j, target, host), m)
  {
    var d' := Shift(d, j, target, host);
    ShiftKeepsFlows(cfg, d, m, j, target, host);
    assert forall k | k in d'.jobs && k != j :: d'.jobs[k] == d.jobs[k];
  }

  // ---- recovery records ----

  ghost predicate RecoveryFits(d: Db, j: JobId, r: Recovery) {
    && j in d.jobs
    && RecordSound(d.log, j, r)
  }

  ghost predicate RecoveryServes(d: Db, m: Memory, j: JobId, r: Recovery) {
    && j in d.jobs
    && (d.jobs[j].state.WaitingLease? ==> r.position.Some? || IsQueuing(m.pending, j))
    && (j in m.flow && (m.flow[j].AwaitSession? || m.flow[j].Returned?) && d.jobs[j].state.Assigned? ==>
          (m.flow[j].queued ==> r.position.Some? || IsQueuing(m.pending, j)))
  }

  lemma PutRecoveryKeepsCore(cfg: Config, d: Db, j: JobId, r: Recovery)
    requires Core(cfg, d) && RecoveryFits(d, j, r)
    ensures Core(cfg, PutRecovery(d, j, r))
  {
  }

  lemma PutRecoveryKeepsSteady(cfg: Config, d: Db, m: Memory, j: JobId, r: Recovery)
    requires Steady(cfg, d, m) && RecoveryServes(d, m, j, r)
    ensures Steady(cfg, PutRecovery(d, j, r), m)
  {
  }

  lemma DropRecoveryKeepsCore(cfg: Config, d: Db, j: JobId)
    requires Core(cfg, d)
    ensures Core(cfg, DropRecovery(d, j))
  {
  }

  lemma DropRecoveryKeepsSteady(cfg: Config, d: Db, m: Memory, j: JobId)
    requires Steady(cfg, d, m)
    requires j in d.jobs ==> Terminal(d.jobs[j].state) || d.jobs[j].state.Cancelling?
    ensures Steady(cfg, DropRecovery(d, j), m)
  {
  }

  // ---- leases ----

  /** j takes the lease of its host's tree, free or already its own. */
  ghost predicate LeaseFits(cfg: Config, d: Db, j: JobId) {
    && j in d.jobs && d.jobs[j].host.Some? && !d.jobs[j].state.WaitingLease?
    && var t := TreeOn(cfg, d.jobs[j], d.jobs[j].host.value);
    t in d.leases ==> d.leases[t] == j
  }

  function Leased(cfg: Config, d: Db, j: JobId): Db
    requires j in d.jobs && d.jobs[j].host.Some?
  {
    d.(leases := d.leases[TreeOn(cfg, d.jobs[j], d.jobs[j].host.value) := j])
  }

  lemma LeasedKeepsCore(cfg: Config, d: Db, j: JobId)
    requires Core(cfg, d) && LeaseFits(cfg, d, j)
    ensures Core(cfg, Leased(cfg, d, j))
  {
  }

  lemma DroppedHolds(cfg: Config, jobs: Jobs, leases: Leases, j: JobId, k: JobId)
    ensures HoldsLease(cfg, jobs, WithoutJob(leases, j), k) == (k != j && HoldsLease(cfg, jobs, leases, k))
  {
  }

  lemma DropLeasesKeepsCore(cfg: Config, d: Db, j: JobId)
    requires Core(cfg, d)
    requires j in d.jobs && Started(d.log, j) ==> Terminal(d.jobs[j].state)
    ensures Core(cfg, d.(leases := WithoutJob(d.leases, j)))
  {
  }

  // ---- project sessions ----

  /** A lock is given to j (its own owner key, or that of a job still without a row). */
  lemma LockedHolds(jobs: Jobs, locks: Locks, o: Owner, j: JobId, k: JobId)
    requires o in locks ==> locks[o] == j
    ensures k != j ==> HoldsSession(jobs, locks[o := j], k) == HoldsSession(jobs, locks, k)
    ensures HoldsSession(jobs, locks, k) ==> HoldsSession(jobs, locks[o := j], k)
    ensures j in jobs && OwnerOf(jobs[j]) == o ==> HoldsSession(jobs, locks[o := j], j)
  {
  }

  lemma LockedKeepsCore(cfg: Config, d: Db, o: Owner, j: JobId)
    requires Core(cfg, d)
    requires o in d.locks ==> d.locks[o] == j
    requires j in d.jobs ==> !d.jobs[j].state.WaitingLease?
    ensures Core(cfg, d.(locks := d.locks[o := j]))
  {
  }

  lemma LockedKeepsSteady(cfg: Config, d: Db, m: Memory, o: Owner, j: JobId)
    requires Steady(cfg, d, m)
    requires o in d.locks ==> d.locks[o] == j
    requires j in m.flow && m.flow[j].Returned? ==> j in d.jobs && !d.jobs[j].state.Assigned?
    ensures Steady(cfg, d.(locks := d.locks[o := j]), m)
  {
  }

  lemma UnlockedKeepsCore(cfg: Config, d: Db, o: Owner)
    requires Core(cfg, d) && o in d.locks
    requires var j := d.locks[o]; j in d.jobs && Started(d.log, j) ==> Terminal(d.jobs[j].state)
    ensures Core(cfg, d.(locks := d.locks - {o}))
  {
  }

  /** The placement has both lease and session. */
  predicate InHand(f: Flow) {
    f.Dequeue? || f.Launch? || f.Adopting?
  }

  lemma UnlockedKeepsSteady(cfg: Config, d: Db, m: Memory, o: Owner)
    requires Steady(cfg, d, m) && o in d.locks
    requires var j := d.locks[o]; j in m.flow && InHand(m.flow[j]) ==> j in d.jobs && !d.jobs[j].state.Assigned?
    ensures Steady(cfg, d.(locks := d.locks - {o}), m)
  {
  }

  // ---- new rows ----

  lemma {:induction false} StartedIsPresent(log: seq<Event>, j: JobId)
    requires Started(log, j)
    ensures Replay(log, j) != Absent
  {
    if log[|log| - 1] != Moved(j, Assigned, Starting) {
      StartedIsPresent(log[..|log| - 1], j);
    }
  }

  lemma NewJobKeepsCore(cfg: Config, d: Db, j: JobId, job: Job)
    requires Core(cfg, d) && j !in d.jobs && job.state.Queued? && job.host == None
    ensures Core(cfg, d.(jobs := d.jobs[j := job], log := d.log + [Created(j)]))
  {
    var jobs, log := d.jobs[j := job], d.log + [Created(j)];
    if Started(d.log, j) {
      StartedIsPresent(d.log, j);
      assert false;
    }
    forall k ensures Replay(log, k) == if k in jobs then At(jobs[k].state) else Absent {
      ReplayAppend(d.log, Created(j), k);
    }
    forall k | k in jobs
      ensures StartedHold(cfg, jobs, d.leases, d.locks, log, k)
      ensures jobs[k].state.Queued? ==> jobs[k].host == None
      ensures jobs[k].state.WaitingLease? ==> !HoldsLease(cfg, jobs, d.leases, k) && !HoldsSession(jobs, d.locks, k)
    {
      if k != j {
        assert StartedHold(cfg, d.jobs, d.leases, d.locks, d.log, k);
      }
    }
  }

  lemma NewJobKeepsFlows(cfg: Config, d: Db, m: Memory, j: JobId, job: Job)
    requires Core(cfg, d) && Steady(cfg, d, m) && j !in d.jobs && job.state.Queued? && job.host == None
    ensures var d' := d.(jobs := d.jobs[j := job], log := d.log + [Created(j)]);
            FlowsSound(cfg, d'.jobs, d.leases, d.locks, d.recovery, d'.log, m.pending, m.flow)
  {
  }

  lemma NewJobKeepsSteady(cfg: Config, d: Db, m: Memory, j: JobId, job: Job)
    requires Core(cfg, d) && Steady(cfg, d, m) && j !in d.jobs && job.state.Queued? && job.host == None
    ensures Steady(cfg, d.(jobs := d.jobs[j := job], log := d.log + [Created(j)]), m)
  {
    NewJobKeepsFlows(cfg, d, m, j, job);
  }
}
