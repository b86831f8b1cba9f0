/** What waits and retries leave in the tables, row by row (job_manager.py, the _enter_* and _retry_* helpers). */
module Outcomes {
  import opened Wrappers
  import opened States
  import opened Tables
  import opened Transactions
  import opened Invariants
  import opened Scheduler

  // ---- waits ----

  /** Only the row and the record of j, and the event log, are different. */
  ghost predicate Leaves(a: Db, b: Db, j: JobId, job: Job, r: Recovery) {
    && b.jobs == a.jobs[j := job] && b.recovery == a.recovery[j := r]
    && b.leases == a.leases && b.locks == a.locks && b.ledger == a.ledger
  }

  /** A host wait keeps attempts, execution and place of the record; a first record names the execution of the handle. */
  lemma HostWaitLeaves(s: State, j: JobId, mode: Mode, host: Option<HostId>, due: int)
    requires j in s.db.jobs
    ensures var job, has := s.db.jobs[j], j in s.db.recovery;
            Leaves(s.db, HostWait(s, j, mode, host, due).db, j,
                   if job.state.WaitingHost? then job
                   else job.(state := WaitingHost, host := if host.Some? then host else job.host),
                   if has then s.db.recovery[j].(kind := HostKind, mode := mode, due := Some(due))
                   else Recovery(HostKind, mode, 0, Some(due),
                                 if j in s.mem.handles then Some(s.mem.handles[j]) else None, None))
  {
  }

  /** p is the job's place in the queue: its own, or one behind all others. */
  ghost predicate PlaceOf(recovery: Recoveries, j: JobId, p: nat) {
    if j in recovery && recovery[j].position.Some? then recovery[j].position == Some(p)
    else forall k | k in recovery && recovery[k].position.Some? :: recovery[k].position.value < p
  }

  /** A lease wait starts its record anew, with the job's place. */
  lemma LeaseWaitLeaves(s: State, j: JobId, mode: Mode, host: HostId, due: int)
    requires j in s.db.jobs
    ensures var p := QueuePosition(s.db.recovery, j);
            && PlaceOf(s.db.recovery, j, p)
            && Leaves(s.db, LeaseWait(s, j, mode, host, p, due).db, j,
                      s.db.jobs[j].(state := WaitingLease, host := Some(host)),
                      Recovery(LeaseKind, mode, 0, Some(due), None, Some(p)))
  {
  }

  // ---- retries ----

  /** A quota wait is over exactly if the job's host, if it has one, is up: then the job is RUNNING again, with its
      record out of the schedule. */
  lemma RetryQuotaLeaves(world: World, s: State, j: JobId)
    requires Is(s, j, WaitingQuota) && j in s.db.recovery
    ensures var job, r, s' := s.db.jobs[j], s.db.recovery[j], RetryQuota(world, s, j);
            if job.host.Some? && !world.online(job.host.value) then s' == s
            else s'.mem == s.mem
                 && Leaves(s.db, s'.db, j, job.(state := Running), r.(kind := QuotaKind, mode := ResumeMode, due := None))
  {
    WithWithout(s, Writing(j, QuotaRetryRecord(s.db.recovery[j])));
  }

  /** The tree is leased by another job, or the job leases another tree. */
  ghost predicate Taken(leases: Leases, j: JobId, t: Tree) {
    exists u | u in leases :: (u == t) != (leases[u] == j)
  }

  lemma TakenIsNotFree(leases: Leases, j: JobId, t: Tree)
    ensures Taken(leases, j, t) <==> !LeaseFree(leases, j, t)
  {
    if !LeaseFree(leases, j, t) {
      if t in leases && leases[t] != j {
        assert (t == t) != (leases[t] == j);
      } else {
        var u :| u in leases && leases[u] == j && u != t;
        assert (u == t) != (leases[u] == j);
      }
    }
  }

  /** The job has the tree and its session now, and joins the session's conversation. */
  ghost predicate Gets(cfg: Config, world: World, a: Db, b: Db, j: JobId, host: HostId, state: JobState, r: Recovery)
    requires j in a.jobs
  {
    var job := a.jobs[j];
    var o := Owner(job.project, job.user);
    && b.jobs == a.jobs[j := job.(state := state, host := Some(host), thread := world.conversation(o, job.thread))]
    && b.leases == a.leases[Tree(host, cfg.path(job.project, host)) := j] && b.locks == a.locks[o := j]
    && b.recovery == a.recovery[j := r] && b.ledger == a.ledger
  }

  /** The host a queued job waits for: its own, or the one that was asked for. */
  ghost predicate QueuedFor(job: Job, wanted: Option<HostId>) {
    if job.host.Some? then wanted == job.host else wanted == job.requested
  }

  /** A queued job goes ahead exactly if its host is up, nobody leases the tree, and nobody else has the session; its
      record leaves the queue, with mode and attempts. */
  lemma RetryLeaseLeaves(cfg: Config, world: World, s: State, j: JobId, wanted: Option<HostId>)
    requires Core(cfg, s.db) && Is(s, j, WaitingLease) && j in s.db.recovery && QueuedFor(s.db.jobs[j], wanted)
    ensures var job, r, d := s.db.jobs[j], s.db.recovery[j], RetryLease(cfg, world, s, j).db;
            var host, o := world.resolve(job.project, wanted), Owner(job.project, job.user);
            if host.None? || Tree(host.value, cfg.path(job.project, host.value)) in s.db.leases then d == s.db
            else if o in s.db.locks && s.db.locks[o] != j then Leaves(s.db, d, j, job.(host := host), r)
            else Gets(cfg, world, s.db, d, j, host.value, if r.mode.StartMode? then Assigned else Running,
                      Recovery(LeaseKind, r.mode, r.attempts, None, None, None))
  {
    var job := s.db.jobs[j];
    var host := world.resolve(job.project, wanted);
    LeasesNothing(cfg, s, j);
    if host.Some? && Tree(host.value, cfg.path(job.project, host.value)) !in s.db.leases {
      if SessionFree(s.db, j) {
        DequeuedLeaves(cfg, world, s, j, host.value);
      } else {
        RequeuedLeaves(cfg, s, j, host.value);
      }
    }
  }

  lemma LeasesNothing(cfg: Config, s: State, j: JobId)
    requires Core(cfg, s.db) && Is(s, j, WaitingLease)
    ensures forall t | t in s.db.leases :: s.db.leases[t] != j
  {
  }

  lemma RequeuedLeaves(cfg: Config, s: State, j: JobId, host: HostId)
    requires Is(s, j, WaitingLease) && j in s.db.recovery && forall t | t in s.db.leases :: s.db.leases[t] != j
    requires TreeOn(cfg, s.db.jobs[j], host) !in s.db.leases
    ensures Leaves(s.db, Requeue(GivenBack(cfg, s, j, host, s.db.recovery[j]), j).db, j,
                   s.db.jobs[j].(host := Some(host)), s.db.recovery[j])
  {
  }

  lemma DequeuedLeaves(cfg: Config, world: World, s: State, j: JobId, host: HostId)
    requires Is(s, j, WaitingLease) && j in s.db.recovery
    ensures var r := s.db.recovery[j];
            Gets(cfg, world, s.db, LeaseRetried(Placed(cfg, world, s, j, host, r), j).db, j, host,
                 if r.mode.StartMode? then Assigned else Running, Recovery(LeaseKind, r.mode, r.attempts, None, None, None))
  {
  }

  /** The host a waiting job goes on with: that of its Project OS task; else, if it has a conversation, the host that it
      was on; else the one that was asked for. */
  ghost predicate GoesBackTo(world: World, job: Job, j: JobId, wanted: Option<HostId>) {
    if world.pinned(j).Some? then wanted == world.pinned(j)
    else if job.thread.Some? && job.host.Some? then wanted == job.host
    else wanted == job.requested
  }

  /** The record with which a retried host wait leaves the schedule. */
  ghost predicate OutOfSchedule(before: Recovery, r: Recovery) {
    && r.due == None && r.attempts == before.attempts && r.position == before.position
    && match before.mode {
         case StartMode => r.kind == HostKind && r.mode == StartMode && r.exec == before.exec
         case QaMode => r.kind == before.kind && r.mode == QaMode && r.exec == None
         case FinalizeMode => r.kind == before.kind && r.mode == FinalizeMode && r.exec == None
         case _ => r.kind == before.kind && r.mode == ResumeMode && r.exec == before.exec
       }
  }

  /** The job has no session to acquire: only the tree is needed for a finalization. */
  ghost predicate Finalizes(cfg: Config, a: Db, b: Db, j: JobId, host: HostId)
    requires j in a.jobs
  {
    && b.jobs == a.jobs[j := a.jobs[j].(state := Starting, host := Some(host))]
    && b.leases == a.leases[Tree(host, cfg.path(a.jobs[j].project, host)) := j]
    && b.locks == a.locks && b.ledger == a.ledger
  }

  /** The job joins the queue for the tree, and has none any more. */
  ghost predicate Queues(a: Db, b: Db, j: JobId, host: HostId, mode: Mode, now: int)
    requires j in a.jobs
  {
    && b.jobs == a.jobs[j := a.jobs[j].(state := WaitingLease, host := Some(host))]
    && (forall t :: t in b.leases <==> t in a.leases && a.leases[t] != j)
    && (forall t | t in b.leases :: b.leases[t] == a.leases[t])
    && b.locks == a.locks && b.ledger == a.ledger
    && exists p: nat :: PlaceOf(a.recovery, j, p)
         && b.recovery == a.recovery[j := Recovery(LeaseKind, mode, 0, Some(now), None, Some(p))]
  }

  /** What a host retry that finds the tree free leaves. */
  ghost predicate GoesOn(cfg: Config, world: World, a: Db, d: Db, j: JobId, host: HostId, r: Recovery, now: int)
    requires j in a.jobs
  {
    var o := Owner(a.jobs[j].project, a.jobs[j].user);
    if !r.mode.FinalizeMode? && o in a.locks && a.locks[o] != j then Queues(a, d, j, host, r.mode, now)
    else
      && j in d.recovery && OutOfSchedule(r, d.recovery[j])
      && if r.mode.FinalizeMode? then Finalizes(cfg, a, d, j, host) && d.recovery == a.recovery[j := d.recovery[j]]
         else Gets(cfg, world, a, d, j, host, if r.mode.StartMode? then Assigned else Running, d.recovery[j])
  }

  /** A job that waits for its adoption is left alone, whatever happens to hosts and trees. Any other goes on with the
      host it belongs to exactly if that is up and its tree is free: a finalization at once, anything else if its
      session is free too, and otherwise it joins the queue. */
  lemma RetryHostLeaves(cfg: Config, world: World, s: State, j: JobId, now: int, wanted: Option<HostId>)
    requires Is(s, j, WaitingHost) && j in s.db.recovery && GoesBackTo(world, s.db.jobs[j], j, wanted)
    ensures var job, r, d := s.db.jobs[j], s.db.recovery[j], RetryHost(cfg, world, s, j, now).db;
            var host := world.resolve(job.project, wanted);
            if r.mode.AdoptMode? || host.None? || Taken(s.db.leases, j, Tree(host.value, cfg.path(job.project, host.value)))
            then d == s.db
            else GoesOn(cfg, world, s.db, d, j, host.value, r, now)
  {
    var job := s.db.jobs[j];
    var host := world.resolve(job.project, wanted);
    assert wanted == WantedHost(world, job, j);
    if host.Some? {
      TakenIsNotFree(s.db.leases, j, Tree(host.value, cfg.path(job.project, host.value)));
      if !s.db.recovery[j].mode.AdoptMode? && TreeFree(cfg, s.db, j, host.value) {
        GoesOnLeaves(cfg, world, s, j, now, host.value);
      }
    }
  }

  lemma GoesOnLeaves(cfg: Config, world: World, s: State, j: JobId, now: int, host: HostId)
    requires Is(s, j, WaitingHost) && j in s.db.recovery && !s.db.recovery[j].mode.AdoptMode?
    requires world.resolve(s.db.jobs[j].project, WantedHost(world, s.db.jobs[j], j)) == Some(host)
    requires TreeFree(cfg, s.db, j, host)
    ensures GoesOn(cfg, world, s.db, RetryHost(cfg, world, s, j, now).db, j, host, s.db.recovery[j], now)
  {
    if s.db.recovery[j].mode.FinalizeMode? {
      FinalizedLeaves(cfg, s, j, host);
    } else if SessionFree(s.db, j) {
      HostRetriedLeaves(cfg, world, s, j, host);
    } else {
      LockedOutLeaves(cfg, s, j, host, now);
    }
  }

  lemma FinalizedLeaves(cfg: Config, s: State, j: JobId, host: HostId)
    requires Is(s, j, WaitingHost) && j in s.db.recovery && s.db.recovery[j].mode.FinalizeMode?
    ensures var r := s.db.recovery[j];
            var d := Write(Move(Assign(cfg, s, j, host, Some(r)), j, Starting), j, HostRetryRecord(r)).db;
            && Finalizes(cfg, s.db, d, j, host) && j in d.recovery && OutOfSchedule(r, d.recovery[j])
            && d.recovery == s.db.recovery[j := d.recovery[j]]
  {
  }

  lemma HostRetriedLeaves(cfg: Config, world: World, s: State, j: JobId, host: HostId)
    requires Is(s, j, WaitingHost) && j in s.db.recovery && !s.db.recovery[j].mode.FinalizeMode?
    ensures var r := s.db.recovery[j];
            var d := HostRetried(Placed(cfg, world, s, j, host, r), j, r).db;
            && j in d.recovery && OutOfSchedule(r, d.recovery[j])
            && Gets(cfg, world, s.db, d, j, host, if r.mode.StartMode? then Assigned else Running, d.recovery[j])
  {
  }

  lemma LockedOutLeaves(cfg: Config, s: State, j: JobId, host: HostId, now: int)
    requires Is(s, j, WaitingHost) && j in s.db.recovery && !s.db.recovery[j].mode.FinalizeMode?
    requires LeaseFree(s.db.leases, j, TreeOn(cfg, s.db.jobs[j], host))
    ensures var r := s.db.recovery[j];
            var back := GivenBack(cfg, s, j, host, r);
            Queues(s.db, LeaseWait(back, j, r.mode, host, QueuePosition(back.db.recovery, j), now).db, j, host, r.mode, now)
  {
    var back := GivenBack(cfg, s, j, host, s.db.recovery[j]);
    LeaseWaitLeaves(back, j, s.db.recovery[j].mode, host, now);
    assert PlaceOf(s.db.recovery, j, QueuePosition(back.db.recovery, j));
  }

  /** The record that a manual retry makes up for a job without one: due at once, by the conversation. */
  lemma MadeUpLeaves(s: State, j: JobId, now: int)
    requires j in s.db.jobs && Waiting(s.db.jobs[j].state)
    ensures j in s.db.recovery ==> MadeUp(s, j, now) == s
    ensures j !in s.db.recovery ==>
              var job, d := s.db.jobs[j], MadeUp(s, j, now).db;
              && j in d.recovery && Leaves(s.db, d, j, job, d.recovery[j])
              && var r := d.recovery[j];
                 && r.kind == (if job.state.WaitingQuota? then QuotaKind else if job.state.WaitingLease? then LeaseKind else HostKind)
                 && r.mode == (if job.thread.Some? then ResumeMode else StartMode)
                 && r.attempts == 0 && r.due == Some(now) && r.exec == None
                 && if job.state.WaitingLease? then r.position.Some? && PlaceOf(s.db.recovery, j, r.position.value)
                    else r.position == None
  {
  }
}
