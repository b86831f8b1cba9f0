/** New jobs and cancellations, as sequences of transactions (job_manager.py, create, retry_failed,
    cancel). */
module Admission {
  import opened Wrappers
  import opened States
  import opened Tables
  import opened Matching
  import opened Transactions
  import opened Invariants
  import opened Safety
  import opened Runs
  import opened Scheduler
  import Outcomes

  /** wanted is the host the job should go to: the requested one, or that of the conversation it joins. */
  datatype Request = Request(id: JobId, project: ProjectId, user: UserId, requested: Option<HostId>, wanted: Option<HostId>,
                             mode: Mode, thread: Option<ThreadId>, created: int)

  /** The id is new: no row and no lock knows it. */
  predicate ValidRequest(s: State, q: Request) {
    && (OwnerOfRequest(q) in s.db.locks ==> s.db.locks[OwnerOfRequest(q)] != q.id)
    && s.mem.serving && q.id !in s.db.jobs && (q.mode.StartMode? || q.mode.ResumeMode?)
    && (q.requested.Some? ==> q.wanted == q.requested)
  }

  function OwnerOfRequest(q: Request): Owner {
    Owner(q.project, q.user)
  }

  /** The project session, if it is free, and the row. */
  function Recorded(world: World, s: State, q: Request): State {
    var o := OwnerOfRequest(q);
    var free := o !in s.db.locks;
    var thread := if free then world.conversation(o, q.thread) else q.thread;
    AddJob(if free then TakeSession(s, q.id, o) else s, q.id,
           Job(Queued, q.project, q.user, q.requested, None, thread, q.created))
  }

  /** The job is recorded; busy says that its session was not free. */
  ghost function Continued(cfg: Config, world: World, s: State, q: Request, busy: bool, now: int): State
    requires q.id in s.db.jobs
  {
    match world.resolve(q.project, q.wanted)
    case None => HostWait(s, q.id, q.mode, q.wanted, now)
    case Some(host) =>
      if busy then LeaseWait(s, q.id, q.mode, host, QueuePosition(s.db.recovery, q.id), now)
      else if TreeFree(cfg, s.db, q.id, host) then Assign(cfg, s, q.id, host, None)
      else
        var s1 := UnlockUnplaced(s, q.id);
        LeaseWait(s1, q.id, q.mode, host, QueuePosition(s1.db.recovery, q.id), now)
  }

  ghost function Admitted(cfg: Config, world: World, s: State, q: Request, now: int): State {
    Continued(cfg, world, Recorded(world, s, q), q, OwnerOfRequest(q) in s.db.locks, now)
  }

  lemma RecordedRuns(cfg: Config, world: World, s: State, q: Request)
    requires Inv(cfg, s) && ValidRequest(s, q)
    ensures Reaches(cfg, s, Recorded(world, s, q))
  {
    var o := OwnerOfRequest(q);
    ReachesSelf(cfg, s);
    var thread := if o !in s.db.locks then world.conversation(o, q.thread) else q.thread;
    var job := Job(Queued, q.project, q.user, q.requested, None, thread, q.created);
    if o !in s.db.locks {
      Step(cfg, s, s, PlacementStep(DoTakeSession(q.id, o)));
      Step(cfg, s, TakeSession(s, q.id, o), PlacementStep(DoAddJob(q.id, job)));
    } else {
      Step(cfg, s, s, PlacementStep(DoAddJob(q.id, job)));
    }
  }

  lemma NeverStarted(cfg: Config, s: State, j: JobId)
    requires Inv(cfg, s) && j !in s.db.jobs
    ensures !Started(s.db.log, j)
  {
    if Started(s.db.log, j) {
      StartedIsPresent(s.db.log, j);
    }
  }

  /** A new job holds its session exactly if it was free, and has neither lease nor record. */
  lemma RecordedHas(cfg: Config, world: World, s: State, q: Request)
    requires Inv(cfg, s) && ValidRequest(s, q)
    ensures var s1 := Recorded(world, s, q);
            && Is(s1, q.id, Queued) && q.id in s1.mem.flow && s1.mem.flow[q.id] == Creating && s1.mem.serving
            && q.id !in s1.db.recovery && s1.db.leases == s.db.leases && s1.db.recovery == s.db.recovery
            && (forall t | t in s1.db.leases :: s1.db.leases[t] != q.id)
            && (OwnerOfRequest(q) !in s.db.locks ==> HoldsSession(s1.db.jobs, s1.db.locks, q.id))
            && (HoldsSession(s1.db.jobs, s1.db.locks, q.id) ==> OwnerOfRequest(q) !in s.db.locks)
            && (forall r: Recovery :: Entering(q.id, r) !in s1.mem.pending) && q.id !in s1.mem.handles
  {
    if q.id in s.mem.handles {
      NeverStarted(cfg, s, q.id);
      assert false;
    }
    forall r: Recovery ensures Entering(q.id, r) !in s.mem.pending {
      assert Entering(q.id, r) in s.mem.pending ==> PendingSound(s.db.jobs, s.db.log, Entering(q.id, r));
    }
  }

  lemma AdmittedRuns(cfg: Config, world: World, s: State, q: Request, now: int)
    requires Inv(cfg, s) && ValidRequest(s, q)
    ensures Reaches(cfg, s, Admitted(cfg, world, s, q, now))
  {
    RecordedRuns(cfg, world, s, q);
    RecordedHas(cfg, world, s, q);
    var s1 := Recorded(world, s, q);
    match world.resolve(q.project, q.wanted)
    case None => UnplacedRuns(cfg, s, s1, q, now);
    case Some(host) =>
      if OwnerOfRequest(q) in s.db.locks {
        QueuedRuns(cfg, s, s1, q, host, now);
      } else if TreeFree(cfg, s1.db, q.id, host) {
        Step(cfg, s, s1, PlacementStep(DoAssign(q.id, host, None)));
      } else {
        Step(cfg, s, s1, PlacementStep(DoUnlockUnplaced(q.id)));
        QueuedRuns(cfg, s, UnlockUnplaced(s1, q.id), q, host, now);
      }
  }

  lemma UnplacedRuns(cfg: Config, s: State, s1: State, q: Request, now: int)
    requires Inv(cfg, s) && Reaches(cfg, s, s1) && s1.mem.serving && Is(s1, q.id, Queued)
    requires q.id in s1.mem.flow && s1.mem.flow[q.id].Creating? && (q.mode.StartMode? || q.mode.ResumeMode?)
    requires forall r: Recovery :: Entering(q.id, r) !in s1.mem.pending
    ensures Reaches(cfg, s, HostWait(s1, q.id, q.mode, q.wanted, now))
  {
    var r, s2 := HostWaitRecord(s1, q.id, q.mode, now), EnterHostWait(s1, q.id, q.mode, q.wanted, now);
    Step(cfg, s, s1, WaitStep(DoEnterHostWait(q.id, q.mode, q.wanted, now)));
    assert Entering(q.id, r) in s2.mem.pending;
    Step(cfg, s, s2, WaitStep(DoRecordHostWait(q.id, r)));
  }

  lemma QueuedRuns(cfg: Config, s: State, s2: State, q: Request, host: HostId, now: int)
    requires Inv(cfg, s) && Reaches(cfg, s, s2) && s2.mem.serving && Is(s2, q.id, Queued) && q.id !in s2.db.recovery
    requires q.id in s2.mem.flow && (s2.mem.flow[q.id].Creating? || s2.mem.flow[q.id].Unlocked?)
    requires !HoldsSession(s2.db.jobs, s2.db.locks, q.id) && (q.mode.StartMode? || q.mode.ResumeMode?)
    ensures Reaches(cfg, s, LeaseWait(s2, q.id, q.mode, host, QueuePosition(s2.db.recovery, q.id), now))
  {
    LeaseWaitRuns(cfg, s, s2, q.id, q.mode, host, now);
  }

  /** Nothing of any other job changes hands. */
  ghost predicate OthersKept(a: Db, b: Db) {
    && (forall k | k in a.jobs :: k in b.jobs && b.jobs[k] == a.jobs[k])
    && (forall t | t in a.leases :: t in b.leases && b.leases[t] == a.leases[t])
    && (forall o | o in a.locks :: o in b.locks && b.locks[o] == a.locks[o])
  }

  /** Where a new job ends up: it is placed exactly if its host is up and both its session and its tree
      are free, and then it holds both; it waits for its host, keeping a session it got; or it joins the
      queue and holds nothing. */
  ghost predicate Placement(cfg: Config, world: World, s: State, q: Request, d: Db) {
    var host, free := world.resolve(q.project, q.wanted), OwnerOfRequest(q) !in s.db.locks;
    && q.id in d.jobs && OthersKept(s.db, d)
    && (d.jobs[q.id].state.Assigned? <==>
              host.Some? && free && Tree(host.value, cfg.path(q.project, host.value)) !in s.db.leases)
    && (d.jobs[q.id].state.WaitingHost? <==> host.None?)
    && (d.jobs[q.id].state.WaitingLease? <==> !d.jobs[q.id].state.Assigned? && host.Some?)
    && (HoldsLease(cfg, d.jobs, d.leases, q.id) <==> d.jobs[q.id].state.Assigned?)
    && (HoldsSession(d.jobs, d.locks, q.id) <==> free && !d.jobs[q.id].state.WaitingLease?)
  }

  lemma WaitsForHost(cfg: Config, world: World, s: State, q: Request, now: int)
    requires Inv(cfg, s) && ValidRequest(s, q) && world.resolve(q.project, q.wanted).None?
    ensures Placement(cfg, world, s, q, Admitted(cfg, world, s, q, now).db)
  {
  }

  /** Tables in which only a row for q was added, with or without its lease and its lock. */
  ghost predicate Grown(s: State, q: Request, d: Db) {
    && q.id in d.jobs && d.jobs == s.db.jobs[q.id := d.jobs[q.id]] && q.id !in s.db.jobs
    && OwnerOf(d.jobs[q.id]) == OwnerOfRequest(q) && d.jobs[q.id].project == q.project
    && (forall t | t in s.db.leases :: s.db.leases[t] != q.id)
  }

  lemma GrownAndPlaced(cfg: Config, world: World, s: State, q: Request, d: Db, host: HostId)
    requires Grown(s, q, d) && world.resolve(q.project, q.wanted) == Some(host) && OwnerOfRequest(q) !in s.db.locks
    requires var t := Tree(host, cfg.path(q.project, host)); t !in s.db.leases && d.leases == s.db.leases[t := q.id]
    requires d.locks == s.db.locks[OwnerOfRequest(q) := q.id] && d.jobs[q.id].state.Assigned? && d.jobs[q.id].host == Some(host)
    ensures Placement(cfg, world, s, q, d)
  {
  }

  lemma GrownAndQueued(cfg: Config, world: World, s: State, q: Request, d: Db, host: HostId)
    requires Grown(s, q, d) && world.resolve(q.project, q.wanted) == Some(host) && OwnerOfRequest(q) in s.db.locks
    requires d.leases == s.db.leases && d.locks == s.db.locks && d.jobs[q.id].state.WaitingLease?
    requires s.db.locks[OwnerOfRequest(q)] != q.id
    ensures Placement(cfg, world, s, q, d)
  {
  }

  /** No lease knows the new id. */
  lemma NewLeasesNothing(cfg: Config, s: State, q: Request)
    requires LeasesFit(cfg, s.db.jobs, s.db.leases) && q.id !in s.db.jobs
    ensures forall t | t in s.db.leases :: s.db.leases[t] != q.id
  {
  }

  lemma PlacedDb(cfg: Config, world: World, s: State, q: Request, now: int, host: HostId)
    requires ValidRequest(s, q) && world.resolve(q.project, q.wanted) == Some(host)
    requires OwnerOfRequest(q) !in s.db.locks && TreeFree(cfg, Recorded(world, s, q).db, q.id, host)
    requires forall t | t in s.db.leases :: s.db.leases[t] != q.id
    ensures var d, t := Admitted(cfg, world, s, q, now).db, Tree(host, cfg.path(q.project, host));
            && Grown(s, q, d) && t !in s.db.leases && d.leases == s.db.leases[t := q.id]
            && d.locks == s.db.locks[OwnerOfRequest(q) := q.id] && d.jobs[q.id].state.Assigned? && d.jobs[q.id].host == Some(host)
  {
  }

  lemma QueuedDb(cfg: Config, world: World, s: State, q: Request, now: int, host: HostId)
    requires ValidRequest(s, q) && world.resolve(q.project, q.wanted) == Some(host)
    requires OwnerOfRequest(q) in s.db.locks && forall t | t in s.db.leases :: s.db.leases[t] != q.id
    ensures var d := Admitted(cfg, world, s, q, now).db;
            Grown(s, q, d) && d.leases == s.db.leases && d.locks == s.db.locks && d.jobs[q.id].state.WaitingLease?
  {
  }

  lemma IsPlaced(cfg: Config, world: World, s: State, q: Request, now: int, host: HostId)
    requires LeasesFit(cfg, s.db.jobs, s.db.leases) && ValidRequest(s, q) && world.resolve(q.project, q.wanted) == Some(host)
    requires OwnerOfRequest(q) !in s.db.locks && TreeFree(cfg, Recorded(world, s, q).db, q.id, host)
    ensures Placement(cfg, world, s, q, Admitted(cfg, world, s, q, now).db)
  {
    NewLeasesNothing(cfg, s, q);
    PlacedDb(cfg, world, s, q, now, host);
    GrownAndPlaced(cfg, world, s, q, Admitted(cfg, world, s, q, now).db, host);
  }

  lemma FindsSessionBusy(cfg: Config, world: World, s: State, q: Request, now: int, host: HostId)
    requires LeasesFit(cfg, s.db.jobs, s.db.leases) && ValidRequest(s, q) && world.resolve(q.project, q.wanted) == Some(host)
    requires OwnerOfRequest(q) in s.db.locks
    ensures Placement(cfg, world, s, q, Admitted(cfg, world, s, q, now).db)
  {
    NewLeasesNothing(cfg, s, q);
    QueuedDb(cfg, world, s, q, now, host);
    GrownAndQueued(cfg, world, s, q, Admitted(cfg, world, s, q, now).db, host);
  }

  lemma LockTakenAndGiven(world: World, s: State, q: Request)
    requires ValidRequest(s, q) && OwnerOfRequest(q) !in s.db.locks
    ensures var d := UnlockUnplaced(Recorded(world, s, q), q.id).db;
            && d.locks == s.db.locks && d.leases == s.db.leases && q.id in d.jobs
            && d.jobs == s.db.jobs[q.id := d.jobs[q.id]] && OwnerOf(d.jobs[q.id]) == OwnerOfRequest(q)
  {
  }

  /** The session that was taken is given back. */
  lemma SessionGivenBack(world: World, s: State, q: Request, host: HostId, now: int)
    requires ValidRequest(s, q) && OwnerOfRequest(q) !in s.db.locks
    ensures var s2 := UnlockUnplaced(Recorded(world, s, q), q.id);
            var d := LeaseWait(s2, q.id, q.mode, host, QueuePosition(s2.db.recovery, q.id), now).db;
            && d.locks == s.db.locks && d.leases == s.db.leases && q.id in d.jobs && d.jobs[q.id].state.WaitingLease?
            && d.jobs == s.db.jobs[q.id := d.jobs[q.id]] && OwnerOf(d.jobs[q.id]) == OwnerOfRequest(q)
  {
    LockTakenAndGiven(world, s, q);
    var s2 := UnlockUnplaced(Recorded(world, s, q), q.id);
    LeaseWaitTables(s2, q.id, q.mode, host, QueuePosition(s2.db.recovery, q.id), now);
  }

  lemma LeaseWaitTables(s: State, j: JobId, mode: Mode, host: HostId, p: nat, now: int)
    requires j in s.db.jobs
    ensures var d := LeaseWait(s, j, mode, host, p, now).db;
            && d.locks == s.db.locks && d.leases == s.db.leases
            && d.jobs == s.db.jobs[j := s.db.jobs[j].(state := WaitingLease, host := Some(host))]
  {
  }

  lemma GrownAndLockedOut(cfg: Config, world: World, s: State, q: Request, d: Db, host: HostId)
    requires Grown(s, q, d) && world.resolve(q.project, q.wanted) == Some(host) && OwnerOfRequest(q) !in s.db.locks
    requires d.leases == s.db.leases && d.locks == s.db.locks && d.jobs[q.id].state.WaitingLease?
    requires Tree(host, cfg.path(q.project, host)) in s.db.leases
    ensures Placement(cfg, world, s, q, d)
  {
  }

  /** Nobody else leases another tree for the new id, so it is the tree itself that is busy. */
  lemma BusyTree(cfg: Config, world: World, s: State, q: Request, host: HostId)
    requires Inv(cfg, s) && ValidRequest(s, q) && !TreeFree(cfg, Recorded(world, s, q).db, q.id, host)
    ensures Tree(host, cfg.path(q.project, host)) in s.db.leases
  {
    RecordedHas(cfg, world, s, q);
  }

  lemma FindsTreeBusy(cfg: Config, world: World, s: State, q: Request, now: int, host: HostId)
    requires Inv(cfg, s) && ValidRequest(s, q) && world.resolve(q.project, q.wanted) == Some(host)
    requires OwnerOfRequest(q) !in s.db.locks && !TreeFree(cfg, Recorded(world, s, q).db, q.id, host)
    ensures Placement(cfg, world, s, q, Admitted(cfg, world, s, q, now).db)
  {
    SessionGivenBack(world, s, q, host, now);
    BusyTree(cfg, world, s, q, host);
    NewLeasesNothing(cfg, s, q);
    GrownAndLockedOut(cfg, world, s, q, Admitted(cfg, world, s, q, now).db, host);
  }

  lemma AdmittedOutcome(cfg: Config, world: World, s: State, q: Request, now: int)
    requires Inv(cfg, s) && ValidRequest(s, q)
    ensures Placement(cfg, world, s, q, Admitted(cfg, world, s, q, now).db)
  {
    var h := world.resolve(q.project, q.wanted);
    if h.None? {
      WaitsForHost(cfg, world, s, q, now);
    } else if OwnerOfRequest(q) !in s.db.locks && TreeFree(cfg, Recorded(world, s, q).db, q.id, h.value) {
      IsPlaced(cfg, world, s, q, now, h.value);
    } else if OwnerOfRequest(q) in s.db.locks {
      FindsSessionBusy(cfg, world, s, q, now, h.value);
    } else {
      FindsTreeBusy(cfg, world, s, q, now, h.value);
    }
  }

  // ---- row and record of a new job ----

  /** The row says what was asked for, the host as far as it is known, and the conversation of a session that was free; a
      job that was not placed has a record that is due at once, with a place behind all others if it is queued. */
  ghost predicate Written(world: World, s: State, q: Request, d: Db, now: int) {
    var host, o := world.resolve(q.project, q.wanted), OwnerOfRequest(q);
    && q.id in d.jobs
    && d.jobs[q.id] == Job(d.jobs[q.id].state, q.project, q.user, q.requested, if host.Some? then host else q.wanted,
                           if o in s.db.locks then q.thread else world.conversation(o, q.thread), q.created)
    && (d.jobs[q.id].state.Assigned? ==> d.recovery == s.db.recovery)
    && (d.jobs[q.id].state.WaitingHost? ==>
          d.recovery == s.db.recovery[q.id := Recovery(HostKind, q.mode, 0, Some(now), None, None)])
    && (d.jobs[q.id].state.WaitingLease? ==>
          exists p: nat :: Behind(s.db.recovery, p)
            && d.recovery == s.db.recovery[q.id := Recovery(LeaseKind, q.mode, 0, Some(now), None, Some(p))])
  }

  ghost predicate Behind(recovery: Recoveries, p: nat) {
    forall k | k in recovery && recovery[k].position.Some? :: recovery[k].position.value < p
  }

  lemma AdmittedWritten(cfg: Config, world: World, s: State, q: Request, now: int)
    requires Inv(cfg, s) && ValidRequest(s, q)
    ensures Written(world, s, q, Admitted(cfg, world, s, q, now).db, now)
  {
    RecordedHas(cfg, world, s, q);
    RecordedRow(world, s, q);
    ContinuedWritten(cfg, world, s, Recorded(world, s, q), q, now);
  }

  lemma RecordedRow(world: World, s: State, q: Request)
    ensures var s1, o := Recorded(world, s, q), OwnerOfRequest(q);
            q.id in s1.db.jobs
            && s1.db.jobs[q.id] == Job(Queued, q.project, q.user, q.requested, None,
                                       if o in s.db.locks then q.thread else world.conversation(o, q.thread), q.created)
  {
  }

  lemma ContinuedWritten(cfg: Config, world: World, s: State, s1: State, q: Request, now: int)
    requires Is(s1, q.id, Queued) && q.id !in s1.db.recovery && s1.db.recovery == s.db.recovery && q.id !in s1.mem.handles
    requires s1.db.jobs[q.id] == Job(Queued, q.project, q.user, q.requested, None,
               if OwnerOfRequest(q) in s.db.locks then q.thread else world.conversation(OwnerOfRequest(q), q.thread), q.created)
    ensures Written(world, s, q, Continued(cfg, world, s1, q, OwnerOfRequest(q) in s.db.locks, now).db, now)
  {
    var host := world.resolve(q.project, q.wanted);
    if host.None? {
      Outcomes.HostWaitLeaves(s1, q.id, q.mode, q.wanted, now);
    } else if OwnerOfRequest(q) in s.db.locks {
      JoinsWritten(world, s, s1, q, host.value, now);
    } else if !TreeFree(cfg, s1.db, q.id, host.value) {
      JoinsWritten(world, s, UnlockUnplaced(s1, q.id), q, host.value, now);
    }
  }

  lemma JoinsWritten(world: World, s: State, s1: State, q: Request, host: HostId, now: int)
    requires Is(s1, q.id, Queued) && q.id !in s1.db.recovery && s1.db.recovery == s.db.recovery
    requires world.resolve(q.project, q.wanted) == Some(host)
    requires s1.db.jobs[q.id] == Job(Queued, q.project, q.user, q.requested, None,
               if OwnerOfRequest(q) in s.db.locks then q.thread else world.conversation(OwnerOfRequest(q), q.thread), q.created)
    ensures Written(world, s, q, LeaseWait(s1, q.id, q.mode, host, QueuePosition(s1.db.recovery, q.id), now).db, now)
  {
    Outcomes.LeaseWaitLeaves(s1, q.id, q.mode, host, now);
    assert Behind(s.db.recovery, QueuePosition(s1.db.recovery, q.id));
  }

  lemma QueuedLast(s: State, j: JobId, mode: Mode, host: HostId, now: int, k: JobId)
    requires j in s.db.jobs && j !in s.db.recovery && k in s.db.recovery && s.db.recovery[k].position.Some?
    ensures var d := LeaseWait(s, j, mode, host, QueuePosition(s.db.recovery, j), now).db;
            && k in d.recovery && d.recovery[k] == s.db.recovery[k]
            && j in d.recovery && d.recovery[j].position.Some? && d.recovery[j].position.value > s.db.recovery[k].position.value
  {
  }

  lemma ContinuedLast(cfg: Config, world: World, s: State, q: Request, busy: bool, now: int, k: JobId)
    requires Is(s, q.id, Queued) && q.id !in s.db.recovery && k in s.db.recovery && s.db.recovery[k].position.Some?
    ensures var d := Continued(cfg, world, s, q, busy, now).db;
            && k in d.recovery && d.recovery[k] == s.db.recovery[k] && q.id in d.jobs
            && (d.jobs[q.id].state.WaitingLease? ==>
                  q.id in d.recovery && d.recovery[q.id].position.Some?
                  && d.recovery[q.id].position.value > s.db.recovery[k].position.value)
  {
    var h := world.resolve(q.project, q.wanted);
    if h.Some? && busy {
      QueuedLast(s, q.id, q.mode, h.value, now, k);
    } else if h.Some? && !TreeFree(cfg, s.db, q.id, h.value) {
      QueuedLast(UnlockUnplaced(s, q.id), q.id, q.mode, h.value, now, k);
    }
  }

  /** A job that joins the queue joins its end. */
  lemma AdmittedLast(cfg: Config, world: World, s: State, q: Request, now: int, k: JobId)
    requires Inv(cfg, s) && ValidRequest(s, q) && k in s.db.recovery && s.db.recovery[k].position.Some?
    ensures var d := Admitted(cfg, world, s, q, now).db;
            && k in d.recovery && d.recovery[k] == s.db.recovery[k] && q.id in d.jobs
            && (d.jobs[q.id].state.WaitingLease? ==>
                  q.id in d.recovery && d.recovery[q.id].position.Some?
                  && d.recovery[q.id].position.value > s.db.recovery[k].position.value)
  {
    RecordedHas(cfg, world, s, q);
    ContinuedLast(cfg, world, Recorded(world, s, q), q, OwnerOfRequest(q) in s.db.locks, now, k);
  }

  // ---- cancellation ----

  /** _finalize_cancellation and the releases of its transition. */
  function Ended(s: State, j: JobId): State
    requires j in s.db.jobs
  {
    ReleaseLease(ReleaseSession(Finalized(s, j), j), j)
  }

  /** The job is CANCELLING: ask its handle; or wait for a task that starts a turn; or keep a recorded execution
      pending; or end it. */
  function Stopped(cfg: Config, s: State, j: JobId, confirmed: bool): State
    requires j in s.db.jobs
  {
    match HandleOf(s.mem, j)
    case Some(e) =>
      var s2 := CancelNote(s, j, e);
      if confirmed then Ended(Confirm(s2, e), j) else s2
    case None =>
      if Turning(j) in s.mem.pending then s
      else if Remote(cfg, s.db.jobs[j]) && j in s.db.recovery && s.db.recovery[j].exec.Some?
      then Parked(s, j) else Ended(s, j)
  }

  /** A request to cancel; confirmed says that the runner answered with a definite result in time. */
  function CancelledBy(cfg: Config, s: State, j: JobId, confirmed: bool): State
    requires j in s.db.jobs
  {
    if Terminal(s.db.jobs[j].state) then s
    else
      Stopped(cfg, if s.db.jobs[j].state.Cancelling? then s else CancelRequest(s, j), j, confirmed)
  }

  lemma EndedRuns(cfg: Config, s: State, s1: State, j: JobId)
    requires Inv(cfg, s) && j in s1.db.jobs && Reaches(cfg, s, Finalized(s1, j))
    ensures Reaches(cfg, s, Ended(s1, j))
  {
    var s2 := Finalized(s1, j);
    Step(cfg, s, s2, TurnStep(DoReleaseSession(j)));
    Step(cfg, s, ReleaseSession(s2, j), TurnStep(DoReleaseLease(j)));
  }

  lemma CancelRequestRuns(cfg: Config, s: State, j: JobId)
    requires Inv(cfg, s) && s.mem.serving && j in s.db.jobs && !Terminal(s.db.jobs[j].state)
    ensures var s1 := if s.db.jobs[j].state.Cancelling? then s else CancelRequest(s, j);
            Reaches(cfg, s, s1) && Is(s1, j, Cancelling) && s1.mem == s.mem
  {
    ReachesSelf(cfg, s);
    if !s.db.jobs[j].state.Cancelling? {
      Step(cfg, s, s, CancellationStep(DoCancelRequest(j)));
    }
  }

  lemma CancelNoteRuns(cfg: Config, s: State, s1: State, j: JobId, e: ExecId)
    requires Inv(cfg, s) && Reaches(cfg, s, s1) && NoteCancelOk(s1, j, e)
    ensures Reaches(cfg, s, CancelNote(s1, j, e))
  {
    var r := CancelRecord(s1.db, j, e);
    Step(cfg, s, s1, NoteStep(DoNoteCancel(j, e)));
    WriteRuns(cfg, s, With(s1, Writing(j, r)), j, r);
    WithWithout(Put(s1, j, r), Writing(j, r));
  }

  /** The handle is let go of. */
  lemma LetGoRuns(cfg: Config, s: State, s1: State, j: JobId, e: ExecId)
    requires Inv(cfg, s) && Reaches(cfg, s, With(s1, Hold(j, e)))
    ensures Reaches(cfg, s, s1)
  {
    Step(cfg, s, With(s1, Hold(j, e)), NoteStep(DoDiscard(Hold(j, e))));
    WithWithout(s1, Hold(j, e));
  }

  lemma HandleCancelRuns(cfg: Config, s: State, s1: State, j: JobId, e: ExecId, confirmed: bool)
    requires Inv(cfg, s) && Reaches(cfg, s, s1) && s1.mem.serving && Is(s1, j, Cancelling)
             && HandleOf(s1.mem, j) == Some(e)
    ensures var s2 := CancelNote(s1, j, e); Reaches(cfg, s, if confirmed then Ended(Confirm(s2, e), j) else s2)
  {
    var t, s2 := Hold(j, e), CancelNote(s1, j, e);
    Step(cfg, s, s1, ExecuteStep(DoReadHandle(j)));
    CancelNoteRuns(cfg, s, With(s1, t), j, e);
    assert CancelNote(With(s1, t), j, e) == With(s2, t);
    if confirmed {
      ConfirmedRuns(cfg, s, s2, j, e);
    } else {
      LetGoRuns(cfg, s, s2, j, e);
    }
  }

  lemma ConfirmedRuns(cfg: Config, s: State, s2: State, j: JobId, e: ExecId)
    requires Inv(cfg, s) && Reaches(cfg, s, With(s2, Hold(j, e))) && s2.mem.serving && Is(s2, j, Cancelling)
    ensures Reaches(cfg, s, Ended(Confirm(s2, e), j))
  {
    var t := Hold(j, e);
    Step(cfg, s, With(s2, t), ExecuteStep(DoConfirm(e)));
    assert Confirm(With(s2, t), e) == With(Confirm(s2, e), t);
    Step(cfg, s, With(Confirm(s2, e), t), CancellationStep(DoFinalize(j, e)));
    assert Finalized(With(Confirm(s2, e), t), j) == With(Finalized(Confirm(s2, e), j), t);
    LetGoRuns(cfg, s, Finalized(Confirm(s2, e), j), j, e);
    EndedRuns(cfg, s, Confirm(s2, e), j);
  }

  lemma LookRuns(cfg: Config, s: State, s1: State, j: JobId)
    requires Inv(cfg, s) && Reaches(cfg, s, s1) && LookOk(s1, j)
    ensures Reaches(cfg, s, With(s1, Looking(j)))
  {
    Step(cfg, s, s1, CancellationStep(DoLook(j)));
    WithWithout(s1, Looking(j));
  }

  lemma ParkedRuns(cfg: Config, s: State, s1: State, j: JobId)
    requires Inv(cfg, s) && Reaches(cfg, s, s1) && LookOk(s1, j) && Turning(j) !in s1.mem.pending
    requires Remote(cfg, s1.db.jobs[j]) && j in s1.db.recovery && s1.db.recovery[j].exec.Some?
    ensures Reaches(cfg, s, Parked(s1, j))
  {
    var r := ParkRecord(s1.db.recovery[j]);
    LookRuns(cfg, s, s1, j);
    WithWithout(s1, Looking(j));
    Step(cfg, s, With(s1, Looking(j)), NoteStep(DoPark(j)));
    WriteRuns(cfg, s, With(s1, Writing(j, r)), j, r);
    WithWithout(Put(s1, j, r), Writing(j, r));
  }

  lemma AtOnceRuns(cfg: Config, s: State, s1: State, j: JobId)
    requires Inv(cfg, s) && Reaches(cfg, s, s1) && LookOk(s1, j) && Turning(j) !in s1.mem.pending
    requires Remote(cfg, s1.db.jobs[j]) ==> j in s1.db.recovery ==> s1.db.recovery[j].exec == None
    ensures Reaches(cfg, s, Ended(s1, j))
  {
    LookRuns(cfg, s, s1, j);
    WithWithout(s1, Looking(j));
    Step(cfg, s, With(s1, Looking(j)), CancellationStep(DoDecideEnd(j)));
    WithWithout(s1, Ending(j));
    Step(cfg, s, With(s1, Ending(j)), CancellationStep(DoEndAtOnce(j)));
    EndedRuns(cfg, s, s1, j);
  }

  lemma CancelledByRuns(cfg: Config, s: State, j: JobId, confirmed: bool)
    requires Inv(cfg, s) && s.mem.serving && j in s.db.jobs
    ensures Reaches(cfg, s, CancelledBy(cfg, s, j, confirmed))
  {
    ReachesSelf(cfg, s);
    if !Terminal(s.db.jobs[j].state) {
      CancelRequestRuns(cfg, s, j);
      var s1 := if s.db.jobs[j].state.Cancelling? then s else CancelRequest(s, j);
      if HandleOf(s.mem, j).Some? {
        HandleCancelRuns(cfg, s, s1, j, s.mem.handles[j], confirmed);
      } else if Turning(j) !in s.mem.pending {
        if Remote(cfg, s1.db.jobs[j]) && j in s1.db.recovery && s1.db.recovery[j].exec.Some? {
          ParkedRuns(cfg, s, s1, j);
        } else {
          AtOnceRuns(cfg, s, s1, j);
        }
      }
    }
  }

  lemma AdmittedKeeps(cfg: Config, world: World, s: State, q: Request, now: int)
    requires Inv(cfg, s) && ValidRequest(s, q)
    ensures Inv(cfg, Admitted(cfg, world, s, q, now))
  {
    AdmittedRuns(cfg, world, s, q, now);
    ReachesKeeps(cfg, s, Admitted(cfg, world, s, q, now));
  }

  lemma CancelledByKeeps(cfg: Config, s: State, j: JobId, confirmed: bool)
    requires Inv(cfg, s) && s.mem.serving && j in s.db.jobs
    ensures Inv(cfg, CancelledBy(cfg, s, j, confirmed))
  {
    CancelledByRuns(cfg, s, j, confirmed);
    ReachesKeeps(cfg, s, CancelledBy(cfg, s, j, confirmed));
  }

  /** The request has ended the job: nothing of it is left but its row. */
  ghost predicate IsOver(cfg: Config, s: State, j: JobId) {
    && Is(s, j, Cancelled) && j !in s.db.recovery
    && !HoldsLease(cfg, s.db.jobs, s.db.leases, j) && !HoldsSession(s.db.jobs, s.db.locks, j)
  }

  /** The job is CANCELLING until its runner confirms the end of e; it keeps its tree and its session. */
  ghost predicate IsPending(cfg: Config, s: State, j: JobId, e: ExecId) {
    && Is(s, j, Cancelling) && j in s.db.recovery && s.db.recovery[j].mode.CancelMode? && s.db.recovery[j].exec == Some(e)
    && s.db.recovery[j].due == None && HoldsBoth(cfg, s, j)
  }

  function RecordedExecution(d: Db, j: JobId): Option<ExecId> {
    if j in d.recovery then d.recovery[j].exec else None
  }

  lemma StartedHoldsBoth(cfg: Config, s: State, j: JobId)
    requires Inv(cfg, s) && s.mem.serving && j in s.db.jobs && !Terminal(s.db.jobs[j].state)
    requires j in s.mem.handles || RecordedExecution(s.db, j).Some?
    ensures HoldsBoth(cfg, s, j)
  {
  }

  lemma EndedIsOver(cfg: Config, s: State, j: JobId)
    requires j in s.db.jobs
    ensures IsOver(cfg, Ended(s, j), j)
  {
  }

  /** The request itself touches neither lease nor session. */
  lemma RequestHolds(cfg: Config, s: State, j: JobId)
    requires j in s.db.jobs && HoldsBoth(cfg, s, j)
    ensures HoldsBoth(cfg, CancelRequest(s, j), j)
  {
  }

  lemma ParkedIsPending(cfg: Config, s: State, j: JobId, e: ExecId)
    requires Is(s, j, Cancelling) && HoldsBoth(cfg, s, j)
    ensures RecordedExecution(s.db, j) == Some(e) ==> IsPending(cfg, Parked(s, j), j, e)
    ensures IsPending(cfg, CancelNote(s, j, e), j, e)
  {
  }

  /** With a handle, the request ends the job exactly if the runner confirms in time. */
  lemma CancelledWithHandle(cfg: Config, s: State, j: JobId, confirmed: bool)
    requires Inv(cfg, s) && s.mem.serving && j in s.db.jobs && !Terminal(s.db.jobs[j].state) && j in s.mem.handles
    ensures var s' := CancelledBy(cfg, s, j, confirmed);
            if confirmed then IsOver(cfg, s', j) else IsPending(cfg, s', j, s.mem.handles[j])
  {
    StartedHoldsBoth(cfg, s, j);
    RequestHolds(cfg, s, j);
    var s1 := if s.db.jobs[j].state.Cancelling? then s else CancelRequest(s, j);
    var e := s.mem.handles[j];
    ParkedIsPending(cfg, s1, j, e);
    EndedIsOver(cfg, Confirm(CancelNote(s1, j, e), e), j);
  }

  /** While a turn is being started there is nothing to stop yet: the request is on record, and nothing else happens. */
  lemma CancelledWhileTurning(cfg: Config, s: State, j: JobId, confirmed: bool)
    requires j in s.db.jobs && !Terminal(s.db.jobs[j].state) && j !in s.mem.handles && Turning(j) in s.mem.pending
    ensures var d := CancelledBy(cfg, s, j, confirmed).db;
            && d.jobs == s.db.jobs[j := s.db.jobs[j].(state := Cancelling)]
            && d.recovery == s.db.recovery && d.leases == s.db.leases && d.locks == s.db.locks && d.ledger == s.db.ledger
  {
    assert s.db.jobs[j].state.Cancelling? ==> s.db.jobs[j].(state := Cancelling) == s.db.jobs[j];
  }

  /** Without one, and once no turn is being started, it ends the job unless a remote execution is recorded: that
      one may still run. */
  lemma CancelledWithoutHandle(cfg: Config, s: State, j: JobId, confirmed: bool)
    requires Inv(cfg, s) && s.mem.serving && j in s.db.jobs && !Terminal(s.db.jobs[j].state) && j !in s.mem.handles
    requires Turning(j) !in s.mem.pending
    ensures var s' := CancelledBy(cfg, s, j, confirmed); var e := RecordedExecution(s.db, j);
            if Remote(cfg, s.db.jobs[j]) && e.Some? then IsPending(cfg, s', j, e.value) else IsOver(cfg, s', j)
  {
    var s1 := if s.db.jobs[j].state.Cancelling? then s else CancelRequest(s, j);
    var e := RecordedExecution(s.db, j);
    if Remote(cfg, s.db.jobs[j]) && e.Some? {
      StartedHoldsBoth(cfg, s, j);
      RequestHolds(cfg, s, j);
      ParkedIsPending(cfg, s1, j, e.value);
    } else {
      EndedIsOver(cfg, s1, j);
    }
  }
}
