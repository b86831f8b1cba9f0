/** Manual and automatic retries of waiting jobs, and the pass over all of them
    (job_manager.py, recover_due, retry_waiting and the _retry_* helpers). */
module Scheduler {
  import opened Wrappers
  import opened States
  import opened Tables
  import opened Matching
  import opened Transactions
  import opened Invariants
  import opened Safety
  import opened Runs

  /** What a retry asks the outside world: the host router, the host registry, the conversation of
      an open project session (or the seed, if it has to be created), and the host that a Project
      OS task is pinned to. */
  datatype World = World(
    resolve: (ProjectId, Option<HostId>) -> Option<HostId>,
    online: HostId -> bool,
    conversation: (Owner, Option<ThreadId>) -> Option<ThreadId>,
    pinned: JobId -> Option<HostId>)

  // ---- reachability ----

  /** ... by orderly steps. */
  ghost predicate Reaches(cfg: Config, s: State, s': State) {
    exists acts: seq<Action> :: Legal(cfg, s, acts) && OrderlyRun(cfg, s, acts) && Run(cfg, s, acts) == s'
  }

  lemma ReachesSelf(cfg: Config, s: State)
    ensures Reaches(cfg, s, s)
  {
    assert Legal(cfg, s, []) && OrderlyRun(cfg, s, []) && Run(cfg, s, []) == s;
  }

  lemma ReachesOn(cfg: Config, s: State, s1: State, s2: State)
    requires Reaches(cfg, s, s1) && Reaches(cfg, s1, s2)
    ensures Reaches(cfg, s, s2)
  {
    var acts :| Legal(cfg, s, acts) && OrderlyRun(cfg, s, acts) && Run(cfg, s, acts) == s1;
    var more :| Legal(cfg, s1, more) && OrderlyRun(cfg, s1, more) && Run(cfg, s1, more) == s2;
    RunAppend(cfg, s, acts, more);
  }

  /** One more step of a run that has come from s to s1. */
  lemma Step(cfg: Config, s: State, s1: State, a: Action)
    requires Inv(cfg, s) && Reaches(cfg, s, s1) && Enabled(cfg, s1, a) && Orderly(s1, a)
    ensures Reaches(cfg, s, Next(cfg, s1, a)) && Inv(cfg, s1) && Inv(cfg, Next(cfg, s1, a))
  {
    OneStep(cfg, s1, a);
    ReachesOn(cfg, s, s1, Next(cfg, s1, a));
    ReachesKeeps(cfg, s, s1);
    NextKeeps(cfg, s1, a);
  }

  lemma ReachesKeeps(cfg: Config, s: State, s': State)
    requires Inv(cfg, s) && Reaches(cfg, s, s')
    ensures Inv(cfg, s')
  {
    var acts :| Legal(cfg, s, acts) && OrderlyRun(cfg, s, acts) && Run(cfg, s, acts) == s';
    RunKeeps(cfg, s, acts);
  }

  // ---- one retry ----

  predicate TreeFree(cfg: Config, d: Db, j: JobId, host: HostId)
    requires j in d.jobs
  {
    LeaseFree(d.leases, j, TreeOn(cfg, d.jobs[j], host))
  }

  /** The project session of j's owner can be acquired for j. */
  predicate SessionFree(d: Db, j: JobId)
    requires j in d.jobs
  {
    OwnerOf(d.jobs[j]) in d.locks ==> d.locks[OwnerOf(d.jobs[j])] == j
  }

  /** Lease and session are in hand, and the job continues the session's conversation. */
  function Placed(cfg: Config, world: World, s: State, j: JobId, host: HostId, r: Recovery): State
    requires j in s.db.jobs && AfterAssign(s.db.jobs[j].state, Some(r)).AwaitSession?
  {
    var job := s.db.jobs[j];
    SetThread(GrantSession(Assign(cfg, s, j, host, Some(r)), j), j, world.conversation(OwnerOf(job), job.thread))
  }

  /** The lease was taken and, because the session is busy, given back. */
  function GivenBack(cfg: Config, s: State, j: JobId, host: HostId, r: Recovery): State
    requires j in s.db.jobs && AfterAssign(s.db.jobs[j].state, Some(r)).AwaitSession?
  {
    ReturnLease(Assign(cfg, s, j, host, Some(r)), j)
  }

  function Launched(s: State, j: JobId): State
    requires j in s.db.jobs
  {
    Move(Move(s, j, Starting), j, Running)
  }

  /** A first start is left to its task; everything else is RUNNING when its task starts. */
  function LeaseRetried(p: State, j: JobId): State
    requires j in p.db.jobs && j in p.mem.flow && p.mem.flow[j].Dequeue?
  {
    var p1 := LeaveQueue(p, j);
    if p.mem.flow[j].read.mode.StartMode? then p1 else Launched(p1, j)
  }

  function RetryLease(cfg: Config, world: World, s: State, j: JobId): State
    requires j in s.db.jobs && s.db.jobs[j].state.WaitingLease? && j in s.db.recovery
  {
    var job, r := s.db.jobs[j], s.db.recovery[j];
    match world.resolve(job.project, if job.host.Some? then job.host else job.requested)
    case None => s
    case Some(host) =>
      if !TreeFree(cfg, s.db, j, host) then s
      else if !SessionFree(s.db, j) then Requeue(GivenBack(cfg, s, j, host, r), j)
      else
        LeaseRetried(Placed(cfg, world, s, j, host, r), j)
  }

  function RetryQuota(world: World, s: State, j: JobId): State
    requires j in s.db.jobs && s.db.jobs[j].state.WaitingQuota? && j in s.db.recovery
  {
    var job, r := s.db.jobs[j], s.db.recovery[j];
    if job.host.Some? && !world.online(job.host.value) then s
    else
      Write(ResumeQuota(s, j, r), j, QuotaRetryRecord(r))
  }

  /** The host a waiting job goes on with: that of its Project OS task, that of its conversation,
      or the one that was asked for. */
  function WantedHost(world: World, job: Job, j: JobId): Option<HostId> {
    if world.pinned(j).Some? then world.pinned(j)
    else if job.thread.Some? && job.host.Some? then job.host
    else job.requested
  }

  function HostRetried(p: State, j: JobId, r: Recovery): State
    requires j in p.db.jobs
  {
    Write(if r.mode.StartMode? then p else Launched(p, j), j, HostRetryRecord(r))
  }

  ghost function RetryHost(cfg: Config, world: World, s: State, j: JobId, now: int): State
    requires j in s.db.jobs && s.db.jobs[j].state.WaitingHost? && j in s.db.recovery
  {
    var job, r := s.db.jobs[j], s.db.recovery[j];
    if r.mode.AdoptMode? then s
    else match world.resolve(job.project, WantedHost(world, job, j))
    case None => s
    case Some(host) =>
      if !TreeFree(cfg, s.db, j, host) then s
      else if r.mode.FinalizeMode? then
        Write(Move(Assign(cfg, s, j, host, Some(r)), j, Starting), j, HostRetryRecord(r))
      else if !SessionFree(s.db, j) then
        var back := GivenBack(cfg, s, j, host, r);
        LeaseWait(back, j, r.mode, host, QueuePosition(back.db.recovery, j), now)
      else
        HostRetried(Placed(cfg, world, s, j, host, r), j, r)
  }

  /** retry_waiting makes up a missing record first. */
  ghost function MadeUp(s: State, j: JobId, now: int): State
    requires j in s.db.jobs
  {
    if j in s.db.recovery then s
    else if s.db.jobs[j].state.WaitingLease? then MakeUpPlace(s, j, QueuePosition(s.db.recovery, j), now)
    else Put(s, j, MadeUpRecord(s.db.jobs[j], now))
  }

  // ---- the queue position ----

  /** The largest position in use, 0 without one. */
  ghost function MaxPosition(recovery: Recoveries, jobs: set<JobId>): (m: nat)
    ensures forall k | k in jobs && k in recovery && recovery[k].position.Some? :: recovery[k].position.value <= m
    ensures m == 0 || exists k | k in jobs && k in recovery :: recovery[k].position == Some(m)
  {
    if jobs == {} then 0
    else
      var k :| k in jobs;
      var m := MaxPosition(recovery, jobs - {k});
      if k in recovery && recovery[k].position.Some? && recovery[k].position.value > m then recovery[k].position.value else m
  }

  /** The position a job keeps, or the next one. */
  ghost function QueuePosition(recovery: Recoveries, j: JobId): (p: nat)
    ensures if j in recovery && recovery[j].position.Some? then Some(p) == recovery[j].position
            else NextPosition(recovery, p)
  {
    if j in recovery && recovery[j].position.Some? then recovery[j].position.value
    else MaxPosition(recovery, recovery.Keys) + 1
  }

  // ---- every retry is a run of transactions ----

  /** A waiting job is nowhere in a placement. */
  lemma WaitingIsIdle(cfg: Config, s: State, j: JobId)
    requires Inv(cfg, s) && s.mem.serving && j in s.db.jobs && Waiting(s.db.jobs[j].state)
    ensures j !in s.mem.flow && (s.db.jobs[j].state.WaitingQuota? ==> j in s.db.recovery)
  {
    assert WaitRecorded(s.db.jobs[j], s.db.recovery, s.mem.pending, j);
  }

  /** The record is read, and nothing comes in between. */
  lemma AssignRuns(cfg: Config, s: State, j: JobId, host: HostId)
    requires Inv(cfg, s) && j in s.db.recovery && AssignOk(cfg, s, j, host, Some(s.db.recovery[j]))
    ensures Reaches(cfg, s, Assign(cfg, s, j, host, Some(s.db.recovery[j])))
  {
    var r := s.db.recovery[j];
    ReachesSelf(cfg, s);
    Step(cfg, s, s, NoteStep(DoRead(j)));
    WithWithout(s, Reading(j, r));
    Step(cfg, s, With(s, Reading(j, r)), PlacementStep(DoAssign(j, host, Some(r))));
  }

  lemma PlacedRuns(cfg: Config, world: World, s: State, j: JobId, host: HostId)
    requires Inv(cfg, s) && j in s.db.recovery && AssignOk(cfg, s, j, host, Some(s.db.recovery[j])) && SessionFree(s.db, j)
    requires AfterAssign(s.db.jobs[j].state, Some(s.db.recovery[j])).AwaitSession?
    ensures Reaches(cfg, s, Placed(cfg, world, s, j, host, s.db.recovery[j]))
  {
    var job := s.db.jobs[j];
    AssignRuns(cfg, s, j, host);
    var s1 := Assign(cfg, s, j, host, Some(s.db.recovery[j]));
    Step(cfg, s, s1, PlacementStep(DoGrantSession(j)));
    Step(cfg, s, GrantSession(s1, j), TurnStep(DoSetThread(j, world.conversation(OwnerOf(job), job.thread))));
  }

  lemma GivenBackRuns(cfg: Config, s: State, j: JobId, host: HostId)
    requires Inv(cfg, s) && j in s.db.recovery && AssignOk(cfg, s, j, host, Some(s.db.recovery[j])) && !SessionFree(s.db, j)
    requires AfterAssign(s.db.jobs[j].state, Some(s.db.recovery[j])).AwaitSession?
    ensures Reaches(cfg, s, GivenBack(cfg, s, j, host, s.db.recovery[j]))
  {
    AssignRuns(cfg, s, j, host);
    Step(cfg, s, Assign(cfg, s, j, host, Some(s.db.recovery[j])), PlacementStep(DoReturnLease(j)));
  }

  lemma MoveRuns(cfg: Config, s: State, s1: State, j: JobId, target: JobState)
    requires Inv(cfg, s) && Reaches(cfg, s, s1) && MoveOk(s1, j, target)
    ensures Reaches(cfg, s, Move(s1, j, target))
  {
    Step(cfg, s, s1, TurnStep(DoMove(j, target)));
  }

  lemma LaunchedRuns(cfg: Config, s: State, s1: State, j: JobId)
    requires Inv(cfg, s) && Reaches(cfg, s, s1)
    requires s1.mem.serving && Is(s1, j, Assigned) && j in s1.mem.flow && s1.mem.flow[j].Launch?
    requires s1.mem.flow[j].resumed.Some? ==> !s1.mem.flow[j].resumed.value.mode.FinalizeMode?
    ensures Reaches(cfg, s, Launched(s1, j))
  {
    MoveRuns(cfg, s, s1, j, Starting);
    MoveRuns(cfg, s, Move(s1, j, Starting), j, Running);
  }

  lemma RequeuedRuns(cfg: Config, s: State, j: JobId, host: HostId)
    requires Inv(cfg, s) && j in s.db.recovery && AssignOk(cfg, s, j, host, Some(s.db.recovery[j])) && !SessionFree(s.db, j)
    requires Is(s, j, WaitingLease)
    ensures Reaches(cfg, s, Requeue(GivenBack(cfg, s, j, host, s.db.recovery[j]), j))
  {
    GivenBackRuns(cfg, s, j, host);
    Step(cfg, s, GivenBack(cfg, s, j, host, s.db.recovery[j]), PlacementStep(DoRequeue(j)));
  }

  lemma RetryLeaseRuns(cfg: Config, world: World, s: State, j: JobId)
    requires Inv(cfg, s) && s.mem.serving && Is(s, j, WaitingLease) && j in s.db.recovery
    ensures Reaches(cfg, s, RetryLease(cfg, world, s, j))
  {
    WaitingIsIdle(cfg, s, j);
    var job := s.db.jobs[j];
    var h := world.resolve(job.project, if job.host.Some? then job.host else job.requested);
    if h.None? || !TreeFree(cfg, s.db, j, h.value) {
      ReachesSelf(cfg, s);
    } else if !SessionFree(s.db, j) {
      RequeuedRuns(cfg, s, j, h.value);
    } else {
      DequeuedRuns(cfg, world, s, j, h.value);
    }
  }

  lemma DequeuedRuns(cfg: Config, world: World, s: State, j: JobId, host: HostId)
    requires Inv(cfg, s) && s.mem.serving && Is(s, j, WaitingLease) && j in s.db.recovery && j !in s.mem.flow
    requires TreeFree(cfg, s.db, j, host) && SessionFree(s.db, j)
    ensures Reaches(cfg, s, LeaseRetried(Placed(cfg, world, s, j, host, s.db.recovery[j]), j))
  {
    PlacedRuns(cfg, world, s, j, host);
    LeaseRetryLaunches(cfg, s, Placed(cfg, world, s, j, host, s.db.recovery[j]), j);
  }

  lemma LeaseRetryLaunches(cfg: Config, s: State, p: State, j: JobId)
    requires Inv(cfg, s) && Reaches(cfg, s, p)
    requires p.mem.serving && Is(p, j, Assigned) && j in p.mem.flow && p.mem.flow[j].Dequeue?
    ensures Reaches(cfg, s, LeaseRetried(p, j))
  {
    Step(cfg, s, p, PlacementStep(DoLeaveQueue(j)));
    if !p.mem.flow[j].read.mode.StartMode? {
      LaunchedRuns(cfg, s, LeaveQueue(p, j), j);
    }
  }

  lemma WriteRuns(cfg: Config, s: State, p: State, j: JobId, r: Recovery)
    requires Inv(cfg, s) && Reaches(cfg, s, p) && WriteOk(p, j, r)
    ensures Reaches(cfg, s, Write(p, j, r))
  {
    Step(cfg, s, p, NoteStep(DoWrite(j, r)));
  }

  lemma RetryQuotaRuns(cfg: Config, world: World, s: State, j: JobId)
    requires Inv(cfg, s) && s.mem.serving && Is(s, j, WaitingQuota)
    ensures j in s.db.recovery && Reaches(cfg, s, RetryQuota(world, s, j))
  {
    WaitingIsIdle(cfg, s, j);
    var r := s.db.recovery[j];
    ReachesSelf(cfg, s);
    if RetryQuota(world, s, j) != s {
      Step(cfg, s, s, NoteStep(DoRead(j)));
      WithWithout(s, Reading(j, r));
      Step(cfg, s, With(s, Reading(j, r)), PlacementStep(DoResumeQuota(j, r)));
      WriteRuns(cfg, s, ResumeQuota(s, j, r), j, QuotaRetryRecord(r));
    }
  }

  lemma RetryHostRuns(cfg: Config, world: World, s: State, j: JobId, now: int)
    requires Inv(cfg, s) && s.mem.serving && Is(s, j, WaitingHost) && j in s.db.recovery
    ensures Reaches(cfg, s, RetryHost(cfg, world, s, j, now))
  {
    WaitingIsIdle(cfg, s, j);
    var job, r := s.db.jobs[j], s.db.recovery[j];
    var h := world.resolve(job.project, WantedHost(world, job, j));
    if r.mode.AdoptMode? || h.None? || !TreeFree(cfg, s.db, j, h.value) {
      ReachesSelf(cfg, s);
    } else if r.mode.FinalizeMode? {
      FinalizeRetryRuns(cfg, s, j, h.value);
    } else if !SessionFree(s.db, j) {
      LockedOutRuns(cfg, s, j, h.value, now);
    } else {
      GoesOnRuns(cfg, world, s, j, h.value);
    }
  }

  lemma LockedOutRuns(cfg: Config, s: State, j: JobId, host: HostId, now: int)
    requires Inv(cfg, s) && Is(s, j, WaitingHost) && j in s.db.recovery && !s.db.recovery[j].mode.FinalizeMode?
    requires AssignOk(cfg, s, j, host, Some(s.db.recovery[j])) && !SessionFree(s.db, j)
    ensures var back := GivenBack(cfg, s, j, host, s.db.recovery[j]);
            Reaches(cfg, s, LeaseWait(back, j, s.db.recovery[j].mode, host, QueuePosition(back.db.recovery, j), now))
  {
    GivenBackRuns(cfg, s, j, host);
    HostRetryQueues(cfg, s, GivenBack(cfg, s, j, host, s.db.recovery[j]), j, host, s.db.recovery[j], now);
  }

  lemma GoesOnRuns(cfg: Config, world: World, s: State, j: JobId, host: HostId)
    requires Inv(cfg, s) && Is(s, j, WaitingHost) && j in s.db.recovery && !s.db.recovery[j].mode.FinalizeMode?
    requires AssignOk(cfg, s, j, host, Some(s.db.recovery[j])) && SessionFree(s.db, j)
    ensures var r := s.db.recovery[j]; Reaches(cfg, s, HostRetried(Placed(cfg, world, s, j, host, r), j, r))
  {
    PlacedRuns(cfg, world, s, j, host);
    HostRetryLaunches(cfg, s, Placed(cfg, world, s, j, host, s.db.recovery[j]), j, s.db.recovery[j]);
  }

  lemma HostRetryQueues(cfg: Config, s: State, back: State, j: JobId, host: HostId, r: Recovery, now: int)
    requires Inv(cfg, s) && Reaches(cfg, s, back)
    requires back.mem.serving && Is(back, j, Assigned) && back.db.jobs[j].host == Some(host)
    requires j in back.mem.flow && back.mem.flow[j] == Flow.Returned(r, false)
    requires !r.mode.FinalizeMode? && !r.mode.AdoptMode?
    ensures Reaches(cfg, s, LeaseWait(back, j, r.mode, host, QueuePosition(back.db.recovery, j), now))
  {
    LeaseWaitRuns(cfg, s, back, j, r.mode, host, now);
  }

  /** The wait is entered and the place determined, and nothing comes in between. */
  lemma LeaseWaitRuns(cfg: Config, s: State, s1: State, j: JobId, mode: Mode, host: HostId, now: int)
    requires Inv(cfg, s) && Reaches(cfg, s, s1) && EnterLeaseWaitOk(cfg, s1, j, mode, host)
    ensures Reaches(cfg, s, LeaseWait(s1, j, mode, host, QueuePosition(s1.db.recovery, j), now))
  {
    var p, r := QueuePosition(s1.db.recovery, j), LeaseWaitRecord(mode, now);
    var s2 := EnterLeaseWait(s1, j, mode, host, now);
    Step(cfg, s, s1, WaitStep(DoEnterLeaseWait(j, mode, host, now)));
    assert Queuing(j, r) in s2.mem.pending;
    Step(cfg, s, s2, WaitStep(DoTakePlace(j, r, p)));
    LeaseWaitIs(s1, j, mode, host, p, now);
  }

  /** How a lease wait that is under way goes on. */
  ghost function PlaceStep(s: State, j: JobId, r: Recovery): Wait {
    if r.position.Some? then DoWritePlace(j, r) else DoTakePlace(j, r, QueuePosition(s.db.recovery, j))
  }

  lemma PlaceIsWritten(cfg: Config, s: State, j: JobId, r: Recovery)
    requires s.mem.serving && Queuing(j, r) in s.mem.pending
    ensures WaitOk(cfg, s, PlaceStep(s, j, r))
    ensures var s' := WaitNext(cfg, s, PlaceStep(s, j, r));
            && s'.db.jobs == s.db.jobs && s'.mem == Without(s, Queuing(j, r)).mem
            && j in s'.db.recovery && s'.db.recovery[j].mode == r.mode && s'.db.recovery[j].exec == r.exec
  {
  }

  lemma FinalizeRetryRuns(cfg: Config, s: State, j: JobId, host: HostId)
    requires Inv(cfg, s) && Is(s, j, WaitingHost) && j in s.db.recovery && s.db.recovery[j].mode.FinalizeMode?
    requires AssignOk(cfg, s, j, host, Some(s.db.recovery[j]))
    ensures var r := s.db.recovery[j];
            Reaches(cfg, s, Write(Move(Assign(cfg, s, j, host, Some(r)), j, Starting), j, HostRetryRecord(r)))
  {
    var r := s.db.recovery[j];
    AssignRuns(cfg, s, j, host);
    var s1 := Assign(cfg, s, j, host, Some(r));
    MoveRuns(cfg, s, s1, j, Starting);
    WriteRuns(cfg, s, Move(s1, j, Starting), j, HostRetryRecord(r));
  }

  lemma HostRetryLaunches(cfg: Config, s: State, p: State, j: JobId, r: Recovery)
    requires Inv(cfg, s) && Reaches(cfg, s, p)
    requires p.mem.serving && Is(p, j, Assigned) && j in p.mem.flow && !r.mode.FinalizeMode?
    requires if r.mode.StartMode? then Writing(j, HostRetryRecord(r)) in p.mem.pending else p.mem.flow[j] == Launch(Some(r))
    ensures Reaches(cfg, s, HostRetried(p, j, r))
  {
    if r.mode.StartMode? {
      WriteRuns(cfg, s, p, j, HostRetryRecord(r));
    } else {
      LaunchedRuns(cfg, s, p, j);
      assert Writing(j, HostRetryRecord(r)) in Launched(p, j).mem.pending;
      WriteRuns(cfg, s, Launched(p, j), j, HostRetryRecord(r));
    }
  }

  lemma MadeUpRuns(cfg: Config, s: State, j: JobId, now: int)
    requires Inv(cfg, s) && s.mem.serving && j in s.db.jobs && Waiting(s.db.jobs[j].state)
    ensures Reaches(cfg, s, MadeUp(s, j, now))
  {
    ReachesSelf(cfg, s);
    if j !in s.db.recovery && s.db.jobs[j].state.WaitingLease? {
      Step(cfg, s, s, WaitStep(DoMakeUpPlace(j, QueuePosition(s.db.recovery, j), now)));
    } else if j !in s.db.recovery {
      var r := MadeUpRecord(s.db.jobs[j], now);
      Step(cfg, s, s, NoteStep(DoMakeUp(j, now)));
      WriteRuns(cfg, s, With(s, Writing(j, r)), j, r);
      WithWithout(Put(s, j, r), Writing(j, r));
    }
  }

  // ---- so every retry keeps the invariants ----

  lemma RetryLeaseKeeps(cfg: Config, world: World, s: State, j: JobId)
    requires Inv(cfg, s) && s.mem.serving && Is(s, j, WaitingLease) && j in s.db.recovery
    ensures Inv(cfg, RetryLease(cfg, world, s, j))
  {
    RetryLeaseRuns(cfg, world, s, j);
    ReachesKeeps(cfg, s, RetryLease(cfg, world, s, j));
  }

  lemma RetryQuotaKeeps(cfg: Config, world: World, s: State, j: JobId)
    requires Inv(cfg, s) && s.mem.serving && Is(s, j, WaitingQuota)
    ensures j in s.db.recovery && Inv(cfg, RetryQuota(world, s, j))
  {
    RetryQuotaRuns(cfg, world, s, j);
    ReachesKeeps(cfg, s, RetryQuota(world, s, j));
  }

  lemma RetryHostKeeps(cfg: Config, world: World, s: State, j: JobId, now: int)
    requires Inv(cfg, s) && s.mem.serving && Is(s, j, WaitingHost) && j in s.db.recovery
    ensures Inv(cfg, RetryHost(cfg, world, s, j, now))
  {
    RetryHostRuns(cfg, world, s, j, now);
    ReachesKeeps(cfg, s, RetryHost(cfg, world, s, j, now));
  }
}
