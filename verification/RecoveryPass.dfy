/** One uninterrupted pass of the scheduler over the recovery records (job_manager.py, recover_due;
    repositories.py, RecoveryRepository.list). */
module RecoveryPass {
  import opened Wrappers
  import opened States
  import opened Tables
  import opened Matching
  import opened Transactions
  import opened Invariants
  import opened Safety
  import opened Runs
  import opened Scheduler
  import Outcomes

  /** _is_due */
  predicate Due(due: Option<int>, now: int) {
    due.Some? ==> due.value <= now
  }

  /** The order of the pass: queue positions first, in ascending order, then the rest. */
  predicate Precedes(a: Option<nat>, b: Option<nat>) {
    a.Some? && (b.Some? ==> a.value < b.value)
  }

  ghost predicate Distinct(order: seq<JobId>) {
    forall a, b | 0 <= a < b < |order| :: order[a] != order[b]
  }

  ghost predicate ListOrder(order: seq<JobId>, recovery: Recoveries) {
    && (forall j :: j in order <==> j in recovery)
    && Distinct(order)
    && (forall a, b | 0 <= a < b < |order| && order[a] in recovery && order[b] in recovery ::
          !Precedes(recovery[order[b]].position, recovery[order[a]].position))
  }

  /** The retry that fits the state of the job. */
  ghost function Retry(cfg: Config, world: World, s: State, j: JobId, now: int): State
    requires j in s.db.jobs && j in s.db.recovery
  {
    match s.db.jobs[j].state
    case WaitingQuota => RetryQuota(world, s, j)
    case WaitingLease => RetryLease(cfg, world, s, j)
    case WaitingHost => RetryHost(cfg, world, s, j, now)
    case _ => s
  }

  /** The turn of one record. */
  ghost function PassStep(cfg: Config, world: World, s: State, j: JobId, now: int): State {
    if j !in s.db.recovery then s
    else if j !in s.db.jobs || Terminal(s.db.jobs[j].state) then Forget(s, j)
    else if !Due(s.db.recovery[j].due, now) then s
    else Retry(cfg, world, s, j, now)
  }

  /** The state in which the i-th record gets its turn; after the last one, the result of the pass. */
  ghost function Turn(cfg: Config, world: World, s: State, order: seq<JobId>, now: int, i: nat): State
    requires i <= |order|
  {
    if i == 0 then s else PassStep(cfg, world, Turn(cfg, world, s, order, now, i - 1), order[i - 1], now)
  }

  lemma NextTurn(cfg: Config, world: World, s: State, order: seq<JobId>, now: int, i: nat)
    requires i < |order|
    ensures Turn(cfg, world, s, order, now, i + 1) == PassStep(cfg, world, Turn(cfg, world, s, order, now, i), order[i], now)
  {
  }

  lemma LeaseRetriedServes(cfg: Config, world: World, s: State, j: JobId, host: HostId, r: Recovery)
    requires Is(s, j, WaitingLease)
    ensures LeaseRetried(Placed(cfg, world, s, j, host, r), j).mem.serving == s.mem.serving
  {
  }

  lemma RetryLeaseServes(cfg: Config, world: World, s: State, j: JobId)
    requires Is(s, j, WaitingLease) && j in s.db.recovery
    ensures RetryLease(cfg, world, s, j).mem.serving == s.mem.serving
  {
    var job := s.db.jobs[j];
    var h := world.resolve(job.project, if job.host.Some? then job.host else job.requested);
    if h.Some? {
      LeaseRetriedServes(cfg, world, s, j, h.value, s.db.recovery[j]);
    }
  }

  lemma HostRetriedServes(cfg: Config, world: World, s: State, j: JobId, host: HostId, r: Recovery)
    requires j in s.db.jobs && AfterAssign(s.db.jobs[j].state, Some(r)).AwaitSession?
    ensures HostRetried(Placed(cfg, world, s, j, host, r), j, r).mem.serving == s.mem.serving
  {
  }

  lemma RetryHostServes(cfg: Config, world: World, s: State, j: JobId, now: int)
    requires Is(s, j, WaitingHost) && j in s.db.recovery
    ensures RetryHost(cfg, world, s, j, now).mem.serving == s.mem.serving
  {
    var r, h := s.db.recovery[j], world.resolve(s.db.jobs[j].project, WantedHost(world, s.db.jobs[j], j));
    if h.Some? && AfterAssign(s.db.jobs[j].state, Some(r)).AwaitSession? {
      HostRetriedServes(cfg, world, s, j, h.value, r);
    }
  }

  lemma RetryServes(cfg: Config, world: World, s: State, j: JobId, now: int)
    requires j in s.db.jobs && j in s.db.recovery
    ensures Retry(cfg, world, s, j, now).mem.serving == s.mem.serving
  {
    match s.db.jobs[j].state
    case WaitingLease => RetryLeaseServes(cfg, world, s, j);
    case WaitingHost => RetryHostServes(cfg, world, s, j, now);
    case _ =>
  }

  lemma PassStepServes(cfg: Config, world: World, s: State, j: JobId, now: int)
    ensures PassStep(cfg, world, s, j, now).mem.serving == s.mem.serving
  {
    if j in s.db.recovery && j in s.db.jobs {
      RetryServes(cfg, world, s, j, now);
    }
  }

  lemma RetryRuns(cfg: Config, world: World, s: State, j: JobId, now: int)
    requires Inv(cfg, s) && s.mem.serving && j in s.db.jobs && j in s.db.recovery
    ensures Reaches(cfg, s, Retry(cfg, world, s, j, now))
  {
    match s.db.jobs[j].state
    case WaitingQuota => RetryQuotaRuns(cfg, world, s, j);
    case WaitingLease => RetryLeaseRuns(cfg, world, s, j);
    case WaitingHost => RetryHostRuns(cfg, world, s, j, now);
    case _ => ReachesSelf(cfg, s);
  }

  lemma PassStepRuns(cfg: Config, world: World, s: State, j: JobId, now: int)
    requires Inv(cfg, s) && s.mem.serving
    ensures Reaches(cfg, s, PassStep(cfg, world, s, j, now))
  {
    ReachesSelf(cfg, s);
    if j in s.db.recovery {
      if Ended(s, j) {
        Step(cfg, s, s, TurnStep(DoForget(j)));
      } else {
        RetryRuns(cfg, world, s, j, now);
      }
    }
  }

  lemma PassStepKeeps(cfg: Config, world: World, s: State, j: JobId, now: int)
    requires Inv(cfg, s) && s.mem.serving
    ensures Inv(cfg, PassStep(cfg, world, s, j, now))
  {
    PassStepRuns(cfg, world, s, j, now);
    ReachesKeeps(cfg, s, PassStep(cfg, world, s, j, now));
  }

  /** A pass is a run of the controller's transactions. */
  lemma {:induction false} PassRuns(cfg: Config, world: World, s: State, order: seq<JobId>, now: int, i: nat)
    requires Inv(cfg, s) && s.mem.serving && i <= |order|
    ensures var s' := Turn(cfg, world, s, order, now, i); Reaches(cfg, s, s') && Inv(cfg, s') && s'.mem.serving
  {
    if i == 0 {
      ReachesSelf(cfg, s);
    } else {
      PassRuns(cfg, world, s, order, now, i - 1);
      var s1 := Turn(cfg, world, s, order, now, i - 1);
      PassStepRuns(cfg, world, s1, order[i - 1], now);
      PassStepServes(cfg, world, s1, order[i - 1], now);
      ReachesOn(cfg, s, s1, PassStep(cfg, world, s1, order[i - 1], now));
      ReachesKeeps(cfg, s, Turn(cfg, world, s, order, now, i));
    }
  }

  // ---- what one turn leaves alone ----

  /** The project session of j is locked by another job. */
  predicate LockedOut(s: State, j: JobId) {
    j in s.db.jobs && !SessionFree(s.db, j)
  }

  /** j may give its lease back: it waits for a host while another job holds its session. */
  predicate Yields(s: State, j: JobId) {
    Is(s, j, WaitingHost) && LockedOut(s, j)
  }

  /** Only the row of j changes. */
  ghost predicate OnlyRow<T>(a: map<JobId, T>, b: map<JobId, T>, j: JobId) {
    && (forall k | k in a && k != j :: k in b && b[k] == a[k])
    && (forall k | k in b && k != j :: k in a)
  }

  /** Leases are only taken, and only by j, unless j yields. */
  ghost predicate OnlyTakes(a: Leases, b: Leases, j: JobId, mayYield: bool) {
    && (forall t | t in b :: b[t] == j || (t in a && a[t] == b[t]))
    && (forall t | t in a && (a[t] != j || !mayYield) :: t in b && b[t] == a[t])
  }

  ghost predicate LocksStay(a: Locks, b: Locks) {
    forall o | o in a :: o in b && b[o] == a[o]
  }

  /** The turn of j touches no other job, and takes nothing from anyone else. */
  ghost predicate OnlyFor(a: State, b: State, j: JobId) {
    && OnlyRow(a.db.jobs, b.db.jobs, j)
    && OnlyRow(a.db.recovery, b.db.recovery, j)
    && OnlyTakes(a.db.leases, b.db.leases, j, Yields(a, j))
    && LocksStay(a.db.locks, b.db.locks)
  }

  lemma QueuedLeasesNothing(cfg: Config, s: State, j: JobId)
    requires Core(cfg, s.db) && Is(s, j, WaitingLease)
    ensures forall t | t in s.db.leases :: s.db.leases[t] != j
  {
  }

  lemma PlacedOnly(cfg: Config, world: World, s: State, j: JobId, host: HostId, r: Recovery)
    requires j in s.db.jobs && TreeFree(cfg, s.db, j, host) && SessionFree(s.db, j)
    requires AfterAssign(s.db.jobs[j].state, Some(r)).AwaitSession?
    ensures OnlyFor(s, Placed(cfg, world, s, j, host, r), j)
  {
  }

  /** A lease that is taken and given back again. */
  lemma TakenAndGiven(leases: Leases, t: Tree, j: JobId)
    requires t in leases ==> leases[t] == j
    ensures WithoutJob(leases[t := j], j) == WithoutJob(leases, j)
    ensures OnlyTakes(leases, WithoutJob(leases, j), j, true)
    ensures (forall u | u in leases :: leases[u] != j) ==> WithoutJob(leases, j) == leases
  {
  }

  lemma QueuedPlacedOnly(cfg: Config, world: World, s: State, j: JobId, host: HostId)
    requires Is(s, j, WaitingLease) && TreeFree(cfg, s.db, j, host) && SessionFree(s.db, j) && j in s.db.recovery
    ensures OnlyFor(s, LeaseRetried(Placed(cfg, world, s, j, host, s.db.recovery[j]), j), j)
  {
    PlacedOnly(cfg, world, s, j, host, s.db.recovery[j]);
    LeaseRetriedOnly(Placed(cfg, world, s, j, host, s.db.recovery[j]), j);
  }

  lemma RetryLeaseOnly(cfg: Config, world: World, s: State, j: JobId)
    requires Core(cfg, s.db) && Is(s, j, WaitingLease) && j in s.db.recovery
    ensures OnlyFor(s, RetryLease(cfg, world, s, j), j)
  {
    var job, r := s.db.jobs[j], s.db.recovery[j];
    var h := world.resolve(job.project, if job.host.Some? then job.host else job.requested);
    if h.Some? && TreeFree(cfg, s.db, j, h.value) {
      if SessionFree(s.db, j) {
        QueuedPlacedOnly(cfg, world, s, j, h.value);
      } else {
        LockedOutRequeued(cfg, s, j, h.value, r);
      }
    }
  }

  /** A queued job that gets the tree but not its session is back in the queue, and only the
      event log has changed (and the host of a job that was queued for any). */
  lemma LockedOutRequeued(cfg: Config, s: State, j: JobId, host: HostId, r: Recovery)
    requires Core(cfg, s.db) && Is(s, j, WaitingLease) && TreeFree(cfg, s.db, j, host) && !SessionFree(s.db, j)
    ensures var d := Requeue(GivenBack(cfg, s, j, host, r), j).db;
            && d.jobs == s.db.jobs[j := s.db.jobs[j].(host := Some(host))]
            && d.leases == s.db.leases && d.locks == s.db.locks && d.recovery == s.db.recovery
            && d.log == s.db.log + [Moved(j, WaitingLease, Assigned), Moved(j, Assigned, WaitingLease)]
  {
  }

  lemma LeaseRetriedOnly(p: State, j: JobId)
    requires j in p.db.jobs && j in p.mem.flow && p.mem.flow[j].Dequeue?
    ensures var s' := LeaseRetried(p, j);
            OnlyRow(p.db.jobs, s'.db.jobs, j) && OnlyRow(p.db.recovery, s'.db.recovery, j)
            && s'.db.leases == p.db.leases && s'.db.locks == p.db.locks
            && j in s'.db.jobs && s'.db.jobs[j].host == p.db.jobs[j].host && OwnerOf(s'.db.jobs[j]) == OwnerOf(p.db.jobs[j])
            && (p.db.jobs[j].state.Assigned? ==> !s'.db.jobs[j].state.WaitingLease?)
  {
  }

  lemma HostRetriedOnly(p: State, j: JobId, r: Recovery)
    requires j in p.db.jobs
    ensures var s' := HostRetried(p, j, r);
            OnlyRow(p.db.jobs, s'.db.jobs, j) && OnlyRow(p.db.recovery, s'.db.recovery, j)
            && s'.db.leases == p.db.leases && s'.db.locks == p.db.locks
  {
  }

  lemma RetryQuotaOnly(cfg: Config, world: World, s: State, j: JobId)
    requires Is(s, j, WaitingQuota) && j in s.db.recovery
    ensures OnlyFor(s, RetryQuota(world, s, j), j)
  {
  }

  lemma LockedOutOnly(cfg: Config, s: State, j: JobId, host: HostId, r: Recovery, p: nat, now: int)
    requires Is(s, j, WaitingHost) && LockedOut(s, j) && TreeFree(cfg, s.db, j, host)
    requires AfterAssign(s.db.jobs[j].state, Some(r)).AwaitSession?
    ensures OnlyFor(s, LeaseWait(GivenBack(cfg, s, j, host, r), j, r.mode, host, p, now), j)
  {
    TakenAndGiven(s.db.leases, TreeOn(cfg, s.db.jobs[j], host), j);
  }

  lemma FinalizedOnly(cfg: Config, s: State, j: JobId, host: HostId, r: Recovery)
    requires Is(s, j, WaitingHost) && TreeFree(cfg, s.db, j, host)
    ensures OnlyFor(s, Write(Move(Assign(cfg, s, j, host, Some(r)), j, Starting), j, HostRetryRecord(r)), j)
  {
  }

  lemma RetryHostOnly(cfg: Config, world: World, s: State, j: JobId, now: int)
    requires Is(s, j, WaitingHost) && j in s.db.recovery
    ensures OnlyFor(s, RetryHost(cfg, world, s, j, now), j)
  {
    var job, r := s.db.jobs[j], s.db.recovery[j];
    var h := world.resolve(job.project, WantedHost(world, job, j));
    if !r.mode.AdoptMode? && h.Some? && TreeFree(cfg, s.db, j, h.value) && !r.mode.FinalizeMode? {
      if SessionFree(s.db, j) {
        PlacedOnly(cfg, world, s, j, h.value, r);
        HostRetriedOnly(Placed(cfg, world, s, j, h.value, r), j, r);
      } else {
        LockedOutOnly(cfg, s, j, h.value, r, QueuePosition(GivenBack(cfg, s, j, h.value, r).db.recovery, j), now);
      }
    } else if h.Some? && TreeFree(cfg, s.db, j, h.value) {
      FinalizedOnly(cfg, s, j, h.value, r);
    }
  }

  lemma RetryOnly(cfg: Config, world: World, s: State, j: JobId, now: int)
    requires Core(cfg, s.db) && j in s.db.jobs && j in s.db.recovery
    ensures OnlyFor(s, Retry(cfg, world, s, j, now), j)
  {
    match s.db.jobs[j].state
    case WaitingQuota => RetryQuotaOnly(cfg, world, s, j);
    case WaitingLease => RetryLeaseOnly(cfg, world, s, j);
    case WaitingHost => RetryHostOnly(cfg, world, s, j, now);
    case _ =>
  }

  lemma PassStepOnly(cfg: Config, world: World, s: State, j: JobId, now: int)
    requires Core(cfg, s.db)
    ensures OnlyFor(s, PassStep(cfg, world, s, j, now), j)
  {
    if j in s.db.recovery && j in s.db.jobs {
      RetryOnly(cfg, world, s, j, now);
    }
  }

  // ---- the dispatch of one queued job ----

  /** The working tree that a queued job waits for, if its host is up. */
  function Lane(cfg: Config, world: World, job: Job): Option<Tree> {
    match world.resolve(job.project, if job.host.Some? then job.host else job.requested)
    case None => None
    case Some(host) => Some(TreeOn(cfg, job, host))
  }

  /** j is in the queue for t, and the time of its record, if it has one, has come. */
  predicate Ready(cfg: Config, world: World, s: State, j: JobId, t: Tree, now: int) {
    && Is(s, j, WaitingLease) && j in s.db.recovery
    && (s.db.recovery[j].due.Some? ==> s.db.recovery[j].due.value <= now)
    && Lane(cfg, world, s.db.jobs[j]) == Some(t)
  }

  lemma PlacedTurn(cfg: Config, world: World, s: State, j: JobId, host: HostId)
    requires Is(s, j, WaitingLease) && j in s.db.recovery && TreeFree(cfg, s.db, j, host) && SessionFree(s.db, j)
    ensures var s', t := LeaseRetried(Placed(cfg, world, s, j, host, s.db.recovery[j]), j), TreeOn(cfg, s.db.jobs[j], host);
            && !Is(s', j, WaitingLease) && t in s'.db.leases && s'.db.leases[t] == j
            && HoldsLease(cfg, s'.db.jobs, s'.db.leases, j) && HoldsSession(s'.db.jobs, s'.db.locks, j)
  {
    LeaseRetriedOnly(Placed(cfg, world, s, j, host, s.db.recovery[j]), j);
  }

  lemma ReadyRetry(cfg: Config, world: World, s: State, j: JobId, t: Tree, now: int)
    requires Ready(cfg, world, s, j, t, now)
    ensures PassStep(cfg, world, s, j, now) == RetryLease(cfg, world, s, j)
  {
  }

  /** A ready job starts exactly if the tree and its session are free at its turn; otherwise it
      stays in the queue and no table changes. */
  lemma ReadyTurn(cfg: Config, world: World, s: State, j: JobId, t: Tree, now: int)
    requires Core(cfg, s.db) && Ready(cfg, world, s, j, t, now)
    ensures var s' := PassStep(cfg, world, s, j, now);
            if t !in s.db.leases && SessionFree(s.db, j)
            then !Is(s', j, WaitingLease) && t in s'.db.leases && s'.db.leases[t] == j
                 && HoldsLease(cfg, s'.db.jobs, s'.db.leases, j) && HoldsSession(s'.db.jobs, s'.db.locks, j)
            else Is(s', j, WaitingLease) && s'.db.leases == s.db.leases && s'.db.locks == s.db.locks
                 && s'.db.recovery == s.db.recovery
  {
    QueuedLeasesNothing(cfg, s, j);
    ReadyRetry(cfg, world, s, j, t, now);
    var job := s.db.jobs[j];
    var host := world.resolve(job.project, if job.host.Some? then job.host else job.requested).value;
    if t !in s.db.leases && SessionFree(s.db, j) {
      PlacedTurn(cfg, world, s, j, host);
    } else if t !in s.db.leases {
      LockedOutRequeued(cfg, s, j, host, s.db.recovery[j]);
    }
  }

  // ---- the whole pass ----

  /** The states between the turns of a pass, as far as each turn leaves the other jobs alone. */
  ghost predicate Passes(turns: seq<State>, order: seq<JobId>) {
    && |turns| == |order| + 1
    && forall i | 0 <= i < |order| :: OnlyFor(turns[i], turns[i + 1], order[i])
  }

  ghost function Turns(cfg: Config, world: World, s: State, order: seq<JobId>, now: int): (turns: seq<State>)
    ensures |turns| == |order| + 1 && forall i | 0 <= i <= |order| :: turns[i] == Turn(cfg, world, s, order, now, i)
  {
    seq(|order| + 1, i requires 0 <= i <= |order| => Turn(cfg, world, s, order, now, i))
  }

  lemma TurnOnly(cfg: Config, world: World, s: State, order: seq<JobId>, now: int, i: nat)
    requires Inv(cfg, s) && s.mem.serving && i < |order|
    ensures OnlyFor(Turn(cfg, world, s, order, now, i), Turn(cfg, world, s, order, now, i + 1), order[i])
  {
    PassRuns(cfg, world, s, order, now, i);
    NextTurn(cfg, world, s, order, now, i);
    PassStepOnly(cfg, world, Turn(cfg, world, s, order, now, i), order[i], now);
  }

  lemma TurnsPass(cfg: Config, world: World, s: State, order: seq<JobId>, now: int)
    requires Inv(cfg, s) && s.mem.serving
    ensures Passes(Turns(cfg, world, s, order, now), order)
  {
    forall i | 0 <= i < |order|
      ensures OnlyFor(Turns(cfg, world, s, order, now)[i], Turns(cfg, world, s, order, now)[i + 1], order[i])
    {
      TurnOnly(cfg, world, s, order, now, i);
    }
  }

  ghost predicate SameRow<T>(a: map<JobId, T>, b: map<JobId, T>, k: JobId) {
    (k in b <==> k in a) && (k in a ==> b[k] == a[k])
  }

  lemma {:induction false} RowStays(turns: seq<State>, order: seq<JobId>, i: nat, l: nat, k: JobId)
    requires Passes(turns, order) && i <= l <= |order| && forall m | i <= m < l :: order[m] != k
    ensures SameRow(turns[i].db.jobs, turns[l].db.jobs, k) && SameRow(turns[i].db.recovery, turns[l].db.recovery, k)
    decreases l
  {
    if i < l {
      RowStays(turns, order, i, l - 1, k);
      assert OnlyFor(turns[l - 1], turns[l - 1 + 1], order[l - 1]);
    }
  }

  /** Before and after its turn nothing happens to a job. */
  lemma Untouched(cfg: Config, world: World, s: State, order: seq<JobId>, now: int, i: nat, l: nat, k: JobId)
    requires Inv(cfg, s) && s.mem.serving && i <= l <= |order| && forall m | i <= m < l :: order[m] != k
    ensures var a, b := Turn(cfg, world, s, order, now, i), Turn(cfg, world, s, order, now, l);
            SameRow(a.db.jobs, b.db.jobs, k) && SameRow(a.db.recovery, b.db.recovery, k)
  {
    TurnsPass(cfg, world, s, order, now);
    RowStays(Turns(cfg, world, s, order, now), order, i, l, k);
  }

  // ---- whose time has come ----

  /** A record whose time has not come is left alone, and so is everything else at its turn. */
  lemma EarlyWaits(cfg: Config, world: World, s: State, j: JobId, now: int)
    requires j in s.db.jobs && !Terminal(s.db.jobs[j].state) && j in s.db.recovery
    requires s.db.recovery[j].due.Some? && s.db.recovery[j].due.value > now
    ensures PassStep(cfg, world, s, j, now) == s
  {
  }

  /** So an open job keeps its row and its record through the whole pass if its time has not come. */
  lemma {:induction false} EarlyStays(cfg: Config, world: World, s: State, order: seq<JobId>, now: int, i: nat, j: JobId)
    requires Inv(cfg, s) && s.mem.serving && i <= |order|
    requires j in s.db.jobs && !Terminal(s.db.jobs[j].state) && j in s.db.recovery
    requires s.db.recovery[j].due.Some? && s.db.recovery[j].due.value > now
    ensures var s' := Turn(cfg, world, s, order, now, i);
            SameRow(s.db.jobs, s'.db.jobs, j) && SameRow(s.db.recovery, s'.db.recovery, j)
  {
    if i > 0 {
      EarlyStays(cfg, world, s, order, now, i - 1, j);
      if order[i - 1] == j {
        EarlyTurn(cfg, world, s, Turn(cfg, world, s, order, now, i - 1), j, now);
      } else {
        Untouched(cfg, world, s, order, now, i - 1, i, j);
      }
    }
  }

  lemma EarlyTurn(cfg: Config, world: World, s: State, a: State, j: JobId, now: int)
    requires SameRow(s.db.jobs, a.db.jobs, j) && SameRow(s.db.recovery, a.db.recovery, j)
    requires j in s.db.jobs && !Terminal(s.db.jobs[j].state) && j in s.db.recovery
    requires s.db.recovery[j].due.Some? && s.db.recovery[j].due.value > now
    ensures PassStep(cfg, world, a, j, now) == a
  {
    EarlyWaits(cfg, world, a, j, now);
  }

  /** The record of an ended or missing job is dropped. */
  lemma EndedIsForgotten(cfg: Config, world: World, s: State, j: JobId, now: int)
    requires j in s.db.recovery && (j in s.db.jobs ==> Terminal(s.db.jobs[j].state))
    ensures var s' := PassStep(cfg, world, s, j, now);
            s'.mem == s.mem && s'.db == s.db.(recovery := s'.db.recovery) && s'.db.recovery == s.db.recovery - {j}
  {
  }

  /** A record without a time, or one whose time has come, gets the retry that fits the state of its job: what it leaves
      is in Outcomes. In any other state nothing happens. */
  lemma DueIsRetried(cfg: Config, world: World, s: State, j: JobId, now: int)
    requires j in s.db.jobs && !Terminal(s.db.jobs[j].state) && j in s.db.recovery
    requires s.db.recovery[j].due.Some? ==> s.db.recovery[j].due.value <= now
    ensures var s' := PassStep(cfg, world, s, j, now);
            && (Is(s, j, WaitingQuota) ==> s' == RetryQuota(world, s, j))
            && (Is(s, j, WaitingLease) ==> s' == RetryLease(cfg, world, s, j))
            && (Is(s, j, WaitingHost) ==> s' == RetryHost(cfg, world, s, j, now))
            && (!Waiting(s.db.jobs[j].state) ==> s' == s)
  {
  }

  /** The job is RUNNING again exactly if its host, if it has one, is up, and its record is out of the schedule. */
  ghost predicate QuotaOver(world: World, a: Db, b: Db, j: JobId) {
    && j in a.jobs && j in a.recovery && j in b.jobs && j in b.recovery
    && if a.jobs[j].host.Some? && !world.online(a.jobs[j].host.value)
       then b.jobs[j] == a.jobs[j] && b.recovery[j] == a.recovery[j]
       else b.jobs[j] == a.jobs[j].(state := Running)
            && b.recovery[j] == a.recovery[j].(kind := QuotaKind, mode := ResumeMode, due := None)
  }

  lemma QuotaTurn(cfg: Config, world: World, s: State, a: State, j: JobId, now: int)
    requires SameRow(s.db.jobs, a.db.jobs, j) && SameRow(s.db.recovery, a.db.recovery, j)
    requires Is(s, j, WaitingQuota) && j in s.db.recovery
    requires s.db.recovery[j].due.Some? ==> s.db.recovery[j].due.value <= now
    ensures QuotaOver(world, s.db, PassStep(cfg, world, a, j, now).db, j)
  {
    DueIsRetried(cfg, world, a, j, now);
    Outcomes.RetryQuotaLeaves(world, a, j);
  }

  lemma QuotaStaysOver(world: World, a: Db, b: Db, c: Db, j: JobId)
    requires QuotaOver(world, a, b, j) && SameRow(b.jobs, c.jobs, j) && SameRow(b.recovery, c.recovery, j)
    ensures QuotaOver(world, a, c, j)
  {
  }

  /** A quota wait whose time has come is over when the pass is, exactly if the host of the job is up. */
  lemma QuotaResumes(cfg: Config, world: World, s: State, order: seq<JobId>, now: int, i: nat)
    requires Inv(cfg, s) && s.mem.serving && Distinct(order) && i < |order|
    requires Is(s, order[i], WaitingQuota) && order[i] in s.db.recovery
    requires s.db.recovery[order[i]].due.Some? ==> s.db.recovery[order[i]].due.value <= now
    ensures QuotaOver(world, s.db, Turn(cfg, world, s, order, now, |order|).db, order[i])
  {
    var j, a := order[i], Turn(cfg, world, s, order, now, i);
    Untouched(cfg, world, s, order, now, 0, i, j);
    QuotaTurn(cfg, world, s, a, j, now);
    NextTurn(cfg, world, s, order, now, i);
    Untouched(cfg, world, s, order, now, i + 1, |order|, j);
    var b, c := Turn(cfg, world, s, order, now, i + 1), Turn(cfg, world, s, order, now, |order|);
    QuotaStaysOver(world, s.db, b.db, c.db, j);
  }

  lemma {:induction false} LeaseKept(turns: seq<State>, order: seq<JobId>, i: nat, l: nat, t: Tree)
    requires Passes(turns, order) && i <= l <= |order| && t in turns[i].db.leases
    requires var b := turns[i].db.leases[t]; forall m | i <= m < l && order[m] == b :: !Yields(turns[m], b)
    ensures t in turns[l].db.leases && turns[l].db.leases[t] == turns[i].db.leases[t]
    decreases l
  {
    if i < l {
      LeaseKept(turns, order, i, l - 1, t);
      assert OnlyFor(turns[l - 1], turns[l - 1 + 1], order[l - 1]);
    }
  }

  /** A lease taken in the pass, or held by a job that does not yield at its turn, stays. */
  lemma LeaseStays(cfg: Config, world: World, s: State, order: seq<JobId>, now: int, i: nat, l: nat, t: Tree)
    requires Inv(cfg, s) && s.mem.serving && i <= l <= |order|
    requires t in Turn(cfg, world, s, order, now, i).db.leases
    requires var b := Turn(cfg, world, s, order, now, i).db.leases[t];
             forall m | i <= m < l && order[m] == b :: !Yields(Turn(cfg, world, s, order, now, m), b)
    ensures var s' := Turn(cfg, world, s, order, now, l);
            t in s'.db.leases && s'.db.leases[t] == Turn(cfg, world, s, order, now, i).db.leases[t]
  {
    TurnsPass(cfg, world, s, order, now);
    LeaseKept(Turns(cfg, world, s, order, now), order, i, l, t);
  }

  lemma {:induction false} TakenByEarlier(turns: seq<State>, order: seq<JobId>, i: nat, t: Tree)
    requires Passes(turns, order) && i <= |order| && t !in turns[0].db.leases
    ensures t in turns[i].db.leases ==> turns[i].db.leases[t] in order[..i]
  {
    if i > 0 {
      TakenByEarlier(turns, order, i - 1, t);
      assert OnlyFor(turns[i - 1], turns[i - 1 + 1], order[i - 1]);
      assert order[..i] == order[..i - 1] + [order[i - 1]];
    }
  }

  /** The holder of a tree that was free when the pass began has had its turn. */
  lemma FreshHolder(cfg: Config, world: World, s: State, order: seq<JobId>, now: int, i: nat, t: Tree)
    requires Inv(cfg, s) && s.mem.serving && i <= |order| && t !in s.db.leases
    ensures var s' := Turn(cfg, world, s, order, now, i); t in s'.db.leases ==> s'.db.leases[t] in order[..i]
  {
    TurnsPass(cfg, world, s, order, now);
    TakenByEarlier(Turns(cfg, world, s, order, now), order, i, t);
  }

  /** A lease that is taken in the pass stays until its end. */
  lemma FreshLease(cfg: Config, world: World, s: State, order: seq<JobId>, now: int, i: nat, t: Tree)
    requires Inv(cfg, s) && s.mem.serving && i <= |order| && t !in s.db.leases
    requires Distinct(order)
    ensures t in Turn(cfg, world, s, order, now, i).db.leases ==>
              forall l | i <= l <= |order| :: var s' := Turn(cfg, world, s, order, now, l);
                t in s'.db.leases && s'.db.leases[t] == Turn(cfg, world, s, order, now, i).db.leases[t]
  {
    var a := Turn(cfg, world, s, order, now, i);
    FreshHolder(cfg, world, s, order, now, i, t);
    if t in a.db.leases {
      forall l | i <= l <= |order|
        ensures var s' := Turn(cfg, world, s, order, now, l); t in s'.db.leases && s'.db.leases[t] == a.db.leases[t]
      {
        LeaseStays(cfg, world, s, order, now, i, l, t);
      }
    }
  }

  /** The i-th record belongs to a queued job that is dispatched at its turn. */
  ghost predicate Starts(cfg: Config, world: World, s: State, order: seq<JobId>, now: int, i: nat)
    requires i < |order|
  {
    && Is(Turn(cfg, world, s, order, now, i), order[i], WaitingLease)
    && !Is(Turn(cfg, world, s, order, now, i + 1), order[i], WaitingLease)
  }

  lemma ReadyStill(cfg: Config, world: World, s: State, a: State, j: JobId, t: Tree, now: int)
    requires SameRow(s.db.jobs, a.db.jobs, j) && SameRow(s.db.recovery, a.db.recovery, j)
    ensures Ready(cfg, world, s, j, t, now) ==> Ready(cfg, world, a, j, t, now)
  {
  }

  /** A ready job is still ready at its turn, and starts exactly if it finds tree and session free. */
  lemma ReadyAtItsTurn(cfg: Config, world: World, s: State, order: seq<JobId>, now: int, i: nat, t: Tree)
    requires Inv(cfg, s) && s.mem.serving && Distinct(order) && i < |order| && Ready(cfg, world, s, order[i], t, now)
    ensures var a := Turn(cfg, world, s, order, now, i);
            && Ready(cfg, world, a, order[i], t, now) && Core(cfg, a.db)
            && (Starts(cfg, world, s, order, now, i) <==> t !in a.db.leases && !LockedOut(a, order[i]))
            && (Starts(cfg, world, s, order, now, i) ==>
                  var b := Turn(cfg, world, s, order, now, i + 1); t in b.db.leases && b.db.leases[t] == order[i])
  {
    Untouched(cfg, world, s, order, now, 0, i, order[i]);
    PassRuns(cfg, world, s, order, now, i);
    NextTurn(cfg, world, s, order, now, i);
    var a := Turn(cfg, world, s, order, now, i);
    ReadyStill(cfg, world, s, a, order[i], t, now);
    ReadyTurn(cfg, world, a, order[i], t, now);
  }

  lemma TakenAfterTurn(cfg: Config, world: World, s: State, order: seq<JobId>, now: int, i: nat, t: Tree)
    requires Inv(cfg, s) && s.mem.serving && Distinct(order) && t !in s.db.leases && i < |order|
    requires Ready(cfg, world, s, order[i], t, now) && !LockedOut(Turn(cfg, world, s, order, now, i), order[i])
    ensures t in Turn(cfg, world, s, order, now, i + 1).db.leases
  {
    ReadyAtItsTurn(cfg, world, s, order, now, i, t);
    FreshLease(cfg, world, s, order, now, i, t);
  }

  /** Once a ready job found its session free, every later turn finds the tree of its lane taken. */
  lemma TakenForGood(cfg: Config, world: World, s: State, order: seq<JobId>, now: int, i: nat, l: nat, t: Tree)
    requires Inv(cfg, s) && s.mem.serving && Distinct(order) && t !in s.db.leases && i < l <= |order|
    requires Ready(cfg, world, s, order[i], t, now) && !LockedOut(Turn(cfg, world, s, order, now, i), order[i])
    ensures t in Turn(cfg, world, s, order, now, l).db.leases
  {
    TakenAfterTurn(cfg, world, s, order, now, i, t);
    FreshLease(cfg, world, s, order, now, i + 1, t);
  }

  /** Two queued jobs of a lane whose tree is free when the pass begins: the later one is dispatched
      only if the earlier one found its session locked. */
  lemma EarlierFirst(cfg: Config, world: World, s: State, order: seq<JobId>, now: int, i: nat, k: nat, t: Tree)
    requires Inv(cfg, s) && s.mem.serving && Distinct(order) && t !in s.db.leases && i < k < |order|
    requires Ready(cfg, world, s, order[i], t, now) && Ready(cfg, world, s, order[k], t, now)
    ensures Starts(cfg, world, s, order, now, k) ==> LockedOut(Turn(cfg, world, s, order, now, i), order[i])
  {
    if !LockedOut(Turn(cfg, world, s, order, now, i), order[i]) {
      TakenForGood(cfg, world, s, order, now, i, k, t);
      ReadyAtItsTurn(cfg, world, s, order, now, k, t);
    }
  }

  lemma StartedUnlocked(cfg: Config, world: World, s: State, order: seq<JobId>, now: int, i: nat, t: Tree)
    requires Inv(cfg, s) && s.mem.serving && Distinct(order) && i < |order| && Ready(cfg, world, s, order[i], t, now)
    ensures Starts(cfg, world, s, order, now, i) ==> !LockedOut(Turn(cfg, world, s, order, now, i), order[i])
  {
  }

  /** A lane whose tree is free when the pass begins: at most one of its queued jobs is dispatched, and
      it is the one with the lowest position among those whose session is free at their turn. */
  lemma LowestFirst(cfg: Config, world: World, s: State, order: seq<JobId>, now: int, i: nat, k: nat, t: Tree)
    requires Inv(cfg, s) && s.mem.serving && ListOrder(order, s.db.recovery) && t !in s.db.leases
    requires i < |order| && k < |order| && i != k
    requires Ready(cfg, world, s, order[i], t, now) && Ready(cfg, world, s, order[k], t, now)
    ensures Starts(cfg, world, s, order, now, i) ==> !Starts(cfg, world, s, order, now, k)
    ensures Starts(cfg, world, s, order, now, i)
            && Precedes(s.db.recovery[order[k]].position, s.db.recovery[order[i]].position) ==>
              LockedOut(Turn(cfg, world, s, order, now, k), order[k])
  {
    if k < i {
      EarlierFirst(cfg, world, s, order, now, k, i, t);
      StartedUnlocked(cfg, world, s, order, now, k, t);
    } else {
      EarlierFirst(cfg, world, s, order, now, i, k, t);
      StartedUnlocked(cfg, world, s, order, now, i, t);
    }
  }

  /** Nobody is passed over: a ready job that stays in the queue found its session locked, or its tree
      taken for the rest of the pass. */
  lemma NobodyIsPassedOver(cfg: Config, world: World, s: State, order: seq<JobId>, now: int, i: nat, t: Tree)
    requires Inv(cfg, s) && s.mem.serving && Distinct(order) && t !in s.db.leases
    requires i < |order| && Ready(cfg, world, s, order[i], t, now) && !Starts(cfg, world, s, order, now, i)
    ensures LockedOut(Turn(cfg, world, s, order, now, i), order[i])
            || t in Turn(cfg, world, s, order, now, |order|).db.leases
  {
    ReadyAtItsTurn(cfg, world, s, order, now, i, t);
    FreshLease(cfg, world, s, order, now, i, t);
  }

  /** A lane whose tree is held when the pass begins dispatches none, unless the holder gives the tree
      back: a job that waits for a host and finds its session locked by another job. */
  lemma HeldLaneWaits(cfg: Config, world: World, s: State, order: seq<JobId>, now: int, i: nat, t: Tree)
    requires Inv(cfg, s) && s.mem.serving && Distinct(order) && t in s.db.leases
    requires i < |order| && Ready(cfg, world, s, order[i], t, now)
    requires forall m | 0 <= m < i && order[m] == s.db.leases[t] ::
               !Yields(Turn(cfg, world, s, order, now, m), s.db.leases[t])
    ensures !Starts(cfg, world, s, order, now, i)
  {
    LeaseStays(cfg, world, s, order, now, 0, i, t);
    ReadyAtItsTurn(cfg, world, s, order, now, i, t);
  }

  /** Queued jobs come before all others: when a record without a position finds the tree of a lane
      free, every ready job of the lane that has its place had its turn and found its session locked. */
  lemma QueueGoesFirst(cfg: Config, world: World, s: State, order: seq<JobId>, now: int, i: nat, k: nat, t: Tree)
    requires Inv(cfg, s) && s.mem.serving && ListOrder(order, s.db.recovery) && t !in s.db.leases
    requires i < |order| && k < |order| && s.db.recovery[order[i]].position.None?
    requires Ready(cfg, world, s, order[k], t, now) && s.db.recovery[order[k]].position.Some?
    requires t !in Turn(cfg, world, s, order, now, i).db.leases
    ensures k < i && LockedOut(Turn(cfg, world, s, order, now, k), order[k])
  {
    QueuedComesFirst(cfg, world, s, order, now, i, k, t);
    if !LockedOut(Turn(cfg, world, s, order, now, k), order[k]) {
      TakenForGood(cfg, world, s, order, now, k, i, t);
    }
  }

  lemma QueuedComesFirst(cfg: Config, world: World, s: State, order: seq<JobId>, now: int, i: nat, k: nat, t: Tree)
    requires ListOrder(order, s.db.recovery) && i < |order| && k < |order|
    requires s.db.recovery[order[i]].position.None? && Ready(cfg, world, s, order[k], t, now)
    requires s.db.recovery[order[k]].position.Some?
    ensures k < i
  {
  }
}
