/** The controller (controller/job_manager.py). Its fields are the tables of the database and what it
    keeps in memory; every assignment to the tables is one commit. */
module JobManager {
  import opened Wrappers
  import opened States
  import opened Tables
  import opened Matching
  import T = Transactions
  import opened Invariants
  import opened Runs
  import opened Safety
  import opened Scheduler
  import opened QueueMoves
  import P = RecoveryPass
  import Q = LeaseQueue
  import A = Admission
  import S = Startup
  import N = Reconnect
  import W = QuotaWaits
  import Quota

  lemma NextIsUnique(recovery: Recoveries, p: nat, q: nat)
    requires T.NextPosition(recovery, p) && T.NextPosition(recovery, q)
    ensures p == q
  {
  }

  /** No placement of a running or paused job is under way. */
  lemma ActiveIsPlaced(cfg: Config, s: State, j: JobId)
    requires Inv(cfg, s) && s.mem.serving && (T.Is(s, j, Running) || T.Is(s, j, Paused))
    ensures j !in s.mem.flow
  {
  }

  lemma MadeUpKeeps(cfg: Config, s: State, j: JobId, now: int)
    requires Inv(cfg, s) && s.mem.serving && j in s.db.jobs && Waiting(s.db.jobs[j].state)
    ensures Inv(cfg, MadeUp(s, j, now))
  {
    MadeUpRuns(cfg, s, j, now);
    ReachesKeeps(cfg, s, MadeUp(s, j, now));
  }

  lemma PassingKeeps(cfg: Config, s: State, s1: State, v: View)
    requires Inv(cfg, s) && s1 == T.With(s, Passing(v))
    ensures Inv(cfg, s1) && Passing(v) in s1.mem.pending
  {
    RecallKeeps(cfg, s, Passing(v));
  }

  lemma PausedWaits(cfg: Config, s: State, j: JobId, now: int)
    requires Inv(cfg, s) && s.mem.serving && T.Is(s, j, Paused)
    ensures Inv(cfg, T.HostWait(s, j, ResumeMode, s.db.jobs[j].host, now))
  {
    HostWaitKeeps(cfg, s, j, ResumeMode, s.db.jobs[j].host, now);
  }

  lemma ServeKeeps(cfg: Config, s: State)
    requires Inv(cfg, s) && ServeOk(cfg, s)
    ensures Inv(cfg, T.Serve(s))
  {
  }

  /** ids lists each reported execution once. */
  ghost predicate Lists(ids: seq<ExecId>, reported: Reports) {
    && (forall e :: e in ids <==> e in reported)
    && (forall a, b | 0 <= a < b < |ids| :: ids[a] != ids[b])
  }

  /** What a retry got hold of. */
  datatype Got = Nothing | LeaseReturned | Both

  class JobManager {
    const cfg: Config
    var jobs: Jobs
    var leases: Leases
    var locks: Locks
    var recovery: Recoveries
    var ledger: Ledger
    var log: seq<Event>
    var serving: bool
    var flow: map<JobId, Flow>
    var draining: set<JobId>
    var handles: map<JobId, ExecId>
    var confirmed: set<ExecId>
    var pending: multiset<Pending>

    ghost function View(): State
      reads this
    {
      State(Db(jobs, leases, locks, recovery, ledger, log), Memory(serving, flow, draining, handles, confirmed, pending))
    }

    ghost predicate Valid()
      reads this
    {
      Inv(cfg, View())
    }

    /** An installation before its first start. */
    constructor (config: Config)
      ensures Valid() && View() == Fresh() && cfg == config
    {
      cfg := config;
      jobs, leases, locks, recovery, ledger, log := map[], map[], map[], map[], map[], [];
      serving, flow, draining, handles, confirmed, pending := false, map[], {}, map[], {}, multiset{};
    }

    // ---- commits ----

    /** transition_with_event: the row and its event. */
    method Commit(j: JobId, target: JobState, host: Option<HostId>)
      requires j in jobs
      modifies this`jobs, this`log
      ensures View().db == Shift(old(View()).db, j, target, host)
    {
      log := log + [Moved(j, jobs[j].state, target)];
      jobs := jobs[j := jobs[j].(state := target, host := host)];
    }

    method UpsertRecovery(j: JobId, r: Recovery)
      modifies this`recovery
      ensures recovery == old(recovery)[j := r]
    {
      recovery := recovery[j := r];
    }

    /** recovery.upsert of all fields but the queue position. */
    method WriteRecord(j: JobId, r: Recovery)
      modifies this`recovery
      ensures View() == T.Put(old(View()), j, r)
    {
      UpsertRecovery(j, r.(position := if j in recovery then recovery[j].position else None));
    }

    /** ... of a record that was prepared. */
    method WritePrepared(j: JobId, r: Recovery)
      modifies this`recovery, this`pending
      ensures View() == T.Write(old(View()), j, r)
    {
      WriteRecord(j, r);
      pending := pending - multiset{Writing(j, r)};
    }

    /** The coroutine of a placement remembers how it goes on. */
    method CarryOn(j: JobId)
      modifies this`flow, this`pending
      ensures View() == old(View()).(mem := T.Carried(old(View()).mem, j))
    {
      if j !in flow {
        return;
      }
      var f := flow[j];
      flow := flow - {j};
      match f {
        case Launch(Some(r)) =>
          if r.mode.FinalizeMode? {
            pending := pending + multiset{Writing(j, T.HostRetryRecord(r))};
          } else {
            flow := flow[j := Midway(r)];
          }
        case Midway(r) => pending := pending + multiset{Writing(j, T.HostRetryRecord(r))};
        case Adopting(e) => pending := pending + multiset{Claim(j, e)};
        case _ =>
      }
    }

    /** _transition: after a terminal transition the project session is released, then the lease. */
    method Transition(j: JobId, target: JobState)
      requires j in jobs
      modifies this`jobs, this`log, this`flow, this`locks, this`leases, this`draining, this`pending
      ensures View() == (var s := T.Move(old(View()), j, target);
                         if Terminal(target) then T.ReleaseLease(T.ReleaseSession(s, j), j) else s)
    {
      Commit(j, target, jobs[j].host);
      if target.Starting? || target.Running? {
        CarryOn(j);
      }
      if Terminal(target) {
        Release(j);
      }
    }

    method Release(j: JobId)
      requires j in jobs
      modifies this`locks, this`leases, this`draining
      ensures View() == T.ReleaseLease(T.ReleaseSession(old(View()).(mem := T.Finishing(old(View()).mem, j)), j), j)
    {
      draining := draining + {j};
      locks := Unlock(locks, OwnerOf(jobs[j]), j);
      leases := WithoutJob(leases, j);
      draining := draining - {j};
    }

    /** _assign_execution_lease: state, lease and event, unless the tree is busy; read is the record of a retry. */
    method AssignExecutionLease(j: JobId, host: HostId, read: Option<Recovery>) returns (ok: bool)
      requires j in jobs
      modifies this`jobs, this`log, this`leases, this`flow
      ensures ok == TreeFree(cfg, old(View()).db, j, host)
      ensures View() == if ok then T.Assign(cfg, old(View()), j, host, read) else old(View())
    {
      var t := TreeOn(cfg, jobs[j], host);
      if !T.LeaseFree(leases, j, t) {
        return false;
      }
      var next := if read.None? then Launch(None)
                  else if jobs[j].state.WaitingLease? then AwaitSession(read.value, true)
                  else if read.value.mode.FinalizeMode? then Launch(read) else AwaitSession(read.value, false);
      Commit(j, Assigned, Some(host));
      leases := leases[t := j];
      flow := flow[j := next];
      ok := true;
    }

    /** project_sessions.acquire for a job that has its lease. */
    method AcquireSession(j: JobId) returns (ok: bool)
      requires j in jobs && j in flow && flow[j].AwaitSession?
      modifies this`locks, this`flow, this`pending
      ensures ok == SessionFree(old(View()).db, j)
      ensures View() == if ok then T.GrantSession(old(View()), j) else old(View())
    {
      var o := OwnerOf(jobs[j]);
      if o in locks && locks[o] != j {
        return false;
      }
      locks := locks[o := j];
      var read := flow[j].read;
      if flow[j].queued {
        flow := flow[j := Dequeue(read)];
      } else if read.mode.StartMode? {
        flow := flow[j := Launch(None)];
        pending := pending + multiset{Writing(j, T.HostRetryRecord(read))};
      } else {
        flow := flow[j := Launch(Some(read))];
      }
      ok := true;
    }

    /** execution_leases.release_for_job of a retry that got no session. */
    method ReturnExecutionLease(j: JobId)
      requires j in flow && flow[j].AwaitSession?
      modifies this`leases, this`flow
      ensures View() == T.ReturnLease(old(View()), j)
    {
      leases := WithoutJob(leases, j);
      flow := flow[j := Flow.Returned(flow[j].read, flow[j].queued)];
    }

    /** The place of a job in the queue: its own, or the next one. */
    method QueuePositionFor(j: JobId) returns (p: nat)
      ensures p == QueuePosition(recovery, j)
    {
      if j in recovery && recovery[j].position.Some? {
        return recovery[j].position.value;
      }
      var largest: nat := 0;
      var rest := recovery.Keys;
      while rest != {}
        invariant rest <= recovery.Keys
        invariant forall k | k in recovery && k !in rest
                  && recovery[k].position.Some? :: recovery[k].position.value <= largest
        invariant largest == 0 || exists k | k in recovery :: recovery[k].position == Some(largest)
        decreases |rest|
      {
        var k :| k in rest;
        rest := rest - {k};
        if recovery[k].position.Some? && recovery[k].position.value > largest {
          largest := recovery[k].position.value;
        }
      }
      p := largest + 1;
      NextIsUnique(recovery, p, QueuePosition(recovery, j));
    }

    // ---- waits ----

    /** _enter_host_wait: the transition, then the record that was made up before it. */
    method EnterHostWait(j: JobId, mode: Mode, host: Option<HostId>, now: int)
      requires j in jobs && !Terminal(jobs[j].state)
      modifies this`jobs, this`log, this`recovery, this`flow, this`pending
      ensures View() == T.HostWait(old(View()), j, mode, host, now)
    {
      var exec := if j in recovery then recovery[j].exec else if j in handles then Some(handles[j]) else None;
      var attempts := if j in recovery then recovery[j].attempts else 0;
      var r := Recovery(HostKind, mode, attempts, Some(now), exec, None);
      ShiftToHostWait(j, mode, host, now, r);
      RecordHostWait(j, r);
    }

    method ShiftToHostWait(j: JobId, mode: Mode, host: Option<HostId>, now: int, r: Recovery)
      requires j in jobs && r == T.HostWaitRecord(View(), j, mode, now)
      modifies this`jobs, this`log, this`flow, this`pending
      ensures View() == T.EnterHostWait(old(View()), j, mode, host, now)
    {
      if !jobs[j].state.WaitingHost? {
        Commit(j, WaitingHost, if host.Some? then host else jobs[j].host);
      }
      flow := flow - {j};
      pending := pending + multiset{Entering(j, r)};
    }

    method RecordHostWait(j: JobId, r: Recovery)
      modifies this`recovery, this`pending
      ensures View() == T.RecordHostWait(old(View()), j, r)
    {
      WriteRecord(j, r);
      pending := pending - multiset{Entering(j, r)};
    }

    /** _enter_lease_wait: the job joins the end of the queue, or keeps its place. */
    method EnterLeaseWait(j: JobId, mode: Mode, host: HostId, now: int)
      requires j in jobs && !jobs[j].state.WaitingLease?
      modifies this`jobs, this`log, this`recovery, this`flow
      ensures View() == T.LeaseWait(old(View()), j, mode, host, QueuePosition(old(recovery), j), now)
      ensures j in jobs && jobs[j].state.WaitingLease?
    {
      Commit(j, WaitingLease, Some(host));
      var p := QueuePositionFor(j);
      UpsertRecovery(j, Recovery(LeaseKind, mode, 0, Some(now), None, Some(p)));
      flow := flow - {j};
    }

    /** _enter_quota_wait: only a turn that is starting or running waits for quota. No retry of the job is on its way. */
    method EnterQuotaWait(j: JobId, settings: W.Settings, hit: W.Hit) returns (entered: bool)
      requires Valid() && serving && j in jobs && j !in flow
      modifies this
      ensures Valid() && entered == (old(jobs)[j].state.Starting? || old(jobs)[j].state.Running?)
      ensures View() == if entered then W.Waited(settings, old(View()), j, hit) else old(View())
    {
      entered := jobs[j].state.Starting? || jobs[j].state.Running?;
      if entered {
        var attempts := if j in recovery then recovery[j].attempts else 0;
        var due := Quota.RetryAt(attempts + 1, settings.initialSeconds, settings.maxSeconds, hit.reset,
                                 settings.graceSeconds, hit.at);
        QuotaWaitKeeps(cfg, View(), j, due);
        WaitForQuota(j, due);
      }
    }

    method WaitForQuota(j: JobId, due: int)
      requires j in jobs
      modifies this
      ensures View() == T.QuotaWait(old(View()), j, due)
    {
      var attempts := if j in recovery then recovery[j].attempts else 0;
      var exec := if j in handles then Some(handles[j]) else None;
      WriteRecord(j, Recovery(QuotaKind, ResumeMode, attempts + 1, Some(due), exec, None));
      Transition(j, WaitingQuota);
    }

    // ---- retries ----

    /** The job's row names the conversation of its session. */
    method JoinConversation(j: JobId, world: World)
      requires j in jobs
      modifies this`jobs
      ensures View() == T.SetThread(old(View()), j, world.conversation(OwnerOf(old(jobs)[j]), old(jobs)[j].thread))
    {
      jobs := jobs[j := jobs[j].(thread := world.conversation(OwnerOf(jobs[j]), jobs[j].thread))];
    }

    /** Lease, then session: the part that both retries have in common. */
    method TryPlace(world: World, j: JobId, host: HostId, read: Recovery) returns (got: Got)
      requires j in jobs && T.AfterAssign(jobs[j].state, Some(read)).AwaitSession?
      modifies this
      ensures got == if !TreeFree(cfg, old(View()).db, j, host) then Nothing
                     else if SessionFree(old(View()).db, j) then Both else LeaseReturned
      ensures j in jobs && (got.Nothing? || jobs[j].state.Assigned?)
      ensures View() == match got
                case Nothing => old(View())
                case LeaseReturned => GivenBack(cfg, old(View()), j, host, read)
                case Both => Placed(cfg, world, old(View()), j, host, read)
    {
      var leased := AssignExecutionLease(j, host, Some(read));
      if !leased {
        return Nothing;
      }
      var acquired := AcquireSession(j);
      if !acquired {
        ReturnExecutionLease(j);
        return LeaseReturned;
      }
      JoinConversation(j, world);
      got := Both;
    }

    /** _retry_lease */
    method RetryLease(world: World, j: JobId) returns (resumed: bool)
      requires Valid() && serving && j in jobs && jobs[j].state.WaitingLease? && j in recovery
      modifies this
      ensures Valid() && View() == Scheduler.RetryLease(cfg, world, old(View()), j)
      ensures resumed <==> j in jobs && !jobs[j].state.WaitingLease?
    {
      RetryLeaseKeeps(cfg, world, View(), j);
      var record := recovery[j];
      var host := world.resolve(jobs[j].project, if jobs[j].host.Some? then jobs[j].host else jobs[j].requested);
      if host.None? {
        return false;
      }
      resumed := DispatchOn(world, j, host.value, record);
    }

    /** The host is up: the job leaves the queue, or stays in it. */
    method DispatchOn(world: World, j: JobId, host: HostId, record: Recovery) returns (resumed: bool)
      requires j in jobs && jobs[j].state.WaitingLease?
      modifies this
      ensures View() == if !TreeFree(cfg, old(View()).db, j, host) then old(View())
                        else if SessionFree(old(View()).db, j)
                        then LeaseRetried(Placed(cfg, world, old(View()), j, host, record), j)
                        else T.Requeue(GivenBack(cfg, old(View()), j, host, record), j)
      ensures resumed <==> j in jobs && !jobs[j].state.WaitingLease?
    {
      var got := TryPlace(world, j, host, record);
      match got {
        case Nothing =>
        case LeaseReturned => Requeue(j);
        case Both => LaunchFromQueue(j, record);
      }
      resumed := got.Both?;
    }

    method Requeue(j: JobId)
      requires j in jobs
      modifies this`jobs, this`log, this`flow
      ensures View() == T.Requeue(old(View()), j)
    {
      Commit(j, WaitingLease, jobs[j].host);
      flow := flow - {j};
    }

    method LaunchFromQueue(j: JobId, record: Recovery)
      requires j in jobs && j in flow && flow[j] == Dequeue(record)
      modifies this
      ensures View() == LeaseRetried(old(View()), j)
      ensures j in jobs && jobs[j].state == if record.mode.StartMode? then old(jobs)[j].state else Running
    {
      LeaveQueue(j, record);
      if !record.mode.StartMode? {
        LaunchAtOnce(j);
      }
    }

    method LeaveQueue(j: JobId, record: Recovery)
      requires j in flow && flow[j] == Dequeue(record)
      modifies this`recovery, this`flow
      ensures View() == T.LeaveQueue(old(View()), j)
    {
      UpsertRecovery(j, Recovery(LeaseKind, record.mode, record.attempts, None, None, None));
      flow := flow[j := Launch(None)];
    }

    method LaunchAtOnce(j: JobId)
      requires j in jobs
      modifies this
      ensures View() == Launched(old(View()), j)
    {
      Transition(j, Starting);
      Transition(j, Running);
    }

    /** _retry_quota */
    method RetryQuota(world: World, j: JobId) returns (resumed: bool)
      requires Valid() && serving && j in jobs && jobs[j].state.WaitingQuota?
      modifies this
      ensures Valid() && j in old(recovery) && View() == Scheduler.RetryQuota(world, old(View()), j)
      ensures resumed <==> j in jobs && jobs[j].state.Running?
    {
      RetryQuotaKeeps(cfg, world, View(), j);
      if jobs[j].host.Some? && !world.online(jobs[j].host.value) {
        return false;
      }
      ResumeQuota(j, recovery[j]);
      resumed := true;
    }

    method ResumeQuota(j: JobId, record: Recovery)
      requires j in jobs
      modifies this`jobs, this`log, this`pending, this`recovery
      ensures View() == T.Write(T.ResumeQuota(old(View()), j, record), j, T.QuotaRetryRecord(record))
      ensures j in jobs && jobs[j].state.Running?
    {
      Commit(j, Running, jobs[j].host);
      var next := record.(kind := QuotaKind, mode := ResumeMode, due := None);
      pending := pending + multiset{Writing(j, next)};
      WritePrepared(j, next);
    }

    /** _retry_host: a job that waits for adoption is left alone. */
    method RetryHost(world: World, j: JobId, now: int) returns (resumed: bool)
      requires Valid() && serving && j in jobs && jobs[j].state.WaitingHost? && j in recovery
      modifies this
      ensures Valid() && View() == Scheduler.RetryHost(cfg, world, old(View()), j, now)
      ensures resumed <==> j in jobs && !Waiting(jobs[j].state)
    {
      RetryHostKeeps(cfg, world, View(), j, now);
      var record := recovery[j];
      if record.mode.AdoptMode? {
        return false;
      }
      var host := world.resolve(jobs[j].project, WantedHost(world, jobs[j], j));
      if host.None? {
        return false;
      }
      if record.mode.FinalizeMode? {
        resumed := ResumeFinalization(j, host.value, record);
      } else {
        resumed := ResumeOn(world, j, host.value, record, now);
      }
    }

    /** The host is up: the job goes ahead, or joins the queue. */
    method ResumeOn(world: World, j: JobId, host: HostId, record: Recovery, now: int) returns (resumed: bool)
      requires j in jobs && jobs[j].state.WaitingHost? && !record.mode.FinalizeMode?
      modifies this
      ensures View() == if !TreeFree(cfg, old(View()).db, j, host) then old(View())
                        else if SessionFree(old(View()).db, j)
                        then HostRetried(Placed(cfg, world, old(View()), j, host, record), j, record)
                        else var back := GivenBack(cfg, old(View()), j, host, record);
                             T.LeaseWait(back, j, record.mode, host, QueuePosition(back.db.recovery, j), now)
      ensures resumed <==> j in jobs && !Waiting(jobs[j].state)
    {
      var got := TryPlace(world, j, host, record);
      match got {
        case Nothing =>
        case LeaseReturned => EnterLeaseWait(j, record.mode, host, now);
        case Both => LaunchFromHostWait(j, record);
      }
      resumed := got.Both?;
    }

    method ResumeFinalization(j: JobId, host: HostId, record: Recovery) returns (resumed: bool)
      requires j in jobs && jobs[j].state.WaitingHost?
      modifies this
      ensures resumed == TreeFree(cfg, old(View()).db, j, host)
      ensures j in jobs && (resumed ==> jobs[j].state.Starting?)
      ensures View() == if resumed
                        then T.Write(T.Move(T.Assign(cfg, old(View()), j, host, Some(record)), j, Starting), j,
                                     T.HostRetryRecord(record))
                        else old(View())
    {
      resumed := AssignExecutionLease(j, host, Some(record));
      if resumed {
        Transition(j, Starting);
        WritePrepared(j, T.HostRetryRecord(record));
      }
    }

    method LaunchFromHostWait(j: JobId, record: Recovery)
      requires j in jobs
      modifies this
      ensures j in jobs && jobs[j].state == if record.mode.StartMode? then old(jobs)[j].state else Running
      ensures View() == HostRetried(old(View()), j, record)
    {
      if !record.mode.StartMode? {
        LaunchAtOnce(j);
      }
      WritePrepared(j, T.HostRetryRecord(record));
    }

    method Retry(world: World, j: JobId, now: int) returns (resumed: bool)
      requires Valid() && serving && j in jobs && j in recovery
      modifies this
      ensures Valid() && View() == P.Retry(cfg, world, old(View()), j, now)
    {
      match jobs[j].state {
        case WaitingQuota => resumed := RetryQuota(world, j);
        case WaitingLease => resumed := RetryLease(world, j);
        case WaitingHost => resumed := RetryHost(world, j, now);
        case _ => resumed := false;
      }
    }

    /** retry_waiting: the record of a wait may not be written yet; the retry makes one up then. */
    method RetryWaiting(world: World, j: JobId, now: int) returns (ok: bool)
      requires Valid() && serving
      modifies this
      ensures Valid() && ok == (j in old(jobs) && Waiting(old(jobs)[j].state))
      ensures View() == if ok then P.Retry(cfg, world, MadeUp(old(View()), j, now), j, now) else old(View())
    {
      ok := j in jobs && Waiting(jobs[j].state);
      if ok {
        MadeUpKeeps(cfg, View(), j, now);
        if j !in recovery {
          MakeUpRecord(j, now);
        }
        var resumed := Retry(world, j, now);
      }
    }

    /** ... for a queued job with the next place. */
    method MakeUpRecord(j: JobId, now: int)
      requires j in jobs && j !in recovery
      modifies this`recovery
      ensures View() == MadeUp(old(View()), j, now)
    {
      var mode := if jobs[j].thread.Some? then ResumeMode else StartMode;
      if jobs[j].state.WaitingLease? {
        var p := QueuePositionFor(j);
        UpsertRecovery(j, Recovery(LeaseKind, mode, 0, Some(now), None, Some(p)));
      } else {
        var kind := if jobs[j].state.WaitingQuota? then QuotaKind else HostKind;
        WriteRecord(j, Recovery(kind, mode, 0, Some(now), None, None));
      }
    }

    /** recover_due: order is the answer of RecoveryRepository.list. */
    method RecoverDue(world: World, order: seq<JobId>, now: int)
      requires Valid() && serving
      modifies this
      ensures Valid() && View() == P.Turn(cfg, world, old(View()), order, now, |order|)
    {
      ghost var start := View();
      var i := 0;
      while i < |order|
        invariant 0 <= i <= |order| && Valid() && serving
        invariant View() == P.Turn(cfg, world, start, order, now, i)
      {
        P.NextTurn(cfg, world, start, order, now, i);
        RecoverOne(world, order[i], now);
        i := i + 1;
      }
    }

    method RecoverOne(world: World, j: JobId, now: int)
      requires Valid() && serving
      modifies this
      ensures Valid() && serving && View() == P.PassStep(cfg, world, old(View()), j, now)
    {
      P.PassStepServes(cfg, world, View(), j, now);
      P.PassStepKeeps(cfg, world, View(), j, now);
      if j !in recovery {
        return;
      }
      if j !in jobs || Terminal(jobs[j].state) {
        recovery := recovery - {j};
      } else if P.Due(recovery[j].due, now) {
        var resumed := Retry(world, j, now);
      }
    }

    // ---- the queue ----

    /** The jobs of a lane, in the order of the queue q. */
    method LaneOf(key: Q.LaneKey, q: seq<JobId>) returns (lane: seq<JobId>)
      ensures lane == Q.Lane(Q.Members(cfg, jobs, key), q)
    {
      lane := [];
      ghost var members := Q.Members(cfg, jobs, key);
      for i := 0 to |q|
        invariant lane == Q.Lane(members, q[..i])
      {
        assert q[..i + 1] == q[..i] + [q[i]];
        Q.LaneAppend(members, q[..i], [q[i]]);
        if q[i] in jobs && jobs[q[i]].state.WaitingLease? && Q.LaneKeyOf(cfg, jobs[q[i]]) == key {
          lane := lane + [q[i]];
        }
      }
      assert q[..|q|] == q;
    }

    method FindIn(lane: seq<JobId>, j: JobId) returns (i: Option<nat>)
      ensures i == Q.IndexOf(lane, j)
    {
      for k := 0 to |lane|
        invariant j !in lane[..k]
      {
        if lane[k] == j {
          Q.IndexIsFirst(lane, k);
          return Some(k);
        }
      }
      i := None;
    }

    /** move_waiting_lease; q is the answer of list_queue. */
    method MoveWaitingLease(j: JobId, user: UserId, project: Option<ProjectId>, dir: Q.Direction,
          q: seq<JobId>) returns (answer: Q.Answer)
      requires Valid() && serving && Q.IsQueue(q, recovery)
      modifies this`recovery
      ensures Valid() && answer == Q.MoveAnswer(cfg, old(jobs), old(recovery), q, j, user, project, dir)
      ensures answer.SwappedWith? ==> j in old(recovery) && answer.neighbour in old(recovery)
      ensures recovery == if answer.SwappedWith? then T.Swapped(old(recovery), j, answer.neighbour) else old(recovery)
    {
      if !Q.Selected(jobs, j, user, project) || j !in recovery || recovery[j].position.None? {
        return Q.Refused;
      }
      var lane := LaneOf(Q.LaneKeyOf(cfg, jobs[j]), q);
      var i := FindIn(lane, j);
      if i.None? {
        return Q.Refused;
      }
      var n := Q.Beside(i.value, |lane|, dir);
      if n.None? {
        return Q.AtTheEnd;
      }
      var k := lane[n.value];
      Q.LaneMember(Q.Members(cfg, jobs, Q.LaneKeyOf(cfg, jobs[j])), q, n.value);
      if jobs[k].user != user {
        return Q.Refused;
      }
      SwapKeeps(cfg, View(), j, k);
      recovery := recovery[j := recovery[j].(position := recovery[k].position)][k := recovery[k].(position := recovery[j].position)];
      answer := Q.SwappedWith(k);
    }

    // ---- new jobs ----

    /** The start of create and retry_failed: the session, if it is free, and the row. */
    method RecordJob(world: World, q: A.Request) returns (locked: bool)
      requires A.ValidRequest(View(), q)
      modifies this`locks, this`jobs, this`log, this`flow
      ensures View() == A.Recorded(world, old(View()), q) && locked == (A.OwnerOfRequest(q) !in old(locks))
    {
      var o := A.OwnerOfRequest(q);
      locked := o !in locks;
      var thread := q.thread;
      if locked {
        locks := locks[o := q.id];
        thread := world.conversation(o, q.thread);
      }
      jobs := jobs[q.id := Job(Queued, q.project, q.user, q.requested, None, thread, q.created)];
      log := log + [Created(q.id)];
      flow := flow[q.id := Creating];
    }

    /** create, and retry_failed with the mode and the conversation of the failed job. */
    method Create(world: World, q: A.Request, now: int)
      requires Valid() && A.ValidRequest(View(), q)
      modifies this
      ensures Valid() && View() == A.Admitted(cfg, world, old(View()), q, now)
    {
      A.AdmittedKeeps(cfg, world, View(), q, now);
      var locked := RecordJob(world, q);
      var host := world.resolve(q.project, q.wanted);
      if host.None? {
        EnterHostWait(q.id, q.mode, q.wanted, now);
        return;
      }
      if !locked {
        EnterLeaseWait(q.id, q.mode, host.value, now);
        return;
      }
      var leased := AssignExecutionLease(q.id, host.value, None);
      if !leased {
        ReleaseUnplaced(q.id);
        EnterLeaseWait(q.id, q.mode, host.value, now);
      }
    }

    method ReleaseUnplaced(j: JobId)
      requires j in jobs
      modifies this`locks, this`flow
      ensures View() == T.UnlockUnplaced(old(View()), j)
    {
      locks := Unlock(locks, OwnerOf(jobs[j]), j);
      flow := flow[j := Unlocked];
    }

    // ---- pause, resume, cancel ----

    method Pause(j: JobId) returns (ok: bool)
      requires Valid() && serving
      modifies this
      ensures Valid() && ok == (j in old(jobs) && old(jobs)[j].state.Running?)
      ensures View() == if ok then T.Move(old(View()), j, Paused) else old(View())
      ensures ok ==> jobs == old(jobs)[j := old(jobs)[j].(state := Paused)] && recovery == old(recovery)
      ensures leases == old(leases) && locks == old(locks)
    {
      ok := j in jobs && jobs[j].state.Running?;
      if ok {
        ActiveIsPlaced(cfg, View(), j);
        MoveKeeps(cfg, View(), j, Paused);
        Transition(j, Paused);
      }
    }

    method Resume(world: World, j: JobId, now: int) returns (ok: bool)
      requires Valid() && serving
      modifies this
      ensures Valid() && ok == (j in old(jobs) && old(jobs)[j].state.Paused?)
      ensures View() == if !ok then old(View())
                        else if old(jobs)[j].host.Some? && !world.online(old(jobs)[j].host.value)
                        then T.HostWait(old(View()), j, ResumeMode, old(jobs)[j].host, now)
                        else T.Move(old(View()), j, Running)
      ensures ok ==> j in jobs && leases == old(leases) && locks == old(locks)
                     && jobs == old(jobs)[j := old(jobs)[j].(state := jobs[j].state)]
                     && jobs[j].state == if old(jobs)[j].host.Some? && !world.online(old(jobs)[j].host.value) then WaitingHost
                                         else Running
    {
      ok := j in jobs && jobs[j].state.Paused?;
      if ok {
        if jobs[j].host.Some? && !world.online(jobs[j].host.value) {
          PausedWaits(cfg, View(), j, now);
          EnterHostWait(j, ResumeMode, jobs[j].host, now);
        } else {
          ActiveIsPlaced(cfg, View(), j);
          MoveKeeps(cfg, View(), j, Running);
          Transition(j, Running);
        }
      }
    }

    /** cancel; confirmed: the runner answered with a definite result before the timeout. */
    method Cancel(j: JobId, confirmed: bool)
      requires Valid() && serving && j in jobs
      modifies this
      ensures Valid() && View() == A.CancelledBy(cfg, old(View()), j, confirmed)
      ensures old(jobs)[j].state in {Completed, Failed, Cancelled} ==> View() == old(View())
    {
      A.CancelledByKeeps(cfg, View(), j, confirmed);
      if Terminal(jobs[j].state) {
        return;
      }
      if !jobs[j].state.Cancelling? {
        Commit(j, Cancelling, jobs[j].host);
      }
      StopOrPark(j, confirmed);
    }

    method StopOrPark(j: JobId, confirmed: bool)
      requires j in jobs && jobs[j].state.Cancelling?
      modifies this
      ensures View() == A.Stopped(cfg, old(View()), j, confirmed)
    {
      if j in handles {
        CancelHandle(j, handles[j], confirmed);
      } else if Turning(j) in pending {
        return;
      } else if jobs[j].host.Some? && jobs[j].host.value != cfg.local && j in recovery && recovery[j].exec.Some? {
        WriteRecord(j, recovery[j].(mode := CancelMode, due := None));
      } else {
        FinalizeCancellation(j);
      }
    }

    method CancelHandle(j: JobId, e: ExecId, confirmed: bool)
      requires j in jobs && jobs[j].state.Cancelling?
      modifies this
      ensures View() == if confirmed then A.Ended(T.Confirm(T.CancelNote(old(View()), j, e), e), j) else T.CancelNote(old(View()), j, e)
    {
      PersistCancelIntent(j, e);
      if confirmed {
        ResultArrives(e);
        FinalizeCancellation(j);
      }
    }

    /** _persist_cancel_intent */
    method PersistCancelIntent(j: JobId, e: ExecId)
      modifies this`recovery
      ensures View() == T.CancelNote(old(View()), j, e)
    {
      WriteRecord(j, if j in recovery then recovery[j].(mode := CancelMode, due := None, exec := Some(e))
                     else Recovery(HostKind, CancelMode, 0, None, Some(e), None));
    }

    /** The gateway resolves the future of e with a definite result. */
    method ResultArrives(e: ExecId)
      modifies this`confirmed
      ensures View() == T.Confirm(old(View()), e)
    {
      confirmed := confirmed + {e};
    }

    /** _finalize_cancellation, which does nothing for a job that is not being cancelled. */
    method FinalizeCancellation(j: JobId)
      requires j in jobs
      modifies this
      ensures View() == if old(jobs)[j].state.Cancelling? then A.Ended(old(View()), j) else old(View())
    {
      if !jobs[j].state.Cancelling? {
        return;
      }
      recovery := recovery - {j};
      Commit(j, Cancelled, jobs[j].host);
      Release(j);
    }

    // ---- startup ----

    /** The process dies and a new one starts on the same tables. */
    method Restart()
      requires Valid()
      modifies this`serving, this`flow, this`draining, this`handles, this`confirmed, this`pending
      ensures Valid() && View() == T.Crash(old(View())) && S.Restarting(View())
    {
      CrashKeeps(cfg, View());
      serving, flow, draining, handles, confirmed, pending := false, map[], {}, map[], {}, multiset{};
    }

    /** list_states for the states of a phase. */
    method ListJobs(f: S.Facts, p: S.Phase) returns (js: seq<JobId>)
      ensures forall j :: j in js <==> j in jobs && S.PhaseOf(f, jobs[j].state, j) == p
    {
      js := [];
      var rest := jobs.Keys;
      while rest != {}
        invariant rest <= jobs.Keys
        invariant forall j :: j in js <==> j in jobs && j !in rest && S.PhaseOf(f, jobs[j].state, j) == p
        decreases |rest|
      {
        var j :| j in rest;
        rest := rest - {j};
        if S.PhaseOf(f, jobs[j].state, j) == p {
          js := js + [j];
        }
      }
    }

    /** The record that startup writes for the job. */
    method RecordFor(f: S.Facts, p: S.Phase, j: JobId) returns (r: Recovery)
      requires j in jobs
      ensures r == S.NewRecord(cfg, f, View().db, p, j)
    {
      var has := j in recovery;
      var attempts := if has then recovery[j].attempts else 0;
      var exec := if has then recovery[j].exec else None;
      var position := if has then recovery[j].position else None;
      var mode := S.Fallback(f, j);
      var uncertain := if Remote(cfg, jobs[j]) then AdoptMode else mode;
      match p {
        case QueuedJobs => r := Recovery(HostKind, mode, attempts, Some(f.now), exec, position);
        case CancellingJobs =>
          r := if has then recovery[j].(mode := CancelMode, due := None) else Recovery(RestartKind, CancelMode, 0, None, None, None);
        case QaJobs => r := Recovery(HostKind, QaMode, attempts, Some(f.now), exec, position);
        case InterruptedJobs => r := Recovery(RestartKind, uncertain, attempts, S.DueAt(uncertain, f.now), exec, position);
        case AgentJobs =>
          r := if f.hasQa(j) then Recovery(RestartKind, QaMode, 0, Some(f.now), None, position)
               else if f.submits(j) then Recovery(RestartKind, FinalizeMode, 0, Some(f.now), None, position)
               else Recovery(RestartKind, mode, attempts, Some(f.now), None, position);
        case LeaseJobs =>
          var place := QueuePositionFor(j);
          r := Recovery(LeaseKind, if has then recovery[j].mode else StartMode, attempts, Some(f.now), None, Some(place));
        case QuotaJobs =>
          r := if has then recovery[j] else Recovery(QuotaKind, ResumeMode, 1, Some(f.now + f.quotaDelay), None, None);
        case _ =>
          r := if has then recovery[j].(due := S.DueAt(recovery[j].mode, f.now))
               else Recovery(HostKind, uncertain, 0, S.DueAt(uncertain, f.now), None, None);
      }
    }

    method CancelAtStart(j: JobId)
      requires j in jobs
      modifies this`jobs, this`log, this`recovery, this`leases, this`locks, this`draining
      ensures View() == S.CancelledAtStart(old(View()), j)
    {
      Commit(j, Cancelled, jobs[j].host);
      Release(j);
      recovery := recovery - {j};
    }

    /** What startup does to one job of the phase. */
    method Repair(f: S.Facts, p: S.Phase, j: JobId)
      modifies this`jobs, this`log, this`recovery, this`leases, this`locks, this`draining
      ensures View() == S.Repaired(cfg, f, old(View()), p, j)
    {
      if j !in jobs || S.PhaseOf(f, jobs[j].state, j) != p || p.NoPhase? {
        return;
      }
      if p.CancellingJobs? && !Remote(cfg, jobs[j]) {
        CancelAtStart(j);
        return;
      }
      if p.QuotaJobs? && j in recovery {
        return;
      }
      var r := RecordFor(f, p, j);
      UpsertRecovery(j, r);
      if p.QueuedJobs? || p.QaJobs? || p.InterruptedJobs? || p.AgentJobs? {
        Commit(j, WaitingHost, jobs[j].host);
      }
    }

    method RepairJobs(f: S.Facts, p: S.Phase, js: seq<JobId>, ghost found: Db)
      requires Valid() && S.Restarting(View()) && S.NoStaleLease(jobs, leases)
      modifies this`jobs, this`log, this`recovery, this`leases, this`locks, this`draining
      ensures View() == S.RepairedAll(cfg, f, old(View()), p, js)
      ensures Valid() && S.Restarting(View()) && S.NoStaleLease(jobs, leases)
      ensures S.Progress(cfg, f, found, old(View()).db, View().db, p, js)
    {
      ghost var start := View();
      S.PhaseKeeps(cfg, f, found, start, p, js);
      for i := 0 to |js|
        invariant View() == S.RepairedAll(cfg, f, start, p, js[..i])
      {
        assert js[..i + 1][..i] == js[..i];
        Repair(f, p, js[i]);
      }
      assert js[..|js|] == js;
    }

    /** One phase: all jobs in its states. found are the tables at the start. */
    method RepairPhase(f: S.Facts, p: S.Phase, ghost found: Db)
      requires Valid() && S.Restarting(View()) && S.NoStaleLease(jobs, leases) && S.Through(cfg, f, found, View().db, S.Rank(p))
      modifies this`jobs, this`log, this`recovery, this`leases, this`locks, this`draining
      ensures Valid() && S.Restarting(View()) && S.NoStaleLease(jobs, leases)
      ensures S.Through(cfg, f, found, View().db, S.Rank(p) + 1) && S.Keeps(cfg, old(View()).db, View().db)
    {
      ghost var before := View().db;
      var js := ListJobs(f, p);
      RepairJobs(f, p, js, found);
      S.NextPhase(cfg, f, found, before, View().db, p, js);
    }

    /** The first part of _reconcile_execution_leases: leases of jobs that cannot have one are released. A
        lease that does not match its job refuses the start; no reachable state has one. */
    method SweepLeases()
      requires Valid() && S.Restarting(View())
      modifies this`leases
      ensures Valid() && S.Restarting(View()) && S.NoStaleLease(jobs, leases)
    {
      ghost var start := View();
      var rest := leases.Keys;
      ghost var ts: seq<Tree> := [];
      while rest != {}
        invariant rest <= start.db.leases.Keys && View() == S.SweptAll(start, ts)
        invariant forall t :: t in ts <==> t in start.db.leases && t !in rest
        decreases |rest|
      {
        var t :| t in rest;
        rest := rest - {t};
        S.SweepKeeps(cfg, start, ts);
        assert (ts + [t])[..|ts|] == ts;
        SweepLease(t);
        ts := ts + [t];
      }
      S.SweepKeeps(cfg, start, ts);
      S.SweptIsClean(start, ts);
    }

    method SweepLease(t: Tree)
      requires Valid()
      modifies this`leases
      ensures View() == S.Swept(old(View()), t)
    {
      if t in leases {
        if S.Stale(jobs, leases[t]) {
          leases := WithoutJob(leases, leases[t]);
        } else {
          assert t.host == jobs[leases[t]].host.value && t == TreeOn(cfg, jobs[leases[t]], t.host);
        }
      }
    }

    /** The second part: every open, placed job gets its lease back; a conflict refuses the start. */
    method ClaimLeases() returns (ok: bool)
      requires Valid() && S.Restarting(View()) && S.NoStaleLease(jobs, leases)
      modifies this`leases
      ensures Valid() && S.Restarting(View()) && S.NoStaleLease(jobs, leases)
      ensures ok ==> S.AllLeased(cfg, View().db)
      ensures ok <==> !S.Conflict(cfg, jobs)
    {
      ghost var start := View();
      var rest := jobs.Keys;
      ghost var js: seq<JobId> := [];
      while rest != {}
        invariant rest <= jobs.Keys && S.Claimed(cfg, start, js) == Some(View())
        invariant forall j :: j in js <==> j in jobs && j !in rest
        decreases |rest|
      {
        var j :| j in rest;
        rest := rest - {j};
        assert (js + [j])[..|js|] == js;
        if S.Claims(jobs, j) {
          var t := TreeOn(cfg, jobs[j], jobs[j].host.value);
          if !T.LeaseFree(leases, j, t) {
            S.ClaimKeeps(cfg, start, js);
            S.BusyIsConflict(cfg, View(), j);
            return false;
          }
          leases := leases[t := j];
        }
        js := js + [j];
      }
      S.ClaimKeeps(cfg, start, js);
      S.LeasedIsNoConflict(cfg, View());
      ok := true;
    }

    /** _reconcile_stale_project_session_locks */
    method SweepLocks()
      requires Valid() && S.Restarting(View())
      modifies this`locks
      ensures Valid() && S.Restarting(View())
      ensures forall o | o in locks :: o in old(locks) && locks[o] == old(locks)[o]
      ensures forall o | o in old(locks) ::
                o in locks <==> old(locks)[o] in jobs && jobs[old(locks)[o]].state !in {Completed, Failed, Cancelled}
    {
      ghost var start := View();
      var rest := locks.Keys;
      ghost var os: seq<Owner> := [];
      while rest != {}
        invariant rest <= start.db.locks.Keys && View() == S.Unlocked(start, os)
        invariant forall o :: o in os <==> o in start.db.locks && o !in rest
        decreases |rest|
      {
        var o :| o in rest;
        rest := rest - {o};
        assert (os + [o])[..|os|] == os;
        if o in locks && (locks[o] in jobs ==> Terminal(jobs[locks[o]].state)) {
          locks := locks - {o};
        }
        os := os + [o];
      }
      S.UnlockKeeps(cfg, start, os);
    }

    /** reconcile_startup. stopped: the processes of the previous controller are gone
        (ProcessControl.LocalMachine.TerminateStale). It succeeds exactly if they are and no two open jobs claim the same
        tree. Then the controller serves, every job is left as its state requires, the open placed jobs outside the
        queue and no others lease their trees, and no two jobs have the same place in the queue. */
    method ReconcileStartup(f: S.Facts, stopped: bool) returns (ok: bool)
      requires Valid() && S.Restarting(View())
      modifies this
      ensures Valid() && serving == ok
      ensures ok <==> stopped && S.OneEach(cfg, old(jobs))
      ensures !ok ==> jobs == old(jobs) && recovery == old(recovery)
      ensures ok ==> S.AllLeft(cfg, f, old(View()).db, View().db) && S.AllSettled(cfg, f, View().db)
      ensures ok ==> S.LeasedExactly(cfg, jobs, leases)
      ensures ok && PositionsDistinct(old(recovery)) ==> PositionsDistinct(recovery)
    {
      if !stopped {
        return false;
      }
      ok := ReconcileTables(f);
      if ok {
        ghost var tables := View().db;
        ServeKeeps(cfg, View());
        serving := true;
        assert View().db == tables;
      }
    }

    /** The tables of a controller that may serve. */
    method ReconcileTables(f: S.Facts) returns (ok: bool)
      requires Valid() && S.Restarting(View())
      modifies this`jobs, this`log, this`recovery, this`leases, this`locks, this`draining
      ensures Valid() && S.Restarting(View()) && ok == S.OneEach(cfg, old(jobs))
      ensures !ok ==> jobs == old(jobs) && recovery == old(recovery)
      ensures ok ==> S.AllLeft(cfg, f, old(View()).db, View().db) && S.AllSettled(cfg, f, View().db) && ServeOk(cfg, View())
      ensures ok ==> S.LeasedExactly(cfg, jobs, leases)
      ensures ok && PositionsDistinct(old(recovery)) ==> PositionsDistinct(recovery)
    {
      ghost var found := View().db;
      S.ConflictExactly(cfg, jobs);
      SweepLeases();
      ok := ClaimLeases();
      if ok {
        SweepLocks();
        S.NothingDoneYet(cfg, f, found, View().db);
        RepairAll(f, found);
        S.ReadyToServe(cfg, f, found, View());
        S.LeasedIsExact(cfg, View());
      }
    }

    method RepairAll(f: S.Facts, ghost found: Db)
      requires Valid() && S.Restarting(View()) && S.NoStaleLease(jobs, leases) && S.Through(cfg, f, found, View().db, 0)
      modifies this`jobs, this`log, this`recovery, this`leases, this`locks, this`draining
      ensures Valid() && S.Restarting(View()) && S.NoStaleLease(jobs, leases) && S.Through(cfg, f, found, View().db, 8)
      ensures S.Keeps(cfg, old(View()).db, View().db)
    {
      RepairPhase(f, S.QueuedJobs, found);
      RepairPhase(f, S.CancellingJobs, found);
      var waiting := ListJobs(f, S.HostJobs);
      S.WaitersStay(cfg, f, found, View().db, 2, waiting);
      RepairInterrupted(f, found);
      RepairWaiting(f, waiting, found);
    }

    /** The jobs that waited for a host already when the controller died; queued ones among them get their records
        again. */
    method RepairWaiting(f: S.Facts, waiting: seq<JobId>, ghost found: Db)
      requires Valid() && S.Restarting(View()) && S.NoStaleLease(jobs, leases) && S.Through(cfg, f, found, View().db, 7)
      requires S.Lists(f, found, S.HostJobs, waiting)
      modifies this`jobs, this`log, this`recovery, this`leases, this`locks, this`draining
      ensures Valid() && S.Restarting(View()) && S.NoStaleLease(jobs, leases) && S.Through(cfg, f, found, View().db, 8)
      ensures S.Keeps(cfg, old(View()).db, View().db)
    {
      ghost var before := View().db;
      RepairJobs(f, S.HostJobs, waiting, found);
      S.NextPhase(cfg, f, found, before, View().db, S.HostJobs, waiting);
    }

    /** The phases between the listing of the jobs that waited for a host before and their repair. */
    method RepairInterrupted(f: S.Facts, ghost found: Db)
      requires Valid() && S.Restarting(View()) && S.NoStaleLease(jobs, leases) && S.Through(cfg, f, found, View().db, 2)
      modifies this`jobs, this`log, this`recovery, this`leases, this`locks, this`draining
      ensures Valid() && S.Restarting(View()) && S.NoStaleLease(jobs, leases) && S.Through(cfg, f, found, View().db, 7)
      ensures S.Keeps(cfg, old(View()).db, View().db)
    {
      for i := 0 to 5
        invariant Valid() && S.Restarting(View()) && S.NoStaleLease(jobs, leases)
        invariant S.Through(cfg, f, found, View().db, i + 2) && S.Keeps(cfg, old(View()).db, View().db)
      {
        RepairPhase(f, S.Middle(i), found);
      }
    }

    // ---- reconnecting runners ----

    /** The pass reads the job rows, the reports and their owners, once. */
    method BeginPass(snap: Snapshot, order: seq<ExecId>) returns (v: View)
      modifies this`pending
      ensures v == Begun(old(View()).db, snap, order) && View() == T.With(old(View()), Passing(v))
    {
      v := Tables.View.View(snap, order, jobs, Owned(jobs, ledger, snap), Reported(jobs, ledger, snap));
      pending := pending + multiset{Passing(v)};
    }

    /** The execution that a reported job may take over: the latest that its row gives to it, or else
        one that matches. ids lists the reported executions, v.order the rows of the ledger by age. */
    method FindExecution(v: View, ids: seq<ExecId>, j: JobId) returns (r: Option<ExecId>)
      requires j in v.rows && Lists(ids, v.reported)
      ensures r == Matched(cfg, v, j)
    {
      r := LastOwned(v.order, v.owned, v.reported, j);
      if r.None? {
        r := FindMatch(v.rows[j], j, cfg.path(v.rows[j].project, v.snap.host), v.owned, v.reported, ids);
      }
    }

    method PickExecution(v: View, ids: seq<ExecId>, j: JobId) returns (r: Option<ExecId>)
      requires j in v.rows && j in recovery && Lists(ids, v.reported)
      ensures r == Pick(cfg, v, j, recovery[j])
    {
      var matched := FindExecution(v, ids, j);
      var recorded := Recorded(recovery[j], j, v.owned, v.reported);
      var recordedFirst := v.rows[j].state.WaitingHost? && !recovery[j].mode.AdoptMode?;
      r := if recordedFirst then Either(recorded, matched) else Either(matched, recorded);
    }

    /** The loop body of reconcile_runner for a job that was listed as waiting for its host or being cancelled; not
        ok: it raises. */
    method ReconcileJob(v: View, ids: seq<ExecId>, j: JobId) returns (ok: bool)
      requires serving && Lists(ids, v.reported)
      modifies this
      ensures View() == N.Reconciled(cfg, old(View()), v, j).state && ok == N.Reconciled(cfg, old(View()), v, j).Done?
    {
      ok := true;
      if j !in v.rows || v.rows[j].host != Some(v.snap.host) || j !in jobs || j !in recovery {
        return;
      }
      if !v.rows[j].state.WaitingHost? && !(v.rows[j].state.Cancelling? && recovery[j].mode.CancelMode?) {
        return;
      }
      var e := PickExecution(v, ids, j);
      if e.Some? {
        ok := TakeOver(v, j, e.value);
      }
    }

    method TakeOver(v: View, j: JobId, e: ExecId) returns (ok: bool)
      requires j in jobs && j in recovery && j in v.rows
      modifies this
      ensures View() == N.Taken(cfg, old(View()), v, j, e).state && ok == N.Taken(cfg, old(View()), v, j, e).Done?
    {
      WriteRecord(j, recovery[j].(exec := Some(e)));
      if !v.rows[j].state.WaitingHost? {
        pending := pending + multiset{Claim(j, e)};
        ok := SetHandle(v, j, e);
      } else if !jobs[j].state.WaitingHost? {
        ok := false;
      } else {
        ok := AdoptExecution(v, j, e);
      }
    }

    method AdoptExecution(v: View, j: JobId, e: ExecId) returns (ok: bool)
      requires j in jobs
      modifies this
      ensures ok == !Foreign(old(ledger), j, v.snap.host, e)
      ensures var s1 := T.Move(T.Adopt(old(View()), j, e, v.snap.host), j, Starting);
              View() == if ok then T.Move(N.Handled(cfg, s1, v, j, e), j, Running) else N.Handed(s1, v, j, e)
    {
      BeginAdoption(v.snap.host, j, e);
      ok := SetHandle(v, j, e);
      if ok {
        Transition(j, Running);
      }
    }

    method BeginAdoption(host: HostId, j: JobId, e: ExecId)
      requires j in jobs
      modifies this
      ensures View() == T.Move(T.Adopt(old(View()), j, e, host), j, Starting)
    {
      Commit(j, Assigned, Some(host));
      flow := flow[j := Adopting(e)];
      Transition(j, Starting);
    }

    /** _handles[job_id] = handle and _set_handle, which raises if the ledger gives e to another job or host. */
    method SetHandle(v: View, j: JobId, e: ExecId) returns (ok: bool)
      requires j in jobs
      modifies this`handles, this`jobs, this`ledger, this`recovery, this`pending
      ensures ok == !Foreign(old(ledger), j, v.snap.host, e)
      ensures View() == if ok then N.Handled(cfg, old(View()), v, j, e) else N.Handed(old(View()), v, j, e)
    {
      InstallHandle(v, j, e);
      ok := e in ledger ==> ledger[e].job == j && ledger[e].host == v.snap.host;
      if ok {
        EnsureExecution(v.snap, j, e);
        RecordExecution(j, e);
      }
    }

    method InstallHandle(v: View, j: JobId, e: ExecId)
      requires j in jobs
      modifies this`handles, this`jobs, this`pending
      ensures View() == N.Handed(old(View()), v, j, e)
    {
      pending := pending - multiset{Claim(j, e)} + multiset{Hold(j, e)};
      handles := handles[j := e];
      jobs := jobs[j := jobs[j].(thread := N.Conversation(v, jobs[j], j, e))];
    }

    method RecordExecution(j: JobId, e: ExecId)
      modifies this`recovery
      ensures View() == T.RecordExec(old(View()), j, e)
    {
      WriteRecord(j, if j in recovery then recovery[j].(due := None, exec := Some(e))
                     else Recovery(RestartKind, AdoptMode, 0, None, Some(e), None));
    }

    /** _ensure_remote_execution, for an execution that no other job or host owns. */
    method EnsureExecution(snap: Snapshot, j: JobId, e: ExecId)
      requires j in jobs
      modifies this`ledger
      ensures View() == T.PutLedger(old(View()), e, N.EnsuredRow(cfg, old(View()), snap, j, e))
    {
      var thread := jobs[j].thread;
      if e in ledger {
        if thread.Some? {
          ledger := ledger[e := ledger[e].(thread := thread)];
        }
      } else {
        var path := cfg.path(jobs[j].project, snap.host);
        ledger := ledger[e := Execution(j, snap.host, snap.runner, path, thread, ActiveRow, snap.at)];
      }
    }

    /** The loops over the listed jobs. They end early exactly if a job is bound to an execution of another one, and keep
        the rules if every job that is bound was started, and none is in the middle of a placement. */
    method ReconcileJobs(snap: Snapshot, order: seq<ExecId>, ids: seq<ExecId>, js: seq<JobId>) returns (v: View, ok: bool)
      requires Valid() && serving && N.Distinct(js) && forall j | j in js :: j in jobs
      requires Lists(ids, Reported(jobs, ledger, snap))
      modifies this
      ensures v == Begun(old(View()).db, snap, order)
      ensures ok <==> forall k | 0 <= k < |js| :: !N.Collides(cfg, T.With(old(View()), Passing(v)), v, js, k)
      ensures View() == N.PassOver(cfg, T.With(old(View()), Passing(v)), v, js).state
      ensures N.ReadyToPass(cfg, T.With(old(View()), Passing(v)), v, js) ==> Valid()
    {
      v := BeginPass(snap, order);
      ghost var start := View();
      PassingKeeps(cfg, old(View()), start, v);
      N.BindsOnlyOwners(cfg, start, snap, order, js);
      if N.ReadyToPass(cfg, start, v, js) {
        N.PassKeeps(cfg, start, snap, order, js);
      }
      ok := PassJobs(v, ids, js);
    }

    method PassJobs(v: View, ids: seq<ExecId>, js: seq<JobId>) returns (ok: bool)
      requires serving && Lists(ids, v.reported)
      modifies this
      ensures View() == N.PassOver(cfg, old(View()), v, js).state && ok == N.PassOver(cfg, old(View()), v, js).Done?
    {
      ghost var start := View();
      ok := true;
      for i := 0 to |js|
        invariant ok && serving && N.PassOver(cfg, start, v, js[..i]) == N.Done(View())
      {
        assert js[..i + 1][..i] == js[..i];
        N.ReconciledServes(cfg, View(), v, js[i]);
        ok := ReconcileJob(v, ids, js[i]);
        if !ok {
          N.RaisedStays(cfg, start, v, js, i + 1);
          return;
        }
      }
      assert js[..|js|] == js;
    }

    /** The second loop: after a complete snapshot, listed jobs without a reported execution stop waiting for
        adoption. */
    method GiveUpAdoption(v: View, ids: seq<ExecId>, waiting: seq<JobId>, known: JobId -> bool, now: int)
      requires Valid() && serving && Lists(ids, v.reported) && Passing(v) in pending
      requires v.snap.complete && forall j | j in waiting :: j in v.rows && v.rows[j].state.WaitingHost?
      modifies this`recovery
      ensures Valid() && View() == N.GivenUpAll(cfg, old(View()), v, waiting, known, now)
    {
      ghost var start := View();
      for i := 0 to |waiting|
        invariant View() == N.GivenUpAll(cfg, start, v, waiting[..i], known, now)
        invariant serving == start.mem.serving && jobs == start.db.jobs && ledger == start.db.ledger
      {
        assert waiting[..i + 1][..i] == waiting[..i];
        var j := waiting[i];
        if j in jobs && jobs[j].state.WaitingHost? && j in recovery && recovery[j].mode.AdoptMode? {
          var found := FindExecution(v, ids, j);
          var own := recovery[j].exec;
          if found.None? && (own.None? || own.value !in v.reported) {
            WriteRecord(j, recovery[j].(mode := if known(j) then ResumeMode else StartMode, due := Some(now), exec := None));
          }
        }
      }
      assert waiting[..|waiting|] == waiting;
      N.GivenUpKeeps(cfg, start, v, waiting, known, now);
    }
  }
}
