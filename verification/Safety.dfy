/** Every transaction keeps the invariants. */
module Safety {
  import opened Wrappers
  import opened States
  import opened Tables
  import opened Matching
  import opened Transactions
  import opened Invariants

  lemma NoFlowKeeps(cfg: Config, s: State, j: JobId)
    requires Inv(cfg, s)
    ensures Inv(cfg, s.(mem := NoFlow(s.mem, j)))
  {
  }

  lemma WithFlowKeeps(cfg: Config, d: Db, m: Memory, j: JobId, f: Flow)
    requires Steady(cfg, d, NoFlow(m, j))
    requires j in d.jobs && FlowSound(cfg, d.jobs, d.leases, d.locks, d.recovery, d.log, m.pending, f, j)
    ensures Steady(cfg, d, WithFlow(m, j, f))
  {
  }

  /** A transition of a running controller. */
  lemma ShiftKeeps(cfg: Config, s: State, j: JobId, target: JobState, host: Option<HostId>)
    requires Inv(cfg, s) && ShiftFits(cfg, s.db, j, target, host)
    requires s.mem.serving ==> ShiftServes(cfg, s.db, s.mem, j, target, host)
    ensures Inv(cfg, s.(db := Shift(s.db, j, target, host)))
  {
    ShiftKeepsCore(cfg, s.db, j, target, host);
    if s.mem.serving {
      ShiftKeepsSteady(cfg, s.db, s.mem, j, target, host);
    }
  }

  lemma PutRecoveryKeeps(cfg: Config, s: State, j: JobId, r: Recovery)
    requires Inv(cfg, s) && RecoveryFits(s.db, j, r) && (s.mem.serving ==> RecoveryServes(s.db, s.mem, j, r))
    ensures Inv(cfg, s.(db := PutRecovery(s.db, j, r)))
  {
    PutRecoveryKeepsCore(cfg, s.db, j, r);
    if s.mem.serving {
      PutRecoveryKeepsSteady(cfg, s.db, s.mem, j, r);
    }
  }

  // ---- what coroutines remember ----

  lemma RecallKeeps(cfg: Config, s: State, t: Pending)
    requires Inv(cfg, s) && PendingSound(s.db.jobs, s.db.log, t)
    ensures Inv(cfg, With(s, t))
  {
    if s.mem.serving {
      forall j | j in s.db.jobs ensures WaitRecorded(s.db.jobs[j], s.db.recovery, With(s, t).mem.pending, j) {
        assert WaitRecorded(s.db.jobs[j], s.db.recovery, s.mem.pending, j);
        MoreWaits(s.mem.pending, t, j);
      }
      forall j | j in s.mem.flow
        ensures FlowSound(cfg, s.db.jobs, s.db.leases, s.db.locks, s.db.recovery, s.db.log, With(s, t).mem.pending,
                          s.mem.flow[j], j)
      {
        assert FlowSound(cfg, s.db.jobs, s.db.leases, s.db.locks, s.db.recovery, s.db.log, s.mem.pending, s.mem.flow[j], j);
        MoreWaits(s.mem.pending, t, j);
      }
    }
  }

  lemma MoreWaits(pending: multiset<Pending>, t: Pending, j: JobId)
    ensures IsEntering(pending, j) ==> IsEntering(pending + multiset{t}, j)
    ensures IsQueuing(pending, j) ==> IsQueuing(pending + multiset{t}, j)
  {
    if r: Recovery :| Entering(j, r) in pending {
      assert Entering(j, r) in pending + multiset{t};
    }
    if r: Recovery :| Queuing(j, r) in pending {
      assert Queuing(j, r) in pending + multiset{t};
    }
  }

  lemma LessWaits(pending: multiset<Pending>, t: Pending, j: JobId)
    ensures !(t.Entering? && t.job == j) && IsEntering(pending, j) ==> IsEntering(pending - multiset{t}, j)
    ensures !(t.Queuing? && t.job == j) && IsQueuing(pending, j) ==> IsQueuing(pending - multiset{t}, j)
  {
    if r: Recovery :| Entering(j, r) in pending {
      assert t != Entering(j, r) ==> Entering(j, r) in pending - multiset{t};
    }
    if r: Recovery :| Queuing(j, r) in pending {
      assert t != Queuing(j, r) ==> Queuing(j, r) in pending - multiset{t};
    }
  }

  /** What a wait has promised is kept, or no longer needed. */
  predicate Fulfilled(recovery: Recoveries, t: Pending) {
    && (t.Entering? ==> t.job in recovery)
    && (t.Queuing? ==> t.job in recovery && recovery[t.job].position.Some?)
  }

  lemma DiscardKeeps(cfg: Config, s: State, t: Pending)
    requires Inv(cfg, s) && Fulfilled(s.db.recovery, t)
    ensures Inv(cfg, Without(s, t))
  {
    if s.mem.serving {
      forall j | j in s.db.jobs ensures WaitRecorded(s.db.jobs[j], s.db.recovery, Without(s, t).mem.pending, j) {
        assert WaitRecorded(s.db.jobs[j], s.db.recovery, s.mem.pending, j);
        LessWaits(s.mem.pending, t, j);
      }
      forall j | j in s.mem.flow
        ensures FlowSound(cfg, s.db.jobs, s.db.leases, s.db.locks, s.db.recovery, s.db.log, Without(s, t).mem.pending,
                          s.mem.flow[j], j)
      {
        assert FlowSound(cfg, s.db.jobs, s.db.leases, s.db.locks, s.db.recovery, s.db.log, s.mem.pending, s.mem.flow[j], j);
        LessWaits(s.mem.pending, t, j);
      }
    }
  }

  /** A record without a place of its own keeps the place of the stored one. */
  lemma PutKeeps(cfg: Config, s: State, j: JobId, r: Recovery)
    requires Inv(cfg, s) && j in s.db.jobs && RecordSound(s.db.log, j, r)
    ensures Inv(cfg, Put(s, j, r))
  {
    var r' := r.(position := Position(s.db, j));
    if s.mem.serving {
      assert WaitRecorded(s.db.jobs[j], s.db.recovery, s.mem.pending, j);
      if j in s.mem.flow {
        assert FlowSound(cfg, s.db.jobs, s.db.leases, s.db.locks, s.db.recovery, s.db.log, s.mem.pending, s.mem.flow[j], j);
      }
    }
    PutRecoveryKeeps(cfg, s, j, r');
  }

  /** Whatever has become of the job since the record was prepared. */
  lemma WriteKeeps(cfg: Config, s: State, j: JobId, r: Recovery)
    requires Inv(cfg, s) && WriteOk(s, j, r)
    ensures Inv(cfg, Write(s, j, r))
  {
    assert PendingSound(s.db.jobs, s.db.log, Writing(j, r));
    PutKeeps(cfg, s, j, r);
    DiscardKeeps(cfg, Put(s, j, r), Writing(j, r));
  }

  lemma TakeSessionKeeps(cfg: Config, s: State, j: JobId, o: Owner)
    requires Inv(cfg, s) && TakeSessionOk(s, j, o)
    ensures Inv(cfg, TakeSession(s, j, o))
  {
    LockedKeepsCore(cfg, s.db, o, j);
    LockedKeepsSteady(cfg, s.db, s.mem, o, j);
  }

  lemma AddJobKeeps(cfg: Config, s: State, j: JobId, job: Job)
    requires Inv(cfg, s) && AddJobOk(s, j, job)
    ensures Inv(cfg, AddJob(s, j, job))
  {
    NewJobKeepsCore(cfg, s.db, j, job);
    NewJobKeepsSteady(cfg, s.db, s.mem, j, job);
    var d := AddJob(s, j, job).db;
    if Started(d.log, j) {
      StartedIsPresent(s.db.log, j);
      assert false;
    }
    WithFlowKeeps(cfg, d, s.mem, j, Creating);
  }

  lemma UnlockUnplacedKeeps(cfg: Config, s: State, j: JobId)
    requires Inv(cfg, s) && UnlockUnplacedOk(s, j)
    ensures Inv(cfg, UnlockUnplaced(s, j))
  {
    var o := OwnerOf(s.db.jobs[j]);
    assert FlowSound(cfg, s.db.jobs, s.db.leases, s.db.locks, s.db.recovery, s.db.log, s.mem.pending, s.mem.flow[j], j);
    if HoldsSession(s.db.jobs, s.db.locks, j) {
      UnlockedKeepsCore(cfg, s.db, o);
      UnlockedKeepsSteady(cfg, s.db, s.mem, o);
    }
    WithFlowKeeps(cfg, UnlockUnplaced(s, j).db, s.mem, j, Unlocked);
  }

  lemma HostWaitRecordSound(cfg: Config, s: State, j: JobId, mode: Mode, due: int)
    requires Inv(cfg, s) && s.mem.serving && (mode.FinalizeMode? ==> Started(s.db.log, j))
    ensures RecordSound(s.db.log, j, HostWaitRecord(s, j, mode, due))
  {
  }

  lemma EnterHostWaitKeeps(cfg: Config, s: State, j: JobId, mode: Mode, host: Option<HostId>, due: int)
    requires Inv(cfg, s) && HostWaitOk(cfg, s, j, mode, host)
    ensures Inv(cfg, EnterHostWait(s, j, mode, host, due))
  {
    var r := HostWaitRecord(s, j, mode, due);
    HostWaitRecordSound(cfg, s, j, mode, due);
    var s1 := s.(mem := NoFlow(s.mem, j));
    NoFlowKeeps(cfg, s, j);
    RecallKeeps(cfg, s1, Entering(j, r));
    if !s.db.jobs[j].state.WaitingHost? {
      assert Entering(j, r) in With(s1, Entering(j, r)).mem.pending;
      ShiftKeeps(cfg, With(s1, Entering(j, r)), j, WaitingHost, NewHost(s.db.jobs[j], host));
    }
  }

  lemma RecordHostWaitKeeps(cfg: Config, s: State, j: JobId, r: Recovery)
    requires Inv(cfg, s) && RecordHostWaitOk(s, j, r)
    ensures Inv(cfg, RecordHostWait(s, j, r))
  {
    assert PendingSound(s.db.jobs, s.db.log, Entering(j, r));
    PutKeeps(cfg, s, j, r);
    DiscardKeeps(cfg, Put(s, j, r), Entering(j, r));
  }

  lemma HostWaitKeeps(cfg: Config, s: State, j: JobId, mode: Mode, host: Option<HostId>, due: int)
    requires Inv(cfg, s) && HostWaitOk(cfg, s, j, mode, host)
    ensures Inv(cfg, HostWait(s, j, mode, host, due))
  {
    EnterHostWaitKeeps(cfg, s, j, mode, host, due);
    RecordHostWaitKeeps(cfg, EnterHostWait(s, j, mode, host, due), j, HostWaitRecord(s, j, mode, due));
  }

  lemma EnterLeaseWaitKeeps(cfg: Config, s: State, j: JobId, mode: Mode, host: HostId, due: int)
    requires Inv(cfg, s) && EnterLeaseWaitOk(cfg, s, j, mode, host)
    ensures Inv(cfg, EnterLeaseWait(s, j, mode, host, due))
  {
    var t := Queuing(j, LeaseWaitRecord(mode, due));
    assert FlowSound(cfg, s.db.jobs, s.db.leases, s.db.locks, s.db.recovery, s.db.log, s.mem.pending, s.mem.flow[j], j);
    var s1 := s.(mem := NoFlow(s.mem, j));
    NoFlowKeeps(cfg, s, j);
    RecallKeeps(cfg, s1, t);
    assert t in With(s1, t).mem.pending;
    ShiftKeeps(cfg, With(s1, t), j, WaitingLease, Some(host));
  }

  lemma KeepPlaceKeeps(cfg: Config, s: State, j: JobId, r: Recovery)
    requires Inv(cfg, s) && KeepPlaceOk(s, j, r)
    ensures Inv(cfg, KeepPlace(s, j, r))
  {
    assert PendingSound(s.db.jobs, s.db.log, Queuing(j, r));
    DiscardKeeps(cfg, s, Queuing(j, r));
    RecallKeeps(cfg, Without(s, Queuing(j, r)), Queuing(j, r.(position := Position(s.db, j))));
  }

  /** The place that was determined is on record, whatever has become of the job since its transition. */
  lemma PlaceKeeps(cfg: Config, s: State, j: JobId, r: Recovery, p: nat)
    requires Inv(cfg, s) && s.mem.serving && Queuing(j, r) in s.mem.pending
    ensures Inv(cfg, Without(s.(db := PutRecovery(s.db, j, r.(position := Some(p)))), Queuing(j, r)))
  {
    assert PendingSound(s.db.jobs, s.db.log, Queuing(j, r));
    PutRecoveryKeeps(cfg, s, j, r.(position := Some(p)));
    DiscardKeeps(cfg, s.(db := PutRecovery(s.db, j, r.(position := Some(p)))), Queuing(j, r));
  }

  lemma WritePlaceKeeps(cfg: Config, s: State, j: JobId, r: Recovery)
    requires Inv(cfg, s) && WritePlaceOk(s, j, r)
    ensures Inv(cfg, WritePlace(s, j, r))
  {
    PlaceKeeps(cfg, s, j, r, r.position.value);
    assert r.(position := Some(r.position.value)) == r;
  }

  lemma LeaseWaitKeeps(cfg: Config, s: State, j: JobId, mode: Mode, host: HostId, p: nat, due: int)
    requires Inv(cfg, s) && EnterLeaseWaitOk(cfg, s, j, mode, host)
    ensures Inv(cfg, LeaseWait(s, j, mode, host, p, due))
  {
    EnterLeaseWaitKeeps(cfg, s, j, mode, host, due);
    PlaceKeeps(cfg, EnterLeaseWait(s, j, mode, host, due), j, LeaseWaitRecord(mode, due), p);
    LeaseWaitIs(s, j, mode, host, p, due);
  }

  lemma MakeUpPlaceKeeps(cfg: Config, s: State, j: JobId, p: nat, due: int)
    requires Inv(cfg, s) && MakeUpPlaceOk(s, j, p)
    ensures Inv(cfg, MakeUpPlace(s, j, p, due))
  {
    PutRecoveryKeeps(cfg, s, j, MadeUpRecord(s.db.jobs[j], due).(kind := LeaseKind, position := Some(p)));
  }

  /** An active job was started and holds its tree and its session. */
  lemma ActiveHolds(cfg: Config, d: Db, j: JobId)
    requires Core(cfg, d) && j in d.jobs && Active(d.jobs[j].state)
    ensures Started(d.log, j) && HoldsLease(cfg, d.jobs, d.leases, j) && HoldsSession(d.jobs, d.locks, j)
  {
    assert Replay(d.log, j) == At(d.jobs[j].state);
    ActiveNeedsStart(d.log, j);
    assert StartedHold(cfg, d.jobs, d.leases, d.locks, d.log, j);
  }

  lemma QuotaRecordSound(cfg: Config, s: State, j: JobId, due: int)
    requires Inv(cfg, s) && s.mem.serving
    ensures RecordSound(s.db.log, j, QuotaRecord(s, j, due))
  {
  }

  lemma QuotaWaitKeeps(cfg: Config, s: State, j: JobId, due: int)
    requires Inv(cfg, s) && CountQuotaOk(s, j) && j !in s.mem.flow
    ensures Inv(cfg, QuotaWait(s, j, due))
  {
    QuotaRecordSound(cfg, s, j, due);
    PutKeeps(cfg, s, j, QuotaRecord(s, j, due));
    MoveKeeps(cfg, Put(s, j, QuotaRecord(s, j, due)), j, WaitingQuota);
  }

  lemma AssignKeeps(cfg: Config, s: State, j: JobId, host: HostId, read: Option<Recovery>)
    requires Inv(cfg, s) && AssignOk(cfg, s, j, host, read) && (read.Some? ==> RecordSound(s.db.log, j, read.value))
    ensures Inv(cfg, Assign(cfg, s, j, host, read))
  {
    var s' := Assign(cfg, s, j, host, read);
    LeasedAssignKeeps(cfg, s, j, host, read);
    AssignedFlow(cfg, s, j, host, read);
    WithFlowKeeps(cfg, s'.db, s.mem, j, s'.mem.flow[j]);
  }

  lemma LeasedAssignKeeps(cfg: Config, s: State, j: JobId, host: HostId, read: Option<Recovery>)
    requires Inv(cfg, s) && AssignOk(cfg, s, j, host, read)
    ensures Core(cfg, Assign(cfg, s, j, host, read).db)
    ensures Steady(cfg, Assign(cfg, s, j, host, read).db, NoFlow(s.mem, j))
  {
    var d, m1 := Shift(s.db, j, Assigned, Some(host)), NoFlow(s.mem, j);
    NoFlowKeeps(cfg, s, j);
    ShiftKeeps(cfg, s.(mem := m1), j, Assigned, Some(host));
    assert Assign(cfg, s, j, host, read).db == Leased(cfg, d, j);
    LeasedKeepsCore(cfg, d, j);
    LeasedKeepsSteady(cfg, d, m1, j);
  }

  lemma LeasedKeepsSteady(cfg: Config, d: Db, m: Memory, j: JobId)
    requires Steady(cfg, d, m) && LeaseFits(cfg, d, j) && !Terminal(d.jobs[j].state) && j !in m.flow
    ensures Steady(cfg, Leased(cfg, d, j), m)
  {
  }

  lemma AssignedFlow(cfg: Config, s: State, j: JobId, host: HostId, read: Option<Recovery>)
    requires Core(cfg, s.db) && Steady(cfg, s.db, s.mem) && AssignOk(cfg, s, j, host, read)
    requires read.Some? ==> RecordSound(s.db.log, j, read.value)
    ensures var s' := Assign(cfg, s, j, host, read);
            FlowSound(cfg, s'.db.jobs, s'.db.leases, s'.db.locks, s'.db.recovery, s'.db.log, s'.mem.pending, s'.mem.flow[j], j)
  {
    assert WaitRecorded(s.db.jobs[j], s.db.recovery, s.mem.pending, j);
    assert StartedHold(cfg, s.db.jobs, s.db.leases, s.db.locks, s.db.log, j);
  }

  lemma GrantSessionKeeps(cfg: Config, s: State, j: JobId)
    requires Inv(cfg, s) && GrantSessionOk(s, j)
    ensures Inv(cfg, GrantSession(s, j))
  {
    var o, r := OwnerOf(s.db.jobs[j]), s.mem.flow[j].read;
    assert FlowSound(cfg, s.db.jobs, s.db.leases, s.db.locks, s.db.recovery, s.db.log, s.mem.pending, s.mem.flow[j], j);
    LockedKeepsCore(cfg, s.db, o, j);
    LockedKeepsSteady(cfg, s.db, s.mem, o, j);
    LockedHolds(s.db.jobs, s.db.locks, o, j, j);
    GrantedFlowKeeps(cfg, s.(db := s.db.(locks := s.db.locks[o := j])), j, r, s.mem.flow[j].queued);
  }

  lemma GrantedFlowKeeps(cfg: Config, s: State, j: JobId, r: Recovery, queued: bool)
    requires Inv(cfg, s) && s.mem.serving && j in s.db.jobs && RecordSound(s.db.log, j, r)
    requires HoldsSession(s.db.jobs, s.db.locks, j)
    requires var st := s.db.jobs[j].state;
             (st.Assigned? && HoldsLease(cfg, s.db.jobs, s.db.leases, j)) || st.Cancelling? || Terminal(st)
    ensures Inv(cfg, s.(mem := Granted(s.mem, j, r, queued)))
  {
    NoFlowKeeps(cfg, s, j);
    if queued {
      WithFlowKeeps(cfg, s.db, s.mem, j, Dequeue(r));
    } else if r.mode.StartMode? {
      WithFlowKeeps(cfg, s.db, s.mem, j, Launch(None));
      RecallKeeps(cfg, s.(mem := WithFlow(s.mem, j, Launch(None))), Writing(j, HostRetryRecord(r)));
    } else {
      WithFlowKeeps(cfg, s.db, s.mem, j, Launch(Some(r)));
    }
  }

  /** A job whose session is locked by another job was never started. */
  lemma LockedOutIsNew(cfg: Config, s: State, j: JobId)
    requires Core(cfg, s.db) && j in s.db.jobs && !HoldsSession(s.db.jobs, s.db.locks, j)
    ensures Started(s.db.log, j) ==> Terminal(s.db.jobs[j].state)
  {
  }

  lemma ReturnLeaseKeeps(cfg: Config, s: State, j: JobId)
    requires Inv(cfg, s) && ReturnLeaseOk(s, j)
    ensures Inv(cfg, ReturnLease(s, j))
  {
    assert FlowSound(cfg, s.db.jobs, s.db.leases, s.db.locks, s.db.recovery, s.db.log, s.mem.pending, s.mem.flow[j], j);
    LockedOutIsNew(cfg, s, j);
    DropLeasesKeepsCore(cfg, s.db, j);
    NoFlowKeeps(cfg, s, j);
    DropLeasesKeepsSteady(cfg, s.db, NoFlow(s.mem, j), j);
    DroppedHolds(cfg, s.db.jobs, s.db.leases, j, j);
    WithFlowKeeps(cfg, ReturnLease(s, j).db, s.mem, j, Returned(s.mem.flow[j].read, s.mem.flow[j].queued));
  }

  lemma DropLeasesKeepsSteady(cfg: Config, d: Db, m: Memory, j: JobId)
    requires Steady(cfg, d, m)
    requires j in m.flow ==> j in d.jobs && !d.jobs[j].state.Assigned?
    ensures Steady(cfg, d.(leases := WithoutJob(d.leases, j)), m)
    ensures Steady(cfg, d.(leases := WithoutJob(d.leases, j)), m.(draining := m.draining - {j}))
  {
  }

  lemma RequeueKeeps(cfg: Config, s: State, j: JobId)
    requires Inv(cfg, s) && RequeueOk(s, j)
    ensures Inv(cfg, Requeue(s, j))
  {
    assert FlowSound(cfg, s.db.jobs, s.db.leases, s.db.locks, s.db.recovery, s.db.log, s.mem.pending, s.mem.flow[j], j);
    NoFlowKeeps(cfg, s, j);
    ShiftKeeps(cfg, s.(mem := NoFlow(s.mem, j)), j, WaitingLease, s.db.jobs[j].host);
  }

  lemma LeaveQueueKeeps(cfg: Config, s: State, j: JobId)
    requires Inv(cfg, s) && LeaveQueueOk(s, j)
    ensures Inv(cfg, LeaveQueue(s, j))
  {
    var r := LeaseRetryRecord(s.mem.flow[j].read);
    assert FlowSound(cfg, s.db.jobs, s.db.leases, s.db.locks, s.db.recovery, s.db.log, s.mem.pending, s.mem.flow[j], j);
    PutRecoveryKeeps(cfg, s, j, r);
    var d := PutRecovery(s.db, j, r);
    NoFlowKeeps(cfg, s.(db := d), j);
    WithFlowKeeps(cfg, d, s.mem, j, Launch(None));
  }

  lemma ResumeQuotaKeeps(cfg: Config, s: State, j: JobId, r: Recovery)
    requires Inv(cfg, s) && ResumeQuotaOk(s, j) && RecordSound(s.db.log, j, r)
    ensures Inv(cfg, ResumeQuota(s, j, r))
  {
    ShiftKeeps(cfg, s, j, Running, s.db.jobs[j].host);
    RecallKeeps(cfg, s.(db := Shift(s.db, j, Running, s.db.jobs[j].host)), Writing(j, QuotaRetryRecord(r)));
  }

  /** The transition of a placement. */
  lemma PlacementMoves(cfg: Config, s: State, j: JobId, target: JobState)
    requires Inv(cfg, s) && MoveOk(s, j, target) && j in s.mem.flow
    ensures Inv(cfg, State(Shift(s.db, j, target, s.db.jobs[j].host), NoFlow(s.mem, j)))
  {
    assert FlowSound(cfg, s.db.jobs, s.db.leases, s.db.locks, s.db.recovery, s.db.log, s.mem.pending, s.mem.flow[j], j);
    NoFlowKeeps(cfg, s, j);
    ShiftKeeps(cfg, s.(mem := NoFlow(s.mem, j)), j, target, s.db.jobs[j].host);
  }

  /** ... and how its coroutine goes on. */
  lemma CarriedMoves(cfg: Config, s: State, j: JobId, target: JobState)
    requires Inv(cfg, s) && MoveOk(s, j, target) && j in s.mem.flow
    ensures Inv(cfg, Move(s, j, target))
  {
    PlacementMoves(cfg, s, j, target);
    CarriedFacts(cfg, s, j, target);
    var s2 := State(Shift(s.db, j, target, s.db.jobs[j].host), NoFlow(s.mem, j));
    match s.mem.flow[j]
    case Launch(Some(r)) =>
      if r.mode.FinalizeMode? {
        RecallKeeps(cfg, s2, Writing(j, HostRetryRecord(r)));
      } else {
        WithFlowKeeps(cfg, s2.db, s.mem, j, Midway(r));
      }
    case Midway(r) => RecallKeeps(cfg, s2, Writing(j, HostRetryRecord(r)));
    case Adopting(e) => RecallKeeps(cfg, s2, Claim(j, e));
    case _ =>
  }

  lemma CarriedFacts(cfg: Config, s: State, j: JobId, target: JobState)
    requires Inv(cfg, s) && MoveOk(s, j, target) && j in s.mem.flow
    ensures match s.mem.flow[j]
            case Launch(Some(r)) => RecordSound(s.db.log, j, r)
            case Midway(r) => RecordSound(s.db.log, j, r)
            case Adopting(e) => Started(s.db.log, j)
            case _ => true
  {
    assert FlowSound(cfg, s.db.jobs, s.db.leases, s.db.locks, s.db.recovery, s.db.log, s.mem.pending, s.mem.flow[j], j);
  }

  lemma MoveKeeps(cfg: Config, s: State, j: JobId, target: JobState)
    requires Inv(cfg, s) && MoveOk(s, j, target)
    ensures Inv(cfg, Move(s, j, target))
  {
    if j in s.mem.flow {
      CarriedMoves(cfg, s, j, target);
    } else {
      var s1 := if Terminal(target) then s.(mem := Finishing(s.mem, j)) else s;
      ShiftKeeps(cfg, s1, j, target, s.db.jobs[j].host);
    }
  }

  lemma ReleaseSessionKeeps(cfg: Config, s: State, j: JobId)
    requires Inv(cfg, s) && ReleaseOk(s, j)
    ensures Inv(cfg, ReleaseSession(s, j))
  {
    if HoldsSession(s.db.jobs, s.db.locks, j) {
      UnlockedKeepsCore(cfg, s.db, OwnerOf(s.db.jobs[j]));
      if s.mem.serving {
        UnlockedKeepsSteady(cfg, s.db, s.mem, OwnerOf(s.db.jobs[j]));
      }
    }
  }

  lemma ReleaseLeaseKeeps(cfg: Config, s: State, j: JobId)
    requires Inv(cfg, s) && ReleaseOk(s, j)
    ensures Inv(cfg, ReleaseLease(s, j))
  {
    DropLeasesKeepsCore(cfg, s.db, j);
    if s.mem.serving {
      DropLeasesKeepsSteady(cfg, s.db, s.mem, j);
    }
  }

  lemma ForgetKeeps(cfg: Config, s: State, j: JobId)
    requires Inv(cfg, s) && ForgetOk(s, j)
    ensures Inv(cfg, Forget(s, j))
  {
    DropRecoveryKeepsCore(cfg, s.db, j);
    if s.mem.serving {
      DropRecoveryKeepsSteady(cfg, s.db, s.mem, j);
    }
  }

  lemma PutLedgerKeeps(cfg: Config, s: State, e: ExecId, row: Execution)
    requires Inv(cfg, s) && (ReserveOk(s, e, row) || EnsureRowOk(s, e, row) || MarkLedgerOk(s, e, row))
    ensures Inv(cfg, PutLedger(s, e, row))
  {
    if ReserveOk(s, e, row) {
      assert PendingSound(s.db.jobs, s.db.log, Turning(row.job));
    } else if EnsureRowOk(s, e, row) {
      assert PendingSound(s.db.jobs, s.db.log, Hold(row.job, e));
    }
  }

  lemma ReserveKeeps(cfg: Config, s: State, e: ExecId, row: Execution)
    requires Inv(cfg, s) && ReserveOk(s, e, row)
    ensures Inv(cfg, Reserve(s, e, row))
  {
    assert PendingSound(s.db.jobs, s.db.log, Turning(row.job));
    PutLedgerKeeps(cfg, s, e, row);
    RecallKeeps(cfg, PutLedger(s, e, row), Claim(row.job, e));
  }

  lemma TakeHandleKeeps(cfg: Config, s: State, j: JobId, e: ExecId)
    requires Inv(cfg, s) && TakeHandleOk(s, j, e)
    ensures Inv(cfg, TakeHandle(s, j, e))
  {
    assert PendingSound(s.db.jobs, s.db.log, Claim(j, e));
    DiscardKeeps(cfg, s, Claim(j, e));
    RecallKeeps(cfg, Without(s, Claim(j, e)), Hold(j, e));
  }

  lemma ReadHandleKeeps(cfg: Config, s: State, j: JobId)
    requires Inv(cfg, s) && ReadHandleOk(s, j)
    ensures Inv(cfg, With(s, Hold(j, s.mem.handles[j])))
  {
    assert Replay(s.db.log, j) != Absent by { StartedIsPresent(s.db.log, j); }
    RecallKeeps(cfg, s, Hold(j, s.mem.handles[j]));
  }

  lemma ExecRecordSound(cfg: Config, s: State, j: JobId, e: ExecId)
    requires Inv(cfg, s) && NoteExecOk(cfg, s, j, e)
    ensures PendingSound(s.db.jobs, s.db.log, Writing(j, ExecRecord(s.db, j, e)))
  {
    assert PendingSound(s.db.jobs, s.db.log, Hold(j, e));
  }

  lemma SetThreadKeeps(cfg: Config, s: State, j: JobId, thread: Option<ThreadId>)
    requires Inv(cfg, s) && j in s.db.jobs
    ensures Inv(cfg, SetThread(s, j, thread))
  {
    SetThreadKeepsCore(cfg, s, j, thread);
    if s.mem.serving {
      SetThreadKeepsSteady(cfg, s, j, thread);
    }
  }

  lemma SameHolds(cfg: Config, s: State, j: JobId, thread: Option<ThreadId>, k: JobId)
    requires j in s.db.jobs
    ensures var jobs := SetThread(s, j, thread).db.jobs;
            && HoldsLease(cfg, jobs, s.db.leases, k) == HoldsLease(cfg, s.db.jobs, s.db.leases, k)
            && HoldsSession(jobs, s.db.locks, k) == HoldsSession(s.db.jobs, s.db.locks, k)
  {
  }

  lemma SetThreadKeepsCore(cfg: Config, s: State, j: JobId, thread: Option<ThreadId>)
    requires Core(cfg, s.db) && j in s.db.jobs
    ensures Core(cfg, SetThread(s, j, thread).db)
  {
    var d := SetThread(s, j, thread).db;
    forall k | k in d.jobs
      ensures StartedHold(cfg, d.jobs, d.leases, d.locks, d.log, k)
      ensures d.jobs[k].state.Queued? ==> d.jobs[k].host == None
      ensures d.jobs[k].state.WaitingLease? ==> !HoldsLease(cfg, d.jobs, d.leases, k) && !HoldsSession(d.jobs, d.locks, k)
    {
      SameHolds(cfg, s, j, thread, k);
      assert StartedHold(cfg, s.db.jobs, s.db.leases, s.db.locks, s.db.log, k);
    }
  }

  lemma SetThreadKeepsSteady(cfg: Config, s: State, j: JobId, thread: Option<ThreadId>)
    requires Steady(cfg, s.db, s.mem) && j in s.db.jobs
    ensures Steady(cfg, SetThread(s, j, thread).db, s.mem)
  {
  }

  lemma BindSessionKeeps(cfg: Config, s: State, j: JobId)
    requires Inv(cfg, s) && BindSessionOk(s, j)
    ensures Inv(cfg, BindSession(s, j))
  {
    var o := OwnerOf(s.db.jobs[j]);
    assert StartedHold(cfg, s.db.jobs, s.db.leases, s.db.locks, s.db.log, j);
    LockedKeepsCore(cfg, s.db, o, j);
    if j in s.mem.flow {
      assert FlowSound(cfg, s.db.jobs, s.db.leases, s.db.locks, s.db.recovery, s.db.log, s.mem.pending, s.mem.flow[j], j);
    }
    LockedKeepsSteady(cfg, s.db, s.mem, o, j);
  }

  lemma CancelRequestKeeps(cfg: Config, s: State, j: JobId)
    requires Inv(cfg, s) && CancelRequestOk(s, j)
    ensures Inv(cfg, CancelRequest(s, j))
  {
    ShiftKeeps(cfg, s, j, Cancelling, s.db.jobs[j].host);
  }

  lemma CancelRecordSound(cfg: Config, s: State, j: JobId, e: ExecId)
    requires Inv(cfg, s) && NoteCancelOk(s, j, e)
    ensures PendingSound(s.db.jobs, s.db.log, Writing(j, CancelRecord(s.db, j, e)))
  {
    assert PendingSound(s.db.jobs, s.db.log, Hold(j, e));
  }

  lemma FinalizedKeeps(cfg: Config, s: State, j: JobId)
    requires Inv(cfg, s) && Is(s, j, Cancelling)
    ensures Inv(cfg, Finalized(s, j))
  {
    var s1 := s.(db := DropRecovery(s.db, j));
    DropRecoveryKeepsCore(cfg, s.db, j);
    if s.mem.serving {
      DropRecoveryKeepsSteady(cfg, s.db, s.mem, j);
    }
    ShiftKeeps(cfg, s1.(mem := Finishing(s.mem, j)), j, Cancelled, s.db.jobs[j].host);
  }

  /** A record that keeps its execution, or drops it, or names one of a job that was started. */
  lemma ChangedRecordSound(cfg: Config, s: State, j: JobId, r: Recovery)
    requires Inv(cfg, s) && j in s.db.recovery
    requires r.exec == None || r.exec == s.db.recovery[j].exec || Started(s.db.log, j)
    requires r.mode.FinalizeMode? ==> s.db.recovery[j].mode.FinalizeMode?
    ensures PendingSound(s.db.jobs, s.db.log, Writing(j, r))
  {
  }

  /** Binding an execution to a job that was started. */
  lemma BindKeeps(cfg: Config, s: State, j: JobId, e: ExecId, v: View)
    requires Inv(cfg, s) && BindOk(cfg, s, j, e, v) && Started(s.db.log, j)
    ensures Inv(cfg, Bind(s, j, e, v))
  {
    var t := if v.rows[j].state.WaitingHost? then Bound(j, e, v.snap.host) else Claim(j, e);
    RecallKeeps(cfg, s, t);
    if s.db.recovery[j].exec != Some(e) {
      RecallKeeps(cfg, With(s, t), Writing(j, s.db.recovery[j].(exec := Some(e))));
    }
  }

  /** A started job has its lease and its session, so an adoption on its host keeps the rules. */
  lemma AdoptKeeps(cfg: Config, s: State, j: JobId, e: ExecId, host: HostId)
    requires Inv(cfg, s) && AdoptOk(s, j, e, host) && s.db.jobs[j].host == Some(host)
    ensures Inv(cfg, Adopt(s, j, e, host))
  {
    assert PendingSound(s.db.jobs, s.db.log, Bound(j, e, host));
    assert StartedHold(cfg, s.db.jobs, s.db.leases, s.db.locks, s.db.log, j);
    HeldAssignKeeps(cfg, s, j, e, host);
  }

  lemma HeldAssignKeeps(cfg: Config, s: State, j: JobId, e: ExecId, host: HostId)
    requires Inv(cfg, s) && s.mem.serving && Is(s, j, WaitingHost) && j !in s.mem.flow && Started(s.db.log, j)
    requires s.db.jobs[j].host == Some(host)
    requires HoldsLease(cfg, s.db.jobs, s.db.leases, j) && HoldsSession(s.db.jobs, s.db.locks, j)
    ensures Inv(cfg, Adopt(s, j, e, host))
  {
    var d := Adopt(s, j, e, host).db;
    ShiftKeeps(cfg, s, j, Assigned, Some(host));
    ShiftHolds(cfg, s.db, j, Assigned, Some(host), j);
    NoFlowKeeps(cfg, s.(db := d), j);
    WithFlowKeeps(cfg, d, s.mem, j, Adopting(e));
  }

  lemma SwapKeeps(cfg: Config, s: State, j: JobId, k: JobId)
    requires Inv(cfg, s) && SwapOk(s, j, k)
    ensures Inv(cfg, Swap(s, j, k))
  {
    SwapKeepsCore(cfg, s.db, j, k);
    SwapKeepsSteady(cfg, s, j, k);
  }

  lemma SwapKeepsCore(cfg: Config, d: Db, j: JobId, k: JobId)
    requires Core(cfg, d) && j in d.recovery && k in d.recovery
    ensures Core(cfg, d.(recovery := Swapped(d.recovery, j, k)))
  {
  }

  lemma SwapKeepsSteady(cfg: Config, s: State, j: JobId, k: JobId)
    requires Core(cfg, s.db) && Steady(cfg, s.db, s.mem) && SwapOk(s, j, k)
    ensures Steady(cfg, Swap(s, j, k).db, s.mem)
  {
    var recovery := Swapped(s.db.recovery, j, k);
    forall i | i in s.mem.flow
      ensures i in s.db.jobs
      ensures FlowSound(cfg, s.db.jobs, s.db.leases, s.db.locks, recovery, s.db.log, s.mem.pending, s.mem.flow[i], i)
    {
      assert FlowSound(cfg, s.db.jobs, s.db.leases, s.db.locks, s.db.recovery, s.db.log, s.mem.pending, s.mem.flow[i], i);
    }
    forall i | i in s.db.jobs ensures WaitRecorded(s.db.jobs[i], recovery, s.mem.pending, i) {
      assert WaitRecorded(s.db.jobs[i], s.db.recovery, s.mem.pending, i);
    }
  }

  lemma CrashKeeps(cfg: Config, s: State)
    requires Core(cfg, s.db)
    ensures Inv(cfg, Crash(s))
  {
  }

  lemma TornWaitKeeps(cfg: Config, s: State, j: JobId, target: JobState, host: Option<HostId>)
    requires Inv(cfg, s) && TornWaitOk(cfg, s, j, target, host)
    ensures Inv(cfg, TornWait(s, j, target, host))
  {
    ShiftKeepsCore(cfg, s.db, j, target, host);
  }

  lemma TornFinalizeKeeps(cfg: Config, s: State, j: JobId)
    requires Inv(cfg, s)
    ensures Inv(cfg, TornFinalize(s, j))
  {
  }

  lemma SweepLockKeeps(cfg: Config, s: State, o: Owner)
    requires Inv(cfg, s) && SweepLockOk(s, o)
    ensures Inv(cfg, SweepLock(s, o))
  {
  }

  lemma SweepLeaseKeeps(cfg: Config, s: State, t: Tree)
    requires Inv(cfg, s) && SweepLeaseOk(s, t)
    ensures Inv(cfg, SweepLease(s, t))
  {
  }

  lemma ClaimLeaseKeeps(cfg: Config, s: State, j: JobId)
    requires Inv(cfg, s) && ClaimLeaseOk(cfg, s, j)
    ensures Inv(cfg, ClaimLease(cfg, s, j))
  {
  }

  lemma StartupRecordFits(s: State, j: JobId, r: Recovery)
    requires RunsStarted(s.db.recovery, s.db.ledger, s.db.log)
    requires j in s.db.jobs && StartupRecord(s, j, r)
    ensures RecoveryFits(s.db, j, r)
  {
  }

  lemma RestartWaitKeeps(cfg: Config, s: State, j: JobId, r: Recovery)
    requires Inv(cfg, s) && RestartWaitOk(cfg, s, j, r)
    ensures Inv(cfg, RestartWait(s, j, r))
  {
    StartupRecordFits(s, j, r);
    PutRecoveryKeeps(cfg, s, j, r);
    ShiftKeeps(cfg, s.(db := PutRecovery(s.db, j, r)), j, WaitingHost, s.db.jobs[j].host);
  }

  lemma RestartNoteKeeps(cfg: Config, s: State, j: JobId, r: Recovery)
    requires Inv(cfg, s) && RestartNoteOk(cfg, s, j, r)
    ensures Inv(cfg, s.(db := PutRecovery(s.db, j, r)))
  {
  }

  lemma RestartCancelKeeps(cfg: Config, s: State, j: JobId)
    requires Inv(cfg, s) && RestartCancelOk(cfg, s, j)
    ensures Inv(cfg, RestartCancel(s, j))
  {
  }
}
