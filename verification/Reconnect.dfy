/** Taking over the executions that a reconnecting runner reports (job_manager.py, reconcile_runner). */
module Reconnect {
  import opened Wrappers
  import opened States
  import opened Tables
  import opened Matching
  import opened Transactions
  import opened Invariants
  import opened Safety
  import opened Runs
  import opened Scheduler

  /** The conversation that the runner reports for e, or else the listed job's own; the job keeps its conversation if
      neither is known. */
  function Conversation(v: View, job: Job, j: JobId, e: ExecId): Option<ThreadId> {
    if e in v.reported && v.reported[e].thread.Some? then v.reported[e].thread
    else if j in v.rows && v.rows[j].thread.Some? then v.rows[j].thread
    else job.thread
  }

  /** The row of e once _ensure_remote_execution is through: a new one, or the present one with the
      conversation that is known by then. */
  function EnsuredRow(cfg: Config, s: State, snap: Snapshot, j: JobId, e: ExecId): Execution
    requires j in s.db.jobs
  {
    var job, thread := s.db.jobs[j], s.db.jobs[j].thread;
    if e in s.db.ledger then s.db.ledger[e].(thread := if thread.Some? then thread else s.db.ledger[e].thread)
    else Execution(j, snap.host, snap.runner, cfg.path(job.project, snap.host), thread, ActiveRow, snap.at)
  }

  /** The first half of _set_handle: the job gets a handle on e and takes its conversation. */
  function Handed(s: State, v: View, j: JobId, e: ExecId): State
    requires j in s.db.jobs
  {
    SetThread(TakeHandle(s, j, e), j, Conversation(v, s.db.jobs[j], j, e))
  }

  /** All of it: ledger and record name e as well. */
  function Handled(cfg: Config, s: State, v: View, j: JobId, e: ExecId): State
    requires j in s.db.jobs
  {
    var s1 := Handed(s, v, j, e);
    RecordExec(PutLedger(s1, e, EnsuredRow(cfg, s1, v.snap, j, e)), j, e)
  }

  /** A waiting job is bound to e, ASSIGNED, and STARTING. */
  function Begins(s: State, v: View, j: JobId, e: ExecId): State
    requires j in s.db.jobs && j in s.db.recovery
  {
    Move(Adopt(Rebind(s, j, e), j, e, v.snap.host), j, Starting)
  }

  /** The job continues with execution e. */
  function Adopted(cfg: Config, s: State, v: View, j: JobId, e: ExecId): State
    requires j in s.db.jobs && j in s.db.recovery
  {
    Move(Handled(cfg, Begins(s, v, j, e), v, j, e), j, Running)
  }

  /** A cancelling job is bound to e. */
  function Resumes(s: State, j: JobId, e: ExecId): State
    requires j in s.db.recovery
  {
    With(Rebind(s, j, e), Claim(j, e))
  }

  /** Raised: the pass ends with an error at a job that it has bound to exec: the ledger gives exec to another job or
      another host, or the job cannot be moved. */
  datatype Outcome = Done(state: State) | Raised(state: State, job: JobId, exec: ExecId)

  function Taken(cfg: Config, s: State, v: View, j: JobId, e: ExecId): Outcome
    requires j in s.db.jobs && j in s.db.recovery && j in v.rows
  {
    if !v.rows[j].state.WaitingHost? then
      if Foreign(s.db.ledger, j, v.snap.host, e) then Raised(Handed(Resumes(s, j, e), v, j, e), j, e)
      else Done(Handled(cfg, Resumes(s, j, e), v, j, e))
    else if !Is(s, j, WaitingHost) then Raised(Rebind(s, j, e), j, e)
    else if Foreign(s.db.ledger, j, v.snap.host, e) then Raised(Handed(Begins(s, v, j, e), v, j, e), j, e)
    else Done(Adopted(cfg, s, v, j, e))
  }

  /** The turn of one job. */
  ghost function Reconciled(cfg: Config, s: State, v: View, j: JobId): Outcome {
    if !Listed(s, v, j) then Done(s)
    else match Pick(cfg, v, j, s.db.recovery[j])
      case None => Done(s)
      case Some(e) => Taken(cfg, s, v, j, e)
  }

  /** The turns of all listed jobs, with the owners that were read before the first one. */
  ghost function PassOver(cfg: Config, s: State, v: View, js: seq<JobId>): Outcome {
    if js == [] then Done(s)
    else match PassOver(cfg, s, v, js[..|js| - 1])
      case Raised(s1, k, f) => Raised(s1, k, f)
      case Done(s1) => Reconciled(cfg, s1, v, js[|js| - 1])
  }

  // ---- who is bound to what ----

  /** What j is bound to at its turn in a pass that begins in s. */
  ghost function Binding(cfg: Config, s: State, v: View, j: JobId): Option<ExecId> {
    if Listed(s, v, j) then Pick(cfg, v, j, s.db.recovery[j]) else None
  }

  ghost predicate Distinct(js: seq<JobId>) {
    forall a, b | 0 <= a < b < |js| :: js[a] != js[b]
  }

  /** What the turns of js have left: other jobs as they were, and each execution that was bound with a row. */
  ghost predicate After(cfg: Config, s: State, s1: State, v: View, js: seq<JobId>) {
    && s1.mem.serving == s.mem.serving && s1.db.jobs.Keys == s.db.jobs.Keys
    && (forall k | k !in js && k in s.db.jobs :: s1.db.jobs[k] == s.db.jobs[k])
    && (forall k | k !in js :: (k in s1.db.recovery <==> k in s.db.recovery)
                               && (k in s.db.recovery ==> s1.db.recovery[k] == s.db.recovery[k]))
    && OwnersKept(s.db.ledger, s1.db.ledger)
    && (forall e | e in s1.db.ledger && e !in s.db.ledger ::
          s1.db.ledger[e].job in js && Binding(cfg, s, v, s1.db.ledger[e].job) == Some(e))
    && (forall j | j in js && Binding(cfg, s, v, j).Some? ::
          var e := Binding(cfg, s, v, j).value;
          e in s1.db.ledger && s1.db.ledger[e].job == j && s1.db.ledger[e].host == v.snap.host)
  }

  lemma HandledTables(cfg: Config, s: State, v: View, j: JobId, e: ExecId)
    requires j in s.db.jobs
    ensures var s' := Handled(cfg, s, v, j, e);
            && s'.mem.serving == s.mem.serving && s'.mem.draining == s.mem.draining
            && s'.db.leases == s.db.leases && s'.db.locks == s.db.locks
            && s'.db.jobs == s.db.jobs[j := s.db.jobs[j].(thread := Conversation(v, s.db.jobs[j], j, e))]
            && (forall k | k != j :: (k in s'.db.recovery <==> k in s.db.recovery)
                                     && (k in s.db.recovery ==> s'.db.recovery[k] == s.db.recovery[k]))
            && OwnersKept(s.db.ledger, s'.db.ledger) && s'.db.ledger.Keys == s.db.ledger.Keys + {e}
            && (e !in s.db.ledger ==> s'.db.ledger[e].job == j && s'.db.ledger[e].host == v.snap.host)
  {
  }

  lemma BeginsTables(s: State, v: View, j: JobId, e: ExecId)
    requires Is(s, j, WaitingHost) && j in s.db.recovery
    ensures var s' := Begins(s, v, j, e);
            && s'.mem.serving == s.mem.serving && s'.mem.draining == s.mem.draining
            && s'.db.leases == s.db.leases && s'.db.locks == s.db.locks && s'.db.ledger == s.db.ledger
            && s'.db.jobs == s.db.jobs[j := s.db.jobs[j].(state := Starting, host := Some(v.snap.host))]
            && (forall k | k != j :: (k in s'.db.recovery <==> k in s.db.recovery)
                                     && (k in s.db.recovery ==> s'.db.recovery[k] == s.db.recovery[k]))
  {
  }

  lemma RunningTables(s: State, j: JobId)
    requires j in s.db.jobs
    ensures var s' := Move(s, j, Running);
            && s'.mem.serving == s.mem.serving && s'.mem.draining == s.mem.draining
            && s'.db.jobs == s.db.jobs[j := s.db.jobs[j].(state := Running)] && s'.db.recovery == s.db.recovery
            && s'.db.leases == s.db.leases && s'.db.locks == s.db.locks && s'.db.ledger == s.db.ledger
  {
  }

  /** A turn that succeeds changes its own job, and leaves a row that gives the execution to it. */
  ghost predicate OnlyTouches(s: State, s': State, v: View, j: JobId, e: ExecId) {
    && s'.mem.serving == s.mem.serving && s'.db.jobs.Keys == s.db.jobs.Keys
    && (forall k | k != j && k in s.db.jobs :: s'.db.jobs[k] == s.db.jobs[k])
    && (forall k | k != j :: (k in s'.db.recovery <==> k in s.db.recovery)
                             && (k in s.db.recovery ==> s'.db.recovery[k] == s.db.recovery[k]))
    && OwnersKept(s.db.ledger, s'.db.ledger) && s'.db.ledger.Keys == s.db.ledger.Keys + {e}
    && s'.db.ledger[e].job == j && s'.db.ledger[e].host == v.snap.host
  }

  lemma AdoptedTables(cfg: Config, s: State, v: View, j: JobId, e: ExecId)
    requires Is(s, j, WaitingHost) && j in s.db.recovery
    ensures var s' := Adopted(cfg, s, v, j, e);
            && s'.db.jobs == s.db.jobs[j := s.db.jobs[j].(state := Running, host := Some(v.snap.host),
                                                          thread := Conversation(v, s.db.jobs[j], j, e))]
            && s'.db.leases == s.db.leases && s'.db.locks == s.db.locks
            && s'.mem.serving == s.mem.serving && s'.mem.draining == s.mem.draining
            && (!Foreign(s.db.ledger, j, v.snap.host, e) ==> OnlyTouches(s, s', v, j, e))
  {
    BeginsTables(s, v, j, e);
    HandledTables(cfg, Begins(s, v, j, e), v, j, e);
    RunningTables(Handled(cfg, Begins(s, v, j, e), v, j, e), j);
  }

  lemma ResumedTables(cfg: Config, s: State, v: View, j: JobId, e: ExecId)
    requires j in s.db.jobs && j in s.db.recovery && !Foreign(s.db.ledger, j, v.snap.host, e)
    ensures OnlyTouches(s, Handled(cfg, Resumes(s, j, e), v, j, e), v, j, e)
  {
    HandledTables(cfg, Resumes(s, j, e), v, j, e);
  }

  /** The conversation of a job that takes over e: the reported one, else the one that it was listed with, else its own. */
  ghost predicate Joins(v: View, before: Job, after: Job, j: JobId, e: ExecId)
    requires e in v.reported && j in v.rows
  {
    if v.reported[e].thread.Some? then after.thread == v.reported[e].thread
    else if v.rows[j].thread.Some? then after.thread == v.rows[j].thread
    else after.thread == before.thread
  }

  /** The controller has the handle of e; the record names e, keeps its mode and is out of the schedule; and the ledger
      gives e to the job, as an active execution of this runner if the row is new, with the conversation of the job. */
  ghost predicate TakesOver(cfg: Config, s: State, s': State, v: View, j: JobId, e: ExecId)
    requires j in s.db.jobs && j in s.db.recovery
  {
    var job := s.db.jobs[j];
    && s'.mem.handles == s.mem.handles[j := e] && j in s'.db.jobs && e in v.reported && j in v.rows
    && Joins(v, job, s'.db.jobs[j], j, e)
    && s'.db.recovery == s.db.recovery[j := s.db.recovery[j].(due := None, exec := Some(e))]
    && s'.db.leases == s.db.leases && s'.db.locks == s.db.locks
    && var thread := s'.db.jobs[j].thread;
       s'.db.ledger == s.db.ledger[e :=
         if e in s.db.ledger then s.db.ledger[e].(thread := if thread.Some? then thread else s.db.ledger[e].thread)
         else Execution(j, v.snap.host, v.snap.runner, cfg.path(job.project, v.snap.host), thread, ActiveRow, v.snap.at)]
  }

  lemma HandledTakesOver(cfg: Config, s: State, v: View, j: JobId, e: ExecId)
    requires j in s.db.jobs && j in s.db.recovery && e in v.reported && j in v.rows
    ensures TakesOver(cfg, s, Handled(cfg, s, v, j, e), v, j, e)
  {
  }

  /** A waiting job that is bound to an execution of its own is RUNNING with it; a cancelling one gets its handle and
      stays as it is. */
  lemma TakenLeaves(cfg: Config, s: State, v: View, j: JobId, e: ExecId)
    requires j in s.db.jobs && j in s.db.recovery && j in v.rows && e in v.reported && Taken(cfg, s, v, j, e).Done?
    ensures var s' := Taken(cfg, s, v, j, e).state;
            && TakesOver(cfg, s, s', v, j, e)
            && s'.db.jobs == s.db.jobs[j := s'.db.jobs[j]]
            && var thread := s'.db.jobs[j].thread;
               s'.db.jobs[j] == if v.rows[j].state.WaitingHost?
                                then s.db.jobs[j].(state := Running, host := Some(v.snap.host), thread := thread)
                                else s.db.jobs[j].(thread := thread)
  {
    if v.rows[j].state.WaitingHost? {
      AdoptedLeaves(cfg, s, v, j, e);
    } else {
      HandledTakesOver(cfg, Resumes(s, j, e), v, j, e);
      HandledTables(cfg, Resumes(s, j, e), v, j, e);
    }
  }

  /** The turn of a job. It has one if it was listed on the runner's host, waiting for it or being cancelled there, and has
      a record (of a cancellation, in the second case). If an execution is picked, the job takes it over, unless the
      ledger gives it to another job or host, or the job does not wait any more: then the pass ends. */
  lemma TurnExactly(cfg: Config, s: State, v: View, j: JobId)
    requires s.mem.serving
    ensures var out := Reconciled(cfg, s, v, j);
            if j !in v.rows || v.rows[j].host != Some(v.snap.host) || j !in s.db.jobs || j !in s.db.recovery
               || !(v.rows[j].state == WaitingHost || (v.rows[j].state == Cancelling && s.db.recovery[j].mode == CancelMode))
               || Pick(cfg, v, j, s.db.recovery[j]).None?
            then out == Done(s)
            else
              var e := Pick(cfg, v, j, s.db.recovery[j]).value;
              var foreign := e in s.db.ledger && !(s.db.ledger[e].job == j && s.db.ledger[e].host == v.snap.host);
              if foreign || (v.rows[j].state == WaitingHost && s.db.jobs[j].state != WaitingHost)
              then out.Raised? && out.job == j && out.exec == e
              else out.Done? && TakesOver(cfg, s, out.state, v, j, e)
  {
    if Listed(s, v, j) && Pick(cfg, v, j, s.db.recovery[j]).Some? {
      var e := Pick(cfg, v, j, s.db.recovery[j]).value;
      PickIsReported(cfg, v, j, s.db.recovery[j], e);
      if Taken(cfg, s, v, j, e).Done? {
        TakenLeaves(cfg, s, v, j, e);
      }
    }
  }

  lemma AdoptedLeaves(cfg: Config, s: State, v: View, j: JobId, e: ExecId)
    requires Is(s, j, WaitingHost) && j in s.db.recovery && j in v.rows && e in v.reported
    ensures var s' := Adopted(cfg, s, v, j, e);
            && TakesOver(cfg, s, s', v, j, e)
            && s'.db.jobs == s.db.jobs[j := s.db.jobs[j].(state := Running, host := Some(v.snap.host),
                                                          thread := s'.db.jobs[j].thread)]
  {
    var s1 := Begins(s, v, j, e);
    var s2 := Handled(cfg, s1, v, j, e);
    BeginsTables(s, v, j, e);
    BeginsRecord(s, v, j, e);
    HandledTakesOver(cfg, s1, v, j, e);
    HandledTables(cfg, s1, v, j, e);
    RunningTables(s2, j);
    RunningHandles(s2, j);
    StagesTakeOver(cfg, s, s1, s2, Move(s2, j, Running), v, j, e);
  }

  lemma StagesTakeOver(cfg: Config, s: State, s1: State, s2: State, s3: State, v: View, j: JobId, e: ExecId)
    requires j in s.db.jobs && j in s.db.recovery && j in v.rows && e in v.reported
    requires s1.db.jobs == s.db.jobs[j := s.db.jobs[j].(state := Starting, host := Some(v.snap.host))]
    requires s1.db.recovery == s.db.recovery[j := s.db.recovery[j].(exec := Some(e))]
    requires s1.db.leases == s.db.leases && s1.db.locks == s.db.locks && s1.db.ledger == s.db.ledger
             && s1.mem.handles == s.mem.handles
    requires TakesOver(cfg, s1, s2, v, j, e)
    requires s2.db.jobs == s1.db.jobs[j := s1.db.jobs[j].(thread := Conversation(v, s1.db.jobs[j], j, e))]
    requires s3.db.jobs == s2.db.jobs[j := s2.db.jobs[j].(state := Running)] && s3.db.recovery == s2.db.recovery
    requires s3.db.leases == s2.db.leases && s3.db.locks == s2.db.locks && s3.db.ledger == s2.db.ledger
             && s3.mem.handles == s2.mem.handles
    ensures TakesOver(cfg, s, s3, v, j, e)
    ensures s3.db.jobs == s.db.jobs[j := s.db.jobs[j].(state := Running, host := Some(v.snap.host),
                                                       thread := s3.db.jobs[j].thread)]
  {
  }

  lemma BeginsRecord(s: State, v: View, j: JobId, e: ExecId)
    requires Is(s, j, WaitingHost) && j in s.db.recovery
    ensures var s' := Begins(s, v, j, e);
            s'.mem.handles == s.mem.handles && s'.db.recovery == s.db.recovery[j := s.db.recovery[j].(exec := Some(e))]
  {
  }

  lemma RunningHandles(s: State, j: JobId)
    requires j in s.db.jobs
    ensures Move(s, j, Running).mem.handles == s.mem.handles
  {
  }

  lemma TakenTables(cfg: Config, s: State, v: View, j: JobId, e: ExecId)
    requires j in s.db.jobs && j in s.db.recovery && j in v.rows && Taken(cfg, s, v, j, e).Done?
    ensures OnlyTouches(s, Taken(cfg, s, v, j, e).state, v, j, e)
  {
    if v.rows[j].state.WaitingHost? {
      AdoptedTables(cfg, s, v, j, e);
    } else {
      ResumedTables(cfg, s, v, j, e);
    }
  }

  lemma TouchedAfter(cfg: Config, s: State, s1: State, s2: State, v: View, init: seq<JobId>, j: JobId, e: ExecId)
    requires After(cfg, s, s1, v, init) && j !in init && OnlyTouches(s1, s2, v, j, e) && Binding(cfg, s, v, j) == Some(e)
    ensures After(cfg, s, s2, v, init + [j])
  {
    assert forall i | i in init && Binding(cfg, s, v, i).Some? ::
        var f := Binding(cfg, s, v, i).value;
        f in s2.db.ledger && s2.db.ledger[f].job == i && s2.db.ledger[f].host == v.snap.host;
  }

  lemma OneMoreTurn(cfg: Config, s: State, s1: State, v: View, init: seq<JobId>, j: JobId)
    requires After(cfg, s, s1, v, init) && j !in init && Reconciled(cfg, s1, v, j).Done?
    requires Binding(cfg, s1, v, j) == Binding(cfg, s, v, j)
    ensures After(cfg, s, Reconciled(cfg, s1, v, j).state, v, init + [j])
  {
    var b := Binding(cfg, s, v, j);
    if b.Some? {
      TakenTables(cfg, s1, v, j, b.value);
      TouchedAfter(cfg, s, s1, Taken(cfg, s1, v, j, b.value).state, v, init, j, b.value);
    } else {
      SkippedAfter(cfg, s, s1, v, init, j);
    }
  }

  lemma SkippedAfter(cfg: Config, s: State, s1: State, v: View, init: seq<JobId>, j: JobId)
    requires After(cfg, s, s1, v, init) && Binding(cfg, s, v, j) == None
    ensures After(cfg, s, s1, v, init + [j])
  {
  }

  /** The pass ends with an error at this job. */
  ghost predicate Collides(cfg: Config, s: State, v: View, js: seq<JobId>, k: nat)
    requires k < |js|
  {
    var b := Binding(cfg, s, v, js[k]);
    b.Some? && ((Hidden(s.db, v.snap, b.value) && Foreign(s.db.ledger, js[k], v.snap.host, b.value))
                || exists i :: 0 <= i < k && Binding(cfg, s, v, js[i]) == b)
  }

  lemma SameBinding(cfg: Config, s: State, s1: State, v: View, init: seq<JobId>, j: JobId)
    requires After(cfg, s, s1, v, init) && j !in init
    ensures Binding(cfg, s1, v, j) == Binding(cfg, s, v, j)
  {
  }

  lemma TurnCollides(cfg: Config, s: State, s1: State, snap: Snapshot, order: seq<ExecId>, js: seq<JobId>, k: nat)
    requires k < |js| && Distinct(js) && forall j | j in js :: j in s.db.jobs
    requires var v := Begun(s.db, snap, order); After(cfg, s, s1, v, js[..k])
    ensures var v := Begun(s.db, snap, order);
            Reconciled(cfg, s1, v, js[k]).Raised? <==> Collides(cfg, s, v, js, k)
  {
    var v, init, j := Begun(s.db, snap, order), js[..k], js[k];
    assert j !in init;
    SameBinding(cfg, s, s1, v, init, j);
    var b := Binding(cfg, s, v, j);
    if b.Some? {
      var e := b.value;
      PickRespectsOwner(cfg, s.db, snap, order, j, s.db.recovery[j], e);
      ForeignNow(cfg, s, s1, v, js, k, e);
    }
  }

  /** At the turn of j the ledger gives e to another job or host if it did so before, or if an earlier turn has bound e. */
  lemma ForeignNow(cfg: Config, s: State, s1: State, v: View, js: seq<JobId>, k: nat, e: ExecId)
    requires k < |js| && Distinct(js) && After(cfg, s, s1, v, js[..k])
    ensures Foreign(s1.db.ledger, js[k], v.snap.host, e) <==>
            Foreign(s.db.ledger, js[k], v.snap.host, e)
            || exists i :: 0 <= i < k && Binding(cfg, s, v, js[i]) == Some(e)
  {
    var init := js[..k];
    if i :| 0 <= i < k && Binding(cfg, s, v, js[i]) == Some(e) {
      assert init[i] == js[i] && js[i] in init;
    }
    if Foreign(s1.db.ledger, js[k], v.snap.host, e) && e !in s.db.ledger {
      var o := s1.db.ledger[e].job;
      var i :| 0 <= i < |init| && init[i] == o;
      assert js[i] == o;
    }
  }

  lemma TurnDone(cfg: Config, s: State, s1: State, v: View, js: seq<JobId>)
    requires js != [] && Distinct(js) && After(cfg, s, s1, v, js[..|js| - 1])
    ensures var out := Reconciled(cfg, s1, v, js[|js| - 1]); out.Done? ==> After(cfg, s, out.state, v, js)
  {
    var init, j := js[..|js| - 1], js[|js| - 1];
    assert js == init + [j] && j !in init;
    SameBinding(cfg, s, s1, v, init, j);
    if Reconciled(cfg, s1, v, j).Done? {
      OneMoreTurn(cfg, s, s1, v, init, j);
    }
  }

  lemma LastTurn(cfg: Config, s: State, s1: State, snap: Snapshot, order: seq<ExecId>, js: seq<JobId>)
    requires js != [] && Distinct(js) && forall j | j in js :: j in s.db.jobs
    requires After(cfg, s, s1, Begun(s.db, snap, order), js[..|js| - 1])
    ensures var v := Begun(s.db, snap, order); var out := Reconciled(cfg, s1, v, js[|js| - 1]);
            && (out.Raised? <==> Collides(cfg, s, v, js, |js| - 1))
            && (out.Done? ==> After(cfg, s, out.state, v, js))
  {
    TurnCollides(cfg, s, s1, snap, order, js, |js| - 1);
    TurnDone(cfg, s, s1, Begun(s.db, snap, order), js);
  }

  lemma EarlierCollides(cfg: Config, s: State, v: View, js: seq<JobId>)
    requires js != []
    ensures var init := js[..|js| - 1];
            (exists k :: 0 <= k < |init| && Collides(cfg, s, v, init, k))
            <==> exists k :: 0 <= k < |js| - 1 && Collides(cfg, s, v, js, k)
  {
    var init := js[..|js| - 1];
    assert forall k | 0 <= k < |init| :: init[k] == js[k];
    forall k | 0 <= k < |init| ensures Collides(cfg, s, v, init, k) == Collides(cfg, s, v, js, k) {
    }
  }

  /** A pass over jobs that are listed once ends with an error exactly if one of them is bound to an execution that
      a hidden row gives to another job or another host, or that an earlier job of the same pass was bound to. Otherwise
      every job is bound to its own executions only. */
  lemma {:induction false} BindsOnlyOwners(cfg: Config, s: State, snap: Snapshot, order: seq<ExecId>, js: seq<JobId>)
    requires Distinct(js) && forall j | j in js :: j in s.db.jobs
    ensures var v := Begun(s.db, snap, order); var out := PassOver(cfg, s, v, js);
            && (out.Raised? <==> exists k :: 0 <= k < |js| && Collides(cfg, s, v, js, k))
            && (out.Done? ==> After(cfg, s, out.state, v, js))
  {
    var v := Begun(s.db, snap, order);
    if js != [] {
      var init := js[..|js| - 1];
      EarlierCollides(cfg, s, v, js);
      BindsOnlyOwners(cfg, s, snap, order, init);
      var out := PassOver(cfg, s, v, init);
      if out.Done? {
        LastTurn(cfg, s, out.state, snap, order, js);
      }
    }
  }

  // ---- adoption and leases ----

  /** Adoption does not look at leases: a reported execution in the same conversation can start a job
      that was never placed. After an adoption the one-writer rule holds exactly if the job is on the runner's host and
      has its lease and its project session already. */
  lemma AdoptionLeases(cfg: Config, s: State, v: View, j: JobId, e: ExecId)
    requires OneWriterPerTree(cfg, s) && Is(s, j, WaitingHost) && j in s.db.recovery
    ensures OneWriterPerTree(cfg, Adopted(cfg, s, v, j, e)) <==>
            s.db.jobs[j].host == Some(v.snap.host) && HoldsBoth(cfg, s, j)
  {
    var s' := Adopted(cfg, s, v, j, e);
    AdoptedTables(cfg, s, v, j, e);
    if s.db.jobs[j].host == Some(v.snap.host) && HoldsBoth(cfg, s, j) {
      AdoptedKeepsWriters(cfg, s, s', j, s'.db.jobs[j]);
    } else {
      AdoptedBreaksWriters(cfg, s, s', j, s'.db.jobs[j]);
    }
  }

  lemma AdoptedBreaksWriters(cfg: Config, s: State, s': State, j: JobId, job: Job)
    requires OneWriterPerTree(cfg, s) && j in s.db.jobs && job.state.Running? && OwnerOf(job) == OwnerOf(s.db.jobs[j])
    requires job.project == s.db.jobs[j].project && (job.host != s.db.jobs[j].host || !HoldsBoth(cfg, s, j))
    requires s'.db.jobs == s.db.jobs[j := job] && s'.db.leases == s.db.leases && s'.db.locks == s.db.locks
    ensures !OneWriterPerTree(cfg, s')
  {
    assert Active(s'.db.jobs[j].state);
  }

  lemma AdoptedKeepsWriters(cfg: Config, s: State, s': State, j: JobId, job: Job)
    requires OneWriterPerTree(cfg, s) && Is(s, j, WaitingHost) && HoldsBoth(cfg, s, j)
    requires job == s.db.jobs[j].(state := Running, thread := job.thread)
    requires s'.db.jobs == s.db.jobs[j := job] && s'.db.leases == s.db.leases && s'.db.locks == s.db.locks
    requires s'.mem.serving == s.mem.serving && s'.mem.draining == s.mem.draining
    ensures OneWriterPerTree(cfg, s')
  {
    forall k | k in s.db.jobs && Active(s'.db.jobs[k].state)
      ensures HoldsLease(cfg, s'.db.jobs, s'.db.leases, k) && HoldsSession(s'.db.jobs, s'.db.locks, k)
    {
      if k != j {
        assert HoldsLease(cfg, s.db.jobs, s.db.leases, k) && HoldsSession(s.db.jobs, s.db.locks, k);
      }
    }
  }

  /** A job whose execution the ledger knows was started, so it holds its lease and its session. */
  lemma OwnedIsHeld(cfg: Config, s: State, snap: Snapshot, order: seq<ExecId>, j: JobId)
    requires Inv(cfg, s) && Is(s, j, WaitingHost) && j in s.db.recovery
    ensures var b := Pick(cfg, Begun(s.db, snap, order), j, s.db.recovery[j]);
            b.Some? && b.value in s.db.ledger && !Hidden(s.db, snap, b.value) ==> Started(s.db.log, j) && HoldsBoth(cfg, s, j)
  {
    var b := Pick(cfg, Begun(s.db, snap, order), j, s.db.recovery[j]);
    if b.Some? && b.value in s.db.ledger && !Hidden(s.db, snap, b.value) {
      PickRespectsOwner(cfg, s.db, snap, order, j, s.db.recovery[j], b.value);
      assert StartedHold(cfg, s.db.jobs, s.db.leases, s.db.locks, s.db.log, j);
    }
  }

  /** Two jobs that match the same execution without a consulted owner would work in the same tree: at most one of them
      was ever started. */
  lemma SharedMatchIsUnplaced(cfg: Config, s: State, snap: Snapshot, order: seq<ExecId>, j: JobId, k: JobId, e: ExecId)
    requires Inv(cfg, s) && Is(s, j, WaitingHost) && Is(s, k, WaitingHost) && j != k
    requires s.db.jobs[j].host == Some(snap.host) && s.db.jobs[k].host == Some(snap.host)
    requires var v := Begun(s.db, snap, order); Matched(cfg, v, j) == Some(e) && Matched(cfg, v, k) == Some(e)
    ensures !Started(s.db.log, j) || !Started(s.db.log, k)
  {
    var v := Begun(s.db, snap, order);
    MatchedTree(cfg, v, j, e);
    MatchedTree(cfg, v, k, e);
    assert StartedHold(cfg, s.db.jobs, s.db.leases, s.db.locks, s.db.log, j);
    assert StartedHold(cfg, s.db.jobs, s.db.leases, s.db.locks, s.db.log, k);
  }

  lemma MatchedTree(cfg: Config, v: View, j: JobId, e: ExecId)
    requires j in v.rows && Matched(cfg, v, j) == Some(e)
    ensures e in v.owned ==> v.owned[e].job == j
    ensures e !in v.owned ==> e in v.reported && v.reported[e].path == Some(cfg.path(v.rows[j].project, v.snap.host))
  {
  }

  // ---- a pass is a run ----

  /** The pass binds no job that was never started (see AdoptionLeases). */
  ghost predicate Usable(cfg: Config, s: State, v: View, j: JobId) {
    Binding(cfg, s, v, j).Some? ==> Started(s.db.log, j)
  }

  lemma BindRuns(cfg: Config, s: State, s1: State, j: JobId, e: ExecId, v: View)
    requires Inv(cfg, s) && Reaches(cfg, s, s1) && BindOk(cfg, s1, j, e, v) && Started(s1.db.log, j)
    ensures Reaches(cfg, s, With(Rebind(s1, j, e), if v.rows[j].state.WaitingHost? then Bound(j, e, v.snap.host) else Claim(j, e)))
  {
    var t := if v.rows[j].state.WaitingHost? then Bound(j, e, v.snap.host) else Claim(j, e);
    var r := s1.db.recovery[j].(exec := Some(e));
    Step(cfg, s, s1, ReconnectionStep(DoBind(j, e, v)));
    if s1.db.recovery[j].exec == Some(e) {
      assert Rebind(s1, j, e) == s1;
    } else {
      WriteRuns(cfg, s, With(With(s1, t), Writing(j, r)), j, r);
      WithWithout(With(Rebind(s1, j, e), t), Writing(j, r));
    }
  }

  lemma BeginsRuns(cfg: Config, s: State, s1: State, v: View, j: JobId, e: ExecId)
    requires Inv(cfg, s) && Reaches(cfg, s, s1) && BindOk(cfg, s1, j, e, v) && Started(s1.db.log, j) && j !in s1.mem.flow
    requires v.rows[j].state.WaitingHost? && Is(s1, j, WaitingHost) && s1.db.jobs[j].host == Some(v.snap.host)
    ensures Reaches(cfg, s, Begins(s1, v, j, e))
  {
    BindRuns(cfg, s, s1, j, e, v);
    BoundRuns(cfg, s, Rebind(s1, j, e), j, e, v.snap.host);
    MoveRuns(cfg, s, Adopt(Rebind(s1, j, e), j, e, v.snap.host), j, Starting);
  }

  lemma BoundRuns(cfg: Config, s: State, s2: State, j: JobId, e: ExecId, host: HostId)
    requires Inv(cfg, s) && Reaches(cfg, s, With(s2, Bound(j, e, host))) && s2.mem.serving && j !in s2.mem.flow
    requires Is(s2, j, WaitingHost) && s2.db.jobs[j].host == Some(host)
    ensures Reaches(cfg, s, Adopt(s2, j, e, host))
  {
    WithWithout(s2, Bound(j, e, host));
    Step(cfg, s, With(s2, Bound(j, e, host)), ReconnectionStep(DoAdopt(j, e, host)));
  }

  lemma HandedRuns(cfg: Config, s: State, s1: State, v: View, j: JobId, e: ExecId)
    requires Inv(cfg, s) && Reaches(cfg, s, s1) && j in s1.db.jobs && TakeHandleOk(s1, j, e)
    ensures Reaches(cfg, s, Handed(s1, v, j, e))
  {
    Step(cfg, s, s1, ExecuteStep(DoTakeHandle(j, e)));
    Step(cfg, s, TakeHandle(s1, j, e), TurnStep(DoSetThread(j, Conversation(v, s1.db.jobs[j], j, e))));
  }

  lemma RowRuns(cfg: Config, s: State, s2: State, e: ExecId, row: Execution)
    requires Inv(cfg, s) && Reaches(cfg, s, s2)
    requires if e in s2.db.ledger then MarkLedgerOk(s2, e, row) else EnsureRowOk(s2, e, row)
    ensures Reaches(cfg, s, PutLedger(s2, e, row))
  {
    if e in s2.db.ledger {
      Step(cfg, s, s2, ExecuteStep(DoMarkLedger(e, row)));
    } else {
      Step(cfg, s, s2, ExecuteStep(DoEnsureRow(e, row)));
    }
  }

  lemma RecordRuns(cfg: Config, s: State, s3: State, j: JobId, e: ExecId)
    requires Inv(cfg, s) && Reaches(cfg, s, s3) && NoteExecOk(cfg, s3, j, e)
    ensures Reaches(cfg, s, RecordExec(s3, j, e))
  {
    var r := ExecRecord(s3.db, j, e);
    Step(cfg, s, s3, NoteStep(DoNoteExec(j, e)));
    WriteRuns(cfg, s, With(s3, Writing(j, r)), j, r);
    WithWithout(Put(s3, j, r), Writing(j, r));
  }

  lemma EnsuredIsNoted(cfg: Config, s: State, v: View, j: JobId, e: ExecId)
    requires j in s.db.jobs && s.db.jobs[j].host == Some(v.snap.host) && v.snap.host != cfg.local
    requires s.mem.serving && Hold(j, e) in s.mem.pending && !Foreign(s.db.ledger, j, v.snap.host, e)
    ensures var row := EnsuredRow(cfg, s, v.snap, j, e);
            && (if e in s.db.ledger then MarkLedgerOk(s, e, row) else EnsureRowOk(s, e, row))
            && NoteExecOk(cfg, PutLedger(s, e, row), j, e)
  {
  }

  lemma HandledRuns(cfg: Config, s: State, s1: State, v: View, j: JobId, e: ExecId)
    requires Inv(cfg, s) && Reaches(cfg, s, s1) && j in s1.db.jobs && TakeHandleOk(s1, j, e)
    requires s1.db.jobs[j].host == Some(v.snap.host) && v.snap.host != cfg.local
    requires !Foreign(s1.db.ledger, j, v.snap.host, e)
    ensures Reaches(cfg, s, Handled(cfg, s1, v, j, e))
  {
    HandedRuns(cfg, s, s1, v, j, e);
    var s2 := Handed(s1, v, j, e);
    assert Hold(j, e) in s2.mem.pending;
    EnsuredIsNoted(cfg, s2, v, j, e);
    RowRuns(cfg, s, s2, e, EnsuredRow(cfg, s2, v.snap, j, e));
    RecordRuns(cfg, s, PutLedger(s2, e, EnsuredRow(cfg, s2, v.snap, j, e)), j, e);
  }

  lemma AdoptedRuns(cfg: Config, s: State, s1: State, v: View, j: JobId, e: ExecId)
    requires Inv(cfg, s) && Reaches(cfg, s, s1) && BindOk(cfg, s1, j, e, v) && Started(s1.db.log, j) && j !in s1.mem.flow
    requires v.rows[j].state.WaitingHost? && Is(s1, j, WaitingHost) && s1.db.jobs[j].host == Some(v.snap.host)
    requires v.snap.host != cfg.local
    ensures if Foreign(s1.db.ledger, j, v.snap.host, e) then Reaches(cfg, s, Handed(Begins(s1, v, j, e), v, j, e))
            else Reaches(cfg, s, Adopted(cfg, s1, v, j, e))
  {
    BeginsRuns(cfg, s, s1, v, j, e);
    BeginsFacts(s1, v, j, e);
    if Foreign(s1.db.ledger, j, v.snap.host, e) {
      HandedRuns(cfg, s, Begins(s1, v, j, e), v, j, e);
    } else {
      ContinuesRuns(cfg, s, Begins(s1, v, j, e), v, j, e);
    }
  }

  lemma BeginsFacts(s: State, v: View, j: JobId, e: ExecId)
    requires s.mem.serving && Is(s, j, WaitingHost) && j in s.db.recovery
    ensures var s' := Begins(s, v, j, e);
            && TakeHandleOk(s', j, e) && j !in s'.mem.flow && Is(s', j, Starting)
            && s'.db.jobs[j].host == Some(v.snap.host) && s'.db.ledger == s.db.ledger
  {
  }

  lemma ContinuesRuns(cfg: Config, s: State, s2: State, v: View, j: JobId, e: ExecId)
    requires Inv(cfg, s) && Reaches(cfg, s, s2) && TakeHandleOk(s2, j, e) && j !in s2.mem.flow && Is(s2, j, Starting)
    requires s2.db.jobs[j].host == Some(v.snap.host) && v.snap.host != cfg.local && !Foreign(s2.db.ledger, j, v.snap.host, e)
    ensures Reaches(cfg, s, Move(Handled(cfg, s2, v, j, e), j, Running))
  {
    HandledRuns(cfg, s, s2, v, j, e);
    HandledMoves(cfg, s2, v, j, e);
    MoveRuns(cfg, s, Handled(cfg, s2, v, j, e), j, Running);
  }

  lemma HandledMoves(cfg: Config, s: State, v: View, j: JobId, e: ExecId)
    requires s.mem.serving && Is(s, j, Starting) && j !in s.mem.flow
    ensures MoveOk(Handled(cfg, s, v, j, e), j, Running)
  {
  }

  lemma ResumesRuns(cfg: Config, s: State, s1: State, v: View, j: JobId, e: ExecId)
    requires Inv(cfg, s) && Reaches(cfg, s, s1) && BindOk(cfg, s1, j, e, v) && Started(s1.db.log, j)
    requires !v.rows[j].state.WaitingHost? && s1.db.jobs[j].host == Some(v.snap.host) && v.snap.host != cfg.local
    ensures if Foreign(s1.db.ledger, j, v.snap.host, e) then Reaches(cfg, s, Handed(Resumes(s1, j, e), v, j, e))
            else Reaches(cfg, s, Handled(cfg, Resumes(s1, j, e), v, j, e))
  {
    BindRuns(cfg, s, s1, j, e, v);
    if Foreign(s1.db.ledger, j, v.snap.host, e) {
      HandedRuns(cfg, s, Resumes(s1, j, e), v, j, e);
    } else {
      HandledRuns(cfg, s, Resumes(s1, j, e), v, j, e);
    }
  }

  /** The job stands as it was listed, and its placement is not under way. */
  ghost predicate AsListed(cfg: Config, s: State, v: View, j: JobId) {
    && v.snap.host != cfg.local && Passing(v) in s.mem.pending && j !in s.mem.flow
    && (j in v.rows && j in s.db.jobs ==> s.db.jobs[j].state == v.rows[j].state && s.db.jobs[j].host == v.rows[j].host)
  }

  /** Also when it is bound to an execution of another job, a started job keeps every rule. */
  lemma ReconciledRuns(cfg: Config, s: State, v: View, j: JobId)
    requires Inv(cfg, s) && AsListed(cfg, s, v, j) && Usable(cfg, s, v, j)
    ensures Reaches(cfg, s, Reconciled(cfg, s, v, j).state)
  {
    ReachesSelf(cfg, s);
    if Binding(cfg, s, v, j).Some? {
      var e := Binding(cfg, s, v, j).value;
      if v.rows[j].state.WaitingHost? {
        AdoptedRuns(cfg, s, s, v, j, e);
      } else {
        ResumesRuns(cfg, s, s, v, j, e);
      }
    }
  }

  /** What a turn leaves of the placements of other jobs, of the pass itself and of the event log. */
  ghost predicate Beside(s: State, s': State, v: View, j: JobId) {
    && (forall k | k != j :: k in s'.mem.flow <==> k in s.mem.flow)
    && (Passing(v) in s.mem.pending ==> Passing(v) in s'.mem.pending)
    && (forall k | Started(s.db.log, k) :: Started(s'.db.log, k))
  }

  lemma HandledBeside(cfg: Config, s: State, v: View, j: JobId, e: ExecId)
    requires j in s.db.jobs
    ensures Beside(s, Handled(cfg, s, v, j, e), v, j)
  {
  }

  lemma AdoptedBeside(cfg: Config, s: State, v: View, j: JobId, e: ExecId)
    requires Is(s, j, WaitingHost) && j in s.db.recovery
    ensures Beside(s, Adopted(cfg, s, v, j, e), v, j)
  {
    BeginsBeside(s, v, j, e);
    HandledBeside(cfg, Begins(s, v, j, e), v, j, e);
  }

  lemma BeginsBeside(s: State, v: View, j: JobId, e: ExecId)
    requires j in s.db.jobs && j in s.db.recovery
    ensures Beside(s, Begins(s, v, j, e), v, j)
  {
  }

  lemma TakenBeside(cfg: Config, s: State, v: View, j: JobId, e: ExecId)
    requires j in s.db.jobs && j in s.db.recovery && j in v.rows && Taken(cfg, s, v, j, e).Done?
    ensures Beside(s, Taken(cfg, s, v, j, e).state, v, j)
  {
    if v.rows[j].state.WaitingHost? {
      AdoptedBeside(cfg, s, v, j, e);
    } else {
      HandledBeside(cfg, Resumes(s, j, e), v, j, e);
    }
  }

  /** Every listed job stands as it was listed, and is bound only if it was started. */
  ghost predicate ReadyToPass(cfg: Config, s: State, v: View, js: seq<JobId>) {
    forall j | j in js :: j in s.db.jobs && AsListed(cfg, s, v, j) && Usable(cfg, s, v, j)
  }

  lemma NextInLine(cfg: Config, s: State, s1: State, v: View, init: seq<JobId>, j: JobId, k: JobId)
    requires After(cfg, s, s1, v, init) && j !in init && j != k && j in s.db.jobs
    requires AsListed(cfg, s1, v, j) && Usable(cfg, s1, v, j) && Reconciled(cfg, s1, v, k).Done?
    ensures var s2 := Reconciled(cfg, s1, v, k).state; AsListed(cfg, s2, v, j) && Usable(cfg, s2, v, j)
  {
    if Binding(cfg, s1, v, k).Some? {
      TakenTables(cfg, s1, v, k, Binding(cfg, s1, v, k).value);
      TakenBeside(cfg, s1, v, k, Binding(cfg, s1, v, k).value);
    }
  }

  /** A whole pass over jobs that are listed once is a run, however it ends. Jobs that had no turn yet wait for it as
      before. */
  lemma {:induction false} PassRuns(cfg: Config, s: State, snap: Snapshot, order: seq<ExecId>, js: seq<JobId>, rest: set<JobId>)
    requires Inv(cfg, s) && Distinct(js) && forall k | k in rest :: k !in js && k in s.db.jobs
    requires var v := Begun(s.db, snap, order);
             ReadyToPass(cfg, s, v, js) && forall k | k in rest :: AsListed(cfg, s, v, k) && Usable(cfg, s, v, k)
    ensures var v := Begun(s.db, snap, order); var out := PassOver(cfg, s, v, js);
            && Reaches(cfg, s, out.state)
            && (out.Done? ==> forall k | k in rest :: AsListed(cfg, out.state, v, k) && Usable(cfg, out.state, v, k))
  {
    var v := Begun(s.db, snap, order);
    ReachesSelf(cfg, s);
    if js != [] {
      var init, j := js[..|js| - 1], js[|js| - 1];
      assert js == init + [j] && j !in init;
      PassRuns(cfg, s, snap, order, init, rest + {j});
      BindsOnlyOwners(cfg, s, snap, order, init);
      if PassOver(cfg, s, v, init).Done? {
        var s1 := PassOver(cfg, s, v, init).state;
        ReachesKeeps(cfg, s, s1);
        ReconciledRuns(cfg, s1, v, j);
        ReachesOn(cfg, s, s1, Reconciled(cfg, s1, v, j).state);
        if Reconciled(cfg, s1, v, j).Done? {
          forall k | k in rest
            ensures var s2 := Reconciled(cfg, s1, v, j).state; AsListed(cfg, s2, v, k) && Usable(cfg, s2, v, k)
          {
            NextInLine(cfg, s, s1, v, init, k, j);
          }
        }
      }
    }
  }

  lemma ReconciledServes(cfg: Config, s: State, v: View, j: JobId)
    ensures Reconciled(cfg, s, v, j).Done? ==> Reconciled(cfg, s, v, j).state.mem.serving == s.mem.serving
  {
    if Binding(cfg, s, v, j).Some? && Reconciled(cfg, s, v, j).Done? {
      TakenTables(cfg, s, v, j, Binding(cfg, s, v, j).value);
    }
  }

  /** After an error no other job has its turn. */
  lemma {:induction false} RaisedStays(cfg: Config, s: State, v: View, js: seq<JobId>, i: nat)
    requires i <= |js| && PassOver(cfg, s, v, js[..i]).Raised?
    ensures PassOver(cfg, s, v, js) == PassOver(cfg, s, v, js[..i])
  {
    if i == |js| {
      assert js[..i] == js;
    } else {
      assert js[..|js| - 1][..i] == js[..i];
      RaisedStays(cfg, s, v, js[..|js| - 1], i);
    }
  }

  lemma PassKeeps(cfg: Config, s: State, snap: Snapshot, order: seq<ExecId>, js: seq<JobId>)
    requires Inv(cfg, s) && Distinct(js) && ReadyToPass(cfg, s, Begun(s.db, snap, order), js)
    ensures Inv(cfg, PassOver(cfg, s, Begun(s.db, snap, order), js).state)
  {
    PassRuns(cfg, s, snap, order, js, {});
    ReachesKeeps(cfg, s, PassOver(cfg, s, Begun(s.db, snap, order), js).state);
  }

  // ---- giving up on adoption ----

  /** After a complete snapshot: a job whose execution is not in it may be started again. Its host is not
      looked at here, and no lease, lock or row changes. */
  ghost function GivenUp(cfg: Config, s: State, v: View, j: JobId, known: bool, now: int): State {
    if GivesUp(cfg, s, j, v) then Put(s, j, GiveUpRecord(s.db.recovery[j], if known then ResumeMode else StartMode, now)) else s
  }

  ghost function GivenUpAll(cfg: Config, s: State, v: View, js: seq<JobId>, known: JobId -> bool, now: int): State {
    if js == [] then s
    else
      var j := js[|js| - 1];
      GivenUp(cfg, GivenUpAll(cfg, s, v, js[..|js| - 1], known, now), v, j, known(j), now)
  }

  /** The job waits for its adoption, and the pass may know why. */
  ghost predicate StillAwaits(cfg: Config, s: State, v: View, j: JobId) {
    && v.snap.complete && j in v.rows && v.rows[j].state.WaitingHost?
    && Is(s, j, WaitingHost) && j in s.db.recovery && s.db.recovery[j].mode.AdoptMode?
  }

  /** When a complete snapshot has been dealt with, a listed job still waits for adoption only if one of the
      reported executions may be its own. */
  lemma {:induction false} GivenUpRuns(cfg: Config, s: State, v: View, js: seq<JobId>, known: JobId -> bool, now: int)
    requires Inv(cfg, s) && s.mem.serving && Passing(v) in s.mem.pending
    ensures var s' := GivenUpAll(cfg, s, v, js, known, now);
            && Reaches(cfg, s, s') && s'.mem == s.mem && s'.db.jobs == s.db.jobs && s'.db.ledger == s.db.ledger
            && (forall j | j in js && StillAwaits(cfg, s', v, j) :: KnownExecution(cfg, v, j, s'.db.recovery[j]).Some?)
            && (forall j | j in s'.db.recovery :: j in s.db.recovery
                  && (s'.db.recovery[j] == s.db.recovery[j] || !s'.db.recovery[j].mode.AdoptMode?))
  {
    ReachesSelf(cfg, s);
    if js != [] {
      var init, j := js[..|js| - 1], js[|js| - 1];
      GivenUpRuns(cfg, s, v, init, known, now);
      assert js == init + [j];
      var s1 := GivenUpAll(cfg, s, v, init, known, now);
      GivenUpStep(cfg, s, s1, v, j, known(j), now);
      GivenUpRecords(cfg, s1, v, j, known(j), now);
    }
  }

  lemma GivenUpRecords(cfg: Config, s: State, v: View, j: JobId, known: bool, now: int)
    ensures var s' := GivenUp(cfg, s, v, j, known, now);
            && (StillAwaits(cfg, s', v, j) ==> KnownExecution(cfg, v, j, s'.db.recovery[j]).Some?)
            && (forall k | k in s'.db.recovery :: k in s.db.recovery
                  && (s'.db.recovery[k] == s.db.recovery[k] || !s'.db.recovery[k].mode.AdoptMode?))
  {
  }

  lemma GivenUpStep(cfg: Config, s: State, s1: State, v: View, j: JobId, known: bool, now: int)
    requires Inv(cfg, s) && Reaches(cfg, s, s1) && s1.mem.serving && Passing(v) in s1.mem.pending
    ensures var s' := GivenUp(cfg, s1, v, j, known, now);
            && Reaches(cfg, s, s') && s'.mem == s1.mem && s'.db.jobs == s1.db.jobs && s'.db.ledger == s1.db.ledger
  {
    if GivesUp(cfg, s1, j, v) {
      var mode := if known then ResumeMode else StartMode;
      var r := GiveUpRecord(s1.db.recovery[j], mode, now);
      Step(cfg, s, s1, ReconnectionStep(DoGiveUp(j, v, mode, now)));
      WriteRuns(cfg, s, With(s1, Writing(j, r)), j, r);
      WithWithout(Put(s1, j, r), Writing(j, r));
    }
  }

  /** The job waited for its adoption when the pass listed it and does so still, and a complete snapshot has no execution
      that may be its own: none that a row gives to it, none that matches alone, and not the recorded one. */
  ghost predicate Abandoned(cfg: Config, s: State, v: View, j: JobId) {
    && v.snap.complete && j in v.rows && v.rows[j].state == WaitingHost && j in s.db.jobs && s.db.jobs[j].state == WaitingHost
    && j in s.db.recovery && s.db.recovery[j].mode == AdoptMode
    && (forall i | 0 <= i < |v.order| :: !OwnedHit(v.owned, v.reported, j, v.order[i]))
    && (forall e: ExecId :: !UniqueLatest(v.rows[j], j, cfg.path(v.rows[j].project, v.snap.host), v.owned, v.reported, e))
    && (s.db.recovery[j].exec == None || s.db.recovery[j].exec.value !in v.reported)
  }

  lemma AbandonedGivesUp(cfg: Config, s: State, v: View, j: JobId)
    ensures GivesUp(cfg, s, j, v) <==> Abandoned(cfg, s, v, j)
  {
  }

  /** Exactly the listed jobs that are abandoned stop waiting for their adoption: they are retried at once, by their
      conversation, and their record forgets the execution. */
  lemma {:induction false} GivenUpLeaves(cfg: Config, s: State, v: View, js: seq<JobId>, known: JobId -> bool, now: int)
    ensures var s' := GivenUpAll(cfg, s, v, js, known, now);
            && s'.mem == s.mem && s'.db == s.db.(recovery := s'.db.recovery) && s'.db.recovery.Keys == s.db.recovery.Keys
            && forall k | k in s.db.recovery ::
                 s'.db.recovery[k] == if k in js && Abandoned(cfg, s, v, k)
                                      then s.db.recovery[k].(mode := if known(k) then ResumeMode else StartMode,
                                                             due := Some(now), exec := None)
                                      else s.db.recovery[k]
  {
    if js != [] {
      var init, j := js[..|js| - 1], js[|js| - 1];
      GivenUpLeaves(cfg, s, v, init, known, now);
      assert js == init + [j];
      var s1 := GivenUpAll(cfg, s, v, init, known, now);
      AbandonedGivesUp(cfg, s1, v, j);
    }
  }

  lemma GivenUpKeeps(cfg: Config, s: State, v: View, js: seq<JobId>, known: JobId -> bool, now: int)
    requires Inv(cfg, s) && s.mem.serving && Passing(v) in s.mem.pending
    ensures Inv(cfg, GivenUpAll(cfg, s, v, js, known, now))
  {
    GivenUpRuns(cfg, s, v, js, known, now);
    ReachesKeeps(cfg, s, GivenUpAll(cfg, s, v, js, known, now));
  }
}
