/** Cancelling a remote job: it ends only after a definite result of the execution on record, exactly if no other
    coroutine is at work on the job, and no pass over the reports of its runner finds another execution of it
    (job_manager.py, cancel, reconcile_runner and what may run beside them). */
module CancelSafety {
  import opened Wrappers
  import opened States
  import opened Tables
  import opened Matching
  import opened Transactions
  import opened Invariants
  import opened Safety
  import opened Runs
  import opened Scheduler

  /** The job is being cancelled, and the runner must confirm the end of e. */
  ghost predicate Pends(cfg: Config, s: State, j: JobId, e: ExecId) {
    && Is(s, j, Cancelling) && Remote(cfg, s.db.jobs[j])
    && j in s.db.recovery && s.db.recovery[j].exec == Some(e)
  }

  /** What a coroutine remembers does not get in the way of the cancellation: no turn is being started, no other
      execution has been picked up, no record without e is about to be written, and no cancel request has decided
      already that nothing is on record. */
  predicate Harmless(t: Pending, j: JobId, e: ExecId) {
    match t
    case Writing(k, r) => k == j ==> r.exec == Some(e)
    case Entering(k, r) => k == j ==> r.exec == Some(e)
    case Queuing(k, r) => k == j ==> r.exec == Some(e)
    case Turning(k) => k != j
    case Claim(k, f) => k == j ==> f == e
    case Hold(k, f) => k == j ==> f == e
    case Ending(k) => k != j
    case _ => true
  }

  /** So does a retry between its lease and its launch. */
  predicate HarmlessFlow(f: Flow, e: ExecId) {
    match f
    case AwaitSession(r, queued) => !queued && (r.mode.StartMode? ==> r.exec == Some(e))
    case Dequeue(_) => false
    case _ => true
  }

  ghost predicate Calm(m: Memory, j: JobId, e: ExecId) {
    && (j in m.handles ==> m.handles[j] == e)
    && (j in m.flow ==> HarmlessFlow(m.flow[j], e))
    && forall t | t in m.pending :: Harmless(t, j, e)
  }

  // ---- passes over the reports of a runner ----

  /** What the pass has read leads it to no other execution of j than e. */
  ghost predicate Agrees(cfg: Config, v: View, j: JobId, e: ExecId) {
    j in v.rows && v.rows[j].host == Some(v.snap.host) ==> Matched(cfg, v, j) == None || Matched(cfg, v, j) == Some(e)
  }

  /** A record that names e leads the pass to e. */
  predicate Recognizes(v: View, j: JobId, e: ExecId) {
    e in v.reported && (e in v.owned ==> v.owned[e].job == j)
  }

  /** The pass will bind j, as it has listed it, to another execution. A job that it has listed as waiting, before the
      cancel request, is bound to the recorded execution first, unless its record asks for adoption. */
  ghost predicate Misleads(cfg: Config, v: View, j: JobId, e: ExecId, adopting: bool) {
    && !Agrees(cfg, v, j, e)
    && match v.rows[j].state
       case Cancelling => true
       case WaitingHost => adopting || !Recognizes(v, j, e)
       case _ => false
  }

  predicate Adopts(t: Pending, j: JobId) {
    match t
    case Writing(k, r) => k == j && r.mode.AdoptMode?
    case Entering(k, r) => k == j && r.mode.AdoptMode?
    case Queuing(k, r) => k == j && r.mode.AdoptMode?
    case _ => false
  }

  /** The record asks for adoption, or is about to. */
  ghost predicate MayAdopt(s: State, j: JobId) {
    (j in s.db.recovery && s.db.recovery[j].mode.AdoptMode?) || exists t: Pending :: t in s.mem.pending && Adopts(t, j)
  }

  ghost predicate NoneMisleads(cfg: Config, s: State, j: JobId, e: ExecId) {
    forall v: View | Passing(v) in s.mem.pending :: !Misleads(cfg, v, j, e, MayAdopt(s, j))
  }

  /** No coroutine is at work that would end the cancellation too early, and no pass is. */
  ghost predicate Quiet(cfg: Config, s: State, j: JobId, e: ExecId) {
    Calm(s.mem, j, e) && NoneMisleads(cfg, s, j, e)
  }

  /** The step reports no definite result of e, and no pass reads anything that leads it to another execution of j. */
  ghost predicate Silent(cfg: Config, s: State, a: Action, j: JobId, e: ExecId) {
    match a
    case ExecuteStep(DoConfirm(f)) => f != e
    case ReconnectionStep(DoBeginPass(snap, order)) => Agrees(cfg, Begun(s.db, snap, order), j, e)
    case ReconnectionStep(DoListAgain(v)) => Agrees(cfg, v.(rows := s.db.jobs), j, e)
    case _ => true
  }

  ghost predicate SilentRun(cfg: Config, s: State, acts: seq<Action>, j: JobId, e: ExecId)
    requires Legal(cfg, s, acts)
    decreases |acts|
  {
    acts != [] ==> Silent(cfg, s, acts[0], j, e) && SilentRun(cfg, Next(cfg, s, acts[0]), acts[1..], j, e)
  }

  ghost predicate Open(cfg: Config, s: State, j: JobId, e: ExecId) {
    Pends(cfg, s, j, e) && Calm(s.mem, j, e) && e !in s.mem.confirmed
  }

  ghost predicate Unconfirmed(cfg: Config, s: State, j: JobId, e: ExecId) {
    Pends(cfg, s, j, e) && Quiet(cfg, s, j, e) && e !in s.mem.confirmed
  }

  /** A pass agrees if no other row that it has consulted belongs to j, and no report without such a row carries its
      conversation. */
  lemma AloneAgrees(cfg: Config, v: View, j: JobId, e: ExecId)
    requires forall f | f in v.owned && f != e :: v.owned[f].job != j
    requires j in v.rows ==> forall f | f in v.reported && f !in v.owned && f != e ::
               v.rows[j].thread.None? || v.reported[f].thread != v.rows[j].thread
    ensures Agrees(cfg, v, j, e)
  {
    if j in v.rows {
      var target := cfg.path(v.rows[j].project, v.snap.host);
      var m := Match(v.rows[j], j, target, v.owned, v.reported);
      if m.Some? {
        assert Candidate(v.rows[j], j, target, v.owned, v.reported, m.value);
      }
    }
  }

  // ---- no silent step ends a quiet cancellation ----

  lemma CalmRecall(m: Memory, t: Pending, j: JobId, e: ExecId)
    requires Calm(m, j, e) && Harmless(t, j, e)
    ensures Calm(Recall(m, t), j, e)
  {
  }

  lemma CalmDiscard(m: Memory, t: Pending, j: JobId, e: ExecId)
    requires Calm(m, j, e)
    ensures Calm(Discard(m, t), j, e)
  {
  }

  lemma CalmGrant(m: Memory, k: JobId, j: JobId, e: ExecId)
    requires Calm(m, j, e) && k in m.flow && m.flow[k].AwaitSession?
    ensures Calm(Granted(m, k, m.flow[k].read, m.flow[k].queued), j, e)
  {
  }

  lemma PlacementPends(cfg: Config, s: State, a: Placement, j: JobId, e: ExecId)
    requires PlacementOk(cfg, s, a) && Open(cfg, s, j, e)
    ensures Pends(cfg, PlacementNext(cfg, s, a), j, e)
  {
  }

  lemma PlacementWaits(cfg: Config, s: State, a: Placement, j: JobId, e: ExecId)
    requires PlacementOk(cfg, s, a) && Open(cfg, s, j, e)
    ensures Open(cfg, PlacementNext(cfg, s, a), j, e)
  {
    PlacementPends(cfg, s, a, j, e);
    match a
    case DoAssign(k, on, read) =>
      if read.Some? {
        CalmDiscard(s.mem, Reading(k, read.value), j, e);
      }
    case DoGrantSession(k) => CalmGrant(s.mem, k, j, e);
    case DoResumeQuota(k, r) =>
      var m := Discard(s.mem, Reading(k, r));
      CalmDiscard(s.mem, Reading(k, r), j, e);
      CalmRecall(m, Writing(k, QuotaRetryRecord(r)), j, e);
    case _ =>
  }

  lemma WriteWaits(cfg: Config, s: State, k: JobId, r: Recovery, j: JobId, e: ExecId)
    requires WriteOk(s, k, r) && Open(cfg, s, j, e)
    ensures Open(cfg, Write(s, k, r), j, e)
  {
    assert Harmless(Writing(k, r), j, e);
    CalmDiscard(s.mem, Writing(k, r), j, e);
  }

  /** The record that a coroutine prepares for the job names e. */
  lemma PreparedIsHarmless(cfg: Config, s: State, a: Note, j: JobId, e: ExecId)
    requires NoteOk(cfg, s, a) && Open(cfg, s, j, e)
    requires a.DoMakeUp? || a.DoNoteExec? || a.DoCountQuota? || a.DoNoteCancel? || a.DoPark?
    ensures Harmless(Writing(a.j, match a
                                  case DoMakeUp(k, due) => MadeUpRecord(s.db.jobs[k], due)
                                  case DoNoteExec(k, f) => ExecRecord(s.db, k, f)
                                  case DoCountQuota(k, due) => QuotaRecord(s, k, due)
                                  case DoNoteCancel(k, f) => CancelRecord(s.db, k, f)
                                  case DoPark(k) => ParkRecord(s.db.recovery[k])), j, e)
  {
    match a
    case DoNoteExec(k, f) => assert Harmless(Hold(k, f), j, e);
    case DoNoteCancel(k, f) => assert Harmless(Hold(k, f), j, e);
    case _ =>
  }

  lemma NoteWaits(cfg: Config, s: State, a: Note, j: JobId, e: ExecId)
    requires NoteOk(cfg, s, a) && Open(cfg, s, j, e)
    ensures Open(cfg, NoteNext(cfg, s, a), j, e)
  {
    match a
    case DoRead(k) => CalmRecall(s.mem, Reading(k, s.db.recovery[k]), j, e);
    case DoWrite(k, r) => WriteWaits(cfg, s, k, r, j, e);
    case DoDiscard(t) => CalmDiscard(s.mem, t, j, e);
    case DoPark(k) =>
      PreparedIsHarmless(cfg, s, a, j, e);
      CalmDiscard(s.mem, Looking(k), j, e);
      CalmRecall(Discard(s.mem, Looking(k)), Writing(k, ParkRecord(s.db.recovery[k])), j, e);
    case DoMakeUp(k, due) =>
      PreparedIsHarmless(cfg, s, a, j, e);
      CalmRecall(s.mem, Writing(k, MadeUpRecord(s.db.jobs[k], due)), j, e);
    case DoNoteExec(k, f) =>
      PreparedIsHarmless(cfg, s, a, j, e);
      CalmRecall(s.mem, Writing(k, ExecRecord(s.db, k, f)), j, e);
    case DoCountQuota(k, due) =>
      PreparedIsHarmless(cfg, s, a, j, e);
      CalmRecall(s.mem, Writing(k, QuotaRecord(s, k, due)), j, e);
    case DoNoteCancel(k, f) =>
      PreparedIsHarmless(cfg, s, a, j, e);
      CalmRecall(s.mem, Writing(k, CancelRecord(s.db, k, f)), j, e);
  }

  lemma WaitPends(cfg: Config, s: State, a: Wait, j: JobId, e: ExecId)
    requires WaitOk(cfg, s, a) && Open(cfg, s, j, e)
    ensures Pends(cfg, WaitNext(cfg, s, a), j, e)
  {
    match a
    case DoRecordHostWait(k, r) => assert Harmless(Entering(k, r), j, e);
    case DoWritePlace(k, r) => assert Harmless(Queuing(k, r), j, e);
    case DoTakePlace(k, r, p) => assert Harmless(Queuing(k, r), j, e);
    case _ =>
  }

  lemma WaitWaits(cfg: Config, s: State, a: Wait, j: JobId, e: ExecId)
    requires WaitOk(cfg, s, a) && Open(cfg, s, j, e)
    ensures Open(cfg, WaitNext(cfg, s, a), j, e)
  {
    WaitPends(cfg, s, a, j, e);
    match a
    case DoEnterHostWait(k, mode, host, due) => CalmRecall(NoFlow(s.mem, k), Entering(k, HostWaitRecord(s, k, mode, due)), j, e);
    case DoRecordHostWait(k, r) => CalmDiscard(s.mem, Entering(k, r), j, e);
    case DoEnterLeaseWait(k, mode, on, due) => CalmRecall(NoFlow(s.mem, k), Queuing(k, LeaseWaitRecord(mode, due)), j, e);
    case DoKeepPlace(k, r) =>
      assert Harmless(Queuing(k, r), j, e);
      CalmDiscard(s.mem, Queuing(k, r), j, e);
      CalmRecall(Discard(s.mem, Queuing(k, r)), Queuing(k, r.(position := Position(s.db, k))), j, e);
    case DoWritePlace(k, r) => CalmDiscard(s.mem, Queuing(k, r), j, e);
    case DoTakePlace(k, r, p) => CalmDiscard(s.mem, Queuing(k, r), j, e);
    case _ =>
  }

  lemma CalmCarried(m: Memory, k: JobId, j: JobId, e: ExecId)
    requires Calm(m, j, e) && k != j
    ensures Calm(Carried(m, k), j, e)
  {
  }

  lemma MoveWaits(cfg: Config, s: State, k: JobId, target: JobState, j: JobId, e: ExecId)
    requires MoveOk(s, k, target) && Open(cfg, s, j, e)
    ensures Open(cfg, Move(s, k, target), j, e)
  {
    assert k != j;
    CalmCarried(s.mem, k, j, e);
  }

  lemma TurnWaits(cfg: Config, s: State, a: Turn, j: JobId, e: ExecId)
    requires TurnOk(s, a) && Open(cfg, s, j, e)
    ensures Open(cfg, TurnNext(s, a), j, e)
  {
    match a
    case DoMove(k, target) => MoveWaits(cfg, s, k, target, j, e);
    case DoEngage(k) => CalmRecall(s.mem, Engaged(k), j, e);
    case _ =>
  }

  lemma ExecuteWaits(cfg: Config, s: State, a: Execute, j: JobId, e: ExecId)
    requires ExecuteOk(s, a) && Open(cfg, s, j, e) && Silent(cfg, s, ExecuteStep(a), j, e)
    ensures Open(cfg, ExecuteNext(s, a), j, e)
  {
    match a
    case DoBeginTurn(k) => CalmRecall(s.mem, Turning(k), j, e);
    case DoReserve(f, row) =>
      assert Harmless(Turning(row.job), j, e);
      CalmRecall(s.mem, Claim(row.job, f), j, e);
    case DoTakeHandle(k, f) =>
      assert Harmless(Claim(k, f), j, e);
      CalmDiscard(s.mem, Claim(k, f), j, e);
      CalmRecall(Discard(s.mem, Claim(k, f)), Hold(k, f), j, e);
    case DoReadHandle(k) => CalmRecall(s.mem, Hold(k, s.mem.handles[k]), j, e);
    case _ =>
  }

  lemma CancellationWaits(cfg: Config, s: State, a: Cancellation, j: JobId, e: ExecId)
    requires CancellationOk(cfg, s, a) && Open(cfg, s, j, e)
    ensures Open(cfg, CancellationNext(cfg, s, a), j, e)
  {
    match a
    case DoFinalize(k, f) => assert Harmless(Hold(k, f), j, e);
    case DoLook(k) => CalmRecall(s.mem, Looking(k), j, e);
    case DoDecideEnd(k) =>
      CalmDiscard(s.mem, Looking(k), j, e);
      CalmRecall(Discard(s.mem, Looking(k)), Ending(k), j, e);
    case DoEndAtOnce(k) =>
      assert Harmless(Ending(k), j, e);
      CalmDiscard(s.mem, Ending(k), j, e);
    case _ =>
  }

  lemma BindWaits(cfg: Config, s: State, k: JobId, f: ExecId, v: View, j: JobId, e: ExecId)
    requires BindOk(cfg, s, k, f, v) && Open(cfg, s, j, e) && (k == j ==> f == e)
    ensures Open(cfg, Bind(s, k, f, v), j, e)
  {
    var t := if v.rows[k].state.WaitingHost? then Bound(k, f, v.snap.host) else Claim(k, f);
    CalmRecall(s.mem, t, j, e);
    if s.db.recovery[k].exec != Some(f) {
      CalmRecall(Recall(s.mem, t), Writing(k, s.db.recovery[k].(exec := Some(f))), j, e);
    }
  }

  /** A pass that does not mislead binds the job to e. */
  lemma BindsItself(cfg: Config, s: State, f: ExecId, v: View, j: JobId, e: ExecId)
    requires Unconfirmed(cfg, s, j, e) && BindOk(cfg, s, j, f, v)
    ensures f == e
  {
    assert !Misleads(cfg, v, j, e, MayAdopt(s, j));
  }

  lemma ReconnectionWaits(cfg: Config, s: State, a: Reconnection, j: JobId, e: ExecId)
    requires ReconnectionOk(cfg, s, a) && Unconfirmed(cfg, s, j, e)
    ensures Open(cfg, ReconnectionNext(cfg, s, a), j, e)
  {
    match a
    case DoBeginPass(snap, order) => CalmRecall(s.mem, Passing(Begun(s.db, snap, order)), j, e);
    case DoListAgain(v) =>
      CalmDiscard(s.mem, Passing(v), j, e);
      CalmRecall(Discard(s.mem, Passing(v)), Passing(v.(rows := s.db.jobs)), j, e);
    case DoBind(k, f, v) =>
      if k == j {
        BindsItself(cfg, s, f, v, j, e);
      }
      BindWaits(cfg, s, k, f, v, j, e);
    case DoAdopt(k, f, host) => CalmDiscard(s.mem, Bound(k, f, host), j, e);
    case DoGiveUp(k, v, mode, due) => CalmRecall(s.mem, Writing(k, GiveUpRecord(s.db.recovery[k], mode, due)), j, e);
  }

  lemma RestartWaits(cfg: Config, s: State, a: Restart, j: JobId, e: ExecId)
    requires RestartOk(cfg, s, a) && Open(cfg, s, j, e)
    ensures Open(cfg, RestartNext(cfg, s, a), j, e)
  {
  }

  // ---- nor does it mislead a pass ----

  /** No view is new, and no record comes to ask for adoption. */
  ghost predicate NoNewLead(s: State, s': State, j: JobId) {
    && (MayAdopt(s', j) ==> MayAdopt(s, j))
    && (forall v: View | Passing(v) in s'.mem.pending :: Passing(v) in s.mem.pending)
  }

  lemma LeadsOn(cfg: Config, s: State, s': State, j: JobId, e: ExecId)
    requires NoneMisleads(cfg, s, j, e) && NoNewLead(s, s', j)
    ensures NoneMisleads(cfg, s', j, e)
  {
  }

  /** A coroutine remembers one thing more, or less, or another one. */
  lemma LeadsMore(s: State, s': State, t: Pending, j: JobId)
    requires s'.db.recovery == s.db.recovery && s'.mem.pending == s.mem.pending + multiset{t}
    requires !t.Passing? && (Adopts(t, j) ==> MayAdopt(s, j))
    ensures NoNewLead(s, s', j)
  {
  }

  lemma LeadsLess(s: State, s': State, t: Pending, j: JobId)
    requires s'.db.recovery == s.db.recovery && s'.mem.pending == s.mem.pending - multiset{t}
    ensures NoNewLead(s, s', j)
  {
  }

  lemma LeadsOther(s: State, s': State, t: Pending, u: Pending, j: JobId)
    requires s'.db.recovery == s.db.recovery && s'.mem.pending == s.mem.pending - multiset{t} + multiset{u}
    requires !u.Passing? && (Adopts(u, j) ==> MayAdopt(s, j))
    ensures NoNewLead(s, s', j)
  {
  }

  /** The record of k is written; or that of another job, or none, changes. */
  lemma LeadsWritten(s: State, s': State, t: Pending, k: JobId, r: Recovery, j: JobId)
    requires s'.db.recovery == s.db.recovery[k := r] && s'.mem.pending == s.mem.pending - multiset{t}
    requires k == j && r.mode.AdoptMode? ==> t in s.mem.pending && Adopts(t, j)
    ensures NoNewLead(s, s', j)
  {
  }

  lemma LeadsElsewhere(s: State, s': State, j: JobId)
    requires s'.mem.pending <= s.mem.pending
    requires j in s'.db.recovery && s'.db.recovery[j].mode.AdoptMode? ==> j in s.db.recovery && s.db.recovery[j].mode.AdoptMode?
    ensures NoNewLead(s, s', j)
  {
  }

  lemma PlacementLeads(cfg: Config, s: State, a: Placement, j: JobId, e: ExecId)
    requires PlacementOk(cfg, s, a) && Open(cfg, s, j, e)
    ensures NoNewLead(s, PlacementNext(cfg, s, a), j)
  {
    var s' := PlacementNext(cfg, s, a);
    match a
    case DoAssign(k, on, read) =>
      if read.Some? {
        LeadsLess(s, s', Reading(k, read.value), j);
      }
    case DoGrantSession(k) =>
      var f := s.mem.flow[k];
      if !f.queued && f.read.mode.StartMode? {
        LeadsMore(s, s', Writing(k, HostRetryRecord(f.read)), j);
      }
    case DoResumeQuota(k, r) => LeadsOther(s, s', Reading(k, r), Writing(k, QuotaRetryRecord(r)), j);
    case _ => LeadsElsewhere(s, s', j);
  }

  lemma NoteLeads(cfg: Config, s: State, a: Note, j: JobId, e: ExecId)
    requires NoteOk(cfg, s, a) && Open(cfg, s, j, e)
    ensures NoNewLead(s, NoteNext(cfg, s, a), j)
  {
    var s' := NoteNext(cfg, s, a);
    match a
    case DoRead(k) => LeadsMore(s, s', Reading(k, s.db.recovery[k]), j);
    case DoWrite(k, r) => LeadsWritten(s, s', Writing(k, r), k, s'.db.recovery[k], j);
    case DoDiscard(t) => LeadsLess(s, s', t, j);
    case DoPark(k) => LeadsOther(s, s', Looking(k), Writing(k, ParkRecord(s.db.recovery[k])), j);
    case DoMakeUp(k, due) => LeadsMore(s, s', Writing(k, MadeUpRecord(s.db.jobs[k], due)), j);
    case DoNoteExec(k, f) => LeadsMore(s, s', Writing(k, ExecRecord(s.db, k, f)), j);
    case DoCountQuota(k, due) => LeadsMore(s, s', Writing(k, QuotaRecord(s, k, due)), j);
    case DoNoteCancel(k, f) => LeadsMore(s, s', Writing(k, CancelRecord(s.db, k, f)), j);
  }

  lemma HostWaitLeads(cfg: Config, s: State, a: Wait, j: JobId, e: ExecId)
    requires WaitOk(cfg, s, a) && Open(cfg, s, j, e) && (a.DoEnterHostWait? || a.DoRecordHostWait?)
    ensures NoNewLead(s, WaitNext(cfg, s, a), j)
  {
    var s' := WaitNext(cfg, s, a);
    match a
    case DoEnterHostWait(k, mode, host, due) => LeadsMore(s, s', Entering(k, HostWaitRecord(s, k, mode, due)), j);
    case DoRecordHostWait(k, r) => LeadsWritten(s, s', Entering(k, r), k, s'.db.recovery[k], j);
  }

  lemma WaitLeads(cfg: Config, s: State, a: Wait, j: JobId, e: ExecId)
    requires WaitOk(cfg, s, a) && Open(cfg, s, j, e)
    ensures NoNewLead(s, WaitNext(cfg, s, a), j)
  {
    var s' := WaitNext(cfg, s, a);
    match a
    case DoEnterLeaseWait(k, mode, on, due) => LeadsMore(s, s', Queuing(k, LeaseWaitRecord(mode, due)), j);
    case DoKeepPlace(k, r) => LeadsOther(s, s', Queuing(k, r), Queuing(k, r.(position := Position(s.db, k))), j);
    case DoWritePlace(k, r) => LeadsWritten(s, s', Queuing(k, r), k, s'.db.recovery[k], j);
    case DoTakePlace(k, r, p) => LeadsWritten(s, s', Queuing(k, r), k, s'.db.recovery[k], j);
    case DoMakeUpPlace(k, p, due) => LeadsElsewhere(s, s', j);
    case DoSwap(k, l) => LeadsElsewhere(s, s', j);
    case _ => HostWaitLeads(cfg, s, a, j, e);
  }

  lemma CarriedLeads(s: State, k: JobId, target: JobState, j: JobId)
    requires k in s.db.jobs && k != j
    ensures NoNewLead(s, Move(s, k, target), j)
  {
  }

  lemma TurnLeads(cfg: Config, s: State, a: Turn, j: JobId, e: ExecId)
    requires TurnOk(s, a) && Open(cfg, s, j, e)
    ensures NoNewLead(s, TurnNext(s, a), j)
  {
    var s' := TurnNext(s, a);
    match a
    case DoMove(k, target) => CarriedLeads(s, k, target, j);
    case DoEngage(k) => LeadsMore(s, s', Engaged(k), j);
    case _ => LeadsElsewhere(s, s', j);
  }

  lemma ExecuteLeads(s: State, a: Execute, j: JobId)
    requires ExecuteOk(s, a)
    ensures NoNewLead(s, ExecuteNext(s, a), j)
  {
    var s' := ExecuteNext(s, a);
    match a
    case DoBeginTurn(k) => LeadsMore(s, s', Turning(k), j);
    case DoReserve(f, row) => LeadsMore(s, s', Claim(row.job, f), j);
    case DoTakeHandle(k, f) => LeadsOther(s, s', Claim(k, f), Hold(k, f), j);
    case DoReadHandle(k) => LeadsMore(s, s', Hold(k, s.mem.handles[k]), j);
    case _ => LeadsElsewhere(s, s', j);
  }

  lemma CancellationLeads(cfg: Config, s: State, a: Cancellation, j: JobId, e: ExecId)
    requires CancellationOk(cfg, s, a) && Open(cfg, s, j, e)
    ensures NoNewLead(s, CancellationNext(cfg, s, a), j)
  {
    var s' := CancellationNext(cfg, s, a);
    match a
    case DoLook(k) => LeadsMore(s, s', Looking(k), j);
    case DoDecideEnd(k) => LeadsOther(s, s', Looking(k), Ending(k), j);
    case _ => LeadsElsewhere(s, s', j);
  }

  lemma NewView(cfg: Config, s: State, s': State, v: View, j: JobId, e: ExecId)
    requires NoneMisleads(cfg, s, j, e) && Agrees(cfg, v, j, e) && s'.db.recovery == s.db.recovery
    requires s'.mem.pending <= s.mem.pending + multiset{Passing(v)}
    ensures NoneMisleads(cfg, s', j, e)
  {
    assert MayAdopt(s', j) ==> MayAdopt(s, j);
  }

  lemma BindLeads(s: State, k: JobId, f: ExecId, v: View, j: JobId)
    requires k in s.db.recovery && k in v.rows
    ensures NoNewLead(s, Bind(s, k, f, v), j)
  {
    var t := if v.rows[k].state.WaitingHost? then Bound(k, f, v.snap.host) else Claim(k, f);
    var w := Writing(k, s.db.recovery[k].(exec := Some(f)));
    LeadsMore(s, With(s, t), t, j);
    if s.db.recovery[k].exec != Some(f) {
      LeadsMore(With(s, t), With(With(s, t), w), w, j);
    }
  }

  lemma ReconnectionLeads(cfg: Config, s: State, a: Reconnection, j: JobId, e: ExecId)
    requires ReconnectionOk(cfg, s, a) && Unconfirmed(cfg, s, j, e) && Silent(cfg, s, ReconnectionStep(a), j, e)
    ensures NoneMisleads(cfg, ReconnectionNext(cfg, s, a), j, e)
  {
    var s' := ReconnectionNext(cfg, s, a);
    match a
    case DoBeginPass(snap, order) => NewView(cfg, s, s', Begun(s.db, snap, order), j, e);
    case DoListAgain(v) => NewView(cfg, s, s', v.(rows := s.db.jobs), j, e);
    case DoBind(k, f, v) =>
      BindLeads(s, k, f, v, j);
      LeadsOn(cfg, s, s', j, e);
    case DoAdopt(k, f, host) =>
      LeadsLess(s, s', Bound(k, f, host), j);
      LeadsOn(cfg, s, s', j, e);
    case DoGiveUp(k, v, mode, due) =>
      LeadsMore(s, s', Writing(k, GiveUpRecord(s.db.recovery[k], mode, due)), j);
      LeadsOn(cfg, s, s', j, e);
  }

  lemma RestartLeads(cfg: Config, s: State, a: Restart, j: JobId, e: ExecId)
    requires RestartOk(cfg, s, a) && Open(cfg, s, j, e)
    ensures NoNewLead(s, RestartNext(cfg, s, a), j)
  {
    LeadsElsewhere(s, RestartNext(cfg, s, a), j);
  }

  lemma StepLeads(cfg: Config, s: State, a: Action, j: JobId, e: ExecId)
    requires Enabled(cfg, s, a) && Unconfirmed(cfg, s, j, e) && Silent(cfg, s, a, j, e)
    ensures NoneMisleads(cfg, Next(cfg, s, a), j, e)
  {
    match a
    case PlacementStep(b) => PlacementLeads(cfg, s, b, j, e); LeadsOn(cfg, s, Next(cfg, s, a), j, e);
    case NoteStep(b) => NoteLeads(cfg, s, b, j, e); LeadsOn(cfg, s, Next(cfg, s, a), j, e);
    case WaitStep(b) => WaitLeads(cfg, s, b, j, e); LeadsOn(cfg, s, Next(cfg, s, a), j, e);
    case TurnStep(b) => TurnLeads(cfg, s, b, j, e); LeadsOn(cfg, s, Next(cfg, s, a), j, e);
    case ExecuteStep(b) => ExecuteLeads(s, b, j); LeadsOn(cfg, s, Next(cfg, s, a), j, e);
    case CancellationStep(b) => CancellationLeads(cfg, s, b, j, e); LeadsOn(cfg, s, Next(cfg, s, a), j, e);
    case ReconnectionStep(b) => ReconnectionLeads(cfg, s, b, j, e);
    case RestartStep(b) => RestartLeads(cfg, s, b, j, e); LeadsOn(cfg, s, Next(cfg, s, a), j, e);
  }

  lemma StepWaits(cfg: Config, s: State, a: Action, j: JobId, e: ExecId)
    requires Enabled(cfg, s, a) && Unconfirmed(cfg, s, j, e) && Silent(cfg, s, a, j, e)
    ensures Unconfirmed(cfg, Next(cfg, s, a), j, e)
  {
    StepLeads(cfg, s, a, j, e);
    match a
    case PlacementStep(b) => PlacementWaits(cfg, s, b, j, e);
    case NoteStep(b) => NoteWaits(cfg, s, b, j, e);
    case WaitStep(b) => WaitWaits(cfg, s, b, j, e);
    case TurnStep(b) => TurnWaits(cfg, s, b, j, e);
    case ExecuteStep(b) => ExecuteWaits(cfg, s, b, j, e);
    case CancellationStep(b) => CancellationWaits(cfg, s, b, j, e);
    case ReconnectionStep(b) => ReconnectionWaits(cfg, s, b, j, e);
    case RestartStep(b) => RestartWaits(cfg, s, b, j, e);
  }

  /** Timeouts, disconnects, repeated cancels, crashes and reconnections notwithstanding: without a definite result
      of e, and without a pass that is led to another execution, a quiet cancellation stays what it is. */
  lemma {:induction false} CancelWaits(cfg: Config, s: State, acts: seq<Action>, j: JobId, e: ExecId)
    requires Legal(cfg, s, acts) && Unconfirmed(cfg, s, j, e) && SilentRun(cfg, s, acts, j, e)
    ensures Unconfirmed(cfg, Run(cfg, s, acts), j, e)
    decreases |acts|
  {
    if acts != [] {
      StepWaits(cfg, s, acts[0], j, e);
      CancelWaits(cfg, Next(cfg, s, acts[0]), acts[1..], j, e);
    }
  }

  /** ... and the job keeps its working tree and its project session, so that no other job can get them. */
  lemma CancelHolds(cfg: Config, s: State, acts: seq<Action>, j: JobId, e: ExecId)
    requires Inv(cfg, s) && Legal(cfg, s, acts) && OrderlyRun(cfg, s, acts)
    requires Unconfirmed(cfg, s, j, e) && SilentRun(cfg, s, acts, j, e)
    ensures HoldsBoth(cfg, Run(cfg, s, acts), j)
  {
    CancelWaits(cfg, s, acts, j, e);
    RunKeeps(cfg, s, acts);
    PendingHolds(cfg, Run(cfg, s, acts), j, e);
  }

  lemma PendingHolds(cfg: Config, s: State, j: JobId, e: ExecId)
    requires Inv(cfg, s) && Pends(cfg, s, j, e)
    ensures Started(s.db.log, j) && HoldsBoth(cfg, s, j)
  {
    assert StartedHold(cfg, s.db.jobs, s.db.leases, s.db.locks, s.db.log, j);
  }

  /** The request itself changes nothing about quietness: it can be asked for when the request is made. */
  lemma QuietRequest(cfg: Config, s: State, j: JobId, e: ExecId)
    requires CancelRequestOk(s, j) && Remote(cfg, s.db.jobs[j]) && Quiet(cfg, s, j, e) && e !in s.mem.confirmed
    requires j in s.db.recovery && s.db.recovery[j].exec == Some(e)
    ensures Unconfirmed(cfg, CancelRequest(s, j), j, e)
  {
    LeadsOn(cfg, s, CancelRequest(s, j), j, e);
  }

  ghost predicate OnlyRow(ledger: Ledger, j: JobId, e: ExecId) {
    forall f | f in ledger && ledger[f].job == j :: f == e
  }

  lemma ExecuteAddsNoRow(cfg: Config, s: State, a: Execute, j: JobId, e: ExecId)
    requires ExecuteOk(s, a) && Open(cfg, s, j, e) && OnlyRow(s.db.ledger, j, e)
    ensures OnlyRow(ExecuteNext(s, a).db.ledger, j, e)
  {
    match a
    case DoReserve(f, row) => assert Harmless(Turning(row.job), j, e);
    case DoEnsureRow(f, row) => assert Harmless(Hold(row.job, f), j, e);
    case _ =>
  }

  /** No other step touches the ledger. */
  lemma PlacementKeepsRows(cfg: Config, s: State, a: Placement)
    requires PlacementOk(cfg, s, a)
    ensures PlacementNext(cfg, s, a).db.ledger == s.db.ledger
  {
  }

  lemma NoteKeepsRows(cfg: Config, s: State, a: Note)
    requires NoteOk(cfg, s, a)
    ensures NoteNext(cfg, s, a).db.ledger == s.db.ledger
  {
  }

  lemma WaitKeepsRows(cfg: Config, s: State, a: Wait)
    requires WaitOk(cfg, s, a)
    ensures WaitNext(cfg, s, a).db.ledger == s.db.ledger
  {
  }

  lemma TurnKeepsRows(s: State, a: Turn)
    requires TurnOk(s, a)
    ensures TurnNext(s, a).db.ledger == s.db.ledger
  {
  }

  lemma CancellationKeepsRows(cfg: Config, s: State, a: Cancellation)
    requires CancellationOk(cfg, s, a)
    ensures CancellationNext(cfg, s, a).db.ledger == s.db.ledger
  {
  }

  lemma ReconnectionKeepsRows(cfg: Config, s: State, a: Reconnection)
    requires ReconnectionOk(cfg, s, a)
    ensures ReconnectionNext(cfg, s, a).db.ledger == s.db.ledger
  {
  }

  lemma RestartKeepsRows(cfg: Config, s: State, a: Restart)
    requires RestartOk(cfg, s, a)
    ensures RestartNext(cfg, s, a).db.ledger == s.db.ledger
  {
  }

  lemma StepAddsNoRow(cfg: Config, s: State, a: Action, j: JobId, e: ExecId)
    requires Enabled(cfg, s, a) && Open(cfg, s, j, e) && OnlyRow(s.db.ledger, j, e)
    ensures OnlyRow(Next(cfg, s, a).db.ledger, j, e)
  {
    match a
    case PlacementStep(b) => PlacementKeepsRows(cfg, s, b);
    case NoteStep(b) => NoteKeepsRows(cfg, s, b);
    case WaitStep(b) => WaitKeepsRows(cfg, s, b);
    case TurnStep(b) => TurnKeepsRows(s, b);
    case ExecuteStep(b) => ExecuteAddsNoRow(cfg, s, b, j, e);
    case CancellationStep(b) => CancellationKeepsRows(cfg, s, b);
    case ReconnectionStep(b) => ReconnectionKeepsRows(cfg, s, b);
    case RestartStep(b) => RestartKeepsRows(cfg, s, b);
  }

  /** A job that has no other row when it is cancelled gets none: the owners that a later pass reads never lead it to
      another execution. */
  lemma {:induction false} NoOtherRow(cfg: Config, s: State, acts: seq<Action>, j: JobId, e: ExecId)
    requires Legal(cfg, s, acts) && Unconfirmed(cfg, s, j, e) && SilentRun(cfg, s, acts, j, e) && OnlyRow(s.db.ledger, j, e)
    ensures OnlyRow(Run(cfg, s, acts).db.ledger, j, e)
    decreases |acts|
  {
    if acts != [] {
      StepWaits(cfg, s, acts[0], j, e);
      StepAddsNoRow(cfg, s, acts[0], j, e);
      NoOtherRow(cfg, Next(cfg, s, acts[0]), acts[1..], j, e);
    }
  }

  // ---- every other cancellation can end too early ----

  /** s' can be reached without a definite result of e, and without a pass that reads anything that leads it to
      another execution of j. */
  ghost predicate Silently(cfg: Config, s: State, s': State, j: JobId, e: ExecId) {
    exists acts: seq<Action> :: Legal(cfg, s, acts) && SilentRun(cfg, s, acts, j, e) && Run(cfg, s, acts) == s'
  }

  lemma SilentSelf(cfg: Config, s: State, j: JobId, e: ExecId)
    ensures Silently(cfg, s, s, j, e)
  {
    assert Legal(cfg, s, []) && Run(cfg, s, []) == s;
  }

  lemma {:induction false} SilentAppend(cfg: Config, s: State, acts: seq<Action>, a: Action, j: JobId, e: ExecId)
    requires Legal(cfg, s, acts) && SilentRun(cfg, s, acts, j, e)
    requires Enabled(cfg, Run(cfg, s, acts), a) && Silent(cfg, Run(cfg, s, acts), a, j, e)
    ensures Legal(cfg, s, acts + [a]) && SilentRun(cfg, s, acts + [a], j, e)
    ensures Run(cfg, s, acts + [a]) == Next(cfg, Run(cfg, s, acts), a)
    decreases |acts|
  {
    if acts == [] {
      assert acts + [a] == [a] && [a][1..] == [];
    } else {
      assert (acts + [a])[0] == acts[0] && (acts + [a])[1..] == acts[1..] + [a];
      SilentAppend(cfg, Next(cfg, s, acts[0]), acts[1..], a, j, e);
    }
  }

  lemma SilentStep(cfg: Config, s: State, s1: State, a: Action, j: JobId, e: ExecId)
    requires Silently(cfg, s, s1, j, e) && Enabled(cfg, s1, a) && Silent(cfg, s1, a, j, e)
    ensures Silently(cfg, s, Next(cfg, s1, a), j, e)
  {
    var acts :| Legal(cfg, s, acts) && SilentRun(cfg, s, acts, j, e) && Run(cfg, s, acts) == s1;
    SilentAppend(cfg, s, acts, a, j, e);
  }

  /** The job can become CANCELLED without a definite result of e. */
  ghost predicate EndsSilently(cfg: Config, s: State, j: JobId, e: ExecId) {
    exists s': State :: Silently(cfg, s, s', j, e) && Is(s', j, Cancelled)
  }

  /** Somebody waits for another execution: its result is taken for the cancellation. */
  lemma HoldEnds(cfg: Config, s: State, s1: State, j: JobId, e: ExecId, f: ExecId)
    requires Silently(cfg, s, s1, j, e) && s1.mem.serving && Is(s1, j, Cancelling)
    requires Hold(j, f) in s1.mem.pending && f != e
    ensures EndsSilently(cfg, s, j, e)
  {
    SilentStep(cfg, s, s1, ExecuteStep(DoConfirm(f)), j, e);
    var s2 := Confirm(s1, f);
    SilentStep(cfg, s, s2, CancellationStep(DoFinalize(j, f)), j, e);
    assert Is(Finalized(s2, j), j, Cancelled);
  }

  lemma HandleEnds(cfg: Config, s: State, j: JobId, e: ExecId)
    requires s.mem.serving && Is(s, j, Cancelling) && j in s.mem.handles && s.mem.handles[j] != e
    ensures EndsSilently(cfg, s, j, e)
  {
    SilentSelf(cfg, s, j, e);
    SilentStep(cfg, s, s, ExecuteStep(DoReadHandle(j)), j, e);
    HoldEnds(cfg, s, With(s, Hold(j, s.mem.handles[j])), j, e, s.mem.handles[j]);
  }

  /** A handle of another execution is about to be installed. */
  lemma ClaimEnds(cfg: Config, s: State, s1: State, j: JobId, e: ExecId, f: ExecId)
    requires Silently(cfg, s, s1, j, e) && s1.mem.serving && Is(s1, j, Cancelling)
    requires Claim(j, f) in s1.mem.pending && f != e
    ensures EndsSilently(cfg, s, j, e)
  {
    SilentStep(cfg, s, s1, ExecuteStep(DoTakeHandle(j, f)), j, e);
    HoldEnds(cfg, s, TakeHandle(s1, j, f), j, e, f);
  }

  /** A turn is being started. */
  lemma TurnEnds(cfg: Config, s: State, j: JobId, e: ExecId)
    requires s.mem.serving && Is(s, j, Cancelling) && Turning(j) in s.mem.pending
    ensures EndsSilently(cfg, s, j, e)
  {
    var f := FreshId(s.db.ledger.Keys + {e});
    assert f != e && f !in s.db.ledger.Keys;
    var row := Execution(j, 0, 0, 0, None, ActiveRow, 0);
    SilentSelf(cfg, s, j, e);
    SilentStep(cfg, s, s, ExecuteStep(DoReserve(f, row)), j, e);
    ClaimEnds(cfg, s, Reserve(s, f, row), j, e, f);
  }

  lemma EndingEnds(cfg: Config, s: State, s1: State, j: JobId, e: ExecId)
    requires Silently(cfg, s, s1, j, e) && s1.mem.serving && Is(s1, j, Cancelling) && Ending(j) in s1.mem.pending
    ensures EndsSilently(cfg, s, j, e)
  {
    SilentStep(cfg, s, s1, CancellationStep(DoEndAtOnce(j)), j, e);
    assert Is(Finalized(Without(s1, Ending(j)), j), j, Cancelled);
  }

  /** No turn of the job is being started. */
  ghost predicate Stopping(cfg: Config, s: State, j: JobId) {
    s.mem.serving && Is(s, j, Cancelling) && Remote(cfg, s.db.jobs[j]) && Turning(j) !in s.mem.pending
  }

  /** The record has lost its execution: the next cancel request finds nothing to wait for. */
  lemma LostEnds(cfg: Config, s: State, s1: State, j: JobId, e: ExecId)
    requires Silently(cfg, s, s1, j, e) && Stopping(cfg, s1, j)
    requires j in s1.db.recovery && s1.db.recovery[j].exec == None
    ensures EndsSilently(cfg, s, j, e)
  {
    SilentStep(cfg, s, s1, ExecuteStep(DoDropHandle(j)), j, e);
    var s2 := DropHandle(s1, j);
    SilentStep(cfg, s, s2, CancellationStep(DoLook(j)), j, e);
    var s3 := With(s2, Looking(j));
    SilentStep(cfg, s, s3, CancellationStep(DoDecideEnd(j)), j, e);
    EndingEnds(cfg, s, With(Without(s3, Looking(j)), Ending(j)), j, e);
  }

  /** A cancel request that finds no handle parks the job. */
  lemma ParksSilently(cfg: Config, s: State, s1: State, j: JobId, e: ExecId)
    requires Silently(cfg, s, s1, j, e) && Stopping(cfg, s1, j)
    requires j in s1.db.recovery && s1.db.recovery[j].exec.Some?
    ensures Silently(cfg, s, Parked(DropHandle(s1, j), j), j, e)
  {
    SilentStep(cfg, s, s1, ExecuteStep(DoDropHandle(j)), j, e);
    LooksSilently(cfg, s, DropHandle(s1, j), j, e);
  }

  lemma LooksSilently(cfg: Config, s: State, s1: State, j: JobId, e: ExecId)
    requires Silently(cfg, s, s1, j, e) && Stopping(cfg, s1, j) && j !in s1.mem.handles
    requires j in s1.db.recovery && s1.db.recovery[j].exec.Some?
    ensures Silently(cfg, s, Parked(s1, j), j, e)
  {
    var r := ParkRecord(s1.db.recovery[j]);
    SilentStep(cfg, s, s1, CancellationStep(DoLook(j)), j, e);
    WithWithout(s1, Looking(j));
    SilentStep(cfg, s, With(s1, Looking(j)), NoteStep(DoPark(j)), j, e);
    SilentStep(cfg, s, With(s1, Writing(j, r)), NoteStep(DoWrite(j, r)), j, e);
    WithWithout(Put(s1, j, r), Writing(j, r));
  }

  /** What a runner without known rows reports of f: neither conversation nor tree. */
  function Naked(host: HostId, runner: RunnerId, f: ExecId): Snapshot {
    Snapshot(host, runner, map[f := Report(None, None, None)], map[], false, 0)
  }

  lemma NakedView(cfg: Config, d: Db, host: HostId, runner: RunnerId, f: ExecId, j: JobId, e: ExecId)
    requires forall x | x in d.ledger :: d.ledger[x].runner < runner
    ensures var v := Begun(d, Naked(host, runner, f), []);
            v.owned == map[] && f in v.reported && Agrees(cfg, v, j, e) && (j in d.jobs ==> Matched(cfg, v, j) == None)
  {
    var v := Begun(d, Naked(host, runner, f), []);
    assert Consulted(d.ledger, v.snap) == map[];
    if j in d.jobs {
      var m := Match(v.rows[j], j, cfg.path(v.rows[j].project, v.snap.host), v.owned, v.reported);
      if m.Some? {
        assert false;
      }
    }
  }

  lemma NewRunner(ledger: Ledger) returns (runner: RunnerId)
    ensures forall x | x in ledger :: ledger[x].runner < runner
  {
    var used := set x | x in ledger :: ledger[x].runner;
    runner := FreshId(used);
    forall x | x in ledger ensures ledger[x].runner < runner {
      assert ledger[x].runner in used;
    }
  }

  /** The record names another execution: the next pass that finds it reported binds the job to it. */
  lemma MisnamedEnds(cfg: Config, s: State, s1: State, j: JobId, e: ExecId, f: ExecId)
    requires Silently(cfg, s, s1, j, e) && Stopping(cfg, s1, j) && f != e
    requires j in s1.db.recovery && s1.db.recovery[j].exec == Some(f)
    ensures EndsSilently(cfg, s, j, e)
  {
    ParksSilently(cfg, s, s1, j, e);
    PassTakes(cfg, s, Parked(DropHandle(s1, j), j), j, e, f);
  }

  lemma PassTakes(cfg: Config, s: State, s1: State, j: JobId, e: ExecId, f: ExecId)
    requires Silently(cfg, s, s1, j, e) && Stopping(cfg, s1, j) && f != e
    requires j in s1.db.recovery && s1.db.recovery[j].exec == Some(f) && s1.db.recovery[j].mode.CancelMode?
    ensures EndsSilently(cfg, s, j, e)
  {
    var runner := NewRunner(s1.db.ledger);
    var host := s1.db.jobs[j].host.value;
    var v := Begun(s1.db, Naked(host, runner, f), []);
    NakedView(cfg, s1.db, host, runner, f, j, e);
    SilentStep(cfg, s, s1, ReconnectionStep(DoBeginPass(v.snap, [])), j, e);
    var s2 := With(s1, Passing(v));
    assert Passing(v) in s2.mem.pending && Pick(cfg, v, j, s2.db.recovery[j]) == Some(f);
    SilentStep(cfg, s, s2, ReconnectionStep(DoBind(j, f, v)), j, e);
    ClaimEnds(cfg, s, With(s2, Claim(j, f)), j, e, f);
  }

  /** Whatever the record names instead of e. */
  lemma RenamedEnds(cfg: Config, s: State, s1: State, j: JobId, e: ExecId)
    requires Silently(cfg, s, s1, j, e) && Stopping(cfg, s1, j)
    requires j in s1.db.recovery && s1.db.recovery[j].exec != Some(e)
    ensures EndsSilently(cfg, s, j, e)
  {
    if s1.db.recovery[j].exec == None {
      LostEnds(cfg, s, s1, j, e);
    } else {
      MisnamedEnds(cfg, s, s1, j, e, s1.db.recovery[j].exec.value);
    }
  }

  /** How a prepared record of the job gets written. */
  ghost function Written(s: State, t: Pending): Action
    requires t.Writing? || t.Entering? || t.Queuing?
  {
    match t
    case Writing(j, r) => NoteStep(DoWrite(j, r))
    case Entering(j, r) => WaitStep(DoRecordHostWait(j, r))
    case Queuing(j, r) => WaitStep(PlaceStep(s, j, r))
  }

  lemma WrittenRecord(cfg: Config, s: State, t: Pending)
    requires s.mem.serving && t in s.mem.pending && (t.Writing? || t.Entering? || t.Queuing?)
    ensures Enabled(cfg, s, Written(s, t))
    ensures var s' := Next(cfg, s, Written(s, t));
            && s'.db.jobs == s.db.jobs && s'.mem == Without(s, t).mem && t.job in s'.db.recovery
            && s'.db.recovery[t.job].mode == t.record.mode && s'.db.recovery[t.job].exec == t.record.exec
  {
    if t.Queuing? {
      PlaceIsWritten(cfg, s, t.job, t.record);
    }
  }

  lemma WritesSilently(cfg: Config, s: State, s1: State, t: Pending, j: JobId, e: ExecId)
    requires Silently(cfg, s, s1, j, e) && s1.mem.serving && t in s1.mem.pending && (t.Writing? || t.Entering? || t.Queuing?)
    ensures Enabled(cfg, s1, Written(s1, t)) && Silently(cfg, s, Next(cfg, s1, Written(s1, t)), j, e)
  {
    WrittenRecord(cfg, s1, t);
    SilentStep(cfg, s, s1, Written(s1, t), j, e);
  }

  /** A record without e is about to be written. */
  lemma RecordEnds(cfg: Config, s: State, s1: State, t: Pending, j: JobId, e: ExecId)
    requires Silently(cfg, s, s1, j, e) && Stopping(cfg, s1, j)
    requires t in s1.mem.pending && (t.Writing? || t.Entering? || t.Queuing?) && t.job == j && t.record.exec != Some(e)
    ensures EndsSilently(cfg, s, j, e)
  {
    WritesSilently(cfg, s, s1, t, j, e);
    WrittenRecord(cfg, s1, t);
    RenamedEnds(cfg, s, Next(cfg, s1, Written(s1, t)), j, e);
  }

  /** So is a retry about to do. */
  lemma RetryEnds(cfg: Config, s: State, j: JobId, e: ExecId)
    requires Inv(cfg, s) && Pends(cfg, s, j, e) && Stopping(cfg, s, j) && j in s.mem.flow && !HarmlessFlow(s.mem.flow[j], e)
    ensures EndsSilently(cfg, s, j, e)
  {
    PendingHolds(cfg, s, j, e);
    SilentSelf(cfg, s, j, e);
    assert FlowSound(cfg, s.db.jobs, s.db.leases, s.db.locks, s.db.recovery, s.db.log, s.mem.pending, s.mem.flow[j], j);
    if s.mem.flow[j].Dequeue? {
      SilentStep(cfg, s, s, PlacementStep(DoLeaveQueue(j)), j, e);
      LostEnds(cfg, s, LeaveQueue(s, j), j, e);
    } else {
      var r := s.mem.flow[j].read;
      SilentStep(cfg, s, s, PlacementStep(DoGrantSession(j)), j, e);
      RecordEnds(cfg, s, GrantSession(s, j), Writing(j, HostRetryRecord(r)), j, e);
    }
  }

  lemma HarmfulEnds(cfg: Config, s: State, t: Pending, j: JobId, e: ExecId)
    requires Pends(cfg, s, j, e) && Stopping(cfg, s, j) && t in s.mem.pending && !Harmless(t, j, e)
    ensures EndsSilently(cfg, s, j, e)
  {
    SilentSelf(cfg, s, j, e);
    match t
    case Claim(_, f) => ClaimEnds(cfg, s, s, j, e, f);
    case Hold(_, f) => HoldEnds(cfg, s, s, j, e, f);
    case Ending(_) => EndingEnds(cfg, s, s, j, e);
    case _ => RecordEnds(cfg, s, s, t, j, e);
  }

  /** A pass binds the job to another execution. */
  lemma BindEnds(cfg: Config, s: State, s1: State, v: View, j: JobId, e: ExecId, f: ExecId)
    requires Silently(cfg, s, s1, j, e) && Stopping(cfg, s1, j) && BindOk(cfg, s1, j, f, v) && f != e
    requires s1.db.recovery[j].exec == Some(e)
    ensures EndsSilently(cfg, s, j, e)
  {
    var t, w := Bound(j, f, v.snap.host), Writing(j, s1.db.recovery[j].(exec := Some(f)));
    SilentStep(cfg, s, s1, ReconnectionStep(DoBind(j, f, v)), j, e);
    if v.rows[j].state.WaitingHost? {
      RecordEnds(cfg, s, With(With(s1, t), w), w, j, e);
    } else {
      ClaimEnds(cfg, s, With(With(s1, Claim(j, f)), w), j, e, f);
    }
  }

  /** The job is parked first, ... */
  lemma ParkedPassEnds(cfg: Config, s: State, v: View, j: JobId, e: ExecId)
    requires Pends(cfg, s, j, e) && Stopping(cfg, s, j) && Passing(v) in s.mem.pending && Misleads(cfg, v, j, e, false)
    ensures EndsSilently(cfg, s, j, e)
  {
    SilentSelf(cfg, s, j, e);
    ParksSilently(cfg, s, s, j, e);
    BindEnds(cfg, s, Parked(DropHandle(s, j), j), v, j, e, Matched(cfg, v, j).value);
  }

  /** ... or its record asks for adoption. */
  lemma AdoptingPassEnds(cfg: Config, s: State, s1: State, v: View, j: JobId, e: ExecId)
    requires Silently(cfg, s, s1, j, e) && Pends(cfg, s1, j, e) && Stopping(cfg, s1, j) && s1.db.recovery[j].mode.AdoptMode?
    requires Passing(v) in s1.mem.pending && Misleads(cfg, v, j, e, true) && v.rows[j].state.WaitingHost?
    ensures EndsSilently(cfg, s, j, e)
  {
    BindEnds(cfg, s, s1, v, j, e, Matched(cfg, v, j).value);
  }

  lemma MisledEnds(cfg: Config, s: State, v: View, j: JobId, e: ExecId)
    requires Pends(cfg, s, j, e) && Stopping(cfg, s, j) && Calm(s.mem, j, e)
    requires Passing(v) in s.mem.pending && Misleads(cfg, v, j, e, MayAdopt(s, j))
    ensures EndsSilently(cfg, s, j, e)
  {
    SilentSelf(cfg, s, j, e);
    if Misleads(cfg, v, j, e, false) {
      ParkedPassEnds(cfg, s, v, j, e);
    } else if s.db.recovery[j].mode.AdoptMode? {
      AdoptingPassEnds(cfg, s, s, v, j, e);
    } else {
      var t: Pending :| t in s.mem.pending && Adopts(t, j);
      assert Harmless(t, j, e);
      WritesSilently(cfg, s, s, t, j, e);
      WrittenRecord(cfg, s, t);
      AdoptingPassEnds(cfg, s, Next(cfg, s, Written(s, t)), v, j, e);
    }
  }

  lemma UnquietEnds(cfg: Config, s: State, j: JobId, e: ExecId)
    requires Inv(cfg, s) && s.mem.serving && Pends(cfg, s, j, e) && !Quiet(cfg, s, j, e)
    ensures EndsSilently(cfg, s, j, e)
  {
    if Turning(j) in s.mem.pending {
      TurnEnds(cfg, s, j, e);
    } else if j in s.mem.handles && s.mem.handles[j] != e {
      HandleEnds(cfg, s, j, e);
    } else if j in s.mem.flow && !HarmlessFlow(s.mem.flow[j], e) {
      RetryEnds(cfg, s, j, e);
    } else if t: Pending :| t in s.mem.pending && !Harmless(t, j, e) {
      HarmfulEnds(cfg, s, t, j, e);
    } else {
      var v: View :| Passing(v) in s.mem.pending && Misleads(cfg, v, j, e, MayAdopt(s, j));
      MisledEnds(cfg, s, v, j, e);
    }
  }

  lemma QuietStays(cfg: Config, s: State, s': State, j: JobId, e: ExecId)
    requires Unconfirmed(cfg, s, j, e) && Silently(cfg, s, s', j, e)
    ensures Pends(cfg, s', j, e)
  {
    var acts :| Legal(cfg, s, acts) && SilentRun(cfg, s, acts, j, e) && Run(cfg, s, acts) == s';
    CancelWaits(cfg, s, acts, j, e);
  }

  /** Until its runner reports a definite result of e, or a pass reads something that leads it to another execution, the
      job can become CANCELLED if and only if the cancellation is not quiet. */
  lemma CancelEndsEarlyExactly(cfg: Config, s: State, j: JobId, e: ExecId)
    requires Inv(cfg, s) && s.mem.serving && Pends(cfg, s, j, e) && e !in s.mem.confirmed
    ensures EndsSilently(cfg, s, j, e) <==> !Quiet(cfg, s, j, e)
  {
    if !Quiet(cfg, s, j, e) {
      UnquietEnds(cfg, s, j, e);
    } else if EndsSilently(cfg, s, j, e) {
      var s' :| Silently(cfg, s, s', j, e) && Is(s', j, Cancelled);
      QuietStays(cfg, s, s', j, e);
      assert false;
    }
  }

  /** And it stays CANCELLING with e on record, whatever happens, if and only if the cancellation is quiet. */
  lemma CancelPendsExactly(cfg: Config, s: State, j: JobId, e: ExecId)
    requires Inv(cfg, s) && s.mem.serving && Pends(cfg, s, j, e) && e !in s.mem.confirmed
    ensures (forall s': State | Silently(cfg, s, s', j, e) :: Pends(cfg, s', j, e)) <==> Quiet(cfg, s, j, e)
  {
    if Quiet(cfg, s, j, e) {
      forall s': State | Silently(cfg, s, s', j, e) ensures Pends(cfg, s', j, e) {
        QuietStays(cfg, s, s', j, e);
      }
    } else {
      UnquietEnds(cfg, s, j, e);
      var s' :| Silently(cfg, s, s', j, e) && Is(s', j, Cancelled);
      assert !Pends(cfg, s', j, e);
    }
  }

  /** One more pass is quiet exactly if it agrees. */
  lemma ViewStaysQuiet(cfg: Config, s: State, v: View, j: JobId, e: ExecId)
    requires Quiet(cfg, s, j, e) && j in v.rows && v.rows[j].state.Cancelling?
    ensures Quiet(cfg, With(s, Passing(v)), j, e) <==> Agrees(cfg, v, j, e)
  {
    var s1 := With(s, Passing(v));
    CalmRecall(s.mem, Passing(v), j, e);
    assert Passing(v) in s1.mem.pending;
    if Agrees(cfg, v, j, e) {
      NewView(cfg, s, s1, v, j, e);
    } else {
      assert Misleads(cfg, v, j, e, MayAdopt(s1, j));
    }
  }

  /** A runner reconnects while a quiet cancellation pends. Its pass, and no later one, can end the cancellation without
      a result of e if and only if the latest execution that it owns or matches is another one. */
  lemma PassEndsEarlyExactly(cfg: Config, s: State, snap: Snapshot, order: seq<ExecId>, j: JobId, e: ExecId)
    requires Inv(cfg, s) && s.mem.serving && Unconfirmed(cfg, s, j, e) && s.db.jobs[j].host == Some(snap.host)
    ensures var v := Begun(s.db, snap, order);
            EndsSilently(cfg, With(s, Passing(v)), j, e) <==> Matched(cfg, v, j).Some? && Matched(cfg, v, j) != Some(e)
  {
    var v := Begun(s.db, snap, order);
    RecallKeeps(cfg, s, Passing(v));
    CancelEndsEarlyExactly(cfg, With(s, Passing(v)), j, e);
    ViewStaysQuiet(cfg, s, v, j, e);
  }
}
