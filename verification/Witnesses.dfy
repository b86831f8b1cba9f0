/** Runs of a fresh installation in which a cancellation ends too early, a wait for adoption gets lost, a job is bound to
    an execution of another one, an adoption breaks the one-writer rule, and two jobs get the same place in the queue. */
module Witnesses {
  import opened Wrappers
  import opened States
  import opened Tables
  import opened Matching
  import opened Transactions
  import opened Invariants
  import opened Safety
  import opened Runs
  import opened Scheduler
  import opened CancelSafety
  import opened AdoptionWait
  import opened Reconnect
  import opened QueueMoves

  // ---- a remote job that runs ----

  function TheJob(host: HostId, state: JobState): Job {
    Job(state, 0, 0, Some(host), Some(host), Some(7), 0)
  }

  function TheRow(cfg: Config, host: HostId): Execution {
    Execution(0, host, 0, cfg.path(0, host), Some(7), ActiveRow, 0)
  }

  function Until(state: JobState): seq<Event> {
    [Created(0), Moved(0, Queued, Assigned)] + (if state.Assigned? then [] else [Moved(0, Assigned, Starting)])
    + (if state.Running? then [Moved(0, Starting, Running)] else [])
  }

  /** Job 0 holds its tree and its session. */
  function WithJob(cfg: Config, host: HostId, state: JobState, recovery: Recoveries, ledger: Ledger, m: Memory): State {
    State(Db(map[0 := TheJob(host, state)], map[Tree(host, cfg.path(0, host)) := 0], map[Owner(0, 0) := 0],
             recovery, ledger, Until(state)), m)
  }

  /** ... is ASSIGNED, ... */
  function PlacedJob(cfg: Config, host: HostId): State {
    WithJob(cfg, host, Assigned, map[], map[], Memory(true, map[0 := Launch(None)], {}, map[], {}, multiset{}))
  }

  /** ... and RUNNING: its task waits for execution 1. */
  function RunningJob(cfg: Config, host: HostId): State {
    WithJob(cfg, host, Running, map[0 := Recovery(RestartKind, AdoptMode, 0, None, Some(1), None)], map[1 := TheRow(cfg, host)],
            Memory(true, map[], {}, map[0 := 1], {}, multiset{Engaged(0), Hold(0, 1)}))
  }

  ghost predicate Reachable(cfg: Config, s: State) {
    Reaches(cfg, Fresh(), s)
  }

  lemma ByStep(cfg: Config, s: State, a: Action)
    requires Reachable(cfg, s) && Enabled(cfg, s, a) && Orderly(s, a)
    ensures Reachable(cfg, Next(cfg, s, a))
  {
    FreshIsSafe(cfg);
    Step(cfg, Fresh(), s, a);
  }

  lemma ByPlacement(cfg: Config, s: State, a: Placement)
    requires Reachable(cfg, s) && PlacementOk(cfg, s, a)
    ensures Reachable(cfg, PlacementNext(cfg, s, a))
  {
    ByStep(cfg, s, PlacementStep(a));
  }

  lemma ByNote(cfg: Config, s: State, a: Note)
    requires Reachable(cfg, s) && NoteOk(cfg, s, a)
    ensures Reachable(cfg, NoteNext(cfg, s, a))
  {
    ByStep(cfg, s, NoteStep(a));
  }

  lemma ByWait(cfg: Config, s: State, a: Wait)
    requires Reachable(cfg, s) && WaitOk(cfg, s, a)
    ensures Reachable(cfg, WaitNext(cfg, s, a))
  {
    ByStep(cfg, s, WaitStep(a));
  }

  lemma ByTurn(cfg: Config, s: State, a: Turn)
    requires Reachable(cfg, s) && TurnOk(s, a)
    ensures Reachable(cfg, TurnNext(s, a))
  {
    ByStep(cfg, s, TurnStep(a));
  }

  lemma ByExecute(cfg: Config, s: State, a: Execute)
    requires Reachable(cfg, s) && ExecuteOk(s, a)
    ensures Reachable(cfg, ExecuteNext(s, a))
  {
    ByStep(cfg, s, ExecuteStep(a));
  }

  lemma ByCancellation(cfg: Config, s: State, a: Cancellation)
    requires Reachable(cfg, s) && CancellationOk(cfg, s, a)
    ensures Reachable(cfg, CancellationNext(cfg, s, a))
  {
    ByStep(cfg, s, CancellationStep(a));
  }

  lemma ReachableKeeps(cfg: Config, s: State)
    requires Reachable(cfg, s)
    ensures Inv(cfg, s)
  {
    FreshIsSafe(cfg);
    ReachesKeeps(cfg, Fresh(), s);
  }

  function Arriving(host: HostId): State {
    var s := TakeSession(Serve(Fresh()), 0, Owner(0, 0));
    AddJob(s, 0, Job(Queued, 0, 0, Some(host), None, Some(7), 0))
  }

  lemma ArrivingIsReached(cfg: Config, host: HostId)
    ensures Reachable(cfg, Arriving(host))
  {
    ReachesSelf(cfg, Fresh());
    ByStep(cfg, Fresh(), RestartStep(DoServe));
    ByPlacement(cfg, Serve(Fresh()), DoTakeSession(0, Owner(0, 0)));
    ByPlacement(cfg, TakeSession(Serve(Fresh()), 0, Owner(0, 0)), DoAddJob(0, Job(Queued, 0, 0, Some(host), None, Some(7), 0)));
  }

  lemma PlacedIsReached(cfg: Config, host: HostId)
    ensures Reachable(cfg, PlacedJob(cfg, host))
  {
    ArrivingIsReached(cfg, host);
    ByPlacement(cfg, Arriving(host), DoAssign(0, host, None));
    assert Assign(cfg, Arriving(host), 0, host, None) == PlacedJob(cfg, host);
  }

  /** The first turn is being started: it has a handle. */
  function HandedJob(cfg: Config, host: HostId): State {
    WithJob(cfg, host, Starting, map[], map[1 := TheRow(cfg, host)],
            Memory(true, map[], {}, map[0 := 1], {}, multiset{Turning(0), Hold(0, 1)}))
  }

  lemma HandedIsReached(cfg: Config, host: HostId)
    ensures Reachable(cfg, HandedJob(cfg, host))
  {
    PlacedIsReached(cfg, host);
    ByTurn(cfg, PlacedJob(cfg, host), DoMove(0, Starting));
    var s1 := WithJob(cfg, host, Starting, map[], map[], Memory(true, map[], {}, map[], {}, multiset{}));
    assert Move(PlacedJob(cfg, host), 0, Starting) == s1;
    ByExecute(cfg, s1, DoBeginTurn(0));
    TurnGetsHandle(cfg, host, With(s1, Turning(0)));
  }

  lemma TurnGetsHandle(cfg: Config, host: HostId, s: State)
    requires Reachable(cfg, s)
    requires s == WithJob(cfg, host, Starting, map[], map[], Memory(true, map[], {}, map[], {}, multiset{Turning(0)}))
    ensures Reachable(cfg, HandedJob(cfg, host))
  {
    var row := TheRow(cfg, host);
    ByExecute(cfg, s, DoReserve(1, row));
    var s1 := Reserve(s, 1, row);
    ByExecute(cfg, s1, DoTakeHandle(0, 1));
    assert s.mem.pending + multiset{Claim(0, 1)} - multiset{Claim(0, 1)} == s.mem.pending;
    assert TakeHandle(s1, 0, 1) == HandedJob(cfg, host);
  }

  lemma RunningIsReached(cfg: Config, host: HostId)
    requires host != cfg.local
    ensures Reachable(cfg, RunningJob(cfg, host))
  {
    var s, r := HandedJob(cfg, host), Recovery(RestartKind, AdoptMode, 0, None, Some(1), None);
    HandedIsReached(cfg, host);
    ByNote(cfg, s, DoNoteExec(0, 1));
    ByNote(cfg, With(s, Writing(0, r)), DoWrite(0, r));
    WithWithout(Put(s, 0, r), Writing(0, r));
    var s1 := WithJob(cfg, host, Starting, map[0 := r], map[1 := TheRow(cfg, host)], s.mem);
    assert Put(s, 0, r) == s1;
    TurnRuns(cfg, host, s1);
  }

  lemma TurnRuns(cfg: Config, host: HostId, s: State)
    requires Reachable(cfg, s)
    requires s == WithJob(cfg, host, Starting, RunningJob(cfg, host).db.recovery, RunningJob(cfg, host).db.ledger,
                          HandedJob(cfg, host).mem)
    ensures Reachable(cfg, RunningJob(cfg, host))
  {
    ByNote(cfg, s, DoDiscard(Turning(0)));
    var s1 := Without(s, Turning(0));
    ByTurn(cfg, s1, DoEngage(0));
    var s2 := With(s1, Engaged(0));
    ByTurn(cfg, s2, DoMove(0, Running));
    assert Move(s2, 0, Running) == RunningJob(cfg, host);
  }

  /** A record is prepared and written. */
  lemma ByUpsert(cfg: Config, s: State, a: Note, j: JobId, r: Recovery)
    requires Reachable(cfg, s) && s.mem.serving && NoteOk(cfg, s, a) && NoteNext(cfg, s, a) == With(s, Writing(j, r))
    ensures Reachable(cfg, Put(s, j, r))
  {
    ByNote(cfg, s, a);
    ByNote(cfg, With(s, Writing(j, r)), DoWrite(j, r));
    WithWithout(Put(s, j, r), Writing(j, r));
  }

  // ---- cancelled without a result of the execution on record ----

  /** A turn is being started while the job is cancelled: the cancel request has the handle of execution 1. */
  function CancelledInTurn(cfg: Config, host: HostId): State {
    var s := CancelRequest(With(RunningJob(cfg, host), Turning(0)), 0);
    CancelNote(With(s, Hold(0, 1)), 0, 1)
  }

  lemma CancelledInTurnIsReached(cfg: Config, host: HostId)
    requires host != cfg.local
    ensures Reachable(cfg, CancelledInTurn(cfg, host))
  {
    RunningIsReached(cfg, host);
    var s := RunningJob(cfg, host);
    ByExecute(cfg, s, DoBeginTurn(0));
    ByCancellation(cfg, With(s, Turning(0)), DoCancelRequest(0));
    var s1 := CancelRequest(With(s, Turning(0)), 0);
    ByExecute(cfg, s1, DoReadHandle(0));
    var s2 := With(s1, Hold(0, 1));
    ByUpsert(cfg, s2, DoNoteCancel(0, 1), 0, CancelRecord(s2.db, 0, 1));
  }

  /** ... and the new turn gets execution 2. */
  function SecondTurn(cfg: Config, host: HostId): State {
    var s := Reserve(CancelledInTurn(cfg, host), 2, TheRow(cfg, host));
    RecordExec(TakeHandle(s, 0, 2), 0, 2)
  }

  lemma SecondTurnIsReached(cfg: Config, host: HostId)
    requires host != cfg.local
    ensures Reachable(cfg, SecondTurn(cfg, host))
  {
    CancelledInTurnIsReached(cfg, host);
    var s := CancelledInTurn(cfg, host);
    ByExecute(cfg, s, DoReserve(2, TheRow(cfg, host)));
    var s1 := Reserve(s, 2, TheRow(cfg, host));
    ByExecute(cfg, s1, DoTakeHandle(0, 2));
    var s2 := TakeHandle(s1, 0, 2);
    assert Hold(0, 2) in s2.mem.pending;
    ByUpsert(cfg, s2, DoNoteExec(0, 2), 0, ExecRecord(s2.db, 0, 2));
  }

  /** The result of execution 1 ends the job, although execution 2 is on record and may run. */
  lemma StaleHandle(cfg: Config, host: HostId)
    requires host != cfg.local
    ensures var s := SecondTurn(cfg, host);
            Reachable(cfg, s) && Pends(cfg, s, 0, 2) && 2 !in s.mem.confirmed && EndsSilently(cfg, s, 0, 2)
  {
    var s := SecondTurn(cfg, host);
    SecondTurnIsReached(cfg, host);
    SecondTurnPends(cfg, host);
    SilentSelf(cfg, s, 0, 2);
    HoldEnds(cfg, s, s, 0, 2, 1);
  }

  lemma SecondTurnPends(cfg: Config, host: HostId)
    requires host != cfg.local
    ensures var s := SecondTurn(cfg, host);
            && Pends(cfg, s, 0, 2) && 2 !in s.mem.confirmed && s.mem.serving && Hold(0, 1) in s.mem.pending
  {
  }

  /** QA, or a turn, has lost its host: the record still names execution 1. */
  function HostLost(cfg: Config, host: HostId, mode: Mode): State {
    DropHandle(HostWait(RunningJob(cfg, host), 0, mode, None, 0), 0)
  }

  lemma HostLostIsReached(cfg: Config, host: HostId, mode: Mode)
    requires host != cfg.local && (mode.QaMode? || mode.ResumeMode?)
    ensures Reachable(cfg, HostLost(cfg, host, mode))
  {
    RunningIsReached(cfg, host);
    var s := RunningJob(cfg, host);
    var r, s1 := HostWaitRecord(s, 0, mode, 0), EnterHostWait(s, 0, mode, None, 0);
    ByWait(cfg, s, DoEnterHostWait(0, mode, None, 0));
    assert Entering(0, r) in s1.mem.pending;
    ByWait(cfg, s1, DoRecordHostWait(0, r));
    ByExecute(cfg, HostWait(s, 0, mode, None, 0), DoDropHandle(0));
  }

  /** Job 0 has its tree and its session. */
  ghost predicate SameHoldings(cfg: Config, host: HostId, s: State) {
    s.db.leases == map[Tree(host, cfg.path(0, host)) := 0] && s.db.locks == map[Owner(0, 0) := 0]
  }

  function LostRecord(mode: Mode): Recovery {
    Recovery(HostKind, mode, 0, Some(0), Some(1), None)
  }

  /** It waits for its host, and nothing is known of its executions but execution 1. */
  ghost predicate WaitsOnRecord(cfg: Config, host: HostId, mode: Mode, s: State) {
    && s.mem.serving && s.mem.flow == map[] && s.mem.handles == map[] && s.mem.confirmed == {}
    && Turning(0) !in s.mem.pending && SameHoldings(cfg, host, s) && s.db.ledger == map[1 := TheRow(cfg, host)]
    && s.db.jobs == map[0 := TheJob(host, WaitingHost)] && s.db.recovery == map[0 := LostRecord(mode)]
  }

  lemma HostLostFacts(cfg: Config, host: HostId, mode: Mode)
    ensures WaitsOnRecord(cfg, host, mode, HostLost(cfg, host, mode))
  {
  }

  /** The retry has read that record, has moved the job to RUNNING, and will write it: for QA without execution. */
  function Resumed(cfg: Config, host: HostId, mode: Mode): State
    requires mode.QaMode? || mode.ResumeMode?
  {
    Launched(GrantSession(Assign(cfg, HostLost(cfg, host, mode), 0, host, Some(LostRecord(mode))), 0), 0)
  }

  lemma RetryAssigns(cfg: Config, host: HostId, mode: Mode, s: State)
    requires WaitsOnRecord(cfg, host, mode, s) && (mode.QaMode? || mode.ResumeMode?)
    ensures AssignOk(cfg, s, 0, host, Some(LostRecord(mode)))
    ensures var s1 := Assign(cfg, s, 0, host, Some(LostRecord(mode)));
            && GrantSessionOk(s1, 0) && s1.mem.flow == map[0 := AwaitSession(LostRecord(mode), false)]
            && s1.db.jobs == map[0 := TheJob(host, Assigned)] && SameHoldings(cfg, host, s1)
            && s1.db.ledger == s.db.ledger && s1.db.recovery == s.db.recovery && s1.mem.handles == map[]
            && s1.mem.confirmed == {} && s1.mem.pending == s.mem.pending && s1.mem.serving
  {
  }

  lemma RetryGrants(cfg: Config, host: HostId, mode: Mode, s: State)
    requires s.db.jobs == map[0 := TheJob(host, Assigned)] && SameHoldings(cfg, host, s)
    requires s.mem.flow == map[0 := AwaitSession(LostRecord(mode), false)] && (mode.QaMode? || mode.ResumeMode?)
    ensures var p := GrantSession(s, 0);
            && p.db == s.db && p.mem == s.mem.(flow := map[0 := Launch(Some(LostRecord(mode)))])
  {
  }

  /** A retry reads the record and assigns the job, and nothing comes in between. */
  lemma ByRetry(cfg: Config, s: State, j: JobId, host: HostId)
    requires Reachable(cfg, s) && j in s.db.recovery && AssignOk(cfg, s, j, host, Some(s.db.recovery[j]))
    ensures Reachable(cfg, Assign(cfg, s, j, host, Some(s.db.recovery[j])))
  {
    ReachableKeeps(cfg, s);
    AssignRuns(cfg, s, j, host);
    FreshIsSafe(cfg);
    ReachesOn(cfg, Fresh(), s, Assign(cfg, s, j, host, Some(s.db.recovery[j])));
  }

  lemma ResumedIsReached(cfg: Config, host: HostId, mode: Mode)
    requires host != cfg.local && (mode.QaMode? || mode.ResumeMode?)
    ensures Reachable(cfg, Resumed(cfg, host, mode))
  {
    var s := HostLost(cfg, host, mode);
    HostLostIsReached(cfg, host, mode);
    HostLostFacts(cfg, host, mode);
    RetryAssigns(cfg, host, mode, s);
    ByRetry(cfg, s, 0, host);
    var s1 := Assign(cfg, s, 0, host, Some(LostRecord(mode)));
    ByPlacement(cfg, s1, DoGrantSession(0));
    RetryGrants(cfg, host, mode, s1);
    FreshIsSafe(cfg);
    LaunchedRuns(cfg, Fresh(), GrantSession(s1, 0), 0);
  }

  /** cancel() finds no handle and parks the job, whose record names execution 1. */
  lemma ParkedIsReached(cfg: Config, s: State)
    requires Reachable(cfg, s) && s.mem.serving && Is(s, 0, Cancelling) && Remote(cfg, s.db.jobs[0])
    requires 0 !in s.mem.handles && 0 in s.db.recovery && s.db.recovery[0].exec.Some? && Turning(0) !in s.mem.pending
    ensures Reachable(cfg, Parked(s, 0))
  {
    var r := ParkRecord(s.db.recovery[0]);
    ByCancellation(cfg, s, DoLook(0));
    WithWithout(s, Looking(0));
    ByNote(cfg, With(s, Looking(0)), DoPark(0));
    ByNote(cfg, With(s, Writing(0, r)), DoWrite(0, r));
    WithWithout(Put(s, 0, r), Writing(0, r));
  }

  /** The job is cancelled and parked. Whoever then writes a record without execution lets the next cancel request end it. */
  lemma ForgottenEnds(cfg: Config, s: State, r: Recovery)
    requires Reachable(cfg, s) && CancelRequestOk(s, 0) && Remote(cfg, s.db.jobs[0]) && 1 !in s.mem.confirmed
    requires 0 !in s.mem.handles && 0 in s.db.recovery && s.db.recovery[0].exec == Some(1) && Turning(0) !in s.mem.pending
    requires Writing(0, r) in s.mem.pending && r.exec == None
    ensures var s' := Parked(CancelRequest(s, 0), 0);
            Reachable(cfg, s') && Pends(cfg, s', 0, 1) && 1 !in s'.mem.confirmed && EndsSilently(cfg, s', 0, 1)
  {
    var s' := Parked(CancelRequest(s, 0), 0);
    ByCancellation(cfg, s, DoCancelRequest(0));
    ParkedIsReached(cfg, CancelRequest(s, 0));
    SilentSelf(cfg, s', 0, 1);
    RecordEnds(cfg, s', s', Writing(0, r), 0, 1);
  }

  lemma LaunchedTables(p: State, j: JobId, r: Recovery)
    requires Is(p, j, Assigned) && j in p.mem.flow && p.mem.flow[j] == Launch(Some(r)) && !r.mode.FinalizeMode?
    ensures var s := Launched(p, j);
            && s.db.jobs == p.db.jobs[j := p.db.jobs[j].(state := Running)] && s.db.recovery == p.db.recovery
            && s.db.leases == p.db.leases && s.db.locks == p.db.locks && s.db.ledger == p.db.ledger
            && s.mem.serving == p.mem.serving && s.mem.handles == p.mem.handles && s.mem.confirmed == p.mem.confirmed
            && s.mem.pending == p.mem.pending + multiset{Writing(j, HostRetryRecord(r))}
  {
  }

  /** It is RUNNING again, and its record is about to be written. */
  ghost predicate RunsAgain(cfg: Config, host: HostId, mode: Mode, s: State) {
    && s.mem.serving && s.db.jobs == map[0 := TheJob(host, Running)] && s.mem.confirmed == {}
    && s.mem.handles == map[] && s.db.recovery == map[0 := LostRecord(mode)] && Turning(0) !in s.mem.pending
    && Writing(0, HostRetryRecord(LostRecord(mode))) in s.mem.pending
    && SameHoldings(cfg, host, s) && s.db.ledger == map[1 := TheRow(cfg, host)]
  }

  lemma LaunchRunsAgain(cfg: Config, host: HostId, mode: Mode, s1: State)
    requires s1.db.jobs == map[0 := TheJob(host, Assigned)] && SameHoldings(cfg, host, s1) && s1.mem.serving
    requires s1.mem.flow == map[0 := AwaitSession(LostRecord(mode), false)] && (mode.QaMode? || mode.ResumeMode?)
    requires s1.db.ledger == map[1 := TheRow(cfg, host)] && s1.db.recovery == map[0 := LostRecord(mode)]
    requires s1.mem.handles == map[] && s1.mem.confirmed == {} && Turning(0) !in s1.mem.pending
    ensures RunsAgain(cfg, host, mode, Launched(GrantSession(s1, 0), 0))
  {
    RetryGrants(cfg, host, mode, s1);
    LaunchedTables(GrantSession(s1, 0), 0, LostRecord(mode));
  }

  lemma ResumedFacts(cfg: Config, host: HostId, mode: Mode)
    requires mode.QaMode? || mode.ResumeMode?
    ensures RunsAgain(cfg, host, mode, Resumed(cfg, host, mode))
  {
    HostLostFacts(cfg, host, mode);
    RetryAssigns(cfg, host, mode, HostLost(cfg, host, mode));
    LaunchRunsAgain(cfg, host, mode, Assign(cfg, HostLost(cfg, host, mode), 0, host, Some(LostRecord(mode))));
  }

  /** A QA retry was about to rewrite its record when the job was cancelled. */
  lemma RetryForgets(cfg: Config, host: HostId)
    requires host != cfg.local
    ensures var s := Parked(CancelRequest(Resumed(cfg, host, QaMode), 0), 0);
            Reachable(cfg, s) && Pends(cfg, s, 0, 1) && 1 !in s.mem.confirmed && EndsSilently(cfg, s, 0, 1)
  {
    ResumedIsReached(cfg, host, QaMode);
    ResumedFacts(cfg, host, QaMode);
    ForgottenEnds(cfg, Resumed(cfg, host, QaMode), HostRetryRecord(LostRecord(QaMode)));
  }

  // ---- cancelled by the result of another execution that the ledger knows ----

  /** The retry has resumed the job and reserves execution 2; the controller dies before the turn has its handle. */
  function Interrupted(cfg: Config, host: HostId): State {
    var s := Write(Resumed(cfg, host, ResumeMode), 0, HostRetryRecord(LostRecord(ResumeMode)));
    Crash(Reserve(With(s, Turning(0)), 2, TheRow(cfg, host).(started := 1)))
  }

  lemma InterruptedIsReached(cfg: Config, host: HostId)
    requires host != cfg.local
    ensures Reachable(cfg, Interrupted(cfg, host))
  {
    var r, row := HostRetryRecord(LostRecord(ResumeMode)), TheRow(cfg, host).(started := 1);
    ResumedIsReached(cfg, host, ResumeMode);
    ResumedFacts(cfg, host, ResumeMode);
    ByNote(cfg, Resumed(cfg, host, ResumeMode), DoWrite(0, r));
    var s := Write(Resumed(cfg, host, ResumeMode), 0, r);
    ByExecute(cfg, s, DoBeginTurn(0));
    assert Turning(0) in With(s, Turning(0)).mem.pending;
    ByExecute(cfg, With(s, Turning(0)), DoReserve(2, row));
    ByStep(cfg, Reserve(With(s, Turning(0)), 2, row), RestartStep(DoCrash));
  }

  lemma DiesInTurn(cfg: Config, host: HostId, s: State)
    requires RunsAgain(cfg, host, ResumeMode, s)
    ensures var s1 := Write(s, 0, HostRetryRecord(LostRecord(ResumeMode)));
            var s2 := Crash(Reserve(With(s1, Turning(0)), 2, TheRow(cfg, host).(started := 1)));
            Bare(cfg, host, Running, Recovery(HostKind, ResumeMode, 0, None, Some(1), None), s2) && !s2.mem.serving
  {
  }

  lemma InterruptedFacts(cfg: Config, host: HostId)
    ensures var s := Interrupted(cfg, host);
            Bare(cfg, host, Running, Recovery(HostKind, ResumeMode, 0, None, Some(1), None), s) && !s.mem.serving
  {
    ResumedFacts(cfg, host, ResumeMode);
    DiesInTurn(cfg, host, Resumed(cfg, host, ResumeMode));
  }

  /** Startup keeps execution 1 on record. The user cancels, no handle is there, and the cancellation pends. */
  function Restarted(cfg: Config, host: HostId): State {
    Serve(RestartWait(Interrupted(cfg, host), 0, RestartRecord()))
  }

  /** Only job 0 is there, and nothing is in memory. */
  ghost predicate Bare(cfg: Config, host: HostId, state: JobState, r: Recovery, s: State) {
    && s.mem == Fresh().mem.(serving := s.mem.serving)
    && s.db.jobs == map[0 := TheJob(host, state)] && s.db.recovery == map[0 := r]
    && s.db.ledger == map[1 := TheRow(cfg, host), 2 := TheRow(cfg, host).(started := 1)]
  }

  function RestartRecord(): Recovery {
    Recovery(RestartKind, AdoptMode, 0, None, Some(1), None)
  }

  lemma RestartWaits(cfg: Config, host: HostId, s: State)
    requires host != cfg.local && !s.mem.serving
    requires Bare(cfg, host, Running, Recovery(HostKind, ResumeMode, 0, None, Some(1), None), s)
    ensures RestartWaitOk(cfg, s, 0, RestartRecord())
    ensures Bare(cfg, host, WaitingHost, RestartRecord(), RestartWait(s, 0, RestartRecord()))
  {
  }

  lemma BareServes(cfg: Config, host: HostId, s: State)
    requires Bare(cfg, host, WaitingHost, RestartRecord(), s) && !s.mem.serving
    ensures ServeOk(cfg, s) && Bare(cfg, host, WaitingHost, RestartRecord(), Serve(s))
  {
  }

  lemma RestartedIsReached(cfg: Config, host: HostId)
    requires host != cfg.local
    ensures Reachable(cfg, Restarted(cfg, host)) && Bare(cfg, host, WaitingHost, RestartRecord(), Restarted(cfg, host))
  {
    var s := Interrupted(cfg, host);
    InterruptedIsReached(cfg, host);
    InterruptedFacts(cfg, host);
    RestartWaits(cfg, host, s);
    ByStep(cfg, s, RestartStep(DoRestartWait(0, RestartRecord())));
    var s1 := RestartWait(s, 0, RestartRecord());
    BareServes(cfg, host, s1);
    ByStep(cfg, s1, RestartStep(DoServe));
  }

  lemma CancelParks(cfg: Config, host: HostId, s: State)
    requires host != cfg.local && Bare(cfg, host, WaitingHost, RestartRecord(), s) && s.mem.serving
    ensures CancelRequestOk(s, 0)
    ensures var s' := Parked(CancelRequest(s, 0), 0);
            Bare(cfg, host, Cancelling, ParkRecord(RestartRecord()), s') && s'.mem.serving && Unconfirmed(cfg, s', 0, 1)
  {
  }

  /** The runner comes back with both executions. */
  function BothReported(cfg: Config, host: HostId): Snapshot {
    Snapshot(host, 0, map[1 := Report(Some(7), Some(cfg.path(0, host)), Some(0)),
                          2 := Report(Some(7), Some(cfg.path(0, host)), Some(1))], map[], true, 0)
  }

  lemma SecondIsLatest(cfg: Config, host: HostId, d: Db)
    requires d.jobs == map[0 := TheJob(host, Cancelling)]
    requires d.ledger == map[1 := TheRow(cfg, host), 2 := TheRow(cfg, host).(started := 1)]
    ensures var v := Begun(d, BothReported(cfg, host), [1, 2]); Matched(cfg, v, 0) == Some(2) && 1 in v.reported
  {
    var v := Begun(d, BothReported(cfg, host), [1, 2]);
    assert v.reported == v.snap.running;
    assert OwnedHit(v.owned, v.reported, 0, 2);
    assert [1, 2][|[1, 2]| - 1] == 2;
  }

  /** The cancellation of execution 1 is quiet. Then the runner reports executions 1 and 2, of which the ledger knows 2 as
      the later one of the job: the result of 2 ends the job although 1 is on record, reported and unconfirmed. */
  lemma OtherExecution(cfg: Config, host: HostId)
    requires host != cfg.local
    ensures var s := Parked(CancelRequest(Restarted(cfg, host), 0), 0); var v := Begun(s.db, BothReported(cfg, host), [1, 2]);
            && Reachable(cfg, s) && Unconfirmed(cfg, s, 0, 1) && 1 in v.reported && Matched(cfg, v, 0) == Some(2)
            && EndsSilently(cfg, With(s, Passing(v)), 0, 1)
  {
    var s0 := Restarted(cfg, host);
    RestartedIsReached(cfg, host);
    CancelParks(cfg, host, s0);
    ByCancellation(cfg, s0, DoCancelRequest(0));
    ParkedIsReached(cfg, CancelRequest(s0, 0));
    OtherEnds(cfg, host, Parked(CancelRequest(s0, 0), 0));
  }

  lemma OtherEnds(cfg: Config, host: HostId, s: State)
    requires Reachable(cfg, s) && Bare(cfg, host, Cancelling, ParkRecord(RestartRecord()), s) && s.mem.serving
    requires Unconfirmed(cfg, s, 0, 1)
    ensures var v := Begun(s.db, BothReported(cfg, host), [1, 2]);
            1 in v.reported && Matched(cfg, v, 0) == Some(2) && EndsSilently(cfg, With(s, Passing(v)), 0, 1)
  {
    ReachableKeeps(cfg, s);
    SecondIsLatest(cfg, host, s.db);
    PassEndsEarlyExactly(cfg, s, BothReported(cfg, host), [1, 2], 0, 1);
  }

  // ---- the wait for adoption ----

  /** shutdown() lets the job wait for adoption; its task still works. */
  function AdoptWaits(cfg: Config, host: HostId): State {
    DropHandle(HostWait(RunningJob(cfg, host), 0, AdoptMode, None, 0), 0)
  }

  lemma AdoptWaitsIsReached(cfg: Config, host: HostId)
    requires host != cfg.local
    ensures Reachable(cfg, AdoptWaits(cfg, host))
  {
    RunningIsReached(cfg, host);
    var s := RunningJob(cfg, host);
    var r, s1 := HostWaitRecord(s, 0, AdoptMode, 0), EnterHostWait(s, 0, AdoptMode, None, 0);
    ByWait(cfg, s, DoEnterHostWait(0, AdoptMode, None, 0));
    assert Entering(0, r) in s1.mem.pending;
    ByWait(cfg, s1, DoRecordHostWait(0, r));
    ByExecute(cfg, HostWait(s, 0, AdoptMode, None, 0), DoDropHandle(0));
  }

  lemma AdoptWaitsFacts(cfg: Config, host: HostId)
    requires host != cfg.local
    ensures var s := AdoptWaits(cfg, host);
            && AwaitsAdoption(cfg, s, 0) && s.db.recovery[0] == Recovery(HostKind, AdoptMode, 0, Some(0), Some(1), None)
            && s.mem.serving && s.mem.flow == map[] && 0 !in s.mem.handles && s.mem.confirmed == {}
            && s.mem.pending == multiset{Engaged(0), Hold(0, 1)}
  {
    var s, r := RunningJob(cfg, host), HostWaitRecord(RunningJob(cfg, host), 0, AdoptMode, 0);
    assert s.mem.pending + multiset{Entering(0, r)} - multiset{Entering(0, r)} == s.mem.pending;
  }

  /** Its QA run loses the connection: the record asks for QA, and the next start resumes the job although nobody has
      asked its runner. Or the QA run fails, and the job has FAILED. */
  lemma QaOutlivesWait(cfg: Config, host: HostId)
    requires host != cfg.local
    ensures var s := AdoptWaits(cfg, host); var s1 := HostWait(s, 0, QaMode, None, 0);
            && Reachable(cfg, s) && AwaitsAdoption(cfg, s, 0)
            && Undisturbed(cfg, s, s1, 0) && Is(Crash(s1), 0, WaitingHost) && !AwaitsAdoption(cfg, Crash(s1), 0)
            && Undisturbed(cfg, s, Move(s, 0, Failed), 0) && Is(Move(s, 0, Failed), 0, Failed)
  {
    var s := AdoptWaits(cfg, host);
    AdoptWaitsIsReached(cfg, host);
    AdoptWaitsFacts(cfg, host);
    ReachableKeeps(cfg, s);
    EngagedWaitsAgain(cfg, s, 0, QaMode, 0);
    EngagedFails(cfg, s, 0);
  }

  /** A complete snapshot without the job's execution: the pass will give the adoption up. */
  function Nothing(host: HostId): Snapshot {
    Snapshot(host, 0, map[], map[], true, 0)
  }

  function GivingUp(cfg: Config, host: HostId): State {
    var s := AdoptWaits(cfg, host);
    var v := Begun(s.db, Nothing(host), []);
    With(With(s, Passing(v)), Writing(0, GiveUpRecord(Recovery(HostKind, AdoptMode, 0, Some(0), Some(1), None), ResumeMode, 0)))
  }

  lemma GivingUpIsReached(cfg: Config, host: HostId)
    requires host != cfg.local
    ensures Reachable(cfg, GivingUp(cfg, host))
  {
    var s := AdoptWaits(cfg, host);
    var v := Begun(s.db, Nothing(host), []);
    AdoptWaitsIsReached(cfg, host);
    AdoptWaitsFacts(cfg, host);
    ByStep(cfg, s, ReconnectionStep(DoBeginPass(Nothing(host), [])));
    assert Passing(v) in With(s, Passing(v)).mem.pending;
    ByStep(cfg, With(s, Passing(v)), ReconnectionStep(DoGiveUp(0, v, ResumeMode, 0)));
  }

  /** The job is cancelled between that decision and its record. */
  lemma GiveUpForgets(cfg: Config, host: HostId)
    requires host != cfg.local
    ensures var s := Parked(CancelRequest(GivingUp(cfg, host), 0), 0);
            Reachable(cfg, s) && Pends(cfg, s, 0, 1) && 1 !in s.mem.confirmed && EndsSilently(cfg, s, 0, 1)
  {
    GivingUpIsReached(cfg, host);
    AdoptWaitsFacts(cfg, host);
    ForgottenEnds(cfg, GivingUp(cfg, host), GiveUpRecord(Recovery(HostKind, AdoptMode, 0, Some(0), Some(1), None), ResumeMode, 0));
  }

  // ---- bound to an execution of another job ----

  /** The runner reports execution e of conversation 7 in the tree of project 0. */
  function Reporting(cfg: Config, host: HostId, e: ExecId): Snapshot {
    Snapshot(host, 0, map[e := Report(Some(7), Some(cfg.path(0, host)), Some(1))], map[], true, 0)
  }

  /** Without a consulted row, e matches every waiting job of the conversation and the tree. */
  lemma MatchesReported(cfg: Config, host: HostId, d: Db, e: ExecId, j: JobId)
    requires j in d.jobs && d.jobs[j].project == 0 && d.jobs[j].thread == Some(7) && d.jobs[j].created == 0
    requires e !in Consulted(d.ledger, Reporting(cfg, host, e))
    ensures var v := Begun(d, Reporting(cfg, host, e), []);
            v.reported.Keys == {e} && e !in v.owned && Matched(cfg, v, j) == Some(e)
  {
    var v := Begun(d, Reporting(cfg, host, e), []);
    assert v.reported == v.snap.running;
    MatchIs(d.jobs[j], j, cfg.path(0, host), v.owned, v.reported, e);
  }

  /** The job waits in conversation 7 for its host, with a record that does not name e. */
  ghost predicate WaitsFor(s: State, host: HostId, e: ExecId, j: JobId) {
    && s.mem.serving && Is(s, j, WaitingHost) && s.db.jobs[j] == TheJob(host, WaitingHost).(user := s.db.jobs[j].user)
    && j in s.db.recovery && s.db.recovery[j].mode.ResumeMode? && s.db.recovery[j].exec != Some(e)
  }

  lemma BindsReported(cfg: Config, s: State, host: HostId, e: ExecId, j: JobId)
    requires WaitsFor(s, host, e, j) && e !in Consulted(s.db.ledger, Reporting(cfg, host, e))
    ensures Binding(cfg, s, Begun(s.db, Reporting(cfg, host, e), []), j) == Some(e)
  {
    MatchesReported(cfg, host, s.db, e, j);
  }

  lemma HiddenRaises(cfg: Config, s: State, host: HostId, e: ExecId, j: JobId)
    requires WaitsFor(s, host, e, j) && e in s.db.ledger && !Visible(s.db.ledger[e], Reporting(cfg, host, e))
    requires s.db.ledger[e].job != j
    ensures var v := Begun(s.db, Reporting(cfg, host, e), []);
            Hidden(s.db, v.snap, e) && PassOver(cfg, s, v, [j]).Raised?
  {
    var v := Begun(s.db, Reporting(cfg, host, e), []);
    MatchesReported(cfg, host, s.db, e, j);
    BindsReported(cfg, s, host, e, j);
    assert Collides(cfg, s, v, [j], 0);
    BindsOnlyOwners(cfg, s, v.snap, [], [j]);
  }

  lemma SharedRaises(cfg: Config, s: State, host: HostId, e: ExecId, j: JobId, k: JobId)
    requires WaitsFor(s, host, e, j) && WaitsFor(s, host, e, k) && j != k && e !in s.db.ledger
    ensures PassOver(cfg, s, Begun(s.db, Reporting(cfg, host, e), []), [j, k]).Raised?
  {
    var v, js := Begun(s.db, Reporting(cfg, host, e), []), [j, k];
    BindsReported(cfg, s, host, e, j);
    BindsReported(cfg, s, host, e, k);
    assert js[0] == j && js[1] == k;
    assert Collides(cfg, s, v, js, 1);
    BindsOnlyOwners(cfg, s, v.snap, [], js);
  }

  lemma FirstIsDone(cfg: Config, s: State, host: HostId, e: ExecId, j: JobId)
    requires WaitsFor(s, host, e, j) && e !in s.db.ledger
    ensures var v := Begun(s.db, Reporting(cfg, host, e), []); Reconciled(cfg, s, v, j) == Done(Adopted(cfg, s, v, j, e))
  {
    BindsReported(cfg, s, host, e, j);
  }

  lemma PassOfOne(cfg: Config, s: State, v: View, j: JobId)
    ensures PassOver(cfg, s, v, [j]) == Reconciled(cfg, s, v, j)
  {
    assert [j][..0] == [];
    assert PassOver(cfg, s, v, []) == Done(s);
  }

  /** Job 0 is through; its result is acknowledged. */
  function EndedJob(cfg: Config, host: HostId): State {
    var s := ReleaseLease(ReleaseSession(Move(RunningJob(cfg, host), 0, Completed), 0), 0);
    PutLedger(s, 1, TheRow(cfg, host).(state := Acknowledged))
  }

  lemma EndedIsReached(cfg: Config, host: HostId)
    requires host != cfg.local
    ensures Reachable(cfg, EndedJob(cfg, host))
  {
    RunningIsReached(cfg, host);
    var s := RunningJob(cfg, host);
    ByTurn(cfg, s, DoMove(0, Completed));
    ByTurn(cfg, Move(s, 0, Completed), DoReleaseSession(0));
    var s1 := ReleaseSession(Move(s, 0, Completed), 0);
    ByTurn(cfg, s1, DoReleaseLease(0));
    ByExecute(cfg, ReleaseLease(s1, 0), DoMarkLedger(1, TheRow(cfg, host).(state := Acknowledged)));
  }

  /** Job 1 goes on with the conversation and loses its host. */
  function NextJob(cfg: Config, host: HostId): State {
    var s := TakeSession(EndedJob(cfg, host), 1, Owner(0, 0));
    Assign(cfg, AddJob(s, 1, TheJob(host, Queued).(host := None)), 1, host, None)
  }

  lemma NextIsReached(cfg: Config, host: HostId)
    requires host != cfg.local
    ensures Reachable(cfg, NextJob(cfg, host))
  {
    EndedIsReached(cfg, host);
    var s := EndedJob(cfg, host);
    ByPlacement(cfg, s, DoTakeSession(1, Owner(0, 0)));
    var s1 := TakeSession(s, 1, Owner(0, 0));
    ByPlacement(cfg, s1, DoAddJob(1, TheJob(host, Queued).(host := None)));
    ByPlacement(cfg, AddJob(s1, 1, TheJob(host, Queued).(host := None)), DoAssign(1, host, None));
  }

  function NextWaits(cfg: Config, host: HostId): State {
    HostWait(Move(NextJob(cfg, host), 1, Starting), 1, ResumeMode, None, 0)
  }

  lemma NextWaitsIsReached(cfg: Config, host: HostId)
    requires host != cfg.local
    ensures Reachable(cfg, NextWaits(cfg, host))
  {
    NextIsReached(cfg, host);
    NextStarts(cfg, host);
    ByTurn(cfg, NextJob(cfg, host), DoMove(1, Starting));
    WaitsForHost(cfg, Move(NextJob(cfg, host), 1, Starting), 1, None);
  }

  lemma NextStarts(cfg: Config, host: HostId)
    ensures MoveOk(NextJob(cfg, host), 1, Starting)
    ensures EnterHostWaitOk(cfg, Move(NextJob(cfg, host), 1, Starting), 1, ResumeMode, None)
  {
  }

  lemma WaitsForHost(cfg: Config, s: State, j: JobId, host: Option<HostId>)
    requires Reachable(cfg, s) && EnterHostWaitOk(cfg, s, j, ResumeMode, host)
    ensures Reachable(cfg, HostWait(s, j, ResumeMode, host, 0))
  {
    var r, s1 := HostWaitRecord(s, j, ResumeMode, 0), EnterHostWait(s, j, ResumeMode, host, 0);
    ByWait(cfg, s, DoEnterHostWait(j, ResumeMode, host, 0));
    assert Entering(j, r) in s1.mem.pending;
    ByWait(cfg, s1, DoRecordHostWait(j, r));
  }

  lemma NextWaitsFacts(cfg: Config, host: HostId)
    ensures var s := NextWaits(cfg, host);
            && WaitsFor(s, host, 1, 1) && s.db.ledger == map[1 := TheRow(cfg, host).(state := Acknowledged)]
  {
    NextFacts(cfg, host);
  }

  lemma NextFacts(cfg: Config, host: HostId)
    ensures var s := NextJob(cfg, host);
            && s.mem.serving && 1 in s.db.jobs && s.db.jobs[1] == TheJob(host, Assigned)
            && 1 !in s.db.recovery && 1 !in s.mem.handles
            && s.db.ledger == map[1 := TheRow(cfg, host).(state := Acknowledged)]
  {
  }

  /** A result that was acknowledged is reported once more. Its row is not consulted, and job 1, which was started and
      waits for its host, is bound to the execution of job 0. */
  lemma HiddenRow(cfg: Config, host: HostId)
    requires host != cfg.local
    ensures var s := NextWaits(cfg, host); var v := Begun(s.db, Reporting(cfg, host, 1), []);
            Reachable(cfg, s) && Hidden(s.db, v.snap, 1) && PassOver(cfg, s, v, [1]).Raised?
  {
    NextWaitsIsReached(cfg, host);
    NextWaitsFacts(cfg, host);
    HiddenRaises(cfg, NextWaits(cfg, host), host, 1, 1);
  }

  /** Job 0 waits for its host; job 1 of another user, which was never placed, waits with the same conversation. */
  function TwoWait(cfg: Config, host: HostId): State {
    var s := DropHandle(HostWait(RunningJob(cfg, host), 0, ResumeMode, None, 0), 0);
    HostWait(Joining(s, host), 1, ResumeMode, Some(host), 0)
  }

  function Joining(s: State, host: HostId): State {
    AddJob(TakeSession(s, 1, Owner(0, 1)), 1, TheJob(host, Queued).(host := None, user := 1))
  }

  lemma TwoWaitIsReached(cfg: Config, host: HostId)
    requires host != cfg.local
    ensures Reachable(cfg, TwoWait(cfg, host))
  {
    RunningIsReached(cfg, host);
    WaitsForHost(cfg, RunningJob(cfg, host), 0, None);
    var s := HostWait(RunningJob(cfg, host), 0, ResumeMode, None, 0);
    ByExecute(cfg, s, DoDropHandle(0));
    var s1 := DropHandle(s, 0);
    ByPlacement(cfg, s1, DoTakeSession(1, Owner(0, 1)));
    ByPlacement(cfg, TakeSession(s1, 1, Owner(0, 1)), DoAddJob(1, TheJob(host, Queued).(host := None, user := 1)));
    WaitsForHost(cfg, Joining(s1, host), 1, Some(host));
  }

  lemma TwoWaitFacts(cfg: Config, host: HostId)
    ensures var s := TwoWait(cfg, host);
            && WaitsFor(s, host, 2, 0) && WaitsFor(s, host, 2, 1)
            && s.db.ledger == map[1 := TheRow(cfg, host)]
            && s.db.leases == map[Tree(host, cfg.path(0, host)) := 0]
  {
  }

  /** The runner reports an execution without a row. No row is hidden, and the first job is bound to it; so is the second
      one, since the owners were read before. */
  lemma SharedExecution(cfg: Config, host: HostId)
    requires host != cfg.local
    ensures var s := TwoWait(cfg, host); var v := Begun(s.db, Reporting(cfg, host, 2), []);
            && Reachable(cfg, s) && (forall e :: !Hidden(s.db, v.snap, e))
            && PassOver(cfg, s, v, [0]).Done? && PassOver(cfg, s, v, [0, 1]).Raised?
  {
    TwoWaitIsReached(cfg, host);
    TwoWaitFacts(cfg, host);
    MatchesReported(cfg, host, TwoWait(cfg, host).db, 2, 0);
    FirstIsDone(cfg, TwoWait(cfg, host), host, 2, 0);
    PassOfOne(cfg, TwoWait(cfg, host), Begun(TwoWait(cfg, host).db, Reporting(cfg, host, 2), []), 0);
    SharedRaises(cfg, TwoWait(cfg, host), host, 2, 0, 1);
  }

  /** Job 1 alone: its adoption makes it run in the tree of job 0. */
  lemma AdoptionWithoutLease(cfg: Config, host: HostId)
    requires host != cfg.local
    ensures var s := TwoWait(cfg, host); var v := Begun(s.db, Reporting(cfg, host, 2), []);
            && Reachable(cfg, s) && Reconciled(cfg, s, v, 1) == Done(Adopted(cfg, s, v, 1, 2))
            && OneWriterPerTree(cfg, s) && !OneWriterPerTree(cfg, Adopted(cfg, s, v, 1, 2))
  {
    var s := TwoWait(cfg, host);
    var v := Begun(s.db, Reporting(cfg, host, 2), []);
    TwoWaitIsReached(cfg, host);
    TwoWaitFacts(cfg, host);
    FirstIsDone(cfg, s, host, 2, 1);
    ReachableKeeps(cfg, s);
    InvMeansOneWriter(cfg, s);
    AdoptionLeases(cfg, s, v, 1, 2);
  }

  // ---- two jobs at one place of the queue ----

  function QueueJob(host: HostId, state: JobState): Job {
    Job(state, 0, 0, Some(host), Some(host), None, 0)
  }

  function Place(p: nat): Recovery {
    LeaseWaitRecord(StartMode, 0).(position := Some(p))
  }

  /** Jobs 1 and 2 of one user and one project, as far as they are there. */
  ghost predicate TwoJobs(s: State, host: HostId, state: JobState, first: Recovery) {
    && s.db.jobs == map[1 := QueueJob(host, state), 2 := QueueJob(host, WaitingLease)]
    && s.db.recovery == map[1 := first, 2 := Place(2)] && s.db.ledger == map[]
  }

  ghost predicate Resting(m: Memory) {
    m == Fresh().mem.(serving := true)
  }

  /** A new job that finds its session busy joins the queue. */
  lemma JoinsQueue(cfg: Config, host: HostId, s: State, j: JobId, p: nat) returns (s': State)
    requires Reachable(cfg, s) && Resting(s.mem) && j !in s.db.jobs && j !in s.db.recovery && NextPosition(s.db.recovery, p)
    requires s.db.locks == map[Owner(0, 0) := 3] && j != 3
    ensures Reachable(cfg, s') && Resting(s'.mem) && s'.db.locks == s.db.locks && s'.db.leases == s.db.leases
    ensures s'.db.jobs == s.db.jobs[j := QueueJob(host, WaitingLease)] && s'.db.recovery == s.db.recovery[j := Place(p)]
    ensures s'.db.ledger == s.db.ledger
  {
    var job := QueueJob(host, Queued).(host := None);
    ByPlacement(cfg, s, DoAddJob(j, job));
    var s1 := AddJob(s, j, job);
    EntersQueue(cfg, host, s1, j, p);
    s' := LeaseWait(s1, j, StartMode, host, p, 0);
  }

  lemma EntersQueue(cfg: Config, host: HostId, s: State, j: JobId, p: nat)
    requires Reachable(cfg, s) && EnterLeaseWaitOk(cfg, s, j, StartMode, host)
    requires j !in s.db.recovery && NextPosition(s.db.recovery, p)
    ensures Reachable(cfg, LeaseWait(s, j, StartMode, host, p, 0))
  {
    var r, s1 := LeaseWaitRecord(StartMode, 0), EnterLeaseWait(s, j, StartMode, host, 0);
    ByWait(cfg, s, DoEnterLeaseWait(j, StartMode, host, 0));
    assert Queuing(j, r) in s1.mem.pending;
    ByWait(cfg, s1, DoTakePlace(j, r, p));
    LeaseWaitIs(s, j, StartMode, host, p, 0);
  }

  lemma TwoJoin(cfg: Config, host: HostId) returns (s: State)
    ensures Reachable(cfg, s) && Resting(s.mem) && TwoJobs(s, host, WaitingLease, Place(1))
    ensures s.db.locks == map[Owner(0, 0) := 3] && s.db.leases == map[]
  {
    ReachesSelf(cfg, Fresh());
    ByStep(cfg, Fresh(), RestartStep(DoServe));
    ByPlacement(cfg, Serve(Fresh()), DoTakeSession(3, Owner(0, 0)));
    s := TakeSession(Serve(Fresh()), 3, Owner(0, 0));
    s := JoinsQueue(cfg, host, s, 1, 1);
    assert s.db.recovery[1].position.value + 1 == 2;
    s := JoinsQueue(cfg, host, s, 2, 2);
  }

  /** The controller dies when a retry has just assigned job 1, which waits for its host afterwards and keeps its place. */
  lemma FirstIsInterrupted(cfg: Config, host: HostId) returns (s: State)
    ensures Reachable(cfg, s) && s.mem == Fresh().mem && TwoJobs(s, host, Assigned, Place(1))
    ensures s.db.locks == map[Owner(0, 0) := 3] && s.db.leases == map[Tree(host, cfg.path(0, host)) := 1]
  {
    var s0 := TwoJoin(cfg, host);
    ByRetry(cfg, s0, 1, host);
    var s1 := Assign(cfg, s0, 1, host, Some(Place(1)));
    ByStep(cfg, s1, RestartStep(DoCrash));
    s := Crash(s1);
  }

  function KeptRecord(): Recovery {
    Recovery(RestartKind, StartMode, 0, Some(0), None, Some(1))
  }

  lemma FirstWaitsAgain(cfg: Config, host: HostId) returns (s: State)
    ensures Reachable(cfg, s) && Resting(s.mem) && TwoJobs(s, host, WaitingHost, KeptRecord())
    ensures s.db.locks == map[] && s.db.leases == map[Tree(host, cfg.path(0, host)) := 1]
  {
    var s0 := FirstIsSwept(cfg, host);
    ByStep(cfg, s0, RestartStep(DoRestartWait(1, KeptRecord())));
    var s1 := RestartWait(s0, 1, KeptRecord());
    TwoServe(cfg, host, s1);
    ByStep(cfg, s1, RestartStep(DoServe));
    s := Serve(s1);
  }

  lemma FirstIsSwept(cfg: Config, host: HostId) returns (s: State)
    ensures Reachable(cfg, s) && s.mem == Fresh().mem && TwoJobs(s, host, Assigned, Place(1))
    ensures s.db.locks == map[] && s.db.leases == map[Tree(host, cfg.path(0, host)) := 1]
  {
    var s0 := FirstIsInterrupted(cfg, host);
    ByStep(cfg, s0, RestartStep(DoSweepLock(Owner(0, 0))));
    s := SweepLock(s0, Owner(0, 0));
  }

  lemma TwoServe(cfg: Config, host: HostId, s: State)
    requires s.mem == Fresh().mem && TwoJobs(s, host, WaitingHost, KeptRecord())
    requires s.db.leases == map[Tree(host, cfg.path(0, host)) := 1]
    ensures ServeOk(cfg, s)
  {
  }

  /** Its host is up, but another job has got the session: ... */
  lemma FirstRetries(cfg: Config, host: HostId) returns (s: State)
    ensures Reachable(cfg, s) && TwoJobs(s, host, Assigned, KeptRecord()) && s.mem.serving && s.mem.pending == multiset{}
    ensures s.mem.flow == map[1 := AwaitSession(KeptRecord(), false)] && s.db.locks == map[Owner(0, 0) := 4]
  {
    var s0 := FirstWaitsAgain(cfg, host);
    ByPlacement(cfg, s0, DoTakeSession(4, Owner(0, 0)));
    var s1 := TakeSession(s0, 4, Owner(0, 0));
    ByRetry(cfg, s1, 1, host);
    s := Assign(cfg, s1, 1, host, Some(KeptRecord()));
  }

  /** ... the lease is returned, and job 1 is to be queued again. */
  lemma FirstGivesBack(cfg: Config, host: HostId) returns (s: State)
    ensures Reachable(cfg, s) && TwoJobs(s, host, Assigned, KeptRecord()) && s.mem.serving && s.mem.pending == multiset{}
    ensures s.mem.flow == map[1 := Flow.Returned(KeptRecord(), false)]
  {
    var s0 := FirstRetries(cfg, host);
    ByPlacement(cfg, s0, DoReturnLease(1));
    s := ReturnLease(s0, 1);
  }

  /** The place of job 1 is read, then the user moves the queue, and the place is written back: both jobs have place 1. */
  lemma SharedPlace(cfg: Config, host: HostId) returns (s: State)
    ensures Reachable(cfg, s) && PositionsDistinct(s.db.recovery) && WritePlaceOk(s, 1, Place(1))
    ensures Is(s, 1, WaitingLease) && Is(s, 2, WaitingLease)
    ensures var d := WritePlace(s, 1, Place(1)).db;
            d.recovery[1].position == Some(1) && 2 in d.recovery && d.recovery[2].position == Some(1)
  {
    var s0 := FirstGivesBack(cfg, host);
    ByWait(cfg, s0, DoEnterLeaseWait(1, StartMode, host, 0));
    var s1 := EnterLeaseWait(s0, 1, StartMode, host, 0);
    assert Queuing(1, LeaseWaitRecord(StartMode, 0)) in s1.mem.pending;
    ByWait(cfg, s1, DoKeepPlace(1, LeaseWaitRecord(StartMode, 0)));
    var s2 := KeepPlace(s1, 1, LeaseWaitRecord(StartMode, 0));
    assert Queuing(1, Place(1)) in s2.mem.pending;
    ByWait(cfg, s2, DoSwap(1, 2));
    s := Swap(s2, 1, 2);
  }
}
