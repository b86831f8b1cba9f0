/** The controller and one runner, with ordered channels between them: disconnects, crashes and
    restarts of either side anywhere (runner_daemon.py, runner_ws.py and the acknowledgements of
    job_manager.py). The runner's disk survives its crashes; processes survive them too. */
module RunnerProtocol {
  import opened Wrappers
  import J = RunnerJournal

  type ExecId = J.ExecId

  /** definite: the result is neither "host" nor "cancel_unconfirmed". */
  datatype Result = Result(code: int, definite: bool)

  datatype Entry = Starting | Running | Completed(result: Result)

  type Entries = map<ExecId, Entry>

  datatype Mode = Down | Recovering | Up

  /** How far _start_job has come with an execution. */
  datatype Start = Idle | Reserved(e: ExecId) | Spawned(e: ExecId) | AttachFailed(e: ExecId)

  /** entries, completed and running are memory; disk is the journal file. */
  datatype Runner = Runner(mode: Mode, entries: Entries, disk: Entries, completed: map<ExecId, Result>,
                           running: set<ExecId>, start: Start, fatal: bool)

  datatype ToRunner = JobStart(e: ExecId) | JobCancel(e: ExecId) | ResultAck(e: ExecId)

  datatype ToController =
    | JobAccepted(e: ExecId)
    | JobResult(e: ExecId, result: Result)
    | JobError(e: ExecId, definite: bool)
    | Snapshot(running: set<ExecId>, completed: set<ExecId>)

  /** How a future of the gateway was resolved. */
  datatype Outcome = Done(result: Result) | Refused | Lost

  /** pending: unresolved futures; outcomes: handles with a result. */
  datatype Controller = Controller(pending: set<ExecId>, outcomes: map<ExecId, Outcome>, seen: set<ExecId>)

  datatype Net = Net(connected: bool, toRunner: seq<ToRunner>, toController: seq<ToController>)

  /** What has happened so far: ids given out, start requests received, executions accepted, refused,
      journaled as COMPLETED on disk, and acknowledged. */
  datatype Past = Past(used: set<ExecId>, received: set<ExecId>, accepted: set<ExecId>, refused: set<ExecId>,
                       journaled: set<ExecId>, acked: set<ExecId>)

  datatype State = State(runner: Runner, live: set<ExecId>, net: Net, controller: Controller, past: Past)

  datatype Step =
    // controller
    | SendStart(e: ExecId)
    | SendCancel(e: ExecId)
    | SendAck(e: ExecId)
    | SendSettledAck(e: ExecId)        // a reported result that nobody needs any more
    | Adopt(e: ExecId)
    | Receive                          // the gateway handles the next message
    | ControllerDies
    // connection
    | Connect
    | Disconnect
    // runner
    | TakeStart(valid: bool, io: bool)
    | Spawn
    | SpawnFails(io: bool)
    | SpawnUnsafe(io: bool)
    | Abort                            // the receiving task is cancelled within _start_job
    | Attach(io: bool, late: bool)     // late: the session update that follows fails
    | GiveUp(killed: bool, io: bool)   // after a failed attach
    | TakeCancel
    | TakeAck(io: bool)
    | Finish(e: ExecId, result: Result, io: bool)
    | Flush(e: ExecId)
    | Crash
    | Load
    | Recover(e: ExecId, stopped: bool, io: bool)
    | Serve
    // operating system
    | ProcessEnds(e: ExecId)

  function Begin(): State {
    State(Runner(Down, map[], map[], map[], {}, Idle, false), {}, Net(false, [], []), Controller({}, map[], {}),
          Past({}, {}, {}, {}, {}, {}))
  }

  // ---- the steps ----

  function Tell(s: State, m: ToController): State {
    if s.net.connected then s.(net := s.net.(toController := s.net.toController + [m])) else s
  }

  function Ask(s: State, m: ToRunner): State {
    s.(net := s.net.(toRunner := s.net.toRunner + [m]))
  }

  function Pop(s: State): State
    requires s.net.toRunner != []
  {
    s.(net := s.net.(toRunner := s.net.toRunner[1..]))
  }

  /** The memory entries change, and the disk with them if the write succeeds. */
  function Journal(s: State, entries: Entries, io: bool): State {
    s.(runner := s.runner.(entries := entries, disk := if io then entries else s.runner.disk),
       past := s.past.(journaled := if io then s.past.journaled + CompletedIn(entries) else s.past.journaled))
  }

  function CompletedIn(entries: Entries): set<ExecId> {
    set e | e in entries && entries[e].Completed?
  }

  function Refuse(s: State, e: ExecId): State {
    Tell(s.(past := s.past.(refused := s.past.refused + {e})), JobError(e, true))
  }

  function At(s: State, start: Start): State {
    s.(runner := s.runner.(start := start))
  }

  function Fail(s: State): State {
    s.(runner := s.runner.(start := Idle, fatal := true))
  }

  /** The message at the head of the runner's channel, if the runner may take it. */
  predicate Heads(s: State) {
    s.runner.mode.Up? && s.runner.start.Idle? && s.net.connected && s.net.toRunner != []
  }

  predicate Enabled(s: State, a: Step) {
    var r := s.runner;
    match a
    case SendStart(e) => s.net.connected && e !in s.past.used
    case SendCancel(e) => s.net.connected && e in s.controller.pending
    case SendAck(e) =>
      && s.net.connected && e in s.controller.outcomes
      && match s.controller.outcomes[e] { case Done(res) => res.definite case Refused => true case Lost => false }
    case SendSettledAck(e) => s.net.connected && e in s.controller.seen
    case Adopt(e) => true
    case Receive => s.net.toController != []
    case ControllerDies => true
    case Connect => r.mode.Up? && !s.net.connected
    case Disconnect => s.net.connected
    case TakeStart(_, _) => Heads(s) && s.net.toRunner[0].JobStart?
    case Spawn => r.mode.Up? && r.start.Reserved?
    case SpawnFails(_) => r.mode.Up? && r.start.Reserved?
    case SpawnUnsafe(_) => r.mode.Up? && r.start.Reserved?
    case Abort => r.mode.Up?
    case Attach(_, _) => r.mode.Up? && r.start.Spawned?
    case GiveUp(_, _) => r.mode.Up? && r.start.AttachFailed?
    case TakeCancel => Heads(s) && s.net.toRunner[0].JobCancel?
    case TakeAck(_) => Heads(s) && s.net.toRunner[0].ResultAck?
    case Finish(e, _, _) => r.mode.Up? && e in r.running && e in r.entries && r.entries[e].Running? && e !in s.live
    case Flush(e) => r.mode.Up? && e in r.completed
    case Crash => true
    case Load => r.mode.Down?
    case Recover(e, stopped, io) => r.mode.Recovering? && e in r.entries && e !in r.completed
    case Serve => r.mode.Recovering? && forall e | e in r.entries :: e in r.completed
    case ProcessEnds(e) => true
  }

  function Cut(s: State): State {
    s.(net := Net(false, [], []),
       controller := s.controller.(pending := {},
         outcomes := map e | e in s.controller.outcomes.Keys + s.controller.pending ::
                       if e in s.controller.pending then Lost else s.controller.outcomes[e]))
  }

  function Died(s: State): State {
    s.(runner := Runner(Down, map[], s.runner.disk, map[], {}, Idle, false))
  }

  function Received(s: State): State
    requires s.net.toController != []
  {
    var m := s.net.toController[0];
    var t := s.(net := s.net.(toController := s.net.toController[1..]));
    var c := s.controller;
    match m
    case JobAccepted(e) => t
    case JobResult(e, result) =>
      if e in c.pending then t.(controller := c.(pending := c.pending - {e}, outcomes := c.outcomes[e := Done(result)])) else t
    case JobError(e, definite) =>
      if e in c.pending
      then t.(controller := c.(pending := c.pending - {e}, outcomes := c.outcomes[e := if definite then Refused else Lost]))
      else t
    case Snapshot(_, completed) => t.(controller := c.(seen := c.seen + completed))
  }

  function Took(s: State, valid: bool, io: bool): State
    requires s.net.toRunner != [] && s.net.toRunner[0].JobStart?
  {
    var e := s.net.toRunner[0].e;
    var t := Pop(s).(past := s.past.(received := s.past.received + {e}));
    if !valid then Refuse(t, e)
    else
      var j := Journal(t, t.runner.entries[e := Starting], io);
      if io then At(j, Reserved(e)) else Refuse(j, e)
  }

  function Attached(s: State, e: ExecId, io: bool, late: bool): State {
    var j := Journal(s, s.runner.entries[e := Running], io);
    if io && !late then
      Tell(j.(runner := j.runner.(running := j.runner.running + {e}, start := Idle),
              past := j.past.(accepted := j.past.accepted + {e})), JobAccepted(e))
    else At(j, AttachFailed(e))
  }

  /** The process of a failed attach is killed, its entry removed, and the execution refused. */
  function GaveUp(s: State, e: ExecId, killed: bool, io: bool): State {
    if !killed then Fail(s)
    else
      var j := Journal(s.(live := s.live - {e}), s.runner.entries - {e}, io);
      if io then Refuse(At(j, Idle), e) else Fail(j)
  }

  function Finished(s: State, e: ExecId, result: Result, io: bool): State {
    var j := Journal(s, s.runner.entries[e := Completed(result)], io);
    if io then
      Tell(j.(runner := j.runner.(completed := j.runner.completed[e := result], running := j.runner.running - {e})),
           JobResult(e, result))
    else Fail(j)
  }

  function AckTaken(s: State, io: bool): State
    requires s.net.toRunner != [] && s.net.toRunner[0].ResultAck?
  {
    var e := s.net.toRunner[0].e;
    var t := Pop(s);
    if e !in t.runner.entries then t.(runner := t.runner.(completed := t.runner.completed - {e}))
    else
      var j := Journal(t, t.runner.entries - {e}, io);
      if io then j.(runner := j.runner.(completed := j.runner.completed - {e})) else Fail(j)
  }

  /** Recovery of one entry; refusing to start leaves the runner down. */
  function Recovered(s: State, e: ExecId, stopped: bool, io: bool): State
    requires e in s.runner.entries
  {
    match s.runner.entries[e]
    case Starting => Died(s)
    case Completed(result) => s.(runner := s.runner.(completed := s.runner.completed[e := result]))
    case Running =>
      if !stopped then Died(s)
      else
        var result := Result(130, true);
        var j := Journal(s.(live := s.live - {e}), s.runner.entries[e := Completed(result)], io);
        if io then j.(runner := j.runner.(completed := j.runner.completed[e := result])) else Died(j)
  }

  function Next(s: State, a: Step): State
    requires Enabled(s, a)
  {
    var r, c, n := s.runner, s.controller, s.net;
    match a
    case SendStart(e) =>
      Ask(s.(past := s.past.(used := s.past.used + {e}), controller := c.(pending := c.pending + {e})), JobStart(e))
    case SendCancel(e) => Ask(s, JobCancel(e))
    case SendAck(e) => Ask(s.(past := s.past.(acked := s.past.acked + {e})), ResultAck(e))
    case SendSettledAck(e) => Ask(s.(past := s.past.(acked := s.past.acked + {e})), ResultAck(e))
    case Adopt(e) => s.(controller := c.(pending := c.pending + {e}))
    case Receive => Received(s)
    case ControllerDies => Cut(s).(controller := Controller({}, map[], {}))
    case Connect => s.(net := Net(true, [], [Snapshot(r.running, r.completed.Keys)]))
    case Disconnect => Cut(s)
    case TakeStart(valid, io) => Took(s, valid, io)
    case Spawn => At(s.(live := s.live + {r.start.e}), Spawned(r.start.e))
    case SpawnFails(io) =>
      var j := Journal(s, r.entries - {r.start.e}, io);
      if io then Refuse(At(j, Idle), r.start.e) else At(j, Idle)
    case SpawnUnsafe(io) => Fail(Journal(s.(live := s.live + {r.start.e}), r.entries[r.start.e := Running], io))
    case Abort => At(s, Idle)
    case Attach(io, late) => Attached(s, r.start.e, io, late)
    case GiveUp(killed, io) => GaveUp(s, r.start.e, killed, io)
    case TakeCancel =>
      var e := n.toRunner[0].e;
      if e in r.running then Pop(s)
      else if e in r.completed then Tell(Pop(s), JobResult(e, r.completed[e]))
      else Tell(Pop(s), JobError(e, false))
    case TakeAck(io) => AckTaken(s, io)
    case Finish(e, result, io) => Finished(s, e, result, io)
    case Flush(e) => Tell(s, JobResult(e, r.completed[e]))
    case Crash => Cut(Died(s))
    case Load => s.(runner := r.(mode := Recovering, entries := r.disk))
    case Recover(e, stopped, io) => Recovered(s, e, stopped, io)
    case Serve => s.(runner := r.(mode := Up))
    case ProcessEnds(e) => s.(live := s.live - {e})
  }

  // ---- invariants ----

  /** A process that runs has an unfinished entry, on disk and (while the daemon runs) in memory. */
  ghost predicate LiveJournaled(live: set<ExecId>, r: Runner) {
    && (forall e | e in live :: e in r.disk && !r.disk[e].Completed?)
    && (!r.mode.Down? ==> forall e | e in live :: e in r.entries && !r.entries[e].Completed?)
  }

  ghost predicate StartSound(live: set<ExecId>, r: Runner, p: Past) {
    match r.start
    case Idle => true
    case Reserved(e) =>
      e in r.entries && r.entries[e] == Starting && e in r.disk && r.disk[e] == Starting && e !in live && Fresh(r, p, e)
    case Spawned(e) => e in r.entries && r.entries[e] == Starting && e in r.disk && r.disk[e] == Starting && Fresh(r, p, e)
    case AttachFailed(e) => e in r.entries && r.entries[e] == Running && e in r.disk && !r.disk[e].Completed? && Fresh(r, p, e)
  }

  /** Nothing has been reported about e, and nobody waits for its end. */
  ghost predicate Fresh(r: Runner, p: Past, e: ExecId) {
    e in p.received && e !in r.running && e !in p.accepted && e !in p.refused && e !in p.journaled
  }

  /** An ended execution: it will never have a process again. */
  predicate Ended(p: Past, e: ExecId) {
    e in p.journaled || e in p.refused
  }

  ghost predicate RunningSound(r: Runner, p: Past) {
    forall e | e in r.running ::
      && e in p.accepted && (e in r.entries && r.entries[e].Running? ==> !Ended(p, e))
      && (!r.fatal ==> e in r.entries && r.entries[e].Running?)
  }

  /** Results in memory are those of the journal, and all of them reached the disk. */
  ghost predicate CompletedSound(r: Runner, p: Past) {
    forall e | e in r.completed :: e in p.journaled && (e in r.entries ==> r.entries[e] == Completed(r.completed[e]))
  }

  /** What entries, in memory or on disk, say about the past. */
  ghost predicate EntriesSound(entries: Entries, live: set<ExecId>, p: Past) {
    forall e | e in entries ::
      && e in p.received && (!entries[e].Starting? ==> e !in p.refused) && (entries[e].Completed? ==> e !in live)
  }

  ghost predicate AllJournaled(entries: Entries, p: Past) {
    forall e | e in entries && entries[e].Completed? :: e in p.journaled
  }

  ghost predicate ModeSound(r: Runner, p: Past) {
    match r.mode
    case Down => r.entries == map[] && r.completed == map[] && r.running == {} && r.start.Idle? && !r.fatal
    case Recovering => r.running == {} && r.start.Idle? && !r.fatal && AllJournaled(r.entries, p) && r.completed.Keys <= r.entries.Keys
    case Up => !r.fatal ==> MemoryAgrees(r)
  }

  /** The in-memory map of results equals the COMPLETED entries of the journal. */
  ghost predicate MemoryAgrees(r: Runner) {
    forall e :: (e in r.completed <==> e in r.entries && r.entries[e].Completed?)
                && (e in r.completed ==> r.entries[e] == Completed(r.completed[e]))
  }

  ghost predicate PastSound(live: set<ExecId>, p: Past) {
    && (forall e | e in live :: !Ended(p, e))
    && p.received <= p.used && p.accepted <= p.received && p.refused <= p.received && p.journaled <= p.received
    && (forall e | e in p.refused :: e !in p.accepted && e !in p.journaled)
    && (forall e | e in p.acked :: Ended(p, e))
  }

  ghost predicate NetSound(n: Net, c: Controller, p: Past) {
    && (forall i | 0 <= i < |n.toRunner| :: match n.toRunner[i]
          case JobStart(e) => e in p.used && e !in p.received && forall k | 0 <= k < |n.toRunner| && k != i :: n.toRunner[k] != JobStart(e)
          case JobCancel(e) => true
          case ResultAck(e) => Ended(p, e))
    && (forall i | 0 <= i < |n.toController| :: match n.toController[i]
          case JobAccepted(e) => true
          case JobResult(e, _) => e in p.journaled
          case JobError(e, definite) => definite ==> e in p.refused
          case Snapshot(_, completed) => completed <= p.journaled)
    && (forall e | e in c.outcomes :: match c.outcomes[e]
          case Done(_) => e in p.journaled
          case Refused => e in p.refused
          case Lost => true)
    && c.seen <= p.journaled
  }

  ghost predicate Inv(s: State) {
    && LiveJournaled(s.live, s.runner)
    && StartSound(s.live, s.runner, s.past)
    && RunningSound(s.runner, s.past)
    && CompletedSound(s.runner, s.past)
    && EntriesSound(s.runner.entries, s.live, s.past)
    && EntriesSound(s.runner.disk, s.live, s.past)
    && AllJournaled(s.runner.disk, s.past)
    && ModeSound(s.runner, s.past)
    && PastSound(s.live, s.past)
    && NetSound(s.net, s.controller, s.past)
  }

  lemma ControllerKeeps(s: State, a: Step)
    requires Inv(s) && Enabled(s, a)
    requires a.SendStart? || a.SendCancel? || a.SendAck? || a.SendSettledAck? || a.Adopt? || a.ControllerDies? || a.Connect? || a.Disconnect?
    ensures Inv(Next(s, a))
  {
  }

  lemma ReceiveKeeps(s: State)
    requires Inv(s) && Enabled(s, Receive)
    ensures Inv(Next(s, Receive))
  {
  }

  lemma TakeStartReservesKeeps(s: State)
    requires Inv(s) && Enabled(s, TakeStart(true, true))
    ensures Inv(Next(s, TakeStart(true, true)))
  {
  }

  lemma TakeStartRefusesKeeps(s: State, valid: bool, io: bool)
    requires Inv(s) && Enabled(s, TakeStart(valid, io)) && (!valid || !io)
    ensures Inv(Next(s, TakeStart(valid, io)))
  {
  }

  lemma SpawnKeeps(s: State)
    requires Inv(s) && Enabled(s, Spawn)
    ensures Inv(Next(s, Spawn))
  {
  }

  lemma SpawnFailsKeeps(s: State, io: bool)
    requires Inv(s) && Enabled(s, SpawnFails(io))
    ensures Inv(Next(s, SpawnFails(io)))
  {
  }

  lemma SpawnUnsafeKeeps(s: State, io: bool)
    requires Inv(s) && Enabled(s, SpawnUnsafe(io))
    ensures Inv(Next(s, SpawnUnsafe(io)))
  {
  }

  lemma AttachSucceedsKeeps(s: State)
    requires Inv(s) && Enabled(s, Attach(true, false))
    ensures Inv(Next(s, Attach(true, false)))
  {
  }

  lemma AttachFailsKeeps(s: State, io: bool, late: bool)
    requires Inv(s) && Enabled(s, Attach(io, late)) && (!io || late)
    ensures Inv(Next(s, Attach(io, late)))
  {
  }

  lemma GiveUpKeeps(s: State, killed: bool, io: bool)
    requires Inv(s) && Enabled(s, GiveUp(killed, io))
    ensures Inv(Next(s, GiveUp(killed, io)))
  {
  }

  lemma TakeCancelKeeps(s: State)
    requires Inv(s) && Enabled(s, TakeCancel)
    ensures Inv(Next(s, TakeCancel))
  {
  }

  lemma TakeAckWrittenKeeps(s: State)
    requires Inv(s) && Enabled(s, TakeAck(true))
    ensures Inv(Next(s, TakeAck(true)))
  {
  }

  lemma TakeAckFailsKeeps(s: State)
    requires Inv(s) && Enabled(s, TakeAck(false))
    ensures Inv(Next(s, TakeAck(false)))
  {
  }

  lemma FinishKeeps(s: State, e: ExecId, result: Result, io: bool)
    requires Inv(s) && Enabled(s, Finish(e, result, io))
    ensures Inv(Next(s, Finish(e, result, io)))
  {
  }

  lemma FlushKeeps(s: State, e: ExecId)
    requires Inv(s) && Enabled(s, Flush(e))
    ensures Inv(Next(s, Flush(e)))
  {
  }

  lemma CrashKeeps(s: State)
    requires Inv(s) && Enabled(s, Crash)
    ensures Inv(Next(s, Crash))
  {
  }

  lemma LoadKeeps(s: State)
    requires Inv(s) && Enabled(s, Load)
    ensures Inv(Next(s, Load))
  {
  }

  lemma RecoverStopsKeeps(s: State, e: ExecId)
    requires Inv(s) && Enabled(s, Recover(e, true, true)) && s.runner.entries[e].Running?
    ensures Inv(Next(s, Recover(e, true, true)))
  {
  }

  lemma RecoverRefusesKeeps(s: State, e: ExecId, stopped: bool, io: bool)
    requires Inv(s) && Enabled(s, Recover(e, stopped, io)) && (!stopped || !io || !s.runner.entries[e].Running?)
    ensures Inv(Next(s, Recover(e, stopped, io)))
  {
  }

  lemma ServeKeeps(s: State)
    requires Inv(s) && Enabled(s, Serve)
    ensures Inv(Next(s, Serve))
  {
  }

  lemma ProcessEndsKeeps(s: State, e: ExecId)
    requires Inv(s) && Enabled(s, ProcessEnds(e))
    ensures Inv(Next(s, ProcessEnds(e)))
  {
  }

  lemma AbortKeeps(s: State)
    requires Inv(s) && Enabled(s, Abort)
    ensures Inv(Next(s, Abort))
  {
  }

  predicate Starts(a: Step) {
    a.TakeStart? || a.Spawn? || a.SpawnFails? || a.SpawnUnsafe? || a.Abort? || a.Attach? || a.GiveUp?
  }

  predicate Ends(a: Step) {
    a.TakeCancel? || a.TakeAck? || a.Finish? || a.Flush? || a.ProcessEnds?
  }

  predicate Restarts(a: Step) {
    a.Crash? || a.Load? || a.Recover? || a.Serve?
  }

  lemma StartsKeep(s: State, a: Step)
    requires Inv(s) && Enabled(s, a) && Starts(a)
    ensures Inv(Next(s, a))
  {
    match a
    case TakeStart(valid, io) => if valid && io { TakeStartReservesKeeps(s); } else { TakeStartRefusesKeeps(s, valid, io); }
    case Spawn => SpawnKeeps(s);
    case SpawnFails(io) => SpawnFailsKeeps(s, io);
    case SpawnUnsafe(io) => SpawnUnsafeKeeps(s, io);
    case Abort => AbortKeeps(s);
    case Attach(io, late) => if io && !late { AttachSucceedsKeeps(s); } else { AttachFailsKeeps(s, io, late); }
    case GiveUp(killed, io) => GiveUpKeeps(s, killed, io);
  }

  lemma EndsKeep(s: State, a: Step)
    requires Inv(s) && Enabled(s, a) && Ends(a)
    ensures Inv(Next(s, a))
  {
    match a
    case TakeCancel => TakeCancelKeeps(s);
    case TakeAck(io) => if io { TakeAckWrittenKeeps(s); } else { TakeAckFailsKeeps(s); }
    case Finish(e, result, io) => FinishKeeps(s, e, result, io);
    case Flush(e) => FlushKeeps(s, e);
    case ProcessEnds(e) => ProcessEndsKeeps(s, e);
  }

  lemma RestartsKeep(s: State, a: Step)
    requires Inv(s) && Enabled(s, a) && Restarts(a)
    ensures Inv(Next(s, a))
  {
    match a
    case Crash => CrashKeeps(s);
    case Load => LoadKeeps(s);
    case Recover(e, stopped, io) =>
      if stopped && io && s.runner.entries[e].Running? { RecoverStopsKeeps(s, e); }
      else { RecoverRefusesKeeps(s, e, stopped, io); }
    case Serve => ServeKeeps(s);
  }

  lemma NextKeeps(s: State, a: Step)
    requires Inv(s) && Enabled(s, a)
    ensures Inv(Next(s, a))
  {
    if Starts(a) {
      StartsKeep(s, a);
    } else if Ends(a) {
      EndsKeep(s, a);
    } else if Restarts(a) {
      RestartsKeep(s, a);
    } else if a.Receive? {
      ReceiveKeeps(s);
    } else {
      ControllerKeeps(s, a);
    }
  }

  // ---- runs ----

  ghost predicate Legal(s: State, steps: seq<Step>)
    decreases |steps|
  {
    steps != [] ==> Enabled(s, steps[0]) && Legal(Next(s, steps[0]), steps[1..])
  }

  ghost function Run(s: State, steps: seq<Step>): State
    requires Legal(s, steps)
    decreases |steps|
  {
    if steps == [] then s else Run(Next(s, steps[0]), steps[1..])
  }

  lemma {:induction false} RunKeeps(s: State, steps: seq<Step>)
    requires Inv(s) && Legal(s, steps)
    ensures Inv(Run(s, steps))
    decreases |steps|
  {
    if steps != [] {
      NextKeeps(s, steps[0]);
      RunKeeps(Next(s, steps[0]), steps[1..]);
    }
  }

  /** In every reachable state an agent process that runs is STARTING or RUNNING in the journal file. */
  lemma LiveIsJournaled(steps: seq<Step>, e: ExecId)
    requires Legal(Begin(), steps) && e in Run(Begin(), steps).live
    ensures var r := Run(Begin(), steps).runner; e in r.disk && (r.disk[e] == Starting || r.disk[e] == Running)
  {
    RunKeeps(Begin(), steps);
  }

  /** The controller acknowledges a run that was accepted only after the runner has journaled its result;
      an acknowledged execution has no process and never gets one again. */
  lemma AckedIsJournaled(steps: seq<Step>, e: ExecId)
    requires Legal(Begin(), steps) && e in Run(Begin(), steps).past.acked
    ensures var s := Run(Begin(), steps);
            && (e in s.past.accepted ==> e in s.past.journaled)
            && (e in s.past.journaled || e in s.past.refused)
            && e !in s.live
  {
    RunKeeps(Begin(), steps);
  }

  /** A run whose future has a result other than "host" and "cancel_unconfirmed" has no process, so a
      cancellation that is confirmed by it may release the working tree. */
  lemma ResolvedIsDead(steps: seq<Step>, e: ExecId)
    requires Legal(Begin(), steps)
    requires var c := Run(Begin(), steps).controller; e in c.outcomes && !c.outcomes[e].Lost?
    ensures e !in Run(Begin(), steps).live
  {
    RunKeeps(Begin(), steps);
  }

  /** A runner that serves again after a restart has left no process of the time before alive. */
  lemma RestartLeavesNoProcess(steps: seq<Step>)
    requires Legal(Begin(), steps) && Enabled(Run(Begin(), steps), Serve)
    ensures Run(Begin(), steps).live == {}
  {
    RunKeeps(Begin(), steps);
    var s := Run(Begin(), steps);
    if e :| e in s.live {
      assert false;
    }
  }

  /** While the daemon serves without a fatal error, its map of results is the journal's. */
  lemma ResultsAgree(steps: seq<Step>)
    requires Legal(Begin(), steps)
    ensures var r := Run(Begin(), steps).runner; r.mode.Up? && !r.fatal ==> MemoryAgrees(r)
  {
    RunKeeps(Begin(), steps);
  }

  ghost predicate Journaled(s: State, e: ExecId, result: Result) {
    e in s.runner.disk && s.runner.disk[e] == Completed(result)
  }

  /** The step takes the acknowledgement of e from the channel. */
  predicate TakesAckOf(s: State, a: Step, e: ExecId) {
    a.TakeAck? && s.net.toRunner != [] && s.net.toRunner[0] == ResultAck(e)
  }

  /** While the daemon is up, its memory holds what the file says about a result. */
  ghost predicate Remembered(s: State, e: ExecId, result: Result) {
    Journaled(s, e, result) && (!s.runner.mode.Down? ==> e in s.runner.entries && s.runner.entries[e] == Completed(result))
  }

  lemma TakeStartRemembers(s: State, a: Step, e: ExecId, result: Result)
    requires Inv(s) && Enabled(s, a) && Remembered(s, e, result) && a.TakeStart?
    ensures Remembered(Next(s, a), e, result)
  {
  }

  lemma StartsRemember(s: State, a: Step, e: ExecId, result: Result)
    requires Inv(s) && Enabled(s, a) && Remembered(s, e, result) && Starts(a) && !a.TakeStart?
    ensures Remembered(Next(s, a), e, result)
  {
  }

  lemma EndsRemember(s: State, a: Step, e: ExecId, result: Result)
    requires Inv(s) && Enabled(s, a) && Remembered(s, e, result) && Ends(a) && !TakesAckOf(s, a, e)
    ensures Remembered(Next(s, a), e, result)
  {
  }

  lemma ResultStep(s: State, a: Step, e: ExecId, result: Result)
    requires Inv(s) && Enabled(s, a) && Remembered(s, e, result) && !TakesAckOf(s, a, e)
    ensures Remembered(Next(s, a), e, result)
  {
    if a.TakeStart? {
      TakeStartRemembers(s, a, e, result);
    } else if Starts(a) {
      StartsRemember(s, a, e, result);
    } else if Ends(a) {
      EndsRemember(s, a, e, result);
    }
  }

  ghost predicate SomeAckTaken(s: State, steps: seq<Step>, e: ExecId)
    requires Legal(s, steps)
    decreases |steps|
  {
    steps != [] && (TakesAckOf(s, steps[0], e) || SomeAckTaken(Next(s, steps[0]), steps[1..], e))
  }

  /** A journaled result stays in the file, unchanged, until its acknowledgement is taken: through
      disconnects, crashes and restarts. */
  lemma {:induction false} ResultSurvives(s: State, steps: seq<Step>, e: ExecId, result: Result)
    requires Inv(s) && Legal(s, steps) && Remembered(s, e, result) && !SomeAckTaken(s, steps, e)
    ensures Remembered(Run(s, steps), e, result)
    decreases |steps|
  {
    if steps != [] {
      ResultStep(s, steps[0], e, result);
      NextKeeps(s, steps[0]);
      ResultSurvives(Next(s, steps[0]), steps[1..], e, result);
    }
  }
}
