/** The daemon that runs agent processes for the controller (runner_daemon.py: _start_job,
    _finish_job, _handle, _flush_completed, _recover_persisted_executions). */
module RunnerDaemon {
  import opened Wrappers
  import opened RunnerJournal

  /** What runner.start or runner.resume comes to. Unsafe: it failed, and the process that it had
      started may still run. */
  datatype Launch =
    | Failed
    | NoPid
    | Unsafe(pid: int)
    | Started(pid: int, identity: Identity, conversation: Option<string>)

  /** Which writes of the journal succeed, and whether a process that must be stopped stops. */
  datatype Luck = Luck(reserve: bool, attach: bool, session: bool, remove: bool, stops: bool)

  datatype Message =
    | JobAccepted(id: ExecId, pid: int)
    | JobError(id: ExecId, unconfirmed: bool)
    | JobResult(id: ExecId, result: Result)

  /** A result in memory and the journal's entry say the same; only the entry may know a conversation
      that the result does not name, and texts are equal up to empty ones. */
  predicate Agree(e: Entry, r: Result) {
    && e.phase.Completed? && ToResult(e).returncode == r.returncode
    && Filled(e.outcome.message) == Filled(r.message) && Filled(e.outcome.retryKind) == Filled(r.retryKind)
    && Filled(e.outcome.retryAt) == Filled(r.retryAt)
    && (Filled(r.session).Some? ==> e.session == r.session)
  }

  /** The daemon's books: the journal in memory and in the file, the running executions, the results that
      are not acknowledged; and the processes that run. */
  datatype Books = Books(entries: Entries, onDisk: Entries, running: set<ExecId>, completed: map<ExecId, Result>,
                         fatal: bool, live: set<ExecId>)

  ghost predicate CompletedAgree(entries: Entries, completed: map<ExecId, Result>) {
    && (forall id | id in completed :: id in entries && Agree(entries[id], completed[id]))
    && (forall id | id in entries && entries[id].phase.Completed? :: id in completed)
  }

  /** Every process that runs has an unfinished entry. */
  ghost predicate Covers(entries: Entries, live: set<ExecId>) {
    forall id | id in live :: id in entries && !entries[id].phase.Completed?
  }

  /** Between two await points: the file and the memory cover every running process, running executions
      were started, and the results in memory are exactly those of the journal, unless the daemon is
      about to die. */
  ghost predicate Sound(b: Books) {
    && Covers(b.entries, b.live) && Covers(b.onDisk, b.live)
    && (forall id | id in b.running && id in b.entries :: !b.entries[id].phase.Starting?)
    && (!b.fatal ==> CompletedAgree(b.entries, b.completed) && b.running <= b.entries.Keys)
  }

  lemma PutTwice(entries: Entries, id: ExecId, e: Entry, f: Entry)
    ensures entries[id := e][id := f] == entries[id := f]
  {
  }

  function Written(b: Books, entries: Entries, io: bool): Books {
    b.(entries := entries, onDisk := if io then Reloaded(entries) else b.onDisk)
  }

  /** An unfinished entry is added or changed. */
  lemma UnfinishedSound(b: Books, id: ExecId, e: Entry, io: bool)
    requires Sound(b) && !e.phase.Completed? && id !in b.completed
    requires id in b.running ==> !e.phase.Starting?
    ensures Sound(Written(b, b.entries[id := e], io))
  {
  }

  lemma RemovedSound(b: Books, id: ExecId, io: bool)
    requires Sound(b) && id !in b.live && id !in b.running && id !in b.completed
    ensures Sound(Written(b, b.entries - {id}, io))
  {
  }

  lemma FinishedSound(b: Books, id: ExecId, r: Result, now: string, io: bool)
    requires Sound(b) && id in b.entries && !b.entries[id].phase.Starting? && id !in b.live
    ensures var b' := Written(b, b.entries[id := Finished(b.entries[id], r, now)], io);
            Sound(b'.(fatal := true)) && Sound(b'.(completed := b.completed[id := r], running := b.running - {id}))
  {
  }

  lemma SpawnedSound(b: Books, id: ExecId)
    requires Sound(b) && id in b.entries && !b.entries[id].phase.Completed? && id in b.onDisk
             && !b.onDisk[id].phase.Completed?
    ensures Sound(b.(live := b.live + {id}))
  {
  }

  lemma AckedSound(b: Books, id: ExecId, io: bool)
    requires Sound(b) && id !in b.live && id !in b.running
    ensures var b' := Written(b, b.entries - {id}, io);
            Sound(b'.(fatal := true)) && Sound(b'.(completed := b.completed - {id}))
  {
  }

  /** What recovery makes of an entry: an interrupted execution gets the result 130, and loses nothing else. */
  ghost predicate Settled(before: Entry, after: Entry, stopped: bool) {
    match before.phase
    case Starting => false
    case Running =>
      && stopped && after == before.(phase := Completed, outcome := after.outcome, completedAt := after.completedAt)
      && after.outcome.returncode == Some(130) && after.outcome.retryKind == None && after.outcome.retryAt == None
    case Completed => after == before
  }

  /** Recovery can deal with the entry: it had its process recorded, and that one can be stopped and written off. */
  predicate Recoverable(e: Entry, stopped: bool, io: bool) {
    !e.phase.Starting? && (e.phase.Running? ==> stopped && io)
  }

  /** Recovery has dealt with all entries but those in rest. */
  ghost predicate Halfway(before: Entries, b: Books, rest: set<ExecId>, stopped: set<ExecId>) {
    && b.entries.Keys == before.Keys && Covers(b.entries, b.live) && Covers(b.onDisk, b.live)
    && (forall id | id in rest && id in before :: b.entries[id] == before[id] && id !in b.completed)
    && (forall id | id in before && id !in rest :: Settled(before[id], b.entries[id], id in stopped))
    && (forall id | id in before && id !in rest :: id in b.completed && Agree(b.entries[id], b.completed[id]))
    && (forall id | id in b.completed :: id in before)
  }

  lemma InterruptedSettles(e: Entry, result: Result, now: string)
    requires e.phase.Running? && result.session == e.session && result.returncode == 130
    requires result.retryKind == None && result.retryAt == None
    ensures Settled(e, Finished(e, result, now), true) && Agree(Finished(e, result, now), result)
  {
  }

  lemma HalfwayStopped(before: Entries, b: Books, rest: set<ExecId>, stopped: set<ExecId>, id: ExecId, after: Entry,
        result: Result, io: bool)
    requires Halfway(before, b, rest, stopped) && id in rest && id in before && before[id].phase.Running? && id in stopped
    requires Settled(before[id], after, true) && Agree(after, result)
    ensures var b' := Written(b.(live := b.live - {id}), b.entries[id := after], io);
            && Covers(b'.onDisk, b'.live)
            && (io ==> Halfway(before, b'.(completed := b.completed[id := result]), rest - {id}, stopped))
  {
  }

  lemma HalfwayKept(before: Entries, b: Books, rest: set<ExecId>, stopped: set<ExecId>, id: ExecId)
    requires Halfway(before, b, rest, stopped) && id in rest && id in before && before[id].phase.Completed?
    ensures Halfway(before, b.(completed := b.completed[id := ToResult(before[id])]), rest - {id}, stopped)
  {
  }

  lemma HalfwayDone(before: Entries, b: Books, stopped: set<ExecId>)
    requires Halfway(before, b, {}, stopped) && b.running == {}
    ensures Sound(b) && b.live == {}
  {
  }

  /** How things stand for a new execution once the request is dealt with: an accepted one runs and is
      journaled RUNNING with its process id; a refused one has no process. Without an answer the process
      may still run, or the journal could not be written. */
  ghost predicate Told(b: Books, id: ExecId, answer: Option<Message>) {
    match answer
    case None => id !in b.running
    case Some(JobAccepted(i, pid)) =>
      i == id && id in b.running && id in b.live && id in b.onDisk
      && b.onDisk[id].phase.Running? && b.onDisk[id].pid == Some(pid)
    case Some(JobError(i, unconfirmed)) => i == id && !unconfirmed && id !in b.running && id !in b.live
    case _ => false
  }

  /** A start request names everything that is needed. */
  predicate IsComplete(id: ExecId, instruction: string, directory: string, session: string, resume: bool) {
    id.text != "" && instruction != "" && directory != "" && (resume ==> session != "")
  }

  /** The process was started, and its id is on disk, and so is the conversation, if one is known that the reservation
      does not have yet. */
  predicate IsRecorded(seen: Option<string>, launch: Launch, luck: Luck) {
    && launch.Started? && luck.attach
    && (seen.None? && launch.conversation.Some? && launch.conversation.value != "" ==> luck.session)
  }

  /** The answer to a request whose reservation is on disk; without an answer the daemon gives up. */
  function Reply(id: ExecId, seen: Option<string>, launch: Launch, luck: Luck): Option<Message> {
    var refused := if luck.remove then Some(JobError(id, false)) else None;
    match launch
    case Started(pid, _, _) =>
      if IsRecorded(seen, launch, luck) then Some(JobAccepted(id, pid)) else if luck.stops then refused else None
    case Unsafe(_) => None
    case NoPid => if luck.stops then refused else None
    case Failed => refused
  }

  /** There is a process in the end: an accepted one, or one that did not stop. */
  predicate Remains(seen: Option<string>, launch: Launch, luck: Luck) {
    match launch
    case Started(_, _, _) => IsRecorded(seen, launch, luck) || !luck.stops
    case Unsafe(_) => true
    case NoPid => !luck.stops
    case Failed => false
  }

  /** The daemon must not go on: a process may run that it does not know, or a dead one has an entry. */
  predicate Dies(seen: Option<string>, launch: Launch, luck: Luck) {
    match launch
    case Started(_, _, _) => !IsRecorded(seen, launch, luck) && !(luck.stops && luck.remove)
    case Unsafe(_) => true
    case _ => false
  }

  /** The entry of an accepted execution: its process, and its conversation as far as one is known. */
  function AcceptedEntry(directory: string, boot: string, seen: Option<string>, now: string, launch: Launch): Entry
    requires launch.Started?
  {
    var c := launch.conversation;
    Entry(Some(launch.pid), directory, RunnerJournal.Running, boot, launch.identity,
          if seen.None? && c.Some? && c.value != "" then c else seen, Outcome(None, None, None, None), now, None)
  }

  /** ... from the reserved one. */
  function Recorded(e: Entry, seen: Option<string>, launch: Launch): Entry
    requires launch.Started?
  {
    var c := launch.conversation;
    Attached(e, launch.pid, launch.identity).(session := if seen.None? && c.Some? && c.value != "" then c else e.session)
  }

  /** The execution is reserved, on disk and in memory. */
  ghost predicate IsReserved(b: Books, id: ExecId) {
    && Sound(b) && !b.fatal && id !in b.running && id !in b.completed
    && id in b.entries && b.entries[id].phase.Starting? && id in b.onDisk && b.onDisk[id].phase.Starting?
  }

  /** Only id is concerned. */
  ghost predicate OnlyAbout(a: Books, b: Books, id: ExecId) {
    && b.completed == a.completed
    && (forall k | k != id :: (k in b.entries <==> k in a.entries) && (k in a.entries ==> b.entries[k] == a.entries[k]))
    && (forall k | k != id :: (k in b.live <==> k in a.live) && (k in b.running <==> k in a.running))
  }

  class Daemon {
    const boot: string
    const journal: Journal
    var running: set<ExecId>
    var completed: map<ExecId, Result>
    var fatal: bool
    var sent: seq<Message>
    ghost var live: set<ExecId>

    ghost function View(): Books
      reads this, journal
    {
      Books(journal.entries, journal.onDisk, running, completed, fatal, live)
    }

    ghost predicate Valid()
      reads this, journal
    {
      boot != "" && journal.Valid() && Sound(View())
    }

    /** A daemon that has read its journal and has not yet looked at what is in it. */
    ghost predicate Unrecovered()
      reads this, journal
    {
      && boot != "" && journal.Valid() && running == {} && completed == map[] && !fatal
      && Covers(journal.entries, live) && Covers(journal.onDisk, live)
    }

    constructor (bootId: string, loaded: Journal, ghost alive: set<ExecId>)
      requires bootId != "" && loaded.Valid() && Covers(loaded.entries, alive) && Covers(loaded.onDisk, alive)
      ensures Unrecovered() && View() == Books(loaded.entries, loaded.onDisk, {}, map[], false, alive)
    {
      boot, journal, running, completed, fatal, sent, live := bootId, loaded, {}, map[], false, [], alive;
    }

    method RecoverEntry(id: ExecId, ghost before: Entries, ghost rest: set<ExecId>, stopped: set<ExecId>, now: string,
          io: bool)
      returns (ok: bool)
      requires journal.Valid() && running == {} && !fatal && Halfway(before, View(), rest, stopped) && id in rest
               && id in before
      modifies this`live, this`completed, journal
      ensures journal.Valid() && Covers(journal.onDisk, live) && ok == Recoverable(before[id], id in stopped, io)
      ensures ok ==> Halfway(before, View(), rest - {id}, stopped)
    {
      ghost var b := View();
      var entry := journal.entries[id];
      match entry.phase {
        case Starting => ok := false;
        case Completed =>
          HalfwayKept(before, b, rest, stopped, id);
          completed := completed[id := ToResult(entry)];
          ok := true;
        case Running =>
          if id !in stopped {
            return false;
          }
          var result := Result(130, entry.session, Some("Runner restarted while this execution was active"), None, None);
          InterruptedSettles(entry, result, now);
          HalfwayStopped(before, b, rest, stopped, id, Finished(entry, result, now), result, io);
          live := live - {id};
          ok := journal.Complete(id, result, now, io);
          if ok {
            completed := completed[id := result];
          }
      }
    }

    /** Refuses to serve if an execution may have a process that nobody knows of, keeps the results, and
        stops what still runs. stopped: the executions whose process can be stopped. */
    method Recover(stopped: set<ExecId>, now: string, io: bool) returns (ok: bool)
      requires Unrecovered()
      modifies this, journal
      ensures ok <==> forall id | id in old(journal.entries) :: Recoverable(old(journal.entries)[id], id in stopped, io)
      ensures ok ==> Valid() && live == {} && journal.entries.Keys == old(journal.entries).Keys
      ensures ok ==> forall id | id in old(journal.entries) ::
                id in journal.entries && Settled(old(journal.entries)[id], journal.entries[id], id in stopped)
      ensures !ok ==> journal.Valid() && Covers(journal.onDisk, live)
    {
      ghost var before := journal.entries;
      var rest := journal.entries.Keys;
      while rest != {}
        invariant rest <= before.Keys && running == {} && !fatal && journal.Valid()
        invariant Halfway(before, View(), rest, stopped)
        invariant forall id | id in before && id !in rest :: Recoverable(before[id], id in stopped, io)
        decreases |rest|
      {
        var id :| id in rest;
        var recovered := RecoverEntry(id, before, rest, stopped, now, io);
        if !recovered {
          return false;
        }
        rest := rest - {id};
      }
      HalfwayDone(before, View(), stopped);
      ok := true;
    }

    /** A start request; execution ids are never used twice. */
    method StartJob(id: ExecId, instruction: string, directory: string, session: string, resume: bool, now: string,
                    launch: Launch, luck: Luck) returns (answer: Option<Message>)
      requires Valid() && id !in journal.entries && id !in live && id !in running && !fatal
      requires launch.Started? ==> launch.pid > 0
      modifies this, journal
      ensures Valid() && OnlyAbout(old(View()), View(), id) && Told(View(), id, answer)
      ensures sent == old(sent) + if answer.Some? then [answer.value] else []
      ensures var seen := if session == "" then None else Some(session);
              if !IsComplete(id, instruction, directory, session, resume) then
                answer == Some(JobError(id, false)) && View() == old(View())
              else if !luck.reserve then
                answer == Some(JobError(id, false))
                && View() == old(View()).(entries :=
                     old(journal.entries)[id := RunnerJournal.Reserved(directory, boot, seen, now)])
              else
                && answer == Reply(id, seen, launch, luck) && fatal == Dies(seen, launch, luck)
                && live == (if Remains(seen, launch, luck) then old(live) + {id} else old(live))
                && running == (if IsRecorded(seen, launch, luck) then old(running) + {id} else old(running))
      ensures answer.Some? && answer.value.JobAccepted? <==>
                && IsComplete(id, instruction, directory, session, resume) && launch.Started?
                && luck.reserve && luck.attach
                && (session == "" && launch.conversation.Some? && launch.conversation.value != "" ==> luck.session)
      ensures answer.Some? && answer.value.JobAccepted? ==>
                var seen := if session == "" then None else Some(session);
                journal.entries[id] == AcceptedEntry(directory, boot, seen, now, launch)
    {
      if id.text == "" || instruction == "" || directory == "" || (resume && session == "") {
        answer := Some(JobError(id, false));
        sent := sent + [answer.value];
        return;
      }
      answer := Begin(id, directory, if session == "" then None else Some(session), now, launch, luck);
    }

    /** The request is complete: reserve its execution, and start its process. */
    method Begin(id: ExecId, directory: string, seen: Option<string>, now: string, launch: Launch, luck: Luck)
      returns (answer: Option<Message>)
      requires Valid() && id !in journal.entries && id !in live && id !in running && !fatal && id.text != "" && directory != ""
      requires (launch.Started? ==> launch.pid > 0) && (seen.Some? ==> seen.value != "")
      modifies this, journal
      ensures Valid() && OnlyAbout(old(View()), View(), id) && Told(View(), id, answer)
      ensures sent == old(sent) + if answer.Some? then [answer.value] else []
      ensures !luck.reserve ==>
                answer == Some(JobError(id, false))
                && View() == old(View()).(entries :=
                     old(journal.entries)[id := RunnerJournal.Reserved(directory, boot, seen, now)])
      ensures luck.reserve ==>
                && answer == Reply(id, seen, launch, luck) && fatal == Dies(seen, launch, luck)
                && live == (if Remains(seen, launch, luck) then old(live) + {id} else old(live))
                && running == (if IsRecorded(seen, launch, luck) then old(running) + {id} else old(running))
                && (IsRecorded(seen, launch, luck) ==>
                      id in journal.entries
                      && journal.entries[id] == AcceptedEntry(directory, boot, seen, now, launch))
    {
      var ok := ReserveExecution(id, directory, seen, now, luck.reserve);
      if ok {
        answer := Start(id, seen, launch, luck);
      } else {
        answer := Some(JobError(id, false));
        sent := sent + [answer.value];
      }
    }

    /** The reservation stays in memory if it cannot be written. */
    method ReserveExecution(id: ExecId, directory: string, seen: Option<string>, now: string, io: bool) returns (ok: bool)
      requires Valid() && id !in journal.entries && id !in running && !fatal && id.text != "" && directory != ""
      modifies journal
      ensures Valid() && ok == io
      ensures View() == Written(old(View()), old(journal.entries)[id := RunnerJournal.Reserved(directory, boot, seen, now)], io)
    {
      UnfinishedSound(View(), id, RunnerJournal.Reserved(directory, boot, seen, now), io);
      ok := journal.Reserve(id, directory, boot, seen, now, io);
    }

    /** The execution is reserved: start its process. */
    method Start(id: ExecId, seen: Option<string>, launch: Launch, luck: Luck) returns (answer: Option<Message>)
      requires Valid() && IsReserved(View(), id) && id !in live && (launch.Started? ==> launch.pid > 0)
      modifies this, journal
      requires !fatal && journal.entries[id].session == seen && (seen.Some? ==> seen.value != "")
      ensures Valid() && OnlyAbout(old(View()), View(), id) && Told(View(), id, answer)
      ensures sent == old(sent) + if answer.Some? then [answer.value] else []
      ensures answer == Reply(id, seen, launch, luck) && fatal == Dies(seen, launch, luck)
      ensures live == if Remains(seen, launch, luck) then old(live) + {id} else old(live)
      ensures running == if IsRecorded(seen, launch, luck) then old(running) + {id} else old(running)
      ensures IsRecorded(seen, launch, luck) ==>
                journal.entries == old(journal.entries)[id := Recorded(old(journal.entries)[id], seen, launch)]
    {
      if launch.Failed? || (launch.NoPid? && luck.stops) {
        answer := Withdraw(id, luck.remove);
        return;
      }
      SpawnedSound(View(), id);
      live := live + {id};
      match launch {
        case Unsafe(pid) => answer := LaunchUnsafe(id, pid, luck.attach);
        case Started(_, _, _) =>
          answer := Launched(id, seen, launch, luck);
        case _ => answer := None;
      }
    }

    /** The daemon dies with the process possibly alive, and leaves its entry behind. */
    method LaunchUnsafe(id: ExecId, pid: int, io: bool) returns (answer: Option<Message>)
      requires Valid() && id in journal.entries && !journal.entries[id].phase.Completed? && id !in completed
      requires id in live && id !in running
      modifies this, journal
      ensures Valid() && OnlyAbout(old(View()), View(), id) && answer == None && id !in running && fatal && id in live
      ensures sent == old(sent) && live == old(live) && running == old(running)
    {
      ghost var before := View();
      var ok := journal.AttachPid(id, pid, Identity(None, None), io);
      if pid > 0 {
        UnfinishedSound(before, id, RunnerJournal.Attached(before.entries[id], pid, Identity(None, None)), io);
      }
      fatal := true;
      answer := None;
    }

    /** The reservation of an execution without a process is removed. */
    method Withdraw(id: ExecId, io: bool) returns (answer: Option<Message>)
      requires Valid() && id !in running && id !in completed && id in journal.entries && id !in live
      modifies this, journal
      ensures Valid() && OnlyAbout(old(View()), View(), id) && Told(View(), id, answer)
      ensures answer == if io then Some(JobError(id, false)) else None
      ensures View() == Written(old(View()), old(journal.entries) - {id}, io)
      ensures sent == (old(sent) + if answer.Some? then [answer.value] else []) && fatal == old(fatal)
    {
      RemovedSound(View(), id, io);
      var ok := journal.Remove(id, io);
      answer := if ok then Some(JobError(id, false)) else None;
      if ok {
        sent := sent + [answer.value];
      }
    }

    /** Records the process id; false if the file could not be written. */
    method RecordPid(id: ExecId, pid: int, identity: Identity, io: bool) returns (ok: bool)
      requires Valid() && id in journal.entries && !journal.entries[id].phase.Completed? && id !in completed && pid > 0
      modifies journal
      ensures Valid() && OnlyAbout(old(View()), View(), id) && ok == io
      ensures journal.entries == old(journal.entries)[id := RunnerJournal.Attached(old(journal.entries)[id], pid, identity)]
      ensures ok ==> journal.onDisk == Reloaded(journal.entries)
    {
      UnfinishedSound(View(), id, RunnerJournal.Attached(journal.entries[id], pid, identity), io);
      ok := journal.AttachPid(id, pid, identity, io);
    }

    method RecordConversation(id: ExecId, conversation: Option<string>, io: bool) returns (ok: bool)
      requires Valid() && id in journal.entries && journal.entries[id].phase.Running? && id !in completed
      requires journal.onDisk == Reloaded(journal.entries)
      modifies journal
      ensures Valid() && OnlyAbout(old(View()), View(), id)
      ensures var named := conversation.Some? && conversation.value != "";
              && journal.entries == (if named
                                     then old(journal.entries)[id := old(journal.entries)[id].(session := conversation)]
                                     else old(journal.entries))
              && ok == (named && conversation != old(journal.entries)[id].session ==> io)
      ensures ok ==> journal.onDisk == Reloaded(journal.entries)
    {
      ok := true;
      if conversation.Some? && conversation.value != "" {
        UnfinishedSound(View(), id, journal.entries[id].(session := conversation), io);
        ok := journal.UpdateSession(id, conversation.value, io);
      }
    }

    method Record(id: ExecId, pid: int, identity: Identity, conversation: Option<string>, luck: Luck) returns (ok: bool)
      requires Valid() && id in journal.entries && !journal.entries[id].phase.Completed? && id !in completed && pid > 0
      modifies journal
      ensures Valid() && OnlyAbout(old(View()), View(), id)
      ensures id in journal.entries && journal.entries[id].phase.Running?
      ensures ok ==> journal.onDisk == Reloaded(journal.entries)
      ensures var e, named := old(journal.entries)[id], conversation.Some? && conversation.value != "";
              && ok == (luck.attach && (named && conversation != e.session ==> luck.session))
              && (ok ==> journal.entries == old(journal.entries)[id :=
                    RunnerJournal.Attached(e, pid, identity).(session := if named then conversation else e.session)])
    {
      ghost var before := journal.entries;
      ok := RecordPid(id, pid, identity, luck.attach);
      if ok {
        ghost var attached := journal.entries[id];
        ok := RecordConversation(id, conversation, luck.session);
        PutTwice(before, id, attached, attached.(session := conversation));
      }
    }

    /** The process was started: record its id, or stop it again. */
    method Launched(id: ExecId, seen: Option<string>, launch: Launch, luck: Luck) returns (answer: Option<Message>)
      requires Valid() && id in journal.entries && !journal.entries[id].phase.Completed? && id !in completed
      requires id in live && id !in running && !fatal && launch.Started? && launch.pid > 0
      requires journal.entries[id].session == seen && (seen.Some? ==> seen.value != "")
      modifies this, journal
      ensures Valid() && OnlyAbout(old(View()), View(), id) && Told(View(), id, answer)
      ensures sent == old(sent) + if answer.Some? then [answer.value] else []
      ensures answer == Reply(id, seen, launch, luck) && fatal == Dies(seen, launch, luck)
      ensures live == if Remains(seen, launch, luck) then old(live) else old(live) - {id}
      ensures running == if IsRecorded(seen, launch, luck) then old(running) + {id} else old(running)
      ensures IsRecorded(seen, launch, luck) ==>
                journal.entries == old(journal.entries)[id := Recorded(old(journal.entries)[id], seen, launch)]
    {
      var ok := Record(id, launch.pid, launch.identity, if seen.Some? then seen else launch.conversation, luck);
      if ok {
        answer := Accept(id, launch.pid);
      } else {
        answer := StopAgain(id, luck);
      }
    }

    method Accept(id: ExecId, pid: int) returns (answer: Option<Message>)
      requires Valid() && id in live && id !in completed
      requires id in journal.entries && journal.entries[id].phase.Running?
      requires id in journal.onDisk && journal.onDisk[id].phase.Running? && journal.onDisk[id].pid == Some(pid)
      modifies this`running, this`sent
      ensures Valid() && View() == old(View()).(running := old(running) + {id})
      ensures answer == Some(JobAccepted(id, pid)) && sent == old(sent) + [answer.value]
    {
      running := running + {id};
      answer := Some(JobAccepted(id, pid));
      sent := sent + [answer.value];
    }

    /** Its process id could not be recorded: the execution must not go on. */
    method StopAgain(id: ExecId, luck: Luck) returns (answer: Option<Message>)
      requires Valid() && id !in running && id !in completed && id in journal.entries && id in live
      modifies this, journal
      ensures Valid() && OnlyAbout(old(View()), View(), id) && Told(View(), id, answer)
      ensures sent == old(sent) + if answer.Some? then [answer.value] else []
      ensures answer == if luck.stops && luck.remove then Some(JobError(id, false)) else None
      ensures fatal == (old(fatal) || answer.None?) && running == old(running)
      ensures live == if luck.stops then old(live) - {id} else old(live)
    {
      if !luck.stops {
        fatal := true;
        return None;
      }
      live := live - {id};
      answer := Withdraw(id, luck.remove);
      fatal := fatal || answer.None?;
    }

    /** The process of a running execution has ended with a result. */
    method FinishJob(id: ExecId, result: Result, now: string, io: bool)
      requires Valid() && id in running && id in journal.entries && id !in live
      modifies this, journal
      ensures Valid() && live == old(live)
      ensures io ==> completed == old(completed)[id := result] && running == old(running) - {id} && fatal == old(fatal)
                     && id in journal.onDisk && journal.onDisk[id] == Normal(Finished(old(journal.entries)[id], result, now))
      ensures io ==> old(sent) <= sent && JobResult(id, result) in sent[|old(sent)|..]
      ensures !io ==> fatal && completed == old(completed) && running == old(running) && journal.onDisk == old(journal.onDisk)
                      && sent == old(sent)
    {
      var ok := Complete(id, result, now, io);
      if ok {
        FlushCompleted();
        assert completed[id] == result;
      }
    }

    method Complete(id: ExecId, result: Result, now: string, io: bool) returns (ok: bool)
      requires Valid() && id in running && id in journal.entries && id !in live
      modifies this, journal
      ensures Valid() && ok == io && sent == old(sent)
      ensures View() == (var b := Written(old(View()), old(journal.entries)[id := Finished(old(journal.entries)[id], result, now)], io);
                         if io then b.(completed := b.completed[id := result], running := b.running - {id}) else b.(fatal := true))
    {
      FinishedSound(View(), id, result, now, io);
      ok := journal.Complete(id, result, now, io);
      if ok {
        completed := completed[id := result];
        running := running - {id};
      } else {
        fatal := true;
      }
    }

    /** Sends every result that is not acknowledged, and keeps it. */
    method FlushCompleted()
      modifies this`sent
      ensures old(sent) <= sent
      ensures forall id | id in completed :: JobResult(id, completed[id]) in sent[|old(sent)|..]
      ensures forall m | m in sent[|old(sent)|..] :: m.JobResult? && m.id in completed && completed[m.id] == m.result
    {
      var rest := completed.Keys;
      while rest != {}
        invariant old(sent) <= sent && rest <= completed.Keys
        invariant forall id | id in completed && id !in rest :: JobResult(id, completed[id]) in sent[|old(sent)|..]
        invariant forall m | m in sent[|old(sent)|..] :: m.JobResult? && m.id in completed && completed[m.id] == m.result
        decreases |rest|
      {
        var id :| id in rest;
        rest := rest - {id};
        ghost var before := sent;
        sent := sent + [JobResult(id, completed[id])];
        assert sent[|old(sent)|..] == before[|old(sent)|..] + [JobResult(id, completed[id])];
      }
    }

    /** A running execution is asked to stop; a completed one is reported again; of any other nothing is
        known, and its end is not confirmed. */
    method HandleCancel(id: ExecId, dies: bool)
      requires Valid()
      modifies this`sent, this`live
      ensures Valid() && live == if id in running && dies then old(live) - {id} else old(live)
      ensures sent == old(sent) + (if id in running then [] else if id in completed then [JobResult(id, completed[id])]
                                   else [JobError(id, true)])
    {
      if id in running {
        if dies {
          live := live - {id};
        }
      } else if id in completed {
        sent := sent + [JobResult(id, completed[id])];
      } else {
        sent := sent + [JobError(id, true)];
      }
    }

    /** The controller has the result. The books stay sound unless it acknowledges what still runs, which it never does
        (RunnerRefinement.ProtocolMeansSound). */
    method HandleAck(id: ExecId, io: bool)
      requires Valid()
      modifies this, journal
      ensures id !in old(live) && id !in old(running) ==> Valid()
      ensures live == old(live) && running == old(running) && journal.entries == old(journal.entries) - {id}
      ensures io ==> completed == old(completed) - {id} && id !in journal.entries && fatal == old(fatal)
                     && (id in old(journal.entries) ==> id !in journal.onDisk)
      ensures !io && id in old(journal.entries) ==>
                fatal && journal.onDisk == old(journal.onDisk) && completed == old(completed)
      ensures id !in old(journal.entries) ==> completed == old(completed) - {id} && journal.onDisk == old(journal.onDisk)
    {
      if id !in live && id !in running {
        AckedSound(View(), id, io);
      }
      var ok := journal.Remove(id, io);
      if !ok {
        fatal := true;
        return;
      }
      completed := completed - {id};
    }
  }
}
