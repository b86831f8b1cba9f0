/** The daemon's books, with full entries, seen as the runner of the protocol: what a procedure of the daemon
    writes is what the step of the protocol says (runner_daemon.py, runner_journal.py). */
module RunnerRefinement {
  import opened Wrappers
  import J = RunnerJournal
  import D = RunnerDaemon
  import P = RunnerProtocol

  predicate Definite(r: J.Result) {
    r.retryKind != Some("host") && r.retryKind != Some("cancel_unconfirmed")
  }

  function ResultOf(r: J.Result): P.Result {
    P.Result(r.returncode, Definite(r))
  }

  function EntryOf(e: J.Entry): P.Entry {
    match e.phase
    case Starting => P.Starting
    case Running => P.Running
    case Completed => P.Completed(ResultOf(J.ToResult(e)))
  }

  function EntriesOf(entries: J.Entries): P.Entries {
    map id | id in entries :: EntryOf(entries[id])
  }

  function ResultsOf(completed: map<J.ExecId, J.Result>): map<P.ExecId, P.Result> {
    map id | id in completed :: ResultOf(completed[id])
  }

  /** The runner of the protocol that the books stand for. */
  function RunnerOf(b: D.Books, mode: P.Mode, start: P.Start): P.Runner {
    P.Runner(mode, EntriesOf(b.entries), EntriesOf(b.onDisk), ResultsOf(b.completed), b.running, start, b.fatal)
  }

  /** The state of the protocol is what the daemon and its processes are in. */
  predicate Matches(b: D.Books, s: P.State) {
    s.runner == RunnerOf(b, s.runner.mode, s.runner.start) && s.live == b.live
  }

  lemma NormalIsSame(e: J.Entry)
    ensures EntryOf(J.Normal(e)) == EntryOf(e)
  {
  }

  lemma ReloadedIsSame(entries: J.Entries)
    ensures EntriesOf(J.Reloaded(entries)) == EntriesOf(entries)
  {
    forall id | id in entries ensures EntryOf(J.Normal(entries[id])) == EntryOf(entries[id]) {
      NormalIsSame(entries[id]);
    }
  }

  /** Writing the journal. */
  lemma WriteRefines(b: D.Books, s: P.State, entries: J.Entries, io: bool)
    requires Matches(b, s)
    ensures var s' := P.Journal(s, EntriesOf(entries), io);
            s'.runner == RunnerOf(D.Written(b, entries, io), s.runner.mode, s.runner.start) && s'.live == b.live
  {
    ReloadedIsSame(entries);
  }

  lemma PutIsPut(entries: J.Entries, id: J.ExecId, e: J.Entry)
    ensures EntriesOf(entries[id := e]) == EntriesOf(entries)[id := EntryOf(e)]
    ensures EntriesOf(entries - {id}) == EntriesOf(entries) - {id}
  {
  }

  /** Daemon.StartJob reserves: the step TakeStart of a valid request. */
  lemma ReserveRefines(b: D.Books, s: P.State, id: J.ExecId, directory: string, boot: string, session: Option<string>, now: string, io: bool)
    requires Matches(b, s) && P.Enabled(s, P.TakeStart(true, io)) && s.net.toRunner[0].e == id
    ensures Matches(D.Written(b, b.entries[id := J.Reserved(directory, boot, session, now)], io), P.Next(s, P.TakeStart(true, io)))
  {
    WriteRefines(b, s, b.entries[id := J.Reserved(directory, boot, session, now)], io);
    PutIsPut(b.entries, id, J.Reserved(directory, boot, session, now));
  }

  lemma SpawnRefines(b: D.Books, s: P.State, id: J.ExecId)
    requires Matches(b, s) && P.Enabled(s, P.Spawn) && s.runner.start.e == id
    ensures Matches(b.(live := b.live + {id}), P.Next(s, P.Spawn))
  {
  }

  /** Daemon.Withdraw: the start has failed without a process. */
  lemma WithdrawRefines(b: D.Books, s: P.State, id: J.ExecId, io: bool)
    requires Matches(b, s) && P.Enabled(s, P.SpawnFails(io)) && s.runner.start.e == id
    ensures Matches(D.Written(b, b.entries - {id}, io), P.Next(s, P.SpawnFails(io)))
  {
    WriteRefines(b, s, b.entries - {id}, io);
    PutIsPut(b.entries, id, J.Reserved("", "", None, ""));
  }

  /** Daemon.RecordPid and Accept: the process id is on disk, and the execution is running. */
  lemma AttachRefines(b: D.Books, s: P.State, id: J.ExecId, pid: int, identity: J.Identity)
    requires Matches(b, s) && P.Enabled(s, P.Attach(true, false)) && s.runner.start.e == id && id in b.entries
    ensures var b' := D.Written(b, b.entries[id := J.Attached(b.entries[id], pid, identity)], true);
            Matches(b'.(running := b.running + {id}), P.Next(s, P.Attach(true, false)))
  {
    WriteRefines(b, s, b.entries[id := J.Attached(b.entries[id], pid, identity)], true);
    PutIsPut(b.entries, id, J.Attached(b.entries[id], pid, identity));
  }

  /** The conversation is not part of the protocol: recording it is no step. */
  lemma ConversationRefines(b: D.Books, s: P.State, id: J.ExecId, conversation: Option<string>)
    requires Matches(b, s) && id in b.entries && EntriesOf(b.onDisk) == EntriesOf(b.entries)
    ensures Matches(D.Written(b, b.entries[id := b.entries[id].(session := conversation)], true), s)
  {
    var e := b.entries[id].(session := conversation);
    WriteRefines(b, s, b.entries[id := e], true);
    PutIsPut(b.entries, id, e);
    assert EntryOf(e) == EntryOf(b.entries[id]);
    assert EntriesOf(b.entries)[id := EntryOf(e)] == EntriesOf(b.entries);
  }

  /** Daemon.Complete. */
  lemma FinishRefines(b: D.Books, s: P.State, id: J.ExecId, result: J.Result, now: string, io: bool)
    requires Matches(b, s) && P.Enabled(s, P.Finish(id, ResultOf(result), io)) && s.runner.start.Idle?
    ensures var b' := D.Written(b, b.entries[id := J.Finished(b.entries[id], result, now)], io);
            Matches(if io then b'.(completed := b.completed[id := result], running := b.running - {id}) else b'.(fatal := true),
                    P.Next(s, P.Finish(id, ResultOf(result), io)))
  {
    var e := J.Finished(b.entries[id], result, now);
    WriteRefines(b, s, b.entries[id := e], io);
    PutIsPut(b.entries, id, e);
    assert EntryOf(e) == P.Completed(ResultOf(result));
    assert ResultsOf(b.completed[id := result]) == ResultsOf(b.completed)[id := ResultOf(result)];
  }

  /** Daemon.HandleAck. */
  lemma AckRefines(b: D.Books, s: P.State, id: J.ExecId, io: bool)
    requires Matches(b, s) && P.Enabled(s, P.TakeAck(io)) && s.net.toRunner[0].e == id && id in b.entries && s.runner.start.Idle?
    ensures var b' := D.Written(b, b.entries - {id}, io);
            Matches(if io then b'.(completed := b.completed - {id}) else b'.(fatal := true), P.Next(s, P.TakeAck(io)))
  {
    WriteRefines(b, s, b.entries - {id}, io);
    PutIsPut(b.entries, id, b.entries[id]);
    assert ResultsOf(b.completed - {id}) == ResultsOf(b.completed) - {id};
  }

  /** Daemon.LaunchUnsafe: the start has failed, and its process may still run. */
  lemma UnsafeRefines(b: D.Books, s: P.State, id: J.ExecId, pid: int, io: bool)
    requires Matches(b, s) && P.Enabled(s, P.SpawnUnsafe(io)) && s.runner.start.e == id && id in b.entries
    ensures var b' := D.Written(b.(live := b.live + {id}), b.entries[id := J.Attached(b.entries[id], pid, J.Identity(None, None))], io);
            Matches(b'.(fatal := true), P.Next(s, P.SpawnUnsafe(io)))
  {
    var e := J.Attached(b.entries[id], pid, J.Identity(None, None));
    WriteRefines(b, s, b.entries[id := e], io);
    PutIsPut(b.entries, id, e);
  }

  /** Daemon.Record when the process id does not reach the disk, ... */
  lemma FailedAttachRefines(b: D.Books, s: P.State, id: J.ExecId, pid: int, identity: J.Identity, late: bool)
    requires Matches(b, s) && P.Enabled(s, P.Attach(false, late)) && s.runner.start.e == id && id in b.entries
    ensures Matches(D.Written(b, b.entries[id := J.Attached(b.entries[id], pid, identity)], false), P.Next(s, P.Attach(false, late)))
  {
    WriteRefines(b, s, b.entries[id := J.Attached(b.entries[id], pid, identity)], false);
    PutIsPut(b.entries, id, J.Attached(b.entries[id], pid, identity));
  }

  /** ... or when the conversation does not, after the process id did. */
  lemma LateAttachRefines(b: D.Books, s: P.State, id: J.ExecId, pid: int, identity: J.Identity, conversation: Option<string>)
    requires Matches(b, s) && P.Enabled(s, P.Attach(true, true)) && s.runner.start.e == id && id in b.entries
    ensures var e := J.Attached(b.entries[id], pid, identity); var b1 := D.Written(b, b.entries[id := e], true);
            Matches(D.Written(b1, b1.entries[id := e.(session := conversation)], false), P.Next(s, P.Attach(true, true)))
  {
    var e := J.Attached(b.entries[id], pid, identity);
    var b1 := D.Written(b, b.entries[id := e], true);
    WriteRefines(b, s, b.entries[id := e], true);
    PutIsPut(b.entries, id, e);
    PutIsPut(b1.entries, id, e.(session := conversation));
    assert EntriesOf(b1.entries)[id := P.Running] == EntriesOf(b1.entries);
  }

  /** Daemon.StopAgain: the process of a failed attach is stopped and its entry removed, or the daemon dies. */
  lemma GiveUpRefines(b: D.Books, s: P.State, id: J.ExecId, killed: bool, io: bool)
    requires Matches(b, s) && P.Enabled(s, P.GiveUp(killed, io)) && s.runner.start.e == id && id in b.entries
    ensures var b' := D.Written(b.(live := b.live - {id}), b.entries - {id}, io);
            Matches(if !killed then b.(fatal := true) else if io then b' else b'.(fatal := true), P.Next(s, P.GiveUp(killed, io)))
  {
    WriteRefines(b, s, b.entries - {id}, io);
    PutIsPut(b.entries, id, b.entries[id]);
  }

  /** The answer of Daemon.HandleCancel. */
  function CancelAnswer(b: D.Books, id: J.ExecId): seq<P.ToController> {
    if id in b.running then []
    else if id in b.completed then [P.JobResult(id, ResultOf(b.completed[id]))] else [P.JobError(id, false)]
  }

  /** Daemon.HandleCancel: the request changes no book. A process that obeys ends by itself. */
  lemma CancelRefines(b: D.Books, s: P.State, id: J.ExecId)
    requires Matches(b, s) && P.Enabled(s, P.TakeCancel) && s.net.toRunner[0].e == id
    ensures Matches(b, P.Next(s, P.TakeCancel))
    ensures P.Next(s, P.TakeCancel).net.toController == s.net.toController + CancelAnswer(b, id)
    ensures Matches(b.(live := b.live - {id}), P.Next(P.Next(s, P.TakeCancel), P.ProcessEnds(id)))
  {
  }

  /** Daemon.RecoverEntry of a kept result. */
  lemma RecoverKeepsRefines(b: D.Books, s: P.State, id: J.ExecId, stopped: bool, io: bool)
    requires Matches(b, s) && P.Enabled(s, P.Recover(id, stopped, io)) && id in b.entries && b.entries[id].phase.Completed?
    ensures Matches(b.(completed := b.completed[id := J.ToResult(b.entries[id])]), P.Next(s, P.Recover(id, stopped, io)))
  {
    var result := J.ToResult(b.entries[id]);
    assert EntriesOf(b.entries)[id] == P.Completed(ResultOf(result));
    assert ResultsOf(b.completed[id := result]) == ResultsOf(b.completed)[id := ResultOf(result)];
  }

  /** ... of a running execution whose process is stopped: it ends with code 130. */
  lemma RecoverStopsRefines(b: D.Books, s: P.State, id: J.ExecId, message: string, now: string)
    requires Matches(b, s) && P.Enabled(s, P.Recover(id, true, true)) && id in b.entries && b.entries[id].phase.Running?
    ensures var result := J.Result(130, b.entries[id].session, Some(message), None, None);
            var b' := D.Written(b.(live := b.live - {id}), b.entries[id := J.Finished(b.entries[id], result, now)], true);
            Matches(b'.(completed := b.completed[id := result]), P.Next(s, P.Recover(id, true, true)))
  {
    var result := J.Result(130, b.entries[id].session, Some(message), None, None);
    var e := J.Finished(b.entries[id], result, now);
    assert EntriesOf(b.entries)[id] == P.Running && ResultOf(result) == P.Result(130, true);
    WriteRefines(b, s, b.entries[id := e], true);
    PutIsPut(b.entries, id, e);
    assert ResultsOf(b.completed[id := result]) == ResultsOf(b.completed)[id := ResultOf(result)];
  }

  /** ... and in all other cases the daemon refuses to serve, and leaves the file and the processes behind. */
  lemma RecoverRefusesRefines(b: D.Books, s: P.State, id: J.ExecId, stopped: bool, io: bool)
    requires Matches(b, s) && P.Enabled(s, P.Recover(id, stopped, io)) && id in b.entries && !b.entries[id].phase.Completed?
    requires b.entries[id].phase.Starting? || !stopped || !io
    ensures var s' := P.Next(s, P.Recover(id, stopped, io));
            && s'.runner.mode.Down? && s'.runner.disk == EntriesOf(b.onDisk)
            && s'.live == if b.entries[id].phase.Running? && stopped then b.live - {id} else b.live
  {
    assert EntriesOf(b.entries)[id] == EntryOf(b.entries[id]);
  }

  /** So the invariants of the protocol give those of the daemon between two await points: in particular
      an acknowledged execution has no process and is not running, as Daemon.HandleAck takes for granted. */
  lemma ProtocolMeansSound(b: D.Books, s: P.State)
    requires Matches(b, s) && P.Inv(s) && s.runner.mode.Up?
    ensures D.Covers(b.entries, b.live) && D.Covers(b.onDisk, b.live)
    ensures forall id | id in b.completed :: id !in b.live
    ensures P.Enabled(s, P.TakeAck(true)) ==>
              s.net.toRunner[0].e !in b.live && (!b.fatal ==> s.net.toRunner[0].e !in b.running)
    ensures !b.fatal ==> (forall id :: id in b.completed <==> id in b.entries && b.entries[id].phase.Completed?)
                         && (forall id | id in b.completed :: ResultOf(b.completed[id]) == ResultOf(J.ToResult(b.entries[id])))
  {
    forall id | id in b.live
      ensures id in b.entries && !b.entries[id].phase.Completed? && id in b.onDisk && !b.onDisk[id].phase.Completed?
    {
      assert id in s.runner.entries && !s.runner.entries[id].Completed?;
      assert id in s.runner.disk && !s.runner.disk[id].Completed?;
    }
    if !b.fatal {
      forall id
        ensures id in b.completed <==> id in b.entries && b.entries[id].phase.Completed?
        ensures id in b.completed ==> ResultOf(b.completed[id]) == ResultOf(J.ToResult(b.entries[id]))
      {
        assert id in s.runner.completed <==> id in s.runner.entries && s.runner.entries[id].Completed?;
      }
    }
  }
}
