/** The runner's durable record of its executions (runner_journal.py). */
module RunnerJournal {
  import opened Wrappers

  datatype Phase = Starting | Running | Completed

  /** A value of the JSON file. */
  datatype Json = Null | Str(text: string) | Int(number: int)

  /** What tells a process from others that had the same id. */
  datatype Identity = Identity(executable: Option<string>, token: Option<string>)

  /** What a finished turn left in its entry. */
  datatype Outcome = Outcome(returncode: Option<int>, message: Option<string>, retryKind: Option<string>, retryAt: Option<string>)

  datatype Entry = Entry(pid: Option<int>, directory: string, phase: Phase, boot: string, identity: Identity,
                         session: Option<string>, outcome: Outcome, startedAt: string, completedAt: Option<string>)

  /** What a finished turn reports. */
  datatype Result = Result(returncode: int, session: Option<string>, message: Option<string>,
                           retryKind: Option<string>, retryAt: Option<string>)

  /** An execution id of the controller. */
  datatype ExecId = ExecId(text: string)

  type Entries = map<ExecId, Entry>

  /** One object of the file's list of executions; a missing key reads as Null. */
  datatype Raw = Raw(executionId: Json, pid: Json, directory: Json, state: Json, bootId: Json, executable: Json,
                     token: Json, sessionId: Json, returncode: Json, finalMessage: Json, retryKind: Json,
                     retryAt: Json, startedAt: Json, completedAt: Json)

  // ---- one entry: asdict and _entry_from_dict ----

  function PhaseText(p: Phase): string {
    match p case Starting => "STARTING" case Running => "RUNNING" case Completed => "COMPLETED"
  }

  function Optional(v: Option<string>): Json {
    if v.Some? then Str(v.value) else Null
  }

  function Number(v: Option<int>): Json {
    if v.Some? then Int(v.value) else Null
  }

  function Encode(id: ExecId, e: Entry): Raw {
    Raw(Str(id.text), Number(e.pid), Str(e.directory), Str(PhaseText(e.phase)), Str(e.boot), Optional(e.identity.executable),
        Optional(e.identity.token), Optional(e.session), Number(e.outcome.returncode), Optional(e.outcome.message),
        Optional(e.outcome.retryKind), Optional(e.outcome.retryAt), Str(e.startedAt), Optional(e.completedAt))
  }

  function Decimal(n: nat): string {
    (if n < 10 then "" else Decimal(n / 10)) + [('0' as int + n % 10) as char]
  }

  /** str(value or "") */
  function Text(v: Json): string {
    match v
    case Null => ""
    case Str(s) => s
    case Int(n) => if n == 0 then "" else if n < 0 then "-" + Decimal(-n) else Decimal(n)
  }

  /** _optional_str */
  function OptionalText(v: Json): Option<string> {
    if v.Str? && v.text != "" then Some(v.text) else None
  }

  function IntOrNone(v: Json): Option<int> {
    if v.Int? then Some(v.number) else None
  }

  function PhaseOf(text: string): Option<Phase> {
    if text == "STARTING" then Some(Starting) else if text == "RUNNING" then Some(Running)
    else if text == "COMPLETED" then Some(Completed) else None
  }

  /** None stands for the RuntimeError on an invalid entry. */
  function Decode(raw: Raw): Option<(ExecId, Entry)> {
    var id, phase := Text(raw.executionId), PhaseOf(Text(raw.state));
    var boot, directory := Text(raw.bootId), Text(raw.directory);
    if id == "" || phase.None? || boot == "" || directory == ""
       || (!phase.value.Starting? && (!raw.pid.Int? || raw.pid.number <= 0)) || (phase.value.Starting? && !raw.pid.Null?)
    then None
    else Some((ExecId(id), Entry(IntOrNone(raw.pid), directory, phase.value, boot,
                         Identity(OptionalText(raw.executable), OptionalText(raw.token)), OptionalText(raw.sessionId),
                         Outcome(IntOrNone(raw.returncode), OptionalText(raw.finalMessage), OptionalText(raw.retryKind),
                                 OptionalText(raw.retryAt)),
                         if raw.startedAt.Str? then raw.startedAt.text else "", OptionalText(raw.completedAt))))
  }

  /** The entries that can be loaded again. */
  predicate Loadable(id: ExecId, e: Entry) {
    && id.text != "" && e.boot != "" && e.directory != ""
    && (if e.phase.Starting? then e.pid.None? else e.pid.Some? && e.pid.value > 0)
  }

  function Filled(v: Option<string>): Option<string> {
    if v == Some("") then None else v
  }

  /** An empty optional text is read back as a missing one. */
  function Normal(e: Entry): Entry {
    e.(identity := Identity(Filled(e.identity.executable), Filled(e.identity.token)), session := Filled(e.session),
       outcome := NormalOutcome(e.outcome), completedAt := Filled(e.completedAt))
  }

  function NormalOutcome(o: Outcome): Outcome {
    Outcome(o.returncode, Filled(o.message), Filled(o.retryKind), Filled(o.retryAt))
  }

  /** Writing and reading an entry gives it back, exactly if it is loadable. */
  lemma RoundTrip(id: ExecId, e: Entry)
    ensures Decode(Encode(id, e)) == if Loadable(id, e) then Some((id, Normal(e))) else None
    ensures Loadable(id, e) <==> id.text != "" && e.boot != "" && e.directory != ""
                                 && (if e.phase == Starting then e.pid == None else e.pid.Some? && e.pid.value > 0)
  {
  }

  // ---- the whole file ----

  /** The list of executions that _persist writes for the given order of ids. */
  function EncodeAll(entries: Entries, ids: seq<ExecId>): seq<Raw>
    requires forall id | id in ids :: id in entries
  {
    if ids == [] then [] else EncodeAll(entries, ids[..|ids| - 1]) + [Encode(ids[|ids| - 1], entries[ids[|ids| - 1]])]
  }

  /** The loop of _load. */
  function DecodeAll(file: seq<Raw>): Option<Entries> {
    if file == [] then Some(map[])
    else match (DecodeAll(file[..|file| - 1]), Decode(file[|file| - 1]))
      case (Some(entries), Some((id, e))) => Some(entries[id := e])
      case _ => None
  }

  function NormalAll(entries: Entries, ids: seq<ExecId>): Entries
    requires forall id | id in ids :: id in entries
  {
    map id | id in ids :: Normal(entries[id])
  }

  lemma DecodeMore(file: seq<Raw>, raw: Raw)
    ensures DecodeAll(file + [raw]) == match (DecodeAll(file), Decode(raw))
              case (Some(entries), Some((id, e))) => Some(entries[id := e])
              case _ => None
  {
  }

  lemma NormalMore(entries: Entries, ids: seq<ExecId>, id: ExecId)
    requires id in entries && forall k | k in ids :: k in entries
    ensures NormalAll(entries, ids + [id]) == NormalAll(entries, ids)[id := Normal(entries[id])]
  {
  }

  lemma {:induction false} FileRoundTrip(entries: Entries, ids: seq<ExecId>)
    requires forall id | id in ids :: id in entries
    ensures DecodeAll(EncodeAll(entries, ids)) ==
            if forall id | id in ids :: Loadable(id, entries[id]) then Some(NormalAll(entries, ids)) else None
  {
    if ids != [] {
      var init, last := ids[..|ids| - 1], ids[|ids| - 1];
      assert ids == init + [last];
      FileRoundTrip(entries, init);
      RoundTrip(last, entries[last]);
      DecodeMore(EncodeAll(entries, init), Encode(last, entries[last]));
      NormalMore(entries, init, last);
    }
  }

  ghost predicate AllLoadable(entries: Entries) {
    forall id | id in entries :: Loadable(id, entries[id])
  }

  /** What a successful load gives back for the entries of memory. */
  function Reloaded(entries: Entries): Entries {
    map id | id in entries :: Normal(entries[id])
  }

  lemma EncodeMore(entries: Entries, ids: seq<ExecId>, id: ExecId)
    requires id in entries && forall k | k in ids :: k in entries
    ensures EncodeAll(entries, ids + [id]) == EncodeAll(entries, ids) + [Encode(id, entries[id])]
  {
  }

  /** Whatever the order of the list: the file of a loadable journal reads back as the journal. */
  lemma FileOfAll(entries: Entries, ids: seq<ExecId>)
    requires AllLoadable(entries) && forall id :: id in ids <==> id in entries
    ensures DecodeAll(EncodeAll(entries, ids)) == Some(Reloaded(entries))
  {
    FileRoundTrip(entries, ids);
    assert NormalAll(entries, ids) == Reloaded(entries);
  }

  // ---- the operations ----

  function Reserved(directory: string, boot: string, session: Option<string>, now: string): Entry {
    Entry(None, directory, Starting, boot, Identity(None, None), session, Outcome(None, None, None, None), now, None)
  }

  function Attached(e: Entry, pid: int, identity: Identity): Entry {
    e.(pid := Some(pid), identity := identity, phase := Running)
  }

  function Finished(e: Entry, r: Result, now: string): Entry {
    e.(phase := Completed, session := if r.session.Some? && r.session.value != "" then r.session else e.session,
       outcome := Outcome(Some(r.returncode), r.message, r.retryKind, r.retryAt), completedAt := Some(now))
  }

  /** to_result gives back what complete stored; a result without a conversation takes the entry's. */
  function ToResult(e: Entry): Result {
    var o := e.outcome;
    Result(if o.returncode.Some? then o.returncode.value else 1, e.session, o.message, o.retryKind, o.retryAt)
  }

  lemma ResultSurvives(e: Entry, r: Result, now: string)
    ensures var back := ToResult(Normal(Finished(e, r, now)));
            && back.returncode == r.returncode && back.message == Filled(r.message)
            && back.retryKind == Filled(r.retryKind) && back.retryAt == Filled(r.retryAt)
            && back.session == Filled(if Filled(r.session).Some? then r.session else e.session)
  {
  }

  /** Completing an entry keeps the journal loadable exactly if the entry has a process id, so not while
      it is STARTING: complete itself does not look at the state. */
  lemma CompleteLoadable(id: ExecId, e: Entry, r: Result, now: string)
    requires Loadable(id, e)
    ensures Loadable(id, Finished(e, r, now)) <==> !e.phase.Starting?
  {
  }

  /** The journal: `_entries` in memory and the file on disk, which is replaced as a whole or not at all. */
  class Journal {
    var entries: Entries
    var disk: seq<Raw>
    ghost var onDisk: Entries     // the entries a restarted runner would see

    /** What is on disk can be loaded, and everything in memory could be persisted. */
    ghost predicate Valid()
      reads this
    {
      AllLoadable(entries) && DecodeAll(disk) == Some(onDisk)
    }

    /** _load of an existing file; the caller sees the error as None. */
    static method Load(file: seq<Raw>) returns (entries: Option<Entries>)
      ensures entries == DecodeAll(file)
    {
      var loaded: Entries := map[];
      var i := 0;
      while i < |file|
        invariant 0 <= i <= |file| && DecodeAll(file[..i]) == Some(loaded)
      {
        assert file[..i + 1][..i] == file[..i];
        match Decode(file[i]) {
          case None =>
            NoneStays(file, i + 1);
            return None;
          case Some((id, e)) => loaded := loaded[id := e];
        }
        i := i + 1;
      }
      assert file[..i] == file;
      entries := Some(loaded);
    }

    /** The text of the file, in some order of the executions. */
    method Listing() returns (file: seq<Raw>)
      requires Valid()
      ensures DecodeAll(file) == Some(Reloaded(entries))
    {
      var rest, ids := entries.Keys, [];
      file := [];
      while rest != {}
        invariant rest <= entries.Keys && (forall id :: id in ids <==> id in entries && id !in rest)
        invariant file == EncodeAll(entries, ids)
        decreases |rest|
      {
        var id :| id in rest;
        rest := rest - {id};
        EncodeMore(entries, ids, id);
        ids := ids + [id];
        file := file + [Encode(id, entries[id])];
      }
      FileOfAll(entries, ids);
    }

    /** _persist: io says whether the write succeeds. */
    method Persist(io: bool) returns (ok: bool)
      requires Valid()
      modifies this`disk, this`onDisk
      ensures Valid() && ok == io
      ensures onDisk == if io then Reloaded(entries) else old(onDisk)
    {
      var file := Listing();
      if io {
        disk := file;
        onDisk := Reloaded(entries);
      }
      ok := io;
    }

    /** The entry stays in memory even if it cannot be persisted. */
    method Reserve(id: ExecId, directory: string, boot: string, session: Option<string>, now: string,
          io: bool) returns (ok: bool)
      requires Valid() && id.text != "" && directory != "" && boot != ""
      modifies this
      ensures Valid() && ok == io && entries == old(entries)[id := Reserved(directory, boot, session, now)]
      ensures onDisk == if io then Reloaded(entries) else old(onDisk)
    {
      entries := entries[id := Reserved(directory, boot, session, now)];
      ok := Persist(io);
    }

    method AttachPid(id: ExecId, pid: int, identity: Identity, io: bool) returns (ok: bool)
      requires Valid()
      modifies this
      ensures Valid() && ok == (id in old(entries) && pid > 0 && io)
      ensures entries == if id in old(entries) && pid > 0
                         then old(entries)[id := Attached(old(entries)[id], pid, identity)] else old(entries)
      ensures onDisk == if ok then Reloaded(entries) else old(onDisk)
    {
      if id !in entries || pid <= 0 {
        return false;
      }
      entries := entries[id := Attached(entries[id], pid, identity)];
      ok := Persist(io);
    }

    method UpdateSession(id: ExecId, session: string, io: bool) returns (ok: bool)
      requires Valid()
      modifies this
      ensures Valid()
      ensures ok <==> id !in old(entries) || old(entries)[id].session == Some(session) || io
      ensures entries == if id in old(entries) then old(entries)[id := old(entries)[id].(session := Some(session))] else old(entries)
      ensures onDisk == if ok && entries != old(entries) then Reloaded(entries) else old(onDisk)
    {
      if id !in entries || entries[id].session == Some(session) {
        return true;
      }
      entries := entries[id := entries[id].(session := Some(session))];
      ok := Persist(io);
    }

    /** Its callers complete executions that have a process id. */
    method Complete(id: ExecId, r: Result, now: string, io: bool) returns (ok: bool)
      requires Valid() && (id in entries ==> !entries[id].phase.Starting?)
      modifies this
      ensures Valid() && ok == (id in old(entries) && io)
      ensures entries == if id in old(entries) then old(entries)[id := Finished(old(entries)[id], r, now)] else old(entries)
      ensures onDisk == if ok then Reloaded(entries) else old(onDisk)
    {
      if id !in entries {
        return false;
      }
      entries := entries[id := Finished(entries[id], r, now)];
      ok := Persist(io);
    }

    method Remove(id: ExecId, io: bool) returns (ok: bool)
      requires Valid()
      modifies this
      ensures Valid() && entries == old(entries) - {id} && ok == (id !in old(entries) || io)
      ensures onDisk == if ok && id in old(entries) then Reloaded(entries) else old(onDisk)
    {
      if id !in entries {
        return true;
      }
      entries := entries - {id};
      ok := Persist(io);
    }
  }

  lemma {:induction false} NoneStays(file: seq<Raw>, i: nat)
    requires i <= |file| && DecodeAll(file[..i]) == None
    ensures DecodeAll(file) == None
    decreases |file|
  {
    if i == |file| {
      assert file[..i] == file;
    } else {
      var init := file[..|file| - 1];
      assert init[..i] == file[..i];
      NoneStays(init, i);
    }
  }
}
