/** The conversation of a project and a user, which one job at a time may hold
    (sessions/project_sessions.py; repositories.py, ProjectSessionRepository). */
module ProjectSessions {
  import opened Wrappers
  import opened States
  import opened Tables

  type SessionId = nat

  datatype Status = Idle | Active | Closed

  datatype Session = Session(owner: Owner, thread: Option<ThreadId>, host: Option<HostId>, status: Status,
                             last: Option<JobId>, locked: Option<JobId>, closedAt: Option<int>, lastActive: int)

  type Rows = map<SessionId, Session>

  predicate Open(row: Session) {
    !row.status.Closed? && row.closedAt.None?
  }

  predicate OpenFor(rows: Rows, o: Owner, id: SessionId) {
    id in rows && rows[id].owner == o && Open(rows[id])
  }

  /** At most one open session per owner; ACTIVE exactly when locked; CLOSED exactly when closed_at is set. */
  ghost predicate Sound(rows: Rows) {
    && (forall a, b, o | OpenFor(rows, o, a) && OpenFor(rows, o, b) :: a == b)
    && (forall a | a in rows :: Consistent(rows[a]))
  }

  predicate Consistent(row: Session) {
    && (row.status.Active? <==> row.locked.Some?)
    && (row.status.Closed? <==> row.closedAt.Some?)
  }

  ghost function OpenOf(rows: Rows, o: Owner): (r: Option<SessionId>)
    ensures if r.Some? then OpenFor(rows, o, r.value) else forall id :: !OpenFor(rows, o, id)
  {
    if exists id :: OpenFor(rows, o, id) then
      var id :| OpenFor(rows, o, id);
      Some(id)
    else None
  }

  function Busy(row: Session, j: JobId): bool {
    row.locked.Some? && row.locked.value != j
  }

  function LockedRow(row: Session, j: JobId, now: int): Session {
    row.(status := Active, last := Some(j), locked := Some(j), lastActive := now)
  }

  function FreedRow(row: Session, now: int): Session {
    row.(status := Idle, locked := None, lastActive := now)
  }

  /** The operations; now is the time at which one is carried out, id the key of a row it may add. */
  datatype Op =
    | Acquire(o: Owner, j: JobId, thread: Option<ThreadId>, host: Option<HostId>)
    | Bind(o: Owner, j: JobId, newThread: ThreadId, onHost: HostId)
    | Release(o: Owner, j: JobId)
    | ReleaseStale(target: SessionId, holder: JobId)
    | Use(target: SessionId, o: Owner)
    | New(o: Owner)
    | DiedAfterClosing(o: Owner)      // Use or New, cut off between their two commits
    | DiedAfterAdding(o: Owner, thread: Option<ThreadId>, host: Option<HostId>)   // Acquire, likewise

  function Fresh(o: Owner, thread: Option<ThreadId>, host: Option<HostId>, now: int): Session {
    Session(o, thread, host, Idle, None, None, None, now)
  }

  function Close(rows: Rows, id: SessionId, now: int): Rows
    requires id in rows
  {
    rows[id := rows[id].(status := Closed, closedAt := Some(now), lastActive := now)]
  }

  /** What use_session refuses. */
  predicate Usable(rows: Rows, target: SessionId, o: Owner) {
    target in rows && rows[target].owner == o && rows[target].thread.Some? && rows[target].locked.None?
  }

  ghost function Apply(rows: Rows, op: Op, id: SessionId, now: int): Rows {
    match op
    case Acquire(o, j, thread, host) =>
      (match OpenOf(rows, o)
       case None => if id in rows then rows else rows[id := LockedRow(Fresh(o, thread, host, now), j, now)]
       case Some(c) => if Busy(rows[c], j) then rows else rows[c := LockedRow(rows[c], j, now)])
    case Bind(o, j, newThread, onHost) =>
      (match OpenOf(rows, o)
       case None =>
         if id in rows then rows else rows[id := LockedRow(Fresh(o, Some(newThread), Some(onHost), now), j, now)]
       case Some(c) =>
         if Busy(rows[c], j) then rows
         else rows[c := LockedRow(rows[c], j, now).(thread := Some(newThread), host := Some(onHost))])
    case Release(o, j) =>
      (match OpenOf(rows, o)
       case None => rows
       case Some(c) => if Busy(rows[c], j) then rows else rows[c := FreedRow(rows[c], now).(last := Some(j))])
    case ReleaseStale(target, holder) =>
      if target in rows && rows[target].locked == Some(holder) then rows[target := FreedRow(rows[target], now)] else rows
    case Use(target, o) =>
      if !Usable(rows, target, o) then rows
      else
        (match OpenOf(rows, o)
         case Some(c) =>
           if c == target then rows[target := FreedRow(rows[target], now).(closedAt := None)]
           else if rows[c].locked.Some? then rows
           else Close(rows, c, now)[target := FreedRow(rows[target], now).(closedAt := None)]
         case None => rows[target := FreedRow(rows[target], now).(closedAt := None)])
    case New(o) =>
      (match OpenOf(rows, o)
       case Some(c) =>
         if rows[c].locked.Some? then rows
         else if id in rows then Close(rows, c, now) else Close(rows, c, now)[id := Fresh(o, None, None, now)]
       case None => if id in rows then rows else rows[id := Fresh(o, None, None, now)])
    case DiedAfterClosing(o) =>
      (match OpenOf(rows, o)
       case Some(c) => if rows[c].locked.Some? then rows else Close(rows, c, now)
       case None => rows)
    case DiedAfterAdding(o, thread, host) =>
      if OpenOf(rows, o).Some? || id in rows then rows else rows[id := Fresh(o, thread, host, now)]
  }

  lemma OpenIs(rows: Rows, o: Owner, id: SessionId)
    requires Sound(rows) && OpenFor(rows, o, id)
    ensures OpenOf(rows, o) == Some(id)
  {
  }

  /** A row is written: it may be open only if its owner has no other open row. */
  lemma PutKeeps(rows: Rows, id: SessionId, row: Session)
    requires Sound(rows) && Consistent(row)
    requires Open(row) ==> OpenOf(rows, row.owner) == None || OpenOf(rows, row.owner) == Some(id)
    ensures Sound(rows[id := row])
  {
    var rows' := rows[id := row];
    forall a, b, o | OpenFor(rows', o, a) && OpenFor(rows', o, b) ensures a == b {
      if a != id {
        assert OpenFor(rows, o, a);
      }
      if b != id {
        assert OpenFor(rows, o, b);
      }
    }
  }

  lemma ClosedHasNone(rows: Rows, o: Owner, now: int)
    requires Sound(rows) && OpenOf(rows, o).Some?
    ensures OpenOf(Close(rows, OpenOf(rows, o).value, now), o) == None
  {
    var c := OpenOf(rows, o).value;
    var r := OpenOf(Close(rows, c, now), o);
    if r.Some? {
      assert OpenFor(rows, o, r.value);
      assert false;
    }
  }

  lemma ApplyKeeps(rows: Rows, op: Op, id: SessionId, now: int)
    requires Sound(rows)
    ensures Sound(Apply(rows, op, id, now))
  {
    match op
    case Acquire(o, j, thread, host) =>
      var c := OpenOf(rows, o);
      if c.Some? { PutKeeps(rows, c.value, LockedRow(rows[c.value], j, now)); }
      else { PutKeeps(rows, id, LockedRow(Fresh(o, thread, host, now), j, now)); }
    case Bind(o, j, newThread, onHost) =>
      var c := OpenOf(rows, o);
      if c.Some? { PutKeeps(rows, c.value, LockedRow(rows[c.value], j, now).(thread := Some(newThread), host := Some(onHost))); }
      else { PutKeeps(rows, id, LockedRow(Fresh(o, Some(newThread), Some(onHost), now), j, now)); }
    case Release(o, j) =>
      var c := OpenOf(rows, o);
      if c.Some? { PutKeeps(rows, c.value, FreedRow(rows[c.value], now).(last := Some(j))); }
    case ReleaseStale(target, holder) =>
      if target in rows && rows[target].locked == Some(holder) {
        OpenIs(rows, rows[target].owner, target);
        PutKeeps(rows, target, FreedRow(rows[target], now));
      }
    case Use(target, o) =>
      if Usable(rows, target, o) {
        UseKeeps(rows, target, o, now);
      }
    case New(o) =>
      var c := OpenOf(rows, o);
      if c.Some? && rows[c.value].locked.None? {
        PutKeeps(rows, c.value, rows[c.value].(status := Closed, closedAt := Some(now), lastActive := now));
        ClosedHasNone(rows, o, now);
        PutKeeps(Close(rows, c.value, now), id, Fresh(o, None, None, now));
      } else if c.None? {
        PutKeeps(rows, id, Fresh(o, None, None, now));
      }
    case DiedAfterClosing(o) =>
      var c := OpenOf(rows, o);
      if c.Some? && rows[c.value].locked.None? {
        PutKeeps(rows, c.value, rows[c.value].(status := Closed, closedAt := Some(now), lastActive := now));
      }
    case DiedAfterAdding(o, thread, host) =>
      if OpenOf(rows, o).None? { PutKeeps(rows, id, Fresh(o, thread, host, now)); }
  }

  lemma UseKeeps(rows: Rows, target: SessionId, o: Owner, now: int)
    requires Sound(rows) && Usable(rows, target, o)
    ensures Sound(Apply(rows, Use(target, o), target, now))
  {
    var c := OpenOf(rows, o);
    var row := FreedRow(rows[target], now).(closedAt := None);
    if c.Some? && c.value != target && rows[c.value].locked.None? {
      PutKeeps(rows, c.value, rows[c.value].(status := Closed, closedAt := Some(now), lastActive := now));
      ClosedHasNone(rows, o, now);
      PutKeeps(Close(rows, c.value, now), target, row);
    } else if c.None? || c.value == target {
      PutKeeps(rows, target, row);
    }
  }

  /** A lock is only removed by a release of its own job, or by a stale release that names its holder;
      and no other job ever gets the row in its place. */
  lemma LocksAreNotStolen(rows: Rows, op: Op, id: SessionId, now: int, a: SessionId)
    requires Sound(rows) && a in rows && rows[a].locked.Some?
    ensures var rows' := Apply(rows, op, id, now); var k := rows[a].locked.value;
            && a in rows' && rows'[a].owner == rows[a].owner
            && (rows'[a].locked == Some(k) <==> op != ReleaseStale(a, k) && op != Release(rows[a].owner, k))
            && (rows'[a].locked == Some(k) || rows'[a].locked == None)
  {
    OpenIs(rows, rows[a].owner, a);
  }

  datatype Call = Call(op: Op, id: SessionId, now: int)

  ghost function History(calls: seq<Call>): Rows {
    if calls == [] then map[]
    else
      var c := calls[|calls| - 1];
      Apply(History(calls[..|calls| - 1]), c.op, c.id, c.now)
  }

  lemma {:induction false} SoundAlways(calls: seq<Call>)
    ensures Sound(History(calls))
  {
    if calls != [] {
      SoundAlways(calls[..|calls| - 1]);
      var c := calls[|calls| - 1];
      ApplyKeeps(History(calls[..|calls| - 1]), c.op, c.id, c.now);
    }
  }

  // ---- the controller's view of the rows ----

  /** locks says which job locks the session of an owner. */
  ghost predicate Shows(rows: Rows, locks: Locks) {
    && (forall a | a in rows && rows[a].locked.Some? ::
          rows[a].owner in locks && locks[rows[a].owner] == rows[a].locked.value)
    && (forall o | o in locks :: Holder(rows, o, locks[o]))
  }

  ghost predicate Holder(rows: Rows, o: Owner, j: JobId) {
    exists a | a in rows :: rows[a].owner == o && rows[a].locked == Some(j)
  }

  predicate Acquirable(locks: Locks, o: Owner, j: JobId) {
    o in locks ==> locks[o] == j
  }

  /** What the controller sees of an operation: acquire and bind take a lock that is free or the job's
      own, the releases clear the named holder's, and nothing else touches a lock. */
  function Seen(rows: Rows, locks: Locks, op: Op): Locks {
    match op
    case Acquire(o, j, _, _) => if Acquirable(locks, o, j) then locks[o := j] else locks
    case Bind(o, j, _, _) => if Acquirable(locks, o, j) then locks[o := j] else locks
    case Release(o, j) => Unlock(locks, o, j)
    case ReleaseStale(a, k) => if a in rows && rows[a].locked == Some(k) then locks - {rows[a].owner} else locks
    case _ => locks
  }

  /** The owner's open session is locked exactly as locks says. */
  lemma OpenShows(rows: Rows, locks: Locks, o: Owner)
    requires Sound(rows) && Shows(rows, locks)
    ensures match OpenOf(rows, o)
            case None => o !in locks
            case Some(c) => rows[c].locked == if o in locks then Some(locks[o]) else None
  {
    if o in locks {
      assert Holder(rows, o, locks[o]);
      var a :| a in rows && rows[a].owner == o && rows[a].locked == Some(locks[o]);
      OpenIs(rows, o, a);
    }
  }

  /** What an operation on o has to do for the locks to show it: the open session of o is locked as locks'
      says, and the rows of other owners are locked as before. */
  lemma ShowsAfter(rows: Rows, rows': Rows, locks: Locks, locks': Locks, o: Owner)
    requires Sound(rows) && Sound(rows') && Shows(rows, locks)
    requires forall p | p != o :: (p in locks' <==> p in locks) && (p in locks ==> locks'[p] == locks[p])
    requires forall a | a in rows && rows[a].owner != o ::
               a in rows' && rows'[a].owner == rows[a].owner && rows'[a].locked == rows[a].locked
    requires forall a | a in rows' && rows'[a].owner != o ::
               a in rows && rows'[a].owner == rows[a].owner && rows'[a].locked == rows[a].locked
    requires o in locks' ==> Holder(rows', o, locks'[o])
    requires forall a | a in rows' && rows'[a].owner == o && rows'[a].locked.Some? ::
               o in locks' && locks'[o] == rows'[a].locked.value
    ensures Shows(rows', locks')
  {
  }

  function OwnerOfOp(rows: Rows, op: Op): Owner {
    match op
    case ReleaseStale(a, _) => if a in rows then rows[a].owner else Owner(0, 0)
    case Acquire(o, _, _, _) => o
    case Bind(o, _, _, _) => o
    case Release(o, _) => o
    case Use(_, o) => o
    case New(o) => o
    case DiedAfterClosing(o) => o
    case DiedAfterAdding(o, _, _) => o
  }

  /** An operation changes rows of its own owner only. */
  lemma OwnRowsOnly(rows: Rows, op: Op, id: SessionId, now: int)
    requires Sound(rows) && id !in rows
    ensures var rows', o := Apply(rows, op, id, now), OwnerOfOp(rows, op);
            && (forall a | a in rows && rows[a].owner != o :: a in rows' && rows'[a] == rows[a])
            && (forall a | a in rows' && rows'[a].owner != o :: a in rows && rows'[a] == rows[a])
  {
  }

  /** How the operation leaves the locks of its owner. */
  lemma OwnLock(rows: Rows, locks: Locks, op: Op, id: SessionId, now: int)
    requires Sound(rows) && Shows(rows, locks) && id !in rows
    ensures var rows', locks', o := Apply(rows, op, id, now), Seen(rows, locks, op), OwnerOfOp(rows, op);
            && (o in locks' ==> Holder(rows', o, locks'[o]))
            && (forall a | a in rows' && rows'[a].owner == o && rows'[a].locked.Some? :: o in locks'
                  && locks'[o] == rows'[a].locked.value)
  {
    var rows', locks', o := Apply(rows, op, id, now), Seen(rows, locks, op), OwnerOfOp(rows, op);
    OpenShows(rows, locks, o);
    forall a | a in rows && rows[a].locked.Some? ensures OpenOf(rows, rows[a].owner) == Some(a) {
      OpenIs(rows, rows[a].owner, a);
    }
    if o in locks' {
      var a := if OpenOf(rows, o).Some? then OpenOf(rows, o).value else id;
      assert a in rows' && rows'[a].owner == o && rows'[a].locked == Some(locks'[o]);
    }
  }

  /** The rows refine the locks that the controller's model keeps. */
  lemma RowsRefineLocks(rows: Rows, locks: Locks, op: Op, id: SessionId, now: int)
    requires Sound(rows) && Shows(rows, locks) && id !in rows
    ensures Shows(Apply(rows, op, id, now), Seen(rows, locks, op))
  {
    ApplyKeeps(rows, op, id, now);
    OwnRowsOnly(rows, op, id, now);
    OwnLock(rows, locks, op, id, now);
    SeenElsewhere(rows, locks, op);
    ShowsAfter(rows, Apply(rows, op, id, now), locks, Seen(rows, locks, op), OwnerOfOp(rows, op));
  }

  lemma SeenElsewhere(rows: Rows, locks: Locks, op: Op)
    ensures var locks', o := Seen(rows, locks, op), OwnerOfOp(rows, op);
            forall p | p != o :: (p in locks' <==> p in locks) && (p in locks ==> locks'[p] == locks[p])
  {
  }

  // ---- the registry ----

  /** The registry works on the rows of the table; every operation runs under the lock of its owner. */
  class ProjectSessionRegistry {
    var rows: Rows

    ghost predicate Valid()
      reads this
    {
      Sound(rows)
    }

    constructor ()
      ensures Valid() && rows == map[]
    {
      rows := map[];
    }

    /** The most recently used open session of the owner. */
    method ActiveFor(o: Owner) returns (r: Option<SessionId>)
      requires Valid()
      ensures r == OpenOf(rows, o)
    {
      r := None;
      var rest := rows.Keys;
      while rest != {}
        invariant rest <= rows.Keys
        invariant r.Some? ==> OpenFor(rows, o, r.value)
        invariant r.None? ==> forall a | OpenFor(rows, o, a) :: a in rest
        decreases |rest|
      {
        var a :| a in rest;
        rest := rest - {a};
        if rows[a].owner == o && Open(rows[a]) && (r.None? || rows[a].lastActive > rows[r.value].lastActive) {
          r := Some(a);
        }
      }
      if r.Some? {
        OpenIs(rows, o, r.value);
      }
    }

    /** Some(row) with the locked session, or None for a busy one. */
    method Acquire(o: Owner, j: JobId, thread: Option<ThreadId>, host: Option<HostId>, id: SessionId, now: int)
      returns (row: Option<Session>)
      requires Valid() && id !in rows
      modifies this
      ensures Valid() && rows == Apply(old(rows), Op.Acquire(o, j, thread, host), id, now)
      ensures row.Some? <==> OpenOf(old(rows), o).Some? ==> !Busy(old(rows)[OpenOf(old(rows), o).value], j)
      ensures row.Some? ==> exists a | OpenFor(rows, o, a) :: rows[a] == row.value && row.value.locked == Some(j)
                                                                && row.value.last == Some(j) && row.value.lastActive == now
      ensures row.Some? ==> row.value.thread == if OpenOf(old(rows), o).Some? then old(rows)[OpenOf(old(rows), o).value].thread
                                                else thread
    {
      ApplyKeeps(rows, Op.Acquire(o, j, thread, host), id, now);
      var open := ActiveFor(o);
      var current := if open.Some? then open.value else id;
      if open.None? {
        rows := rows[id := Fresh(o, thread, host, now)];
      }
      if Busy(rows[current], j) {
        return None;
      }
      rows := rows[current := LockedRow(rows[current], j, now)];
      assert rows == Apply(old(rows), Op.Acquire(o, j, thread, host), id, now);
      assert OpenFor(rows, o, current);
      row := Some(rows[current]);
    }

    method BindForJob(o: Owner, j: JobId, thread: ThreadId, host: HostId, id: SessionId, now: int) returns (ok: bool)
      requires Valid() && id !in rows
      modifies this
      ensures Valid() && rows == Apply(old(rows), Bind(o, j, thread, host), id, now)
      ensures ok <==> OpenOf(old(rows), o).Some? ==> !Busy(old(rows)[OpenOf(old(rows), o).value], j)
      ensures ok ==> exists a | OpenFor(rows, o, a) ::
                rows[a].thread == Some(thread) && rows[a].host == Some(host) && rows[a].locked == Some(j)
    {
      ApplyKeeps(rows, Bind(o, j, thread, host), id, now);
      var open := ActiveFor(o);
      var current := if open.Some? then open.value else id;
      if open.None? {
        rows := rows[id := LockedRow(Fresh(o, Some(thread), Some(host), now), j, now)];
      }
      if Busy(rows[current], j) {
        return false;
      }
      rows := rows[current := LockedRow(rows[current], j, now).(thread := Some(thread), host := Some(host))];
      assert rows == Apply(old(rows), Bind(o, j, thread, host), id, now);
      assert OpenFor(rows, o, current);
      ok := true;
    }

    method ReleaseForJob(o: Owner, j: JobId, now: int)
      requires Valid()
      modifies this
      ensures Valid() && rows == Apply(old(rows), Release(o, j), 0, now)
    {
      ApplyKeeps(rows, Release(o, j), 0, now);
      var open := ActiveFor(o);
      if open.None? || Busy(rows[open.value], j) {
        return;
      }
      rows := rows[open.value := FreedRow(rows[open.value], now).(last := Some(j))];
    }

    method ReleaseStaleLock(target: SessionId, expected: JobId, now: int)
      requires Valid()
      modifies this
      ensures Valid() && rows == Apply(old(rows), ReleaseStale(target, expected), 0, now)
    {
      ApplyKeeps(rows, ReleaseStale(target, expected), 0, now);
      if target !in rows || rows[target].locked != Some(expected) {
        return;
      }
      rows := rows[target := FreedRow(rows[target], now)];
    }

    method UseSession(target: SessionId, o: Owner, now: int) returns (ok: bool)
      requires Valid()
      modifies this
      ensures Valid() && rows == Apply(old(rows), Use(target, o), 0, now)
      ensures ok <==> && target in old(rows) && old(rows)[target].owner == o && old(rows)[target].thread.Some?
                      && old(rows)[target].locked.None?
                      && (OpenOf(old(rows), o).Some? ==> old(rows)[OpenOf(old(rows), o).value].locked.None?)
      ensures ok ==> OpenOf(rows, o) == Some(target) && rows[target].thread == old(rows)[target].thread
      ensures !ok ==> rows == old(rows)
    {
      ApplyKeeps(rows, Use(target, o), 0, now);
      if !Usable(rows, target, o) {
        return false;
      }
      var open := ActiveFor(o);
      if open.Some? && open.value != target {
        if rows[open.value].locked.Some? {
          return false;
        }
        rows := Close(rows, open.value, now);
      }
      rows := rows[target := FreedRow(rows[target], now).(closedAt := None)];
      OpenIs(rows, o, target);
      ok := true;
    }

    method NewSession(o: Owner, id: SessionId, now: int) returns (ok: bool)
      requires Valid() && id !in rows
      modifies this
      ensures Valid() && rows == Apply(old(rows), New(o), id, now)
      ensures ok <==> OpenOf(old(rows), o).Some? ==> old(rows)[OpenOf(old(rows), o).value].locked.None?
      ensures ok ==> OpenOf(rows, o) == Some(id) && rows[id].thread == None
      ensures !ok ==> rows == old(rows)
    {
      ApplyKeeps(rows, New(o), id, now);
      var open := ActiveFor(o);
      if open.Some? {
        if rows[open.value].locked.Some? {
          return false;
        }
        rows := Close(rows, open.value, now);
      }
      rows := rows[id := Fresh(o, None, None, now)];
      OpenIs(rows, o, id);
      ok := true;
    }
  }
}
