/** Claiming a Project OS task for a job (projects/adapters/project_os.py, prepare): a procedure
    that may be cut off after any of its durable steps and is then called again. */
module ProjectOs {
  import opened Wrappers

  type HostId = nat
  type TaskId = nat

  datatype Status = Selected | Claimed | Prepared | Submitted | SubmitFailed

  /** The stored work record of the job; its host and task are pinned when it is added. */
  datatype Work = Work(host: HostId, task: TaskId, status: Status)

  datatype Claim = Claim(host: HostId, task: TaskId)

  /** claimed: what the project on each host lists as current. claims: the claims of this
      job that took effect, in order. */
  datatype Site = Site(record: Option<Work>, claimed: map<HostId, set<TaskId>>, claims: seq<Claim>)

  function ClaimedOn(s: Site, host: HostId): set<TaskId> {
    if host in s.claimed then s.claimed[host] else {}
  }

  /** offer: what the project would select next; racing: tasks that others claim after the call has
      read the project's status; cut: how many durable steps the call survives. */
  datatype Call = Call(host: HostId, offer: Option<TaskId>, racing: set<TaskId>, cut: nat)

  datatype Write = AddRecord(host: HostId, task: TaskId) | ClaimTask(host: HostId, task: TaskId) | SetStatus(status: Status)

  function Perform(s: Site, w: Write): Site {
    match w
    case AddRecord(h, t) => s.(record := Some(Work(h, t, Selected)))
    case ClaimTask(h, t) => s.(claimed := s.claimed[h := ClaimedOn(s, h) + {t}], claims := s.claims + [Claim(h, t)])
    case SetStatus(st) => if s.record.Some? then s.(record := Some(s.record.value.(status := st))) else s
  }

  /** The first n of the steps. */
  function PerformUpTo(s: Site, ws: seq<Write>, n: nat): Site
    decreases n
  {
    if ws == [] || n == 0 then s else PerformUpTo(Perform(s, ws[0]), ws[1..], n - 1)
  }

  /** The durable steps for a selected task: claimed before (by an earlier call that was cut off, or by
      someone else), refused because others were faster, or claimed now. */
  function ClaimWrites(s: Site, c: Call, task: TaskId): seq<Write> {
    if task in ClaimedOn(s, c.host) then [SetStatus(Claimed), SetStatus(Prepared)]
    else if task in c.racing then []
    else [ClaimTask(c.host, task), SetStatus(Claimed), SetStatus(Prepared)]
  }

  /** The durable steps of a call that is not cut off. */
  function Writes(s: Site, c: Call): seq<Write> {
    match s.record
    case None =>
      if c.offer.None? then [] else [AddRecord(c.host, c.offer.value)] + ClaimWrites(s, c, c.offer.value)
    case Some(w) =>
      if w.host != c.host then []
      else if w.status.Selected? then ClaimWrites(s, c, w.task)
      else [SetStatus(Prepared)]
  }

  function AfterCall(s: Site, c: Call): Site {
    PerformUpTo(s, Writes(s, c), c.cut)
  }

  /** Between the calls: the adapter's submission changes the status, and others claim or finish tasks;
      what this job has claimed stays claimed. */
  datatype Event = Called(call: Call) | Settled(status: Status) | Others(host: HostId, tasks: set<TaskId>)

  function React(s: Site, e: Event): Site {
    match e
    case Called(c) => AfterCall(s, c)
    case Settled(st) => if st.Selected? then s else Perform(s, SetStatus(st))
    case Others(h, tasks) => s.(claimed := s.claimed[h := tasks + (set c | c in s.claims && c.host == h :: c.task)])
  }

  function History(s: Site, es: seq<Event>): Site {
    if es == [] then s else React(History(s, es[..|es| - 1]), es[|es| - 1])
  }

  function Untouched(): Site {
    Site(None, map[], [])
  }

  /** At most one claim has taken effect, it is the pinned one, and the project lists it. */
  ghost predicate Sound(s: Site) {
    match s.record
    case None => s.claims == []
    case Some(w) =>
      s.claims == [] || (s.claims == [Claim(w.host, w.task)] && w.task in ClaimedOn(s, w.host))
  }

  /** The record keeps its host and its task, and no claim is undone. */
  ghost predicate Pinned(a: Site, b: Site) {
    && (a.record.Some? ==> b.record.Some? && b.record.value.host == a.record.value.host
                           && b.record.value.task == a.record.value.task)
    && a.claims <= b.claims
  }

  lemma PrepareKeeps(s: Site, c: Call)
    requires Sound(s)
    ensures Sound(AfterCall(s, c)) && Pinned(s, AfterCall(s, c))
  {
    var ws := Writes(s, c);
    PerformShort(s, ws, c.cut);
  }

  /** A call has four durable steps at most. */
  lemma PerformShort(s: Site, ws: seq<Write>, n: nat)
    requires |ws| <= 4
    ensures PerformUpTo(s, ws, n) ==
            var s1 := if n > 0 && |ws| > 0 then Perform(s, ws[0]) else s;
            var s2 := if n > 1 && |ws| > 1 then Perform(s1, ws[1]) else s1;
            var s3 := if n > 2 && |ws| > 2 then Perform(s2, ws[2]) else s2;
            if n > 3 && |ws| > 3 then Perform(s3, ws[3]) else s3
  {
    if n > 1 && |ws| > 1 {
      var s2 := Perform(Perform(s, ws[0]), ws[1]);
      assert PerformUpTo(s, ws, n) == PerformUpTo(s2, ws[1..][1..], n - 2);
      if n > 3 && |ws| > 3 {
        assert PerformUpTo(s2, ws[1..][1..], n - 2) ==
               PerformUpTo(Perform(Perform(s2, ws[2]), ws[3]), ws[1..][1..][1..][1..], n - 4);
      }
    }
  }

  lemma ReactKeeps(s: Site, e: Event)
    requires Sound(s)
    ensures Sound(React(s, e)) && Pinned(s, React(s, e))
  {
    match e
    case Called(c) => PrepareKeeps(s, c);
    case Settled(st) =>
    case Others(h, tasks) =>
      if s.claims != [] {
        assert s.claims[0] in s.claims;
      }
  }

  /** Across any number of calls, each possibly cut off after any step, the claim takes effect at most
      once, and always for the project task and the host of the record, which never change once stored. */
  lemma {:induction false} ClaimedAtMostOnce(es: seq<Event>, more: seq<Event>)
    ensures Sound(History(Untouched(), es))
    ensures Pinned(History(Untouched(), es), History(Untouched(), es + more))
    decreases |es| + |more|
  {
    if more != [] {
      var init := more[..|more| - 1];
      ClaimedAtMostOnce(es, init);
      ClaimedAtMostOnce(es + init, []);
      assert (es + more)[..|es + more| - 1] == es + init;
      ReactKeeps(History(Untouched(), es + init), more[|more| - 1]);
    } else {
      assert es + more == es;
      if es != [] {
        ClaimedAtMostOnce(es[..|es| - 1], []);
        ReactKeeps(History(Untouched(), es[..|es| - 1]), es[|es| - 1]);
      }
    }
  }

  /** A call that is not cut off, on the pinned host and not outrun by others, leaves the project task claimed
      and the record PREPARED. */
  lemma PrepareCompletes(s: Site, c: Call)
    requires Sound(s) && c.cut >= 4 && (s.record.Some? || c.offer.Some?)
    requires s.record.Some? ==> s.record.value.host == c.host
    ensures var s' := AfterCall(s, c); var task := if s.record.Some? then s.record.value.task else c.offer.value;
            task !in c.racing || task in ClaimedOn(s, c.host) ==>
              s'.record == Some(Work(c.host, task, Prepared))
              && (s.record.None? || s.record.value.status.Selected? ==> task in ClaimedOn(s', c.host))
  {
    PerformShort(s, Writes(s, c), c.cut);
  }

  /** What a call leaves that dies after c.cut durable steps. Without work to do, or on another host than the stored one,
      that is nothing. Else the project task is stored first; it is claimed exactly if the job has not got so far yet, the project
      does not list it, and nobody was faster; and the status follows. A call that is outrun claims nothing, and leaves
      it SELECTED. */
  lemma CallExactly(s: Site, c: Call)
    ensures var s' := AfterCall(s, c);
            if (if s.record.Some? then s.record.value.host != c.host else c.offer.None? || c.cut == 0) then s' == s
            else
              var task := if s.record.Some? then s.record.value.task else c.offer.value;
              var status := if s.record.Some? then s.record.value.status else Selected;
              var listed := c.host in s.claimed && task in s.claimed[c.host];
              var left := if s.record.Some? then c.cut else c.cut - 1;
              var claims := status == Selected && !listed && task !in c.racing && left > 0;
              && s'.claims == s.claims + (if claims then [Claim(c.host, task)] else [])
              && s'.claimed == (if claims then s.claimed[c.host := ClaimedOn(s, c.host) + {task}] else s.claimed)
              && s'.record == Some(Work(c.host, task,
                   if status != Selected then if left > 0 then Prepared else status
                   else if listed then if left == 0 then Selected else if left == 1 then Claimed else Prepared
                   else if task in c.racing || left <= 1 then Selected else if left == 2 then Claimed else Prepared))
  {
    PerformShort(s, Writes(s, c), c.cut);
  }

  /** The adapter at work: the repository row, the project it talks to, and the procedure. */
  class ProjectOsAdapter {
    var record: Option<Work>
    var claimed: map<HostId, set<TaskId>>
    ghost var claims: seq<Claim>

    ghost function View(): Site
      reads this
    {
      Site(record, claimed, claims)
    }

    constructor ()
      ensures View() == Untouched()
    {
      record, claimed, claims := None, map[], [];
    }

    method SetRecord(status: Status)
      requires record.Some?
      modifies this`record
      ensures View() == Perform(old(View()), SetStatus(status))
    {
      record := Some(record.value.(status := status));
    }

    /** The call dies when `cut` durable steps are done. */
    method Prepare(c: Call)
      modifies this
      ensures View() == AfterCall(old(View()), c)
    {
      ghost var start := View();
      ghost var ws := Writes(start, c);
      PerformShort(start, ws, c.cut);
      var left := c.cut;
      var listed := if c.host in claimed then claimed[c.host] else {};
      if record.None? {
        if c.offer.None? || left == 0 {
          return;
        }
        record := Some(Work(c.host, c.offer.value, Selected));
        left := left - 1;
      } else if record.value.host != c.host {
        return;
      }
      var task := record.value.task;
      if record.value.status.Selected? {
        if task !in listed {
          if task in c.racing || left == 0 {
            return;
          }
          claimed := claimed[c.host := listed + {task}];
          claims := claims + [Claim(c.host, task)];
          left := left - 1;
        }
        if left == 0 {
          return;
        }
        SetRecord(Claimed);
        left := left - 1;
      }
      if left == 0 {
        return;
      }
      SetRecord(Prepared);
    }
  }
}
