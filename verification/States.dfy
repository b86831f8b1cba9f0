/** Job lifecycle: the states, the transition table and the replay of a job's
    lifecycle events (src/remote_control/controller/states.py). */
module States {

  datatype JobState =
    | Queued | Assigned | Starting | Running
    | WaitingAgent | WaitingHuman | WaitingHost | WaitingLease | WaitingQuota
    | Paused | Cancelling
    | Failed | Cancelled | Completed

  predicate Terminal(s: JobState) {
    s.Failed? || s.Cancelled? || s.Completed?
  }

  /** States a job can only be in once an agent turn has been started for it. */
  predicate Active(s: JobState) {
    s.Starting? || s.Running? || s.WaitingAgent? || s.WaitingHuman? || s.WaitingQuota? || s.Paused?
  }

  /** States in which the job waits for the scheduler and needs a recovery record. */
  predicate Waiting(s: JobState) {
    s.WaitingHost? || s.WaitingLease? || s.WaitingQuota?
  }

  /** The transition table. */
  predicate Allowed(from: JobState, to: JobState) {
    match from
    case Queued => to.Assigned? || to.Cancelling? || to.Cancelled? || to.WaitingHost? || to.WaitingLease? || to.Failed?
    case Assigned => to.Starting? || to.Cancelling? || to.Cancelled? || to.WaitingHost? || to.WaitingLease?
    case Starting =>
      to.Running? || to.Failed? || to.Cancelling? || to.Cancelled? || to.WaitingHost? || to.WaitingQuota?
      || to.Paused? || to.Completed?
    case Running =>
      to.WaitingAgent? || to.WaitingHuman? || to.WaitingHost? || to.WaitingQuota? || to.Paused?
      || to.Cancelling? || to.Failed? || to.Cancelled? || to.Completed?
    case WaitingAgent =>
      to.Running? || to.WaitingHost? || to.Failed? || to.Cancelling? || to.Cancelled? || to.Completed?
    case WaitingHuman => to.Running? || to.WaitingHost? || to.Failed? || to.Cancelling? || to.Cancelled?
    case WaitingHost => to.Assigned? || to.Cancelling? || to.Cancelled? || to.Failed?
    case WaitingLease => to.Assigned? || to.WaitingHost? || to.Cancelling? || to.Cancelled? || to.Failed?
    case WaitingQuota =>
      to.Running? || to.Starting? || to.WaitingHost? || to.Cancelling? || to.Cancelled? || to.Failed?
    case Paused => to.Running? || to.WaitingHost? || to.Cancelling? || to.Cancelled? || to.Failed?
    case Cancelling => to.Cancelled?
    case _ => false
  }

  type JobId = nat

  /** The lifecycle events written in the same transaction as the state they describe. */
  datatype Event = Created(job: JobId) | Moved(job: JobId, from: JobState, to: JobState)

  datatype Replayed = Absent | At(state: JobState) | Broken

  function Advance(r: Replayed, e: Event, j: JobId): Replayed {
    if e.job != j then r
    else match (r, e)
      case (Absent, Created(_)) => At(Queued)
      case (At(s), Moved(_, from, to)) => if from == s && Allowed(from, to) then At(to) else Broken
      case _ => Broken
  }

  /** Replays the events of job j: where its lifecycle stands, or Broken if they are not a legal path. */
  function Replay(log: seq<Event>, j: JobId): Replayed {
    if log == [] then Absent else Advance(Replay(log[..|log| - 1], j), log[|log| - 1], j)
  }

  lemma ReplayAppend(log: seq<Event>, e: Event, j: JobId)
    ensures Replay(log + [e], j) == Advance(Replay(log, j), e, j)
  {
  }

  /** Events of one job, in log order. */
  function Trail(log: seq<Event>, j: JobId): seq<Event> {
    if log == [] then []
    else
      var before := Trail(log[..|log| - 1], j);
      if log[|log| - 1].job == j then before + [log[|log| - 1]] else before
  }

  function After(e: Event): JobState {
    if e.Created? then Queued else e.to
  }

  /** A legal path as the documentation words it: it starts at QUEUED, every "from" is the
      previous "to", and every edge is in the table. */
  ghost predicate LegalPath(trail: seq<Event>) {
    && (|trail| > 0 ==> trail[0].Created?)
    && forall i | 0 < i < |trail| ::
         trail[i].Moved? && trail[i].from == After(trail[i - 1]) && Allowed(trail[i].from, trail[i].to)
  }

  lemma LegalPathSnoc(before: seq<Event>, e: Event)
    ensures LegalPath(before + [e]) <==>
              LegalPath(before) &&
              if before == [] then e.Created?
              else e.Moved? && e.from == After(before[|before| - 1]) && Allowed(e.from, e.to)
  {
    var trail := before + [e];
    assert trail[|before|] == e;
    if LegalPath(trail) {
      assert before != [] ==> trail[|before| - 1] == before[|before| - 1] && trail[0] == before[0];
      forall i | 0 < i < |before|
        ensures before[i].Moved? && before[i].from == After(before[i - 1]) && Allowed(before[i].from, before[i].to)
      {
        assert trail[i] == before[i] && trail[i - 1] == before[i - 1];
      }
    }
  }

  /** Replay succeeds exactly on legal paths, and ends where the path ends. */
  lemma {:induction false} ReplayIsLegalPath(log: seq<Event>, j: JobId)
    ensures Replay(log, j) != Broken <==> LegalPath(Trail(log, j))
    ensures Replay(log, j) == Absent <==> Trail(log, j) == []
    ensures Replay(log, j).At? ==> Replay(log, j).state == After(Trail(log, j)[|Trail(log, j)| - 1])
  {
    if log != [] {
      var init, e := log[..|log| - 1], log[|log| - 1];
      ReplayIsLegalPath(init, j);
      var before, trail := Trail(init, j), Trail(log, j);
      if e.job == j {
        assert trail == before + [e];
        LegalPathSnoc(before, e);
      }
    }
  }

  /** In the transition graph every active state lies behind the edge ASSIGNED -> STARTING. */
  lemma {:induction false} ActiveNeedsStart(log: seq<Event>, j: JobId)
    requires Replay(log, j).At? && Active(Replay(log, j).state)
    ensures Moved(j, Assigned, Starting) in log
  {
    var init, e := log[..|log| - 1], log[|log| - 1];
    if Replay(init, j).At? && Active(Replay(init, j).state) {
      ActiveNeedsStart(init, j);
    }
  }

  /** Terminal states are exactly the ones without an exit, and each keeps its job for good. */
  lemma {:induction false} TerminalIsForever(log: seq<Event>, more: seq<Event>, j: JobId)
    requires Replay(log, j).At? && Terminal(Replay(log, j).state)
    ensures Replay(log + more, j) == Replay(log, j) || Replay(log + more, j) == Broken
  {
    if more == [] {
      assert log + more == log;
    } else {
      var init := more[..|more| - 1];
      TerminalIsForever(log, init, j);
      assert log + more == (log + init) + [more[|more| - 1]];
      ReplayAppend(log + init, more[|more| - 1], j);
    }
  }
}
