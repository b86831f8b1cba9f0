/** Consecutive waits for quota: the attempts that the controller counts and the back-off that goes with
    them (job_manager.py, _enter_quota_wait and _retry_quota; recovery/quota.py). */
module QuotaWaits {
  import opened Wrappers
  import opened States
  import opened Tables
  import opened Transactions
  import opened Scheduler
  import Quota

  /** The delays of the controller's settings. */
  datatype Settings = Settings(initialSeconds: int, maxSeconds: int, graceSeconds: int)

  /** The job hits the limit at a time, and the provider may say when it resets. */
  datatype Hit = Hit(at: int, reset: Option<int>)

  /** When the job is to be resumed. */
  function Due(settings: Settings, s: State, j: JobId, hit: Hit): int {
    Quota.RetryAt(Attempts(s.db, j) + 1, settings.initialSeconds, settings.maxSeconds, hit.reset, settings.graceSeconds,
                  hit.at)
  }

  function Waited(settings: Settings, s: State, j: JobId, hit: Hit): State
    requires j in s.db.jobs
  {
    QuotaWait(s, j, Due(settings, s, j, hit))
  }

  /** The job hits the limit again and again and is resumed after each wait. */
  function Rounds(world: World, settings: Settings, s: State, j: JobId, hits: seq<Hit>): (r: State)
    requires Is(s, j, Running)
    requires forall h | s.db.jobs[j].host == Some(h) :: world.online(h)
    ensures Is(r, j, Running) && r.db.jobs[j] == s.db.jobs[j] && r.mem.handles == s.mem.handles
    ensures hits != [] ==> j in r.db.recovery
    ensures Attempts(r.db, j) == Attempts(s.db, j) + |hits| && Position(r.db, j) == Position(s.db, j)
  {
    if hits == [] then s
    else
      var r := Rounds(world, settings, s, j, hits[..|hits| - 1]);
      RetryQuota(world, Waited(settings, r, j, hits[|hits| - 1]), j)
  }

  /** The record of a wait that counts as the n-th. */
  ghost predicate NthRecord(settings: Settings, r: Recovery, n: nat, hit: Hit) {
    var grace := if settings.graceSeconds > 0 then settings.graceSeconds else 0;
    var initial := if settings.initialSeconds > 1 then settings.initialSeconds else 1;
    var maximum := if settings.maxSeconds > initial then settings.maxSeconds else initial;
    && n >= 1 && r.kind.QuotaKind? && r.mode.ResumeMode? && r.attempts == n
    && r.due == Some(if hit.reset.Some? && hit.reset.value + grace > hit.at then hit.reset.value + grace
                     else hit.at + Quota.Doubling(n, initial, maximum))
    && r.due.value > hit.at
  }

  /** What a hit leaves: the job waits, with its lease and its lock; the record counts the wait and says when it ends. */
  lemma WaitedRecord(settings: Settings, s: State, j: JobId, hit: Hit)
    requires Is(s, j, Starting) || Is(s, j, Running)
    ensures var d := Waited(settings, s, j, hit).db;
            && d.jobs == s.db.jobs[j := s.db.jobs[j].(state := WaitingQuota)]
            && d.leases == s.db.leases && d.locks == s.db.locks && d.ledger == s.db.ledger
            && j in d.recovery && d.recovery == s.db.recovery[j := d.recovery[j]]
            && NthRecord(settings, d.recovery[j], (if j in s.db.recovery then s.db.recovery[j].attempts else 0) + 1, hit)
            && d.recovery[j].exec == (if j in s.mem.handles then Some(s.mem.handles[j]) else None)
            && d.recovery[j].position == (if j in s.db.recovery then s.db.recovery[j].position else None)
  {
    Quota.RetryIsAhead(Attempts(s.db, j) + 1, settings.initialSeconds, settings.maxSeconds, hit.reset,
                       settings.graceSeconds, hit.at);
  }

  /** The n-th consecutive wait is counted as the n-th. It ends when the provider's reset, with the grace period, is
      over, if that lies ahead, and else after the n-th term of the doubling sequence. */
  lemma NthWaitDoubles(world: World, settings: Settings, s: State, j: JobId, hits: seq<Hit>, hit: Hit)
    requires Is(s, j, Running) && (j in s.db.recovery ==> s.db.recovery[j].attempts == 0)
    requires forall h | s.db.jobs[j].host == Some(h) :: world.online(h)
    ensures var r := Waited(settings, Rounds(world, settings, s, j, hits), j, hit);
            Is(r, j, WaitingQuota) && j in r.db.recovery && NthRecord(settings, r.db.recovery[j], |hits| + 1, hit)
  {
    WaitedRecord(settings, Rounds(world, settings, s, j, hits), j, hit);
  }
}
