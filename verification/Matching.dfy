/** Which reported execution a job may take over when a runner reconnects
    (job_manager.py, reconcile_runner and _match_reported_execution). */
module Matching {
  import opened Wrappers
  import opened States
  import opened Tables

  /** Ledger rows that reconciliation consults: unacknowledged ones of this runner instance. */
  predicate Visible(row: Execution, snap: Snapshot) {
    row.host == snap.host && row.runner == snap.runner && row.state != Acknowledged
  }

  function Consulted(ledger: Ledger, snap: Snapshot): Ledger {
    map e | e in ledger && Visible(ledger[e], snap) :: ledger[e]
  }

  /** Completed executions whose owner has ended: acknowledged at once and dropped from the snapshot. */
  function Settled(jobs: Jobs, ledger: Ledger, snap: Snapshot): set<ExecId> {
    set e | e in Consulted(ledger, snap) && e in snap.completed
            && ledger[e].job in jobs && Terminal(jobs[ledger[e].job].state)
  }

  function Reported(jobs: Jobs, ledger: Ledger, snap: Snapshot): Reports {
    (snap.running + snap.completed) - Settled(jobs, ledger, snap)
  }

  /** Rows still owned after the settled ones, and after a complete snapshot the absent ones, are gone. */
  function Owned(jobs: Jobs, ledger: Ledger, snap: Snapshot): Ledger {
    map e | e in Consulted(ledger, snap) && e !in Settled(jobs, ledger, snap)
            && (snap.complete ==> e in Reported(jobs, ledger, snap)) :: ledger[e]
  }

  predicate OwnedHit(owned: Ledger, reported: Reports, j: JobId, e: ExecId) {
    e in owned && owned[e].job == j && e in reported
  }

  /** The owner's most recent reported execution: the last hit in ledger order. */
  function LastOwned(order: seq<ExecId>, owned: Ledger, reported: Reports, j: JobId): (r: Option<ExecId>)
    ensures r.None? ==> forall k | 0 <= k < |order| :: !OwnedHit(owned, reported, j, order[k])
    ensures r.Some? ==> OwnedHit(owned, reported, j, r.value) && exists i | 0 <= i < |order| ::
              order[i] == r.value && forall k | i < k < |order| :: !OwnedHit(owned, reported, j, order[k])
  {
    if order == [] then None
    else
      var e := order[|order| - 1];
      if OwnedHit(owned, reported, j, e) then Some(e)
      else LastOwned(order[..|order| - 1], owned, reported, j)
  }

  /** A reported execution that may belong to the job: its ledger owner, or without one the same
      conversation; in the job's working tree, and not older than the job. */
  predicate Candidate(job: Job, j: JobId, target: Path, owned: Ledger, reported: Reports, e: ExecId) {
    && e in reported
    && (if e in owned then owned[e].job == j else job.thread.Some? && reported[e].thread == job.thread)
    && reported[e].path == Some(target)
    && reported[e].started.Some? && reported[e].started.value >= job.created
  }

  /** The candidate that started last, if no other started at the same time. */
  ghost predicate UniqueLatest(job: Job, j: JobId, target: Path, owned: Ledger, reported: Reports, e: ExecId) {
    && Candidate(job, j, target, owned, reported, e)
    && forall f | f != e && Candidate(job, j, target, owned, reported, f) ::
         reported[f].started.value < reported[e].started.value
  }

  ghost function Match(job: Job, j: JobId, target: Path, owned: Ledger, reported: Reports): (r: Option<ExecId>)
    ensures r.Some? ==> UniqueLatest(job, j, target, owned, reported, r.value)
    ensures r.None? ==> forall e :: !UniqueLatest(job, j, target, owned, reported, e)
  {
    if exists e :: UniqueLatest(job, j, target, owned, reported, e) then
      var e :| UniqueLatest(job, j, target, owned, reported, e);
      Some(e)
    else None
  }

  lemma MatchIs(job: Job, j: JobId, target: Path, owned: Ledger, reported: Reports, e: ExecId)
    requires UniqueLatest(job, j, target, owned, reported, e)
    ensures Match(job, j, target, owned, reported) == Some(e)
  {
  }

  /** The match is the execution that alone started last among those that may be the job's own: reported, in its tree, not
      older than the job, and either owned by it or, without a row, in its conversation. */
  lemma MatchExactly(job: Job, j: JobId, target: Path, owned: Ledger, reported: Reports, e: ExecId)
    ensures var own := (f: ExecId) =>
              f in reported && reported[f].path == Some(target)
              && reported[f].started.Some? && reported[f].started.value >= job.created
              && (if f in owned then owned[f].job == j else job.thread.Some? && reported[f].thread == job.thread);
            Match(job, j, target, owned, reported) == Some(e) <==>
              own(e) && forall f: ExecId | f != e && own(f) :: reported[f].started.value < reported[e].started.value
  {
    if UniqueLatest(job, j, target, owned, reported, e) {
      MatchIs(job, j, target, owned, reported, e);
    }
  }

  /** The entries that started last: none, one alone, or at least the two tied ones named. */
  datatype Top = Nobody | Alone(best: nat) | Tied(one: nat, other: nat)

  ghost predicate IsTop(matches: seq<(int, ExecId)>, top: Top) {
    match top
    case Nobody => matches == []
    case Alone(i) => i < |matches| && forall k | 0 <= k < |matches| && k != i :: matches[k].0 < matches[i].0
    case Tied(i, l) =>
      && i < |matches| && l < |matches| && i != l && matches[l].0 == matches[i].0
      && forall k | 0 <= k < |matches| :: matches[k].0 <= matches[i].0
  }

  method Latest(matches: seq<(int, ExecId)>) returns (top: Top)
    ensures IsTop(matches, top)
  {
    top := Nobody;
    for i := 0 to |matches|
      invariant IsTop(matches[..i], top)
    {
      ghost var seen, more := matches[..i], matches[..i + 1];
      assert more == seen + [matches[i]];
      match top {
        case Nobody => top := Alone(i);
        case Alone(b) =>
          if matches[i].0 > matches[b].0 { top := Alone(i); }
          else if matches[i].0 == matches[b].0 { top := Tied(b, i); }
        case Tied(b, _) =>
          if matches[i].0 > matches[b].0 { top := Alone(i); }
      }
    }
    assert matches[..|matches|] == matches;
  }

  ghost predicate ListsCandidates(job: Job, j: JobId, target: Path, owned: Ledger, reported: Reports,
                                  seen: seq<ExecId>, matches: seq<(int, ExecId)>)
  {
    && (forall k | 0 <= k < |matches| ::
          matches[k].1 in seen && Candidate(job, j, target, owned, reported, matches[k].1)
          && matches[k].0 == reported[matches[k].1].started.value)
    && (forall e | e in seen && Candidate(job, j, target, owned, reported, e) :: exists k ::
              0 <= k < |matches| && matches[k].1 == e)
    && (forall k, l | 0 <= k < l < |matches| :: matches[k].1 != matches[l].1)
  }

  lemma ListsOneMore(job: Job, j: JobId, target: Path, owned: Ledger, reported: Reports,
                     seen: seq<ExecId>, matches: seq<(int, ExecId)>, e: ExecId)
    requires ListsCandidates(job, j, target, owned, reported, seen, matches) && e !in seen
    ensures !Candidate(job, j, target, owned, reported, e) ==>
              ListsCandidates(job, j, target, owned, reported, seen + [e], matches)
    ensures Candidate(job, j, target, owned, reported, e) ==>
              ListsCandidates(job, j, target, owned, reported, seen + [e], matches + [(reported[e].started.value, e)])
  {
    if Candidate(job, j, target, owned, reported, e) {
      var more := matches + [(reported[e].started.value, e)];
      forall f | f in seen + [e] && Candidate(job, j, target, owned, reported, f)
        ensures exists k :: 0 <= k < |more| && more[k].1 == f
      {
        if f != e {
          var k :| 0 <= k < |matches| && matches[k].1 == f;
          assert more[k].1 == f;
        } else {
          assert more[|matches|].1 == f;
        }
      }
    }
  }

  /** The search: list the candidates, then take the latest unless two started together. */
  method FindMatch(job: Job, j: JobId, target: Path, owned: Ledger, reported: Reports, ids: seq<ExecId>)
    returns (r: Option<ExecId>)
    requires forall e :: e in ids <==> e in reported
    requires forall a, b | 0 <= a < b < |ids| :: ids[a] != ids[b]
    ensures r == Match(job, j, target, owned, reported)
  {
    var matches := [];
    for i := 0 to |ids|
      invariant ListsCandidates(job, j, target, owned, reported, ids[..i], matches)
    {
      ListsOneMore(job, j, target, owned, reported, ids[..i], matches, ids[i]);
      assert ids[..i + 1] == ids[..i] + [ids[i]];
      if Candidate(job, j, target, owned, reported, ids[i]) {
        matches := matches + [(reported[ids[i]].started.value, ids[i])];
      }
    }
    assert ids[..|ids|] == ids;
    var top := Latest(matches);
    r := if top.Alone? then Some(matches[top.best].1) else None;
    LatestIsMatch(job, j, target, owned, reported, ids, matches, top);
  }

  lemma LatestIsMatch(job: Job, j: JobId, target: Path, owned: Ledger, reported: Reports,
                      ids: seq<ExecId>, matches: seq<(int, ExecId)>, top: Top)
    requires forall e :: e in ids <==> e in reported
    requires ListsCandidates(job, j, target, owned, reported, ids, matches) && IsTop(matches, top)
    ensures Match(job, j, target, owned, reported) == if top.Alone? then Some(matches[top.best].1) else None
  {
    if top.Alone? {
      MatchIs(job, j, target, owned, reported, matches[top.best].1);
    } else {
      var m := Match(job, j, target, owned, reported);
      if m.Some? {
        assert false;
      }
    }
  }

  /** A recovery record's own execution, unless the ledger gives it to another job. */
  function Recorded(rec: Recovery, j: JobId, owned: Ledger, reported: Reports): Option<ExecId> {
    if rec.exec.Some? && rec.exec.value in reported && (rec.exec.value in owned ==> owned[rec.exec.value].job == j)
    then rec.exec else None
  }

  function Either(a: Option<ExecId>, b: Option<ExecId>): Option<ExecId> {
    if a.Some? then a else b
  }

  /** What a pass reads before the jobs get their turns. */
  function Begun(db: Db, snap: Snapshot, order: seq<ExecId>): View {
    View(snap, order, db.jobs, Owned(db.jobs, db.ledger, snap), Reported(db.jobs, db.ledger, snap))
  }

  /** owned execution, or else a matching one. */
  ghost function Matched(cfg: Config, v: View, j: JobId): Option<ExecId>
    requires j in v.rows
  {
    Either(LastOwned(v.order, v.owned, v.reported, j),
           Match(v.rows[j], j, cfg.path(v.rows[j].project, v.snap.host), v.owned, v.reported))
  }

  /** The execution to which a job is bound whose row, as the pass has listed it, waits for its host or for its
      cancellation. */
  ghost function Pick(cfg: Config, v: View, j: JobId, rec: Recovery): Option<ExecId>
    requires j in v.rows
  {
    var matched, recorded := Matched(cfg, v, j), Recorded(rec, j, v.owned, v.reported);
    if v.rows[j].state.WaitingHost? && !rec.mode.AdoptMode? then Either(recorded, matched) else Either(matched, recorded)
  }

  /** What the loop that gives up on adoption looks for; here a recorded execution counts
      whoever owns it. */
  ghost function KnownExecution(cfg: Config, v: View, j: JobId, rec: Recovery): Option<ExecId>
    requires j in v.rows
  {
    Either(Matched(cfg, v, j), if rec.exec.Some? && rec.exec.value in v.reported then rec.exec else None)
  }

  /** The ledger gives e to another job than j, or to another host: _ensure_remote_execution raises. */
  predicate Foreign(ledger: Ledger, j: JobId, host: HostId, e: ExecId) {
    e in ledger && (ledger[e].job != j || ledger[e].host != host)
  }

  /** A reported execution whose ledger row reconciliation does not consult: it was acknowledged,
      or recorded under another host or runner instance. */
  predicate Hidden(db: Db, snap: Snapshot, e: ExecId) {
    e in Reported(db.jobs, db.ledger, snap) && e in db.ledger && !Visible(db.ledger[e], snap)
  }

  /** What a pass knows of an execution when it begins. A row counts if it is of this host and this runner and not
      acknowledged; a completed execution of a job that has ended is done with; and after a complete snapshot a row
      counts only if its execution was reported. */
  lemma BegunExactly(db: Db, snap: Snapshot, order: seq<ExecId>, e: ExecId)
    ensures var v, sent := Begun(db, snap, order), e in snap.running || e in snap.completed;
            var known := e in db.ledger && db.ledger[e].host == snap.host && db.ledger[e].runner == snap.runner
                         && db.ledger[e].state != Acknowledged;
            var done := known && e in snap.completed && db.ledger[e].job in db.jobs
                        && db.jobs[db.ledger[e].job].state in {Completed, Failed, Cancelled};
            && (e in v.reported <==> sent && !done)
            && (e in v.reported ==> v.reported[e] == if e in snap.completed then snap.completed[e] else snap.running[e])
            && (e in v.owned <==> known && !done && (snap.complete ==> sent))
            && (e in v.owned ==> v.owned[e] == db.ledger[e])
            && v.rows == db.jobs && v.order == order && v.snap == snap
  {
  }

  /** Whatever a pass has read, it binds a job to a reported execution only, and never to one that
      an owner it has read has. One that neither row nor record gives to the job runs in its conversation and its tree,
      and was started after the job was created. */
  lemma PickIsReported(cfg: Config, v: View, j: JobId, rec: Recovery, e: ExecId)
    requires j in v.rows && (Pick(cfg, v, j, rec) == Some(e))
    ensures e in v.reported && (e in v.owned ==> v.owned[e].job == j)
    ensures e !in v.owned && rec.exec != Some(e) ==>
              var job, report := v.rows[j], v.reported[e];
              && job.thread.Some? && report.thread == job.thread
              && report.path == Some(cfg.path(job.project, v.snap.host))
              && report.started.Some? && report.started.value >= job.created
  {
  }

  /** Which one: a job that waits with another mode than ADOPT takes the recorded execution first, if that is reported
      and no row gives it to another job; then comes the last of its rows whose execution is reported, then the one
      that alone started last among those that may be its own, and at last the recorded one. */
  lemma PickExactly(cfg: Config, v: View, j: JobId, rec: Recovery)
    requires j in v.rows
    ensures var recorded := rec.exec.Some? && rec.exec.value in v.reported
                            && (rec.exec.value in v.owned ==> v.owned[rec.exec.value].job == j);
            var target := cfg.path(v.rows[j].project, v.snap.host);
            if v.rows[j].state == WaitingHost && rec.mode != AdoptMode && recorded then Pick(cfg, v, j, rec) == rec.exec
            else if exists k | 0 <= k < |v.order| :: OwnedHit(v.owned, v.reported, j, v.order[k]) then
              exists k | 0 <= k < |v.order| :: Pick(cfg, v, j, rec) == Some(v.order[k])
                && OwnedHit(v.owned, v.reported, j, v.order[k])
                && forall i | k < i < |v.order| :: !OwnedHit(v.owned, v.reported, j, v.order[i])
            else if e: ExecId :| UniqueLatest(v.rows[j], j, target, v.owned, v.reported, e) then Pick(cfg, v, j, rec) == Some(e)
            else Pick(cfg, v, j, rec) == if recorded then rec.exec else None
  {
  }

  /** So at the beginning of the pass only a hidden row can give the picked execution to another job or host. */
  lemma PickRespectsOwner(cfg: Config, db: Db, snap: Snapshot, order: seq<ExecId>, j: JobId, rec: Recovery, e: ExecId)
    requires j in db.jobs && Pick(cfg, Begun(db, snap, order), j, rec) == Some(e)
    ensures Foreign(db.ledger, j, snap.host, e) ==> Hidden(db, snap, e)
  {
    PickIsReported(cfg, Begun(db, snap, order), j, rec, e);
  }
}
