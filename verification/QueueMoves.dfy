/** The places in the queue are distinct along a run exactly if no place is written back after the queue has moved
    (job_manager.py, _enter_lease_wait and move_waiting_lease). */
module QueueMoves {
  import opened Wrappers
  import opened States
  import opened Tables
  import opened Transactions
  import opened Invariants
  import opened Safety
  import opened Runs

  ghost predicate PositionsDistinct(recovery: Recoveries) {
    forall j, k | j in recovery && k in recovery && j != k && recovery[j].position.Some? ::
      recovery[j].position != recovery[k].position
  }

  predicate InQueue(recovery: Recoveries, j: JobId) {
    j in recovery && recovery[j].position.Some?
  }

  /** The records after some moves. */
  function Moves(recovery: Recoveries, swaps: seq<(JobId, JobId)>): Recoveries {
    if swaps == [] then recovery
    else
      var before, last := Moves(recovery, swaps[..|swaps| - 1]), swaps[|swaps| - 1];
      var j, k := last.0, last.1;
      if InQueue(before, j) && InQueue(before, k) then Swapped(before, j, k) else before
  }

  lemma SwapKeepsDistinct(recovery: Recoveries, j: JobId, k: JobId)
    requires PositionsDistinct(recovery) && InQueue(recovery, j) && InQueue(recovery, k)
    ensures PositionsDistinct(Swapped(recovery, j, k)) && Swapped(recovery, j, k).Keys == recovery.Keys
  {
  }

  /** A move gives no position away. */
  lemma {:induction false} SomebodyHas(recovery: Recoveries, swaps: seq<(JobId, JobId)>, p: nat)
    requires PositionsDistinct(recovery) && exists k | k in recovery :: recovery[k].position == Some(p)
    ensures var moved := Moves(recovery, swaps);
            && PositionsDistinct(moved) && moved.Keys == recovery.Keys
            && exists k | k in moved :: moved[k].position == Some(p)
  {
    if swaps != [] {
      SomebodyHas(recovery, swaps[..|swaps| - 1], p);
      var before, last := Moves(recovery, swaps[..|swaps| - 1]), swaps[|swaps| - 1];
      var j, k := last.0, last.1;
      if InQueue(before, j) && InQueue(before, k) {
        SwapKeepsDistinct(before, j, k);
        var i :| i in before && before[i].position == Some(p);
        var moved := Swapped(before, j, k);
        assert moved[if i == j then k else if i == k then j else i].position == Some(p);
      }
    }
  }

  /** _enter_lease_wait reads the place that a job keeps without the lock of the queue. If the queue is moved before the
      record is written, positions stay unique exactly if the job itself is where it was. */
  lemma KeptPlace(recovery: Recoveries, swaps: seq<(JobId, JobId)>, j: JobId, r: Recovery)
    requires PositionsDistinct(recovery) && InQueue(recovery, j) && r.position == recovery[j].position
    ensures j in Moves(recovery, swaps)
    ensures PositionsDistinct(Moves(recovery, swaps)[j := r]) <==> Moves(recovery, swaps)[j].position == recovery[j].position
  {
    var p := recovery[j].position.value;
    SomebodyHas(recovery, swaps, p);
    var moved := Moves(recovery, swaps);
    var k :| k in moved && moved[k].position == Some(p);
    if k != j {
      assert moved[j := r][k].position == moved[j := r][j].position;
    }
  }

  // ---- runs ----

  /** No other job has the place. */
  ghost predicate Stands(recovery: Recoveries, j: JobId, p: Option<nat>) {
    forall k | k in recovery && k != j :: recovery[k].position != p
  }

  /** A place that was read before is written back only if nobody else has got it in between. */
  ghost predicate Timely(s: State, a: Action) {
    match a
    case WaitStep(DoWritePlace(j, r)) => Stands(s.db.recovery, j, r.position)
    case _ => true
  }

  /** A record that keeps the position of j, or has none, or takes the next one, is distinct from all others. */
  lemma PlaceFits(d: Db, j: JobId, r: Recovery)
    requires PositionsDistinct(d.recovery)
    requires r.position.None? || r.position == Position(d, j) || NextPosition(d.recovery, r.position.value)
    ensures PositionsDistinct(PutRecovery(d, j, r).recovery)
  {
  }

  lemma PlacementKeepsPlaces(cfg: Config, s: State, a: Placement)
    requires PositionsDistinct(s.db.recovery) && PlacementOk(cfg, s, a)
    ensures PositionsDistinct(PlacementNext(cfg, s, a).db.recovery)
  {
  }

  lemma NoteKeepsPlaces(cfg: Config, s: State, a: Note)
    requires PositionsDistinct(s.db.recovery) && NoteOk(cfg, s, a)
    ensures PositionsDistinct(NoteNext(cfg, s, a).db.recovery)
  {
  }

  lemma WritesPlaceExactly(s: State, j: JobId, r: Recovery)
    requires PositionsDistinct(s.db.recovery) && WritePlaceOk(s, j, r)
    ensures PositionsDistinct(WritePlace(s, j, r).db.recovery) <==> Stands(s.db.recovery, j, r.position)
  {
    var after := WritePlace(s, j, r).db.recovery;
    if k :| k in s.db.recovery && k != j && s.db.recovery[k].position == r.position {
      assert after[k].position == after[j].position;
    }
  }

  lemma WaitKeepsPlaces(cfg: Config, s: State, a: Wait)
    requires PositionsDistinct(s.db.recovery) && WaitOk(cfg, s, a)
    ensures PositionsDistinct(WaitNext(cfg, s, a).db.recovery) <==> Timely(s, WaitStep(a))
  {
    match a
    case DoWritePlace(j, r) => WritesPlaceExactly(s, j, r);
    case DoTakePlace(j, r, p) => PlaceFits(s.db, j, r.(position := Some(p)));
    case DoMakeUpPlace(j, p, due) =>
      PlaceFits(s.db, j, MadeUpRecord(s.db.jobs[j], due).(kind := LeaseKind, position := Some(p)));
    case DoSwap(j, k) => SwapKeepsDistinct(s.db.recovery, j, k);
    case _ =>
  }

  lemma CancellationKeepsPlaces(cfg: Config, s: State, a: Cancellation)
    requires PositionsDistinct(s.db.recovery) && CancellationOk(cfg, s, a)
    ensures PositionsDistinct(CancellationNext(cfg, s, a).db.recovery)
  {
  }

  lemma ReconnectionKeepsPlaces(cfg: Config, s: State, a: Reconnection)
    requires PositionsDistinct(s.db.recovery) && ReconnectionOk(cfg, s, a)
    ensures PositionsDistinct(ReconnectionNext(cfg, s, a).db.recovery)
  {
  }

  lemma RestartKeepsPlaces(cfg: Config, s: State, a: Restart)
    requires PositionsDistinct(s.db.recovery) && RestartOk(cfg, s, a)
    ensures PositionsDistinct(RestartNext(cfg, s, a).db.recovery)
  {
    match a
    case DoRestartWait(j, r) => PlaceFits(s.db, j, r);
    case DoRestartNote(j, r) => PlaceFits(s.db, j, r);
    case _ =>
  }

  lemma TurnKeepsPlaces(s: State, a: Turn)
    requires PositionsDistinct(s.db.recovery) && TurnOk(s, a)
    ensures PositionsDistinct(TurnNext(s, a).db.recovery)
  {
  }

  lemma ExecuteKeepsPlaces(s: State, a: Execute)
    requires PositionsDistinct(s.db.recovery) && ExecuteOk(s, a)
    ensures PositionsDistinct(ExecuteNext(s, a).db.recovery)
  {
  }

  lemma NextKeepsPlaces(cfg: Config, s: State, a: Action)
    requires PositionsDistinct(s.db.recovery) && Enabled(cfg, s, a)
    ensures PositionsDistinct(Next(cfg, s, a).db.recovery) <==> Timely(s, a)
  {
    match a
    case PlacementStep(b) => PlacementKeepsPlaces(cfg, s, b);
    case NoteStep(b) => NoteKeepsPlaces(cfg, s, b);
    case WaitStep(b) => WaitKeepsPlaces(cfg, s, b);
    case TurnStep(b) => TurnKeepsPlaces(s, b);
    case ExecuteStep(b) => ExecuteKeepsPlaces(s, b);
    case CancellationStep(b) => CancellationKeepsPlaces(cfg, s, b);
    case ReconnectionStep(b) => ReconnectionKeepsPlaces(cfg, s, b);
    case RestartStep(b) => RestartKeepsPlaces(cfg, s, b);
  }

  ghost predicate TimelyRun(cfg: Config, s: State, acts: seq<Action>)
    requires Legal(cfg, s, acts)
    decreases |acts|
  {
    acts != [] ==> Timely(s, acts[0]) && TimelyRun(cfg, Next(cfg, s, acts[0]), acts[1..])
  }

  /** No two records have the same place in any state of the run. */
  ghost predicate DistinctAlong(cfg: Config, s: State, acts: seq<Action>)
    requires Legal(cfg, s, acts)
    decreases |acts|
  {
    PositionsDistinct(s.db.recovery) && (acts != [] ==> DistinctAlong(cfg, Next(cfg, s, acts[0]), acts[1..]))
  }

  /** Places stay distinct, through crashes, restarts and whatever is adopted, exactly if no place is written back after
      somebody else has got it. */
  lemma {:induction false} PlacesStayDistinct(cfg: Config, s: State, acts: seq<Action>)
    requires PositionsDistinct(s.db.recovery) && Legal(cfg, s, acts)
    ensures DistinctAlong(cfg, s, acts) <==> TimelyRun(cfg, s, acts)
    decreases |acts|
  {
    if acts != [] {
      NextKeepsPlaces(cfg, s, acts[0]);
      if Timely(s, acts[0]) {
        PlacesStayDistinct(cfg, Next(cfg, s, acts[0]), acts[1..]);
      }
    }
  }
}
