/** The durable order of jobs that wait for a working tree, and moving one of them up or down
    (job_manager.py, move_waiting_lease; repositories.py, list_queue and swap_queue_positions). */
module LeaseQueue {
  import opened Wrappers
  import opened States
  import opened Tables
  import opened Transactions

  /** _queue_lane_key: jobs with the same key wait for the same working tree; a job for any host
      waits with the other jobs of its project. */
  datatype LaneKey = OnHost(tree: Tree) | AnyHost(project: ProjectId)

  function LaneKeyOf(cfg: Config, job: Job): LaneKey {
    match (job.host, job.requested)
    case (Some(h), _) => OnHost(TreeOn(cfg, job, h))
    case (None, Some(h)) => OnHost(TreeOn(cfg, job, h))
    case (None, None) => AnyHost(job.project)
  }

  /** Two jobs wait in the same lane exactly if they are bound for the same tree, or for any host with the same project. */
  lemma SameLane(cfg: Config, a: Job, b: Job)
    ensures var atA, atB := if a.host.Some? then a.host else a.requested, if b.host.Some? then b.host else b.requested;
            LaneKeyOf(cfg, a) == LaneKeyOf(cfg, b) <==>
              atA == atB && if atA.Some? then cfg.path(a.project, atA.value) == cfg.path(b.project, atA.value)
                            else a.project == b.project
  {
  }

  /** The jobs that wait in one lane. */
  function Members(cfg: Config, jobs: Jobs, key: LaneKey): set<JobId> {
    set j | j in jobs && jobs[j].state.WaitingLease? && LaneKeyOf(cfg, jobs[j]) == key
  }

  /** The members of a lane, in queue order. */
  function Lane(members: set<JobId>, q: seq<JobId>): seq<JobId> {
    if q == [] then []
    else if q[0] in members then [q[0]] + Lane(members, q[1..])
    else Lane(members, q[1..])
  }

  lemma {:induction false} LaneMember(members: set<JobId>, q: seq<JobId>, i: nat)
    requires i < |Lane(members, q)|
    ensures Lane(members, q)[i] in members && Lane(members, q)[i] in q
    decreases |q|
  {
    if q[0] !in members {
      LaneMember(members, q[1..], i);
    } else if i > 0 {
      LaneMember(members, q[1..], i - 1);
    }
  }

  lemma {:induction false} LaneAppend(members: set<JobId>, q: seq<JobId>, p: seq<JobId>)
    ensures Lane(members, q + p) == Lane(members, q) + Lane(members, p)
  {
    if q == [] {
      assert q + p == p;
    } else {
      assert (q + p)[1..] == q[1..] + p;
      LaneAppend(members, q[1..], p);
    }
  }

  ghost predicate Ascending(q: seq<JobId>, recovery: Recoveries) {
    && (forall a | 0 <= a < |q| :: q[a] in recovery && recovery[q[a]].position.Some?)
    && forall a, b | 0 <= a < b < |q| :: recovery[q[a]].position.value < recovery[q[b]].position.value
  }

  /** The answer of list_queue: every job with a position, by ascending position. */
  ghost predicate IsQueue(q: seq<JobId>, recovery: Recoveries) {
    && Ascending(q, recovery)
    && forall j | j in recovery && recovery[j].position.Some? :: j in q
  }

  lemma NotEmpty(p: seq<JobId>)
    requires p != []
    ensures exists j :: j in p
  {
    assert p[0] in p;
  }

  /** The positions alone determine the order. */
  lemma {:induction false} QueueUnique(q: seq<JobId>, p: seq<JobId>, recovery: Recoveries)
    requires Ascending(q, recovery) && Ascending(p, recovery) && forall j :: j in q <==> j in p
    ensures q == p
    decreases |q|
  {
    if q != [] {
      assert q[0] in p;
      var b :| 0 <= b < |p| && p[b] == q[0];
      assert p[0] in q;
      var a :| 0 <= a < |q| && q[a] == p[0];
      assert a == 0 && b == 0;
      forall j ensures j in q[1..] <==> j in p[1..] {
        if j in q[1..] {
          assert j in p;
        }
        if j in p[1..] {
          assert j in q;
        }
      }
      QueueUnique(q[1..], p[1..], recovery);
    } else if p != [] {
      NotEmpty(p);
      assert false;
    }
  }

  // ---- exchanging two neighbours ----

  /** The queue around two of its jobs. */
  datatype Cut = Cut(before: seq<JobId>, between: seq<JobId>, after: seq<JobId>)

  function Joined(c: Cut, j: JobId, k: JobId): seq<JobId> {
    c.before + ([j] + (c.between + ([k] + c.after)))
  }

  /** The queue around the i-th job of a lane. */
  lemma {:induction false} CutAt(members: set<JobId>, q: seq<JobId>, i: nat) returns (before: seq<JobId>,
        after: seq<JobId>)
    requires i < |Lane(members, q)|
    ensures q == before + ([Lane(members, q)[i]] + after)
    ensures Lane(members, before) == Lane(members, q)[..i] && Lane(members, after) == Lane(members, q)[i + 1..]
    decreases |q|
  {
    if q[0] in members && i == 0 {
      before, after := [], q[1..];
    } else {
      var before1;
      before1, after := CutAt(members, q[1..], if q[0] in members then i - 1 else i);
      before := [q[0]] + before1;
      assert before[1..] == before1;
    }
  }

  lemma CutNeighbours(members: set<JobId>, q: seq<JobId>, i: nat) returns (c: Cut)
    requires i + 1 < |Lane(members, q)|
    ensures var lane := Lane(members, q);
            && q == Joined(c, lane[i], lane[i + 1])
            && Lane(members, c.before) == lane[..i] && Lane(members, c.between) == [] && Lane(members, c.after) == lane[i + 2..]
  {
    var lane := Lane(members, q);
    var before, rest := CutAt(members, q, i);
    var between, after := CutAt(members, rest, 0);
    c := Cut(before, between, after);
    assert lane[i + 1..][1..] == lane[i + 2..];
  }

  lemma LaneOfJoined(members: set<JobId>, c: Cut, j: JobId, k: JobId)
    ensures Lane(members, Joined(c, j, k)) ==
            Lane(members, c.before) + (Lane(members, [j]) + (Lane(members, c.between) + (Lane(members, [k]) + Lane(members, c.after))))
  {
    LaneAppend(members, [k], c.after);
    LaneAppend(members, c.between, [k] + c.after);
    LaneAppend(members, [j], c.between + ([k] + c.after));
    LaneAppend(members, c.before, [j] + (c.between + ([k] + c.after)));
  }

  /** Two neighbours of a lane, exchanged. */
  function Exchanged(lane: seq<JobId>, i: nat): (r: seq<JobId>)
    requires i + 1 < |lane|
    ensures r == lane[..i] + [lane[i + 1], lane[i]] + lane[i + 2..]
  {
    lane[i := lane[i + 1]][i + 1 := lane[i]]
  }

  lemma OwnLane(members: set<JobId>, q: seq<JobId>, i: nat, c: Cut)
    requires i + 1 < |Lane(members, q)|
    requires var lane := Lane(members, q);
             && q == Joined(c, lane[i], lane[i + 1])
             && Lane(members, c.before) == lane[..i] && Lane(members, c.between) == [] && Lane(members, c.after) == lane[i + 2..]
    ensures var lane := Lane(members, q);
            Lane(members, Joined(c, lane[i + 1], lane[i])) == Exchanged(lane, i)
  {
    var lane := Lane(members, q);
    LaneMember(members, q, i);
    LaneMember(members, q, i + 1);
    LaneOfJoined(members, c, lane[i + 1], lane[i]);
  }

  lemma OtherLane(members: set<JobId>, c: Cut, j: JobId, k: JobId)
    requires j !in members && k !in members
    ensures Lane(members, Joined(c, k, j)) == Lane(members, Joined(c, j, k))
  {
    LaneOfJoined(members, c, k, j);
    LaneOfJoined(members, c, j, k);
  }

  /** Which job is at which place of a queue. */
  lemma JoinedAt(c: Cut, j: JobId, k: JobId)
    ensures var q := Joined(c, j, k);
            && |q| == |c.before| + |c.between| + |c.after| + 2
            && q[|c.before|] == j && q[|c.before| + 1 + |c.between|] == k
            && forall l, m, i: nat | i < |q| && i != |c.before| && i != |c.before| + 1 + |c.between| :: Joined(c, l, m)[i] == q[i]
  {
  }

  lemma SwapKeepsOrder(recovery: Recoveries, c: Cut, j: JobId, k: JobId)
    requires IsQueue(Joined(c, j, k), recovery) && j in recovery && k in recovery && j != k
    ensures IsQueue(Joined(c, k, j), Swapped(recovery, j, k))
  {
    var q, q' := Joined(c, j, k), Joined(c, k, j);
    var recovery' := Swapped(recovery, j, k);
    var a, b := |c.before|, |c.before| + 1 + |c.between|;
    JoinedAt(c, j, k);
    JoinedAt(c, k, j);
    forall m | 0 <= m < |q|
      ensures q'[m] in recovery' && recovery'[q'[m]].position == recovery[q[m]].position
    {
      if m != a && m != b {
        assert q'[m] == q[m];
        assert q[m] != j && q[m] != k;
      }
    }
    forall x | x in recovery' && recovery'[x].position.Some? ensures x in q' {
      assert x in q;
      var m :| 0 <= m < |q| && q[m] == x;
      assert q'[if m == a then b else if m == b then a else m] == x;
    }
  }

  /** Swapping the positions of two neighbours of a lane exchanges exactly them and leaves the order of
      every other lane as it was. */
  lemma ExchangeNeighbours(cfg: Config, jobs: Jobs, key: LaneKey, recovery: Recoveries, q: seq<JobId>, i: nat)
    returns (q': seq<JobId>)
    requires IsQueue(q, recovery) && i + 1 < |Lane(Members(cfg, jobs, key), q)|
    ensures var lane := Lane(Members(cfg, jobs, key), q);
            && lane[i] in recovery && lane[i + 1] in recovery
            && IsQueue(q', Swapped(recovery, lane[i], lane[i + 1]))
            && Lane(Members(cfg, jobs, key), q') == Exchanged(lane, i)
            && forall other | other != key :: Lane(Members(cfg, jobs, other), q') == Lane(Members(cfg, jobs, other), q)
  {
    var members := Members(cfg, jobs, key);
    var lane := Lane(members, q);
    var c := CutNeighbours(members, q, i);
    var j, k := lane[i], lane[i + 1];
    q' := Joined(c, k, j);
    LaneMember(members, q, i);
    LaneMember(members, q, i + 1);
    JoinedAt(c, j, k);
    SwapKeepsOrder(recovery, c, j, k);
    OwnLane(members, q, i, c);
    forall other | other != key
      ensures Lane(Members(cfg, jobs, other), q') == Lane(Members(cfg, jobs, other), q)
    {
      OtherLane(Members(cfg, jobs, other), c, j, k);
    }
  }

  // ---- moving a job ----

  datatype Direction = Up | Down

  /** How a request to move a job ends. */
  datatype Answer = Refused | AtTheEnd | SwappedWith(neighbour: JobId)

  predicate Selected(jobs: Jobs, j: JobId, user: UserId, project: Option<ProjectId>) {
    && j in jobs && jobs[j].state.WaitingLease? && jobs[j].user == user
    && (project.Some? ==> jobs[j].project == project.value)
  }

  function IndexOf(lane: seq<JobId>, j: JobId): (i: Option<nat>)
    ensures if i.Some? then i.value < |lane| && lane[i.value] == j && j !in lane[..i.value] else j !in lane
  {
    if lane == [] then None
    else if lane[0] == j then Some(0)
    else match IndexOf(lane[1..], j) case Some(i) => Some(i + 1) case None => None
  }

  /** The place next to the i-th in a lane of n jobs. */
  function Beside(i: nat, n: nat, dir: Direction): Option<nat> {
    match dir
    case Up => if i == 0 then None else Some(i - 1)
    case Down => if i + 1 < n then Some(i + 1) else None
  }

  /** The answer to the request of `user` to move j; q is the answer of list_queue. */
  function MoveAnswer(cfg: Config, jobs: Jobs, recovery: Recoveries, q: seq<JobId>, j: JobId, user: UserId,
                      project: Option<ProjectId>, dir: Direction): Answer
  {
    if !Selected(jobs, j, user, project) || j !in recovery || recovery[j].position.None? then Refused
    else
      var lane := Lane(Members(cfg, jobs, LaneKeyOf(cfg, jobs[j])), q);
      match IndexOf(lane, j)
      case None => Refused
      case Some(i) =>
        match Beside(i, |lane|, dir)
        case None => AtTheEnd
        case Some(n) =>
          if n < |lane| && lane[n] in jobs && jobs[lane[n]].user == user then SwappedWith(lane[n]) else Refused
  }

  /** The job that stands first of the two that change places. */
  function First(i: nat, dir: Direction): nat
    requires dir.Up? ==> i > 0
  {
    if dir.Up? then i - 1 else i
  }

  function Positions(recovery: Recoveries): set<Option<nat>> {
    set j | j in recovery :: recovery[j].position
  }

  lemma SwapKeepsPositions(recovery: Recoveries, j: JobId, k: JobId)
    requires j in recovery && k in recovery
    ensures Positions(Swapped(recovery, j, k)) == Positions(recovery)
  {
    var recovery' := Swapped(recovery, j, k);
    forall p ensures p in Positions(recovery') <==> p in Positions(recovery) {
      if p in Positions(recovery) {
        var x :| x in recovery && recovery[x].position == p;
        var y := if x == j then k else if x == k then j else x;
        assert y in recovery' && recovery'[y].position == p;
      }
      if p in Positions(recovery') {
        var x :| x in recovery' && recovery'[x].position == p;
        var y := if x == j then k else if x == k then j else x;
        assert y in recovery && recovery[y].position == p;
      }
    }
  }

  lemma {:induction false} LaneDistinct(members: set<JobId>, q: seq<JobId>)
    requires forall a, b | 0 <= a < b < |q| :: q[a] != q[b]
    ensures forall a, b | 0 <= a < b < |Lane(members, q)| :: Lane(members, q)[a] != Lane(members, q)[b]
  {
    if q != [] {
      LaneDistinct(members, q[1..]);
      forall a | 0 <= a < |Lane(members, q[1..])| ensures Lane(members, q[1..])[a] != q[0] {
        LaneMember(members, q[1..], a);
      }
    }
  }

  lemma QueueDistinct(q: seq<JobId>, recovery: Recoveries)
    requires Ascending(q, recovery)
    ensures forall a, b | 0 <= a < b < |q| :: q[a] != q[b]
  {
  }

  lemma {:induction false} IndexIsFirst(lane: seq<JobId>, i: nat)
    requires i < |lane| && lane[i] !in lane[..i]
    ensures IndexOf(lane, lane[i]) == Some(i)
  {
  }

  /** What the answer says about the two jobs. */
  lemma SwappedNeighbours(cfg: Config, jobs: Jobs, recovery: Recoveries, q: seq<JobId>, j: JobId,
                          user: UserId, project: Option<ProjectId>, dir: Direction, k: JobId)
    requires IsQueue(q, recovery) && MoveAnswer(cfg, jobs, recovery, q, j, user, project, dir) == SwappedWith(k)
    ensures k in recovery && recovery[k].position.Some? && k != j && jobs[k].user == jobs[j].user
    ensures var lane := Lane(Members(cfg, jobs, LaneKeyOf(cfg, jobs[j])), q);
            var i := IndexOf(lane, j);
            && i.Some? && Beside(i.value, |lane|, dir).Some? && lane[Beside(i.value, |lane|, dir).value] == k
            && First(i.value, dir) + 1 < |lane|
  {
    var members := Members(cfg, jobs, LaneKeyOf(cfg, jobs[j]));
    var lane := Lane(members, q);
    var i := IndexOf(lane, j).value;
    QueueDistinct(q, recovery);
    LaneDistinct(members, q);
    LaneMember(members, q, Beside(i, |lane|, dir).value);
  }

  /** A move exchanges the job with the neighbour that was named: in its own lane the two change
      places, every other lane keeps its order, and the same positions are in use. */
  lemma MoveExchanges(cfg: Config, jobs: Jobs, recovery: Recoveries, q: seq<JobId>, q': seq<JobId>, j: JobId,
                      user: UserId, project: Option<ProjectId>, dir: Direction, k: JobId)
    requires IsQueue(q, recovery) && MoveAnswer(cfg, jobs, recovery, q, j, user, project, dir) == SwappedWith(k)
    requires k in recovery ==> IsQueue(q', Swapped(recovery, j, k))
    ensures k in recovery && recovery[k].position.Some? && k != j && jobs[k].user == jobs[j].user
    ensures Positions(Swapped(recovery, j, k)) == Positions(recovery)
    ensures var key := LaneKeyOf(cfg, jobs[j]);
            var lane, i := Lane(Members(cfg, jobs, key), q), IndexOf(Lane(Members(cfg, jobs, key), q), j);
            && i.Some? && Beside(i.value, |lane|, dir).Some? && lane[Beside(i.value, |lane|, dir).value] == k
            && Lane(Members(cfg, jobs, key), q') == Exchanged(lane, First(i.value, dir))
            && forall other | other != key :: Lane(Members(cfg, jobs, other), q') == Lane(Members(cfg, jobs, other), q)
  {
    SwappedNeighbours(cfg, jobs, recovery, q, j, user, project, dir, k);
    var key := LaneKeyOf(cfg, jobs[j]);
    var i := First(IndexOf(Lane(Members(cfg, jobs, key), q), j).value, dir);
    var p := ExchangeNeighbours(cfg, jobs, key, recovery, q, i);
    SwapKeepsPositions(recovery, j, k);
    SwapIsSymmetric(recovery, j, k);
    SameQueue(p, q', Swapped(recovery, j, k));
  }

  lemma SwapIsSymmetric(recovery: Recoveries, j: JobId, k: JobId)
    requires j in recovery && k in recovery
    ensures Swapped(recovery, j, k) == Swapped(recovery, k, j)
    ensures Swapped(Swapped(recovery, j, k), j, k) == recovery
  {
  }

  lemma SameQueue(q: seq<JobId>, p: seq<JobId>, recovery: Recoveries)
    requires IsQueue(q, recovery) && IsQueue(p, recovery)
    ensures q == p
  {
    forall j ensures j in q <==> j in p {
    }
    QueueUnique(q, p, recovery);
  }

  function Opposite(dir: Direction): Direction {
    if dir.Up? then Down else Up
  }

  /** After the exchange of the i-th and the n-th job, neighbours in direction dir. */
  lemma ExchangedBack(lane: seq<JobId>, i: nat, n: nat, dir: Direction)
    requires i < |lane| && Beside(i, |lane|, dir) == Some(n) && n < |lane|
    requires forall a, b | 0 <= a < b < |lane| :: lane[a] != lane[b]
    ensures var lane' := Exchanged(lane, First(i, dir));
            IndexOf(lane', lane[i]) == Some(n) && Beside(n, |lane'|, Opposite(dir)) == Some(i) && lane'[i] == lane[n]
  {
  }

  /** The opposite request is granted and restores every record. */
  lemma MoveBack(cfg: Config, jobs: Jobs, recovery: Recoveries, q: seq<JobId>, q': seq<JobId>, j: JobId,
                 user: UserId, project: Option<ProjectId>, dir: Direction, k: JobId)
    requires IsQueue(q, recovery) && MoveAnswer(cfg, jobs, recovery, q, j, user, project, dir) == SwappedWith(k)
    requires k in recovery ==> IsQueue(q', Swapped(recovery, j, k))
    ensures k in recovery
    ensures MoveAnswer(cfg, jobs, Swapped(recovery, j, k), q', j, user, project, Opposite(dir)) == SwappedWith(k)
    ensures Swapped(Swapped(recovery, j, k), j, k) == recovery
  {
    MoveExchanges(cfg, jobs, recovery, q, q', j, user, project, dir, k);
    SwapIsSymmetric(recovery, j, k);
    var members := Members(cfg, jobs, LaneKeyOf(cfg, jobs[j]));
    var lane := Lane(members, q);
    QueueDistinct(q, recovery);
    LaneDistinct(members, q);
    var i := IndexOf(lane, j).value;
    ExchangedBack(lane, i, Beside(i, |lane|, dir).value, dir);
  }

  /** A request is refused exactly if the job is not a queued one of the user (and project), or has no place yet,
      or if the neighbour it would pass belongs to someone else. */
  lemma RefusedExactly(cfg: Config, jobs: Jobs, recovery: Recoveries, q: seq<JobId>, j: JobId, user: UserId,
                       project: Option<ProjectId>, dir: Direction)
    requires IsQueue(q, recovery)
    ensures MoveAnswer(cfg, jobs, recovery, q, j, user, project, dir).Refused? <==>
            (Selected(jobs, j, user, project) && j in recovery && recovery[j].position.Some? ==>
               var lane := Lane(Members(cfg, jobs, LaneKeyOf(cfg, jobs[j])), q);
               exists i: nat, n: nat | i < |lane| && n < |lane| ::
                 lane[i] == j && Beside(i, |lane|, dir) == Some(n) && lane[n] in jobs && jobs[lane[n]].user != user)
  {
    if Selected(jobs, j, user, project) && j in recovery && recovery[j].position.Some? {
      var members := Members(cfg, jobs, LaneKeyOf(cfg, jobs[j]));
      var lane := Lane(members, q);
      QueueDistinct(q, recovery);
      LaneDistinct(members, q);
      LaneHasMember(members, q, j);
      var i := IndexOf(lane, j).value;
      forall m: nat | m < |lane| ensures lane[m] in jobs && (lane[m] == j ==> m == i) {
        LaneMember(members, q, m);
      }
    }
  }

  /** The job waits in the queue, belongs to the user (and to the project, if one is named), and has its place. */
  ghost predicate MayMove(jobs: Jobs, recovery: Recoveries, j: JobId, user: UserId, project: Option<ProjectId>) {
    && j in jobs && jobs[j].state == WaitingLease && jobs[j].user == user
    && (project == None || project == Some(jobs[j].project)) && j in recovery && recovery[j].position != None
  }

  /** The answer for the job at place i of its lane: at the end of the lane there is nobody to pass, and nobody passes a
      job of another user. */
  ghost predicate AnswerAt(jobs: Jobs, lane: seq<JobId>, i: nat, user: UserId, dir: Direction, answer: Answer)
    requires i < |lane|
  {
    match dir
    case Up => if i == 0 then answer == AtTheEnd else Passes(jobs, lane[i - 1], user, answer)
    case Down => if i + 1 == |lane| then answer == AtTheEnd else Passes(jobs, lane[i + 1], user, answer)
  }

  ghost predicate Passes(jobs: Jobs, k: JobId, user: UserId, answer: Answer) {
    k in jobs && answer == if jobs[k].user == user then SwappedWith(k) else Refused
  }

  /** The answer to every request. */
  lemma MoveExactly(cfg: Config, jobs: Jobs, recovery: Recoveries, q: seq<JobId>, j: JobId, user: UserId,
                    project: Option<ProjectId>, dir: Direction)
    requires IsQueue(q, recovery)
    ensures var answer := MoveAnswer(cfg, jobs, recovery, q, j, user, project, dir);
            if !MayMove(jobs, recovery, j, user, project) then answer == Refused
            else
              var lane := Lane(Members(cfg, jobs, LaneKeyOf(cfg, jobs[j])), q);
              exists i: nat :: i < |lane| && lane[i] == j && AnswerAt(jobs, lane, i, user, dir, answer)
  {
    if MayMove(jobs, recovery, j, user, project) {
      var members := Members(cfg, jobs, LaneKeyOf(cfg, jobs[j]));
      var lane := Lane(members, q);
      LaneHasMember(members, q, j);
      var i := IndexOf(lane, j).value;
      forall m: nat | m < |lane| ensures lane[m] in jobs {
        LaneMember(members, q, m);
      }
      assert lane[i] == j;
    }
  }

  lemma {:induction false} LaneHasMember(members: set<JobId>, q: seq<JobId>, j: JobId)
    requires j in members && j in q
    ensures j in Lane(members, q)
  {
    if q[0] != j {
      LaneHasMember(members, q[1..], j);
    }
  }
}
