/** Stopping the local processes of an earlier controller when process ids may have been reused
    (process_control.py; job_manager.py, _terminate_stale_local_processes). */
module ProcessControl {
  import opened Wrappers
  import opened States
  import opened CommandLine

  type Pid = int

  /** serial tells processes apart that had the same pid one after the other; nobody can observe it. */
  datatype Proc = Proc(serial: nat, executable: string, token: string, started: int, command: string)

  type Live = map<Pid, Proc>

  /** The processes that run, and those that were signalled. */
  datatype Machine = Machine(live: Live, signalled: seq<Proc>)

  /** A job row with what it says about its process; spawn is the serial of that process. */
  datatype Row = Row(local: bool, state: JobState, pid: Option<Pid>, executable: string, token: string,
                     persisted: Option<int>, dir: string, spawn: nat)

  /** What the operating system answers while a row is handled: can the identity, the command line and
      the start time be read, does the process obey the signals, and what runs afterwards. */
  datatype Probe = Probe(identity: bool, commandLine: bool, startTime: bool, obeys: bool, later: Live)

  /** canonical_working_directory and casefold. */
  datatype Names = Names(canonical: string -> string, fold: char -> string)

  function NormalizeExecutable(value: string): string {
    Slashes(Strip(value))
  }

  predicate Exists(live: Live, pid: Option<Pid>) {
    pid.Some? && pid.value > 0 && pid.value in live
  }

  /** The process is the one the row was written for, as far as can be told. */
  predicate Recognised(names: Names, r: Row, p: Proc) {
    && NormalizeExecutable(p.executable) == NormalizeExecutable(r.executable) && p.token == r.token
    && p.command != "" && Matches(names.canonical, names.fold, p.command, r.dir)
  }

  /** terminate_persisted_codex_process */
  function Terminate(names: Names, m: Machine, r: Row, probe: Probe): (res: (Machine, bool))
    ensures res.1 ==> !Exists(res.0.live, r.pid)
    ensures res.0.signalled != m.signalled ==>
              && Exists(m.live, r.pid) && Recognised(names, r, m.live[r.pid.value])
              && res.0.signalled == m.signalled + [m.live[r.pid.value]]
    ensures forall pid | pid in res.0.live :: pid in m.live && m.live[pid] == res.0.live[pid]
  {
    if !Exists(m.live, r.pid) then (m, true)
    else if r.executable == "" || r.token == "" || !probe.identity || !probe.commandLine then (m, false)
    else
      var p := m.live[r.pid.value];
      if !Recognised(names, r, p) then (m, false)
      else (Machine(if probe.obeys then m.live - {r.pid.value} else m.live, m.signalled + [p]), probe.obeys)
  }

  /** legacy_persisted_process_is_gone_or_reused */
  predicate GoneOrReused(names: Names, live: Live, r: Row, probe: Probe) {
    || !Exists(live, r.pid)
    || (r.persisted.Some? && probe.startTime && live[r.pid.value].started > r.persisted.value + 1)
    || (probe.commandLine && live[r.pid.value].command != ""
        && !Matches(names.canonical, names.fold, live[r.pid.value].command, r.dir))
  }

  /** One row at startup; None refuses the start. */
  function Reconcile(names: Names, m: Machine, r: Row, probe: Probe): Option<Machine> {
    if !r.local || Terminal(r.state) then Some(m)
    else if r.pid.None? || r.pid.value <= 0 then
      if r.state.Starting? || r.state.Running? || r.state.Cancelling? then None else Some(m)
    else if r.executable == "" || r.token == "" then
      if GoneOrReused(names, m.live, r, probe) then Some(m) else None
    else
      var (m', stopped) := Terminate(names, m, r, probe);
      if stopped then Some(m') else None
  }

  /** Between two rows processes end and new ones start, under any pid that is free by then. */
  function Evolve(live: Live, later: Live, spawns: set<nat>): Live {
    map pid | pid in later && ((pid in live && live[pid] == later[pid]) || later[pid].serial !in spawns) :: later[pid]
  }

  function Sweep(names: Names, m: Machine, rows: seq<Row>, spawns: set<nat>, probes: seq<Probe>): Option<Machine>
    requires |probes| == |rows|
    decreases |rows|
  {
    if rows == [] then Some(m)
    else
      match Reconcile(names, m, rows[0], probes[0])
      case None => None
      case Some(m1) => Sweep(names, m1.(live := Evolve(m1.live, probes[0].later, spawns)), rows[1..], spawns, probes[1..])
  }

  /** What the controller wrote down is true: if the row's process still runs, then under the recorded
      pid (or the row is one whose pid was never recorded); it was started before the row was last
      written; and it was started by a command for the row's directory. */
  ghost predicate Truthful(names: Names, live: Live, r: Row) {
    forall pid | pid in live && live[pid].serial == r.spawn ::
      && pid > 0 && (r.pid == Some(pid) || (r.pid.None?
            && (r.state.Starting? || r.state.Running? || r.state.Cancelling?)))
      && (r.persisted.Some? ==> live[pid].started <= r.persisted.value + 1)
      && Matches(names.canonical, names.fold, live[pid].command, r.dir)
  }

  ghost predicate Dead(live: Live, r: Row) {
    forall pid | pid in live :: live[pid].serial != r.spawn
  }

  /** A row that does not refuse the start has no running process left. */
  lemma ReconcileStops(names: Names, m: Machine, r: Row, probe: Probe)
    requires Truthful(names, m.live, r) && r.local && !Terminal(r.state)
    ensures Reconcile(names, m, r, probe).Some? ==> Dead(Reconcile(names, m, r, probe).value.live, r)
  {
  }

  /** One row at startup. A process under the recorded pid is signalled exactly if its identity and its command line can
      be read, executable and token are those of the row, and the command names the row's directory; the row is settled
      if the process obeys. Any other process there refuses the start, and nothing else does but an active row without
      pid, or a legacy one whose process cannot be told from another. */
  lemma ReconcileExactly(names: Names, m: Machine, r: Row, probe: Probe)
    ensures var after, open := Reconcile(names, m, r, probe), r.local && !Terminal(r.state);
            var recorded := r.pid.Some? && r.pid.value > 0;
            var runs := recorded && r.pid.value in m.live;
            var legacy := r.executable == "" || r.token == "";
            && (!open || (recorded && !runs) ==> after == Some(m))
            && (open && !recorded ==>
                  after == if r.state.Starting? || r.state.Running? || r.state.Cancelling? then None else Some(m))
            && (open && runs && !legacy ==>
                  var p := m.live[r.pid.value];
                  if probe.identity && probe.commandLine && p.token == r.token && p.command != ""
                     && Slashes(Strip(p.executable)) == Slashes(Strip(r.executable))
                     && Matches(names.canonical, names.fold, p.command, r.dir)
                  then after == if probe.obeys then Some(Machine(m.live - {r.pid.value}, m.signalled + [p])) else None
                  else after == None)
            && (open && runs && legacy ==>
                  var p := m.live[r.pid.value];
                  after == if (probe.startTime && r.persisted.Some? && p.started > r.persisted.value + 1)
                              || (probe.commandLine && p.command != ""
                                  && !Matches(names.canonical, names.fold, p.command, r.dir))
                           then Some(m) else None)
  {
  }

  /** The process that a row was written for, started by a command for the row's directory, is always recognised: it is
      signalled, and if it obeys it is gone and the start goes on. */
  lemma OwnProcessStops(names: Names, m: Machine, r: Row, probe: Probe, executable: string, sandbox: string,
                        approval: string, session: seq<string>)
    requires names.canonical(r.dir) == r.dir && Slashes(r.dir) == r.dir
    requires Fold(names.fold, "--cd ") == "--cd " && Fold(names.fold, " ") == " "
    requires r.local && !Terminal(r.state) && Exists(m.live, r.pid) && r.executable != "" && r.token != ""
    requires var p := m.live[r.pid.value];
             p.executable == r.executable && p.token == r.token
             && p.command == Shown(Command(executable, sandbox, approval, r.dir, session))
    requires probe.identity && probe.commandLine
    ensures Reconcile(names, m, r, probe) ==
            if probe.obeys then Some(Machine(m.live - {r.pid.value}, m.signalled + [m.live[r.pid.value]])) else None
  {
    OwnCommandMatches(names.canonical, names.fold, executable, sandbox, approval, r.dir, session);
    ShownContains(executable, sandbox, approval, r.dir, session);
    ReconcileExactly(names, m, r, probe);
  }

  /** The start is not refused, and nobody is signalled, when every open local row has a pid and nothing runs under any
      of these pids while the rows are handled. */
  lemma {:induction false} NothingLeftBehind(names: Names, m: Machine, rows: seq<Row>, spawns: set<nat>, probes: seq<Probe>)
    requires |probes| == |rows|
    requires forall r | r in rows && r.local && !Terminal(r.state) ::
               && r.pid.Some? && r.pid.value > 0 && r.pid.value !in m.live
               && forall probe | probe in probes :: r.pid.value !in probe.later
    ensures var m' := Sweep(names, m, rows, spawns, probes); m'.Some? && m'.value.signalled == m.signalled
    decreases |rows|
  {
    if rows != [] {
      assert rows[0] in rows;
      ReconcileExactly(names, m, rows[0], probes[0]);
      var m1 := m.(live := Evolve(m.live, probes[0].later, spawns));
      forall r | r in rows[1..] && r.local && !Terminal(r.state) ensures r.pid.Some? && r.pid.value !in m1.live {
        assert r in rows && probes[0] in probes;
      }
      NothingLeftBehind(names, m1, rows[1..], spawns, probes[1..]);
    }
  }

  lemma EvolveKeepsDead(live: Live, later: Live, spawns: set<nat>, r: Row)
    requires Dead(live, r) && r.spawn in spawns
    ensures Dead(Evolve(live, later, spawns), r)
  {
  }

  lemma ReconcileKeeps(names: Names, m: Machine, r: Row, probe: Probe, spawns: set<nat>, other: Row)
    requires Truthful(names, m.live, other) && other.spawn in spawns
    ensures var m' := Reconcile(names, m, r, probe);
            m'.Some? ==> Truthful(names, Evolve(m'.value.live, probe.later, spawns), other)
                         && (Dead(m.live, other) ==> Dead(Evolve(m'.value.live, probe.later, spawns), other))
  {
  }

  lemma {:induction false} DeadStaysDead(names: Names, m: Machine, rows: seq<Row>, spawns: set<nat>,
        probes: seq<Probe>, r: Row)
    requires |probes| == |rows| && Dead(m.live, r) && r.spawn in spawns
    ensures Sweep(names, m, rows, spawns, probes).Some? ==> Dead(Sweep(names, m, rows, spawns, probes).value.live, r)
    decreases |rows|
  {
    if rows != [] {
      var m1 := Reconcile(names, m, rows[0], probes[0]);
      if m1.Some? {
        var live := Evolve(m1.value.live, probes[0].later, spawns);
        DeadStaysDead(names, m1.value.(live := live), rows[1..], spawns, probes[1..], r);
      }
    }
  }

  /** If the startup step succeeds, every process that an earlier controller recorded for an open local
      job is dead, whatever pids were reused in the meantime. */
  lemma {:induction false} StartupStopsAll(names: Names, m: Machine, rows: seq<Row>, spawns: set<nat>, probes: seq<Probe>)
    requires |probes| == |rows| && forall r | r in rows :: Truthful(names, m.live, r) && r.spawn in spawns
    ensures var m' := Sweep(names, m, rows, spawns, probes);
            m'.Some? ==> forall r | r in rows && r.local && !Terminal(r.state) :: Dead(m'.value.live, r)
    decreases |rows|
  {
    var m' := Sweep(names, m, rows, spawns, probes);
    if rows != [] && m'.Some? {
      var first := rows[0];
      var m1 := Reconcile(names, m, first, probes[0]).value;
      var m2 := m1.(live := Evolve(m1.live, probes[0].later, spawns));
      assert first in rows;
      forall r | r in rows[1..] ensures Truthful(names, m2.live, r) && r.spawn in spawns {
        assert r in rows;
        ReconcileKeeps(names, m, first, probes[0], spawns, r);
      }
      StartupStopsAll(names, m2, rows[1..], spawns, probes[1..]);
      if first.local && !Terminal(first.state) {
        ReconcileStops(names, m, first, probes[0]);
        EvolveKeepsDead(m1.live, probes[0].later, spawns, first);
        DeadStaysDead(names, m2, rows[1..], spawns, probes[1..], first);
      }
      forall r | r in rows && r.local && !Terminal(r.state) ensures Dead(m'.value.live, r) {
        assert r == first || r in rows[1..];
      }
    }
  }

  /** Startup looks at recorded pids only: a process under any other pid outlives a start that succeeds, as long as it
      does not end by itself. */
  lemma {:induction false} UnrecordedSurvives(names: Names, m: Machine, rows: seq<Row>, spawns: set<nat>,
        probes: seq<Probe>, pid: Pid)
    requires |probes| == |rows| && pid in m.live && forall r | r in rows :: r.pid != Some(pid)
    requires forall probe | probe in probes :: pid in probe.later && probe.later[pid] == m.live[pid]
    ensures var m' := Sweep(names, m, rows, spawns, probes);
            m'.Some? ==> pid in m'.value.live && m'.value.live[pid] == m.live[pid]
    decreases |rows|
  {
    var m1 := if rows == [] then None else Reconcile(names, m, rows[0], probes[0]);
    if m1.Some? {
      assert rows[0] in rows && probes[0] in probes;
      var m2 := m1.value.(live := Evolve(m1.value.live, probes[0].later, spawns));
      UnrecordedSurvives(names, m2, rows[1..], spawns, probes[1..], pid);
    }
  }

  /** So a row that is not truthful about its pid can leave its process alive. Between the start of a second
      turn's process and the update of the row it is not: the row still has the pid of the first turn. */
  lemma SecondTurnWindow(names: Names, dir: string) returns (r: Row, m: Machine, probe: Probe)
    ensures r.local && r.state.Running? && r.pid == Some(1) && !Dead(m.live, r) && !Truthful(names, m.live, r)
    ensures var m' := Sweep(names, m, [r], {r.spawn}, [probe]); m'.Some? && !Dead(m'.value.live, r)
  {
    var p := Proc(2, "codex", "second", 1, "codex");
    r := Row(true, Running, Some(1), "codex", "first", Some(0), dir, 2);
    m := Machine(map[2 := p], []);
    probe := Probe(true, true, true, true, m.live);
    UnrecordedSurvives(names, m, [r], {2}, [probe], 2);
    assert Reconcile(names, m, r, probe) == Some(m);
    assert [r][1..] == [] && [probe][1..] == [];
  }

  /** Signals only go to processes that some open local row recognises: by executable, start token and
      directory. */
  lemma {:induction false} SignalsOnlyRecognised(names: Names, m: Machine, rows: seq<Row>, spawns: set<nat>,
        probes: seq<Probe>)
    requires |probes| == |rows|
    ensures var m' := Sweep(names, m, rows, spawns, probes);
            m'.Some? ==> forall p | p in m'.value.signalled && p !in m.signalled ::
              exists r | r in rows :: r.local && !Terminal(r.state) && r.executable != "" && r.token != "" && Recognised(names, r, p)
    decreases |rows|
  {
    var m' := Sweep(names, m, rows, spawns, probes);
    if rows != [] && m'.Some? {
      var m1 := Reconcile(names, m, rows[0], probes[0]).value;
      var m2 := m1.(live := Evolve(m1.live, probes[0].later, spawns));
      SignalsOnlyRecognised(names, m2, rows[1..], spawns, probes[1..]);
      forall p | p in m'.value.signalled && p !in m.signalled
        ensures exists r | r in rows ::
                  r.local && !Terminal(r.state) && r.executable != "" && r.token != "" && Recognised(names, r, p)
      {
        if p in m2.signalled {
          assert Recognised(names, rows[0], p) && rows[0] in rows;
        } else {
          var r :| r in rows[1..] && r.local && !Terminal(r.state) && r.executable != "" && r.token != "" && Recognised(names, r, p);
          assert r in rows;
        }
      }
    }
  }

  /** A legacy row is only passed over when its process is gone: the process of a job started in a
      canonical directory is never mistaken for another one by its command line. */
  lemma LegacyNeverCleared(names: Names, live: Live, r: Row, probe: Probe, pid: Pid, executable: string, sandbox: string,
                           approval: string, session: seq<string>)
    requires names.canonical(r.dir) == r.dir && Slashes(r.dir) == r.dir
    requires Fold(names.fold, "--cd ") == "--cd " && Fold(names.fold, " ") == " "
    requires pid > 0 && r.pid == Some(pid) && pid in live
    requires live[pid].command == Shown(Command(executable, sandbox, approval, r.dir, session))
    requires r.persisted.Some? ==> live[pid].started <= r.persisted.value + 1
    ensures !GoneOrReused(names, live, r, probe)
  {
    OwnCommandMatches(names.canonical, names.fold, executable, sandbox, approval, r.dir, session);
  }

  /** The machine as the controller meets it at startup. */
  class LocalMachine {
    var live: Live
    ghost var signalled: seq<Proc>

    ghost function View(): Machine
      reads this
    {
      Machine(live, signalled)
    }

    constructor (running: Live)
      ensures View() == Machine(running, [])
    {
      live, signalled := running, [];
    }

    /** Signal, wait, and look again. */
    method TerminateTree(pid: Pid, obeys: bool) returns (stopped: bool)
      requires pid in live
      modifies this
      ensures stopped == obeys && signalled == old(signalled) + [old(live[pid])]
      ensures live == if obeys then old(live) - {pid} else old(live)
    {
      signalled := signalled + [live[pid]];
      if obeys {
        live := live - {pid};
      }
      stopped := pid !in live;
    }

    method TerminatePersisted(names: Names, r: Row, probe: Probe) returns (stopped: bool)
      modifies this
      ensures (View(), stopped) == Terminate(names, old(View()), r, probe)
    {
      if !Exists(live, r.pid) {
        return true;
      }
      if r.executable == "" || r.token == "" || !probe.identity {
        return false;
      }
      var p := live[r.pid.value];
      if NormalizeExecutable(p.executable) != NormalizeExecutable(r.executable) || p.token != r.token {
        return false;
      }
      if !probe.commandLine || p.command == "" || !Matches(names.canonical, names.fold, p.command, r.dir) {
        return false;
      }
      stopped := TerminateTree(r.pid.value, probe.obeys);
    }

    /** Handles every row, while processes come and go; false refuses the start. */
    method TerminateStale(names: Names, rows: seq<Row>, spawns: set<nat>, probes: seq<Probe>) returns (ok: bool)
      requires |probes| == |rows|
      modifies this
      ensures ok == Sweep(names, old(View()), rows, spawns, probes).Some?
      ensures ok ==> View() == Sweep(names, old(View()), rows, spawns, probes).value
    {
      ghost var before := View();
      var i := 0;
      while i < |rows|
        invariant 0 <= i <= |rows|
        invariant Sweep(names, before, rows, spawns, probes) == Sweep(names, View(), rows[i..], spawns, probes[i..])
      {
        var r, probe := rows[i], probes[i];
        assert rows[i..][0] == r && probes[i..][0] == probe;
        assert rows[i..][1..] == rows[i + 1..] && probes[i..][1..] == probes[i + 1..];
        if r.local && !Terminal(r.state) {
          if r.pid.None? || r.pid.value <= 0 {
            if r.state.Starting? || r.state.Running? || r.state.Cancelling? {
              return false;
            }
          } else if r.executable == "" || r.token == "" {
            if !GoneOrReused(names, live, r, probe) {
              return false;
            }
          } else {
            var stopped := TerminatePersisted(names, r, probe);
            if !stopped {
              return false;
            }
          }
        }
        live := Evolve(live, probe.later, spawns);
        i := i + 1;
      }
      ok := true;
    }
  }
}
