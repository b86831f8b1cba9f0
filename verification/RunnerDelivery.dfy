/** What the protocol of controller and runner can always achieve: a request that meets an idle runner is carried out, and
    a result that is in the runner's journal gets through to the controller (runner_daemon.py, runner_ws.py). */
module RunnerDelivery {
  import opened Wrappers
  import opened RunnerProtocol

  /** Some legal steps lead from s to s'. */
  ghost predicate Leads(s: State, s': State) {
    exists steps: seq<Step> :: Legal(s, steps) && Run(s, steps) == s'
  }

  lemma LeadsSelf(s: State)
    ensures Leads(s, s)
  {
    assert Legal(s, []) && Run(s, []) == s;
  }

  lemma {:induction false} Append(s: State, steps: seq<Step>, a: Step)
    requires Legal(s, steps) && Enabled(Run(s, steps), a)
    ensures Legal(s, steps + [a]) && Run(s, steps + [a]) == Next(Run(s, steps), a)
    decreases |steps|
  {
    if steps == [] {
      assert Legal(Next(s, a), []) && [a][1..] == [] && steps + [a] == [a];
    } else {
      Append(Next(s, steps[0]), steps[1..], a);
      assert (steps + [a])[1..] == steps[1..] + [a];
    }
  }

  lemma Then(s: State, s1: State, a: Step)
    requires Leads(s, s1) && Enabled(s1, a)
    ensures Leads(s, Next(s1, a))
  {
    var steps :| Legal(s, steps) && Run(s, steps) == s1;
    Append(s, steps, a);
  }

  /** The runner serves and is not in the middle of a start, and nothing is on its way to it. */
  ghost predicate Attentive(s: State) {
    s.runner.mode.Up? && !s.runner.fatal && s.runner.start.Idle? && s.net.connected && s.net.toRunner == []
  }

  /** Requested and reserved ... */
  lemma RequestIsTaken(s: State, e: ExecId) returns (s': State)
    requires Attentive(s) && e !in s.past.used
    ensures Leads(s, s')
    ensures s'.runner == s.runner.(entries := s.runner.entries[e := Starting], disk := s.runner.entries[e := Starting],
                                   start := Reserved(e))
    ensures s'.live == s.live && s'.net == s.net && e in s'.controller.pending
  {
    LeadsSelf(s);
    Then(s, s, SendStart(e));
    var s1 := Next(s, SendStart(e));
    Then(s, s1, TakeStart(true, true));
    s' := Next(s1, TakeStart(true, true));
  }

  /** ... started and on record, and accepted. */
  lemma RequestIsAccepted(s: State, s1: State, e: ExecId) returns (s': State)
    requires Leads(s, s1) && s1.runner.mode.Up? && s1.runner.start == Reserved(e) && s1.net.connected
    ensures Leads(s, s')
    ensures s'.runner == s1.runner.(entries := s1.runner.entries[e := Running], disk := s1.runner.entries[e := Running],
                                    running := s1.runner.running + {e}, start := Idle)
    ensures s'.live == s1.live + {e} && e in s'.past.accepted && s'.controller == s1.controller
    ensures s'.net == s1.net.(toController := s1.net.toController + [JobAccepted(e)])
  {
    Then(s, s1, Spawn);
    var s2 := Next(s1, Spawn);
    Then(s, s2, Attach(true, false));
    s' := Next(s2, Attach(true, false));
  }

  /** A new execution that is asked for can be accepted, with its process running and on record, and the controller waits
      for its result. */
  lemma StartGetsThrough(s: State, e: ExecId) returns (s': State)
    requires Attentive(s) && e !in s.past.used
    ensures Leads(s, s') && Attentive(s')
    ensures e in s'.past.accepted && e in s'.live && e in s'.runner.running && e in s'.controller.pending
    ensures s'.runner.entries == s.runner.entries[e := Running] && s'.runner.disk == s'.runner.entries
    ensures JobAccepted(e) in s'.net.toController
  {
    var s1 := RequestIsTaken(s, e);
    s' := RequestIsAccepted(s, s1, e);
    assert s'.runner.entries == s.runner.entries[e := Running];
    assert s'.net.toController[|s1.net.toController|] == JobAccepted(e);
  }

  /** Once its process has ended, its result can be in the journal. */
  lemma EndIsJournaled(s: State, e: ExecId, result: Result) returns (s': State)
    requires s.runner.mode.Up? && e in s.runner.running && e in s.runner.entries && s.runner.entries[e].Running?
    ensures Leads(s, s') && Journaled(s', e, result) && s'.runner.mode.Up? && e !in s'.live
    ensures e in s'.runner.completed && s'.runner.completed[e] == result
  {
    LeadsSelf(s);
    Then(s, s, ProcessEnds(e));
    var s1 := Next(s, ProcessEnds(e));
    Then(s, s1, Finish(e, result, true));
    s' := Next(s1, Finish(e, result, true));
  }

  /** A new connection, and a handle of the execution. */
  lemma Reconnects(s: State, e: ExecId) returns (s': State)
    requires s.runner.mode.Up?
    ensures Leads(s, s') && s'.runner == s.runner && s'.past == s.past && e in s'.controller.pending
    ensures s'.net.connected && s'.net.toRunner == [] && |s'.net.toController| == 1 && s'.net.toController[0].Snapshot?
  {
    LeadsSelf(s);
    var s1 := s;
    if s.net.connected {
      Then(s, s, Disconnect);
      s1 := Next(s, Disconnect);
    }
    Then(s, s1, Connect);
    var s2 := Next(s1, Connect);
    Then(s, s2, Adopt(e));
    s' := Next(s2, Adopt(e));
  }

  lemma ResultIsReceived(s: State, s1: State, e: ExecId) returns (s': State)
    requires Leads(s, s1) && s1.runner.mode.Up? && e in s1.runner.completed && e in s1.controller.pending
    requires s1.net.connected && |s1.net.toController| == 1 && s1.net.toController[0].Snapshot?
    ensures Leads(s, s') && s'.runner == s1.runner && s'.net == s1.net.(toController := [])
    ensures e in s'.controller.outcomes && s'.controller.outcomes[e] == Done(s1.runner.completed[e])
  {
    Then(s, s1, Flush(e));
    var s2 := Next(s1, Flush(e));
    Then(s, s2, Receive);
    var s3 := Next(s2, Receive);
    Then(s, s3, Receive);
    s' := Next(s3, Receive);
  }

  lemma AckIsTaken(s: State, s1: State, e: ExecId) returns (s': State)
    requires Leads(s, s1) && s1.runner.mode.Up? && s1.net.connected && s1.net.toRunner == []
    requires e in s1.controller.outcomes && s1.controller.outcomes[e].Done? && s1.controller.outcomes[e].result.definite
    requires e in s1.runner.entries
    ensures Leads(s, s') && e !in s'.runner.disk && e !in s'.runner.entries && e !in s'.runner.completed
    ensures s'.controller == s1.controller && e in s'.past.acked
  {
    Then(s, s1, Abort);
    var s2 := Next(s1, Abort);
    Then(s, s2, SendAck(e));
    var s3 := Next(s2, SendAck(e));
    Then(s, s3, TakeAck(true));
    s' := Next(s3, TakeAck(true));
  }

  /** In every state in which a runner that serves has a result, the controller can still get it; and if it is definite,
      it can be acknowledged, and then the runner forgets the execution, on disk too. */
  lemma ResultGetsThrough(s: State, e: ExecId) returns (s': State)
    requires Inv(s) && s.runner.mode.Up? && !s.runner.fatal && e in s.runner.completed
    ensures Leads(s, s') && e in s'.controller.outcomes && s'.controller.outcomes[e] == Done(s.runner.completed[e])
    ensures s.runner.completed[e].definite ==> e in s'.past.acked && e !in s'.runner.disk && e !in s'.runner.completed
  {
    var s1 := Reconnects(s, e);
    var s2 := ResultIsReceived(s, s1, e);
    s' := s2;
    if s.runner.completed[e].definite {
      s' := AckIsTaken(s, s2, e);
    }
  }

  // ---- coming back after a crash ----

  /** Recovery has dealt with all entries but those in rest. */
  lemma {:induction false} EntriesRecover(s: State, s1: State, rest: set<ExecId>) returns (s': State)
    requires Leads(s, s1) && s1.runner.mode.Recovering? && rest <= s1.runner.entries.Keys
    requires forall e | e in s1.runner.entries :: !s1.runner.entries[e].Starting?
    requires forall e | e in s1.runner.entries && e !in rest :: e in s1.runner.completed
    ensures Leads(s, s') && s'.runner.mode.Recovering? && forall e | e in s'.runner.entries :: e in s'.runner.completed
    decreases |rest|
  {
    s' := s1;
    if rest != {} {
      var e :| e in rest;
      if e in s1.runner.completed {
        s' := EntriesRecover(s, s1, rest - {e});
      } else {
        EntryRecovers(s, s1, e);
        s' := EntriesRecover(s, Next(s1, Recover(e, true, true)), rest - {e});
      }
    }
  }

  lemma EntryRecovers(s: State, s1: State, e: ExecId)
    requires Leads(s, s1) && s1.runner.mode.Recovering? && e in s1.runner.entries && e !in s1.runner.completed
    requires forall k | k in s1.runner.entries :: !s1.runner.entries[k].Starting?
    ensures var s2 := Next(s1, Recover(e, true, true));
            && Leads(s, s2) && s2.runner.mode.Recovering? && s2.runner.entries.Keys == s1.runner.entries.Keys
            && s2.runner.completed.Keys == s1.runner.completed.Keys + {e}
            && forall k | k in s2.runner.entries :: !s2.runner.entries[k].Starting?
  {
    Then(s, s1, Recover(e, true, true));
  }

  /** e was being started when the runner died: whether it has a process is not known. */
  ghost predicate InDoubt(s: State, e: ExecId) {
    && e in s.runner.disk && s.runner.disk[e].Starting? && !s.runner.mode.Up?
    && e !in s.runner.completed && (s.runner.mode.Recovering? ==> e in s.runner.entries && s.runner.entries[e].Starting?)
  }

  lemma DoubtStays(s: State, a: Step, e: ExecId)
    requires Enabled(s, a) && InDoubt(s, e)
    ensures InDoubt(Next(s, a), e)
  {
  }

  lemma {:induction false} DoubtStaysAlways(s: State, steps: seq<Step>, e: ExecId)
    requires Legal(s, steps) && InDoubt(s, e)
    ensures InDoubt(Run(s, steps), e)
    decreases |steps|
  {
    if steps != [] {
      DoubtStays(s, steps[0], e);
      DoubtStaysAlways(Next(s, steps[0]), steps[1..], e);
    }
  }

  /** A runner that is down can serve again exactly if it did not die between the reservation of an execution and the record
      of its process: whatever happens, the entry in doubt refuses every start. */
  lemma ComesBackExactly(s: State)
    requires Inv(s) && s.runner.mode.Down?
    ensures (exists s' :: Leads(s, s') && s'.runner.mode.Up?) <==> forall e | e in s.runner.disk :: !s.runner.disk[e].Starting?
  {
    if e :| e in s.runner.disk && s.runner.disk[e].Starting? {
      forall s' | Leads(s, s') ensures !s'.runner.mode.Up? {
        var steps :| Legal(s, steps) && Run(s, steps) == s';
        DoubtStaysAlways(s, steps, e);
      }
    } else {
      LeadsSelf(s);
      Then(s, s, Load);
      var s1 := Next(s, Load);
      var s2 := EntriesRecover(s, s1, s1.runner.entries.Keys);
      Then(s, s2, Serve);
      assert Leads(s, Next(s2, Serve)) && Next(s2, Serve).runner.mode.Up?;
    }
  }
}
