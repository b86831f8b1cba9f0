/** Instructions that a user adds to a running job (job_manager.py, steer, _drain_steering, the region of
    _finish_or_continue that ends a turn, and _resume_or_fallback, which starts the next one). */
module Steering {
  import opened States

  /** What became of instructions that a finished turn took along: the next turn was started with them and the job was
      still RUNNING, or the record of a wait has them as its resume instruction, or they are lost. */
  datatype Batch = Delivered(texts: seq<string>) | Kept(texts: seq<string>) | Lost(texts: seq<string>)

  /** state and pending are the job's row and its list of instructions, carried what a finished turn has taken from
      it for the next one, handed what that one is being started with; accepted and handled are history. */
  datatype Inbox = Inbox(state: JobState, pending: seq<string>, carried: seq<string>, handed: seq<string>,
                         accepted: seq<string>, handled: seq<Batch>)

  /** How the start of a turn ends, a fallback to a new conversation included: there is a handle, the host or the quota is
      missing, or it fails otherwise. */
  datatype Start = Accepted | Deferred(to: JobState) | Refused

  datatype Op =
    | Steer(text: string)          // the user's request, after strip()
    | FinishTurn                   // a turn succeeded: take what is pending along, or go on to QA
    | NextTurn                     // _resume_or_fallback with what was taken along
    | StartTurn(start: Start)      // the runner's answer
    | CompleteAfterQa              // the recovery of an interrupted QA run ended
    | Transition(to: JobState)     // any other transition of the job
    | Crash                        // the controller dies

  predicate Steerable(s: JobState) {
    s.Assigned? || s.Starting? || s.Running?
  }

  predicate Held(s: JobState) {
    s.WaitingHuman? || s.WaitingHost? || s.WaitingQuota?
  }

  function Moved(b: Inbox, to: JobState): Inbox {
    if Allowed(b.state, to) then b.(state := to) else b
  }

  /** The wait is entered with the instruction on record: _enter_host_wait, or _enter_quota_wait of a turn. */
  predicate Keeps(state: JobState, to: JobState) {
    match to
    case WaitingHost => state.WaitingHost? || Allowed(state, WaitingHost)
    case WaitingQuota => state.Starting? || state.Running?
    case _ => false
  }

  /** A turn that was started for a job that is not RUNNING any more is cancelled. */
  function Handle(state: JobState, start: Start, texts: seq<string>): Batch {
    match start
    case Accepted => if state.Running? then Delivered(texts) else Lost(texts)
    case Deferred(to) => if Keeps(state, to) then Kept(texts) else Lost(texts)
    case Refused => Lost(texts)
  }

  /** Accepted, but neither delivered nor kept nor lost. */
  function OnTheWay(b: Inbox): seq<string> {
    b.handed + b.carried + b.pending
  }

  function Apply(b: Inbox, op: Op): Inbox {
    match op
    case Steer(text) =>
      if text == "" || !Steerable(b.state) then b
      else b.(pending := b.pending + [text], accepted := b.accepted + [text])
    case FinishTurn =>
      if Held(b.state) || b.carried + b.handed != [] then b
      else if b.pending == [] then Moved(b, WaitingAgent)
      else b.(pending := [], carried := b.pending)
    case NextTurn =>
      if b.carried == [] || b.handed != [] then b
      else if b.state.Running? then b.(carried := [], handed := b.carried)
      else b.(carried := [], handled := b.handled + [Lost(b.carried)])
    case StartTurn(start) =>
      if b.handed == [] then b
      else
        var b1 := if start.Deferred? && Keeps(b.state, start.to) then Moved(b, start.to) else b;
        b1.(handed := [], handled := b.handled + [Handle(b.state, start, b.handed)])
    case CompleteAfterQa =>
      if b.state.Running? then b.(state := WaitingAgent) else b
    case Transition(to) =>
      if to.WaitingAgent? then b else Moved(b, to)
    case Crash =>
      if OnTheWay(b) == [] then b
      else b.(pending := [], carried := [], handed := [], handled := b.handled + [Lost(OnTheWay(b))])
  }

  function Play(b: Inbox, ops: seq<Op>): Inbox {
    if ops == [] then b else Apply(Play(b, ops[..|ops| - 1]), ops[|ops| - 1])
  }

  function Empty(state: JobState): Inbox {
    Inbox(state, [], [], [], [], [])
  }

  function Flat(parts: seq<Batch>): seq<string> {
    if parts == [] then [] else Flat(parts[..|parts| - 1]) + parts[|parts| - 1].texts
  }

  lemma FlatMore(parts: seq<Batch>, part: Batch)
    ensures Flat(parts + [part]) == Flat(parts) + part.texts
  {
  }

  /** Nothing accepted is missing, doubled or out of order. */
  ghost predicate Accounted(b: Inbox) {
    && Flat(b.handled) + OnTheWay(b) == b.accepted && (b.handed == [] || b.carried == [])
    && forall part | part in b.handled :: part.texts != []
  }

  /** The first of those on the way are dealt with. */
  lemma OneBatch(b: Inbox, part: Batch, rest: seq<string>)
    requires Accounted(b) && OnTheWay(b) == part.texts + rest
    ensures Flat(b.handled + [part]) + rest == b.accepted
  {
    FlatMore(b.handled, part);
    assert Flat(b.handled) + (part.texts + rest) == Flat(b.handled) + part.texts + rest;
  }

  lemma SteerAccounts(b: Inbox, text: string)
    requires Accounted(b)
    ensures Accounted(Apply(b, Steer(text)))
  {
    var b' := Apply(b, Steer(text));
    if b' != b {
      assert OnTheWay(b') == OnTheWay(b) + [text];
      assert Flat(b.handled) + (OnTheWay(b) + [text]) == Flat(b.handled) + OnTheWay(b) + [text];
    }
  }

  lemma NextTurnAccounts(b: Inbox)
    requires Accounted(b)
    ensures Accounted(Apply(b, NextTurn))
  {
    var b' := Apply(b, NextTurn);
    if b.carried != [] && b.handed == [] && !b.state.Running? {
      assert OnTheWay(b) == b.carried + b.pending && OnTheWay(b') == b.pending;
      OneBatch(b, Lost(b.carried), b.pending);
    } else {
      assert OnTheWay(b') == OnTheWay(b);
    }
  }

  lemma StartTurnAccounts(b: Inbox, start: Start)
    requires Accounted(b)
    ensures Accounted(Apply(b, StartTurn(start)))
  {
    if b.handed != [] {
      assert OnTheWay(b) == b.handed + b.pending && OnTheWay(Apply(b, StartTurn(start))) == b.pending;
      OneBatch(b, Handle(b.state, start, b.handed), b.pending);
    }
  }

  lemma CrashAccounts(b: Inbox)
    requires Accounted(b)
    ensures Accounted(Apply(b, Crash))
  {
    assert OnTheWay(Apply(b, Crash)) == [] && OnTheWay(b) == OnTheWay(b) + [];
    OneBatch(b, Lost(OnTheWay(b)), []);
  }

  lemma OpAccounts(b: Inbox, op: Op)
    requires Accounted(b)
    ensures Accounted(Apply(b, op))
  {
    match op
    case Steer(text) => SteerAccounts(b, text);
    case NextTurn => NextTurnAccounts(b);
    case StartTurn(start) => StartTurnAccounts(b, start);
    case Crash => CrashAccounts(b);
    case _ => assert OnTheWay(Apply(b, op)) == OnTheWay(b);
  }

  /** Under any interleaving: the instructions that were delivered, kept or lost, followed by those on their way, are
      the accepted ones, in order and each once; and no turn gets an empty batch. */
  lemma {:induction false} InOrderOnce(state: JobState, ops: seq<Op>)
    ensures Accounted(Play(Empty(state), ops))
  {
    if ops != [] {
      InOrderOnce(state, ops[..|ops| - 1]);
      OpAccounts(Play(Empty(state), ops[..|ops| - 1]), ops[|ops| - 1]);
    }
  }

  // ---- instructions that get lost ----

  /** The step loses accepted instructions: the job is not RUNNING any more when the next turn is to be started, or when
      it has been; its start fails, and no wait keeps them; or the controller dies before. */
  predicate Loses(b: Inbox, op: Op) {
    match op
    case NextTurn => b.handed == [] && b.carried != [] && !b.state.Running?
    case StartTurn(start) =>
      b.handed != [] && if start.Accepted? then !b.state.Running? else start.Deferred? ==> !Keeps(b.state, start.to)
    case Crash => OnTheWay(b) != []
    case _ => false
  }

  predicate LosesSomewhere(state: JobState, ops: seq<Op>) {
    ops != [] && (LosesSomewhere(state, ops[..|ops| - 1]) || Loses(Play(Empty(state), ops[..|ops| - 1]), ops[|ops| - 1]))
  }

  ghost predicate NothingLost(b: Inbox) {
    forall part | part in b.handled :: !part.Lost?
  }

  lemma OpLoses(b: Inbox, op: Op)
    ensures NothingLost(Apply(b, op)) <==> NothingLost(b) && !Loses(b, op)
  {
    var handled := Apply(b, op).handled;
    if handled != b.handled {
      var part := handled[|handled| - 1];
      assert handled == b.handled + [part] && part in handled;
    }
  }

  /** Every accepted instruction is delivered, kept on record, or still on its way, exactly if no step has lost one. */
  lemma {:induction false} DeliveredUnlessLost(state: JobState, ops: seq<Op>)
    ensures NothingLost(Play(Empty(state), ops)) <==> !LosesSomewhere(state, ops)
  {
    if ops != [] {
      DeliveredUnlessLost(state, ops[..|ops| - 1]);
      OpLoses(Play(Empty(state), ops[..|ops| - 1]), ops[|ops| - 1]);
    }
  }

  /** The user pauses the job while its finished turn takes an instruction along. */
  lemma LostInstruction() returns (ops: seq<Op>)
    ensures Play(Empty(Running), ops) == Inbox(Paused, [], [], [], ["stop"], [Lost(["stop"])])
  {
    ops := [Steer("stop"), FinishTurn, Transition(Paused), NextTurn];
    assert ops[..3][..2] == ops[..2] && ops[..2][..1] == ops[..1] && ops[..1][..0] == [];
    assert Play(Empty(Running), ops[..1]) == Apply(Empty(Running), Steer("stop"));
    assert Play(Empty(Running), ops[..2]) == Inbox(Running, [], ["stop"], [], ["stop"], []);
    assert Play(Empty(Running), ops[..3]) == Inbox(Paused, [], ["stop"], [], ["stop"], []);
  }

  // ---- the end of a job's turns ----

  /** When a finished turn moves a job to WAITING_AGENT, no accepted instruction is still on its way; so all were delivered
      or kept, unless a step has lost one. */
  lemma NothingUndelivered(state: JobState, ops: seq<Op>)
    requires !Play(Empty(state), ops).state.WaitingAgent?
    ensures var b := Play(Empty(state), ops + [FinishTurn]);
            b.state.WaitingAgent? ==>
              && OnTheWay(b) == [] && Flat(b.handled) == b.accepted && (!LosesSomewhere(state, ops) ==> NothingLost(b))
  {
    assert (ops + [FinishTurn])[..|ops|] == ops;
    InOrderOnce(state, ops + [FinishTurn]);
    DeliveredUnlessLost(state, ops);
  }

  /** The step that ends a recovered QA run does not deliver anything. */
  predicate Strands(b: Inbox, op: Op) {
    op.CompleteAfterQa? && b.state.Running? && OnTheWay(b) != []
  }

  /** A step into WAITING_AGENT leaves an instruction undelivered exactly if it ends a recovered QA run
      during which one was accepted. */
  lemma StrandsExactly(b: Inbox, op: Op)
    requires !b.state.WaitingAgent? && Apply(b, op).state.WaitingAgent?
    ensures OnTheWay(Apply(b, op)) != [] <==> Strands(b, op)
  {
  }

  /** It can happen. */
  lemma StrandedInstruction() returns (ops: seq<Op>)
    ensures var b := Play(Empty(Running), ops); b.state.WaitingAgent? && b.pending == ["stop"]
  {
    ops := [Steer("stop"), CompleteAfterQa];
    assert ops[..1] == [Steer("stop")] && ops[..1][..0] == [];
    assert Play(Empty(Running), ops[..1]) == Apply(Empty(Running), Steer("stop"));
  }

  predicate StrandsSomewhere(state: JobState, ops: seq<Op>) {
    ops != [] && (StrandsSomewhere(state, ops[..|ops| - 1])
                  || Strands(Play(Empty(state), ops[..|ops| - 1]), ops[|ops| - 1]))
  }

  /** Without such a step, a job in WAITING_AGENT never has an undelivered instruction. */
  lemma {:induction false} WaitingAgentHasNone(state: JobState, ops: seq<Op>)
    requires !StrandsSomewhere(state, ops)
    ensures var b := Play(Empty(state), ops); b.state.WaitingAgent? ==> OnTheWay(b) == []
  {
    if ops != [] {
      WaitingAgentHasNone(state, ops[..|ops| - 1]);
      assert !Strands(Play(Empty(state), ops[..|ops| - 1]), ops[|ops| - 1]);
    }
  }

  /** The job as the controller keeps it: the row's state and JobManager._steering; carried and handed are what the task of
      the job has in hand. */
  class SteeredJob {
    var state: JobState
    var pending: seq<string>
    var carried: seq<string>
    var handed: seq<string>
    ghost var accepted: seq<string>
    ghost var handled: seq<Batch>

    ghost function View(): Inbox
      reads this
    {
      Inbox(state, pending, carried, handed, accepted, handled)
    }

    constructor (initial: JobState)
      ensures View() == Empty(initial)
    {
      state, pending, carried, handed, accepted, handled := initial, [], [], [], [], [];
    }

    method Steer(text: string) returns (ok: bool)
      modifies this
      ensures View() == Apply(old(View()), Op.Steer(text))
      ensures ok <==> text != "" && (old(state).Assigned? || old(state).Starting? || old(state).Running?)
      ensures state == old(state) && pending == if ok then old(pending) + [text] else old(pending)
    {
      if text == "" || !Steerable(state) {
        return false;
      }
      pending := pending + [text];
      accepted := accepted + [text];
      ok := true;
    }

    /** What the next turn is to be told, or nothing when the job is ready for QA (or may not go on). */
    method FinishTurn() returns (instruction: seq<string>)
      requires carried == [] && handed == []
      modifies this
      ensures View() == Apply(old(View()), Op.FinishTurn)
      ensures var held := old(state).WaitingHuman? || old(state).WaitingHost? || old(state).WaitingQuota?;
              && instruction == (if held then [] else old(pending))
              && pending == (if held then old(pending) else [])
              && state == if old(state).Running? && old(pending) == [] then WaitingAgent else old(state)
    {
      instruction := [];
      if Held(state) {
        return;
      }
      instruction := DrainSteering();
      carried := instruction;
      if instruction == [] {
        if Allowed(state, WaitingAgent) {
          state := WaitingAgent;
        }
      }
    }

    method DrainSteering() returns (messages: seq<string>)
      modifies this`pending
      ensures messages == old(pending) && pending == []
    {
      messages := pending;
      pending := [];
    }

    /** _resume_or_fallback: true if the turn may start. */
    method NextTurn() returns (starts: bool)
      requires carried != [] && handed == []
      modifies this
      ensures View() == Apply(old(View()), Op.NextTurn) && starts == old(state).Running?
      ensures carried == [] && handed == (if starts then old(carried) else [])
      ensures handled == old(handled) + if starts then [] else [Lost(old(carried))]
    {
      starts := state.Running?;
      if starts {
        handed := carried;
      } else {
        handled := handled + [Lost(carried)];
      }
      carried := [];
    }

    /** ... true if it goes on: otherwise the turn is cancelled again, or the job waits, or it fails. */
    method StartTurn(start: Start) returns (goesOn: bool)
      requires handed != []
      modifies this
      ensures View() == Apply(old(View()), Op.StartTurn(start))
      ensures goesOn <==> start.Accepted? && old(state).Running?
      ensures handed == [] && handled == old(handled) + [
                if goesOn then Delivered(old(handed))
                else if start == Deferred(WaitingHost) && (old(state).WaitingHost? || Allowed(old(state), WaitingHost))
                then Kept(old(handed))
                else if start == Deferred(WaitingQuota) && (old(state).Starting? || old(state).Running?)
                then Kept(old(handed)) else Lost(old(handed))]
      ensures goesOn ==> handled == old(handled) + [Delivered(old(handed))]
    {
      goesOn := start.Accepted? && state.Running?;
      handled := handled + [Handle(state, start, handed)];
      handed := [];
      if start.Deferred? && Keeps(state, start.to) && Allowed(state, start.to) {
        state := start.to;
      }
    }
  }
}
