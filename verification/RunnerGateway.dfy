/** The controller's end of the runner connections (transport/runner_ws.py: RunnerGateway and
    RemoteRunHandle). */
module RunnerGateway {
  import opened Wrappers

  type HostId = nat
  type ExecId = nat
  type SocketId = nat
  type FutureId = nat

  datatype RetryKind = NoRetry | QuotaRetry | HostRetry | CancelUnconfirmed

  datatype Result = Result(returncode: int, kind: RetryKind)

  /** Results that say nothing about how the execution ended. */
  predicate Indefinite(r: Result) {
    r.kind.HostRetry? || r.kind.CancelUnconfirmed?
  }

  const LOST := Result(75, HostRetry)

  /** A live connection and the generation of the runner behind it. */
  datatype Connection = Connection(socket: SocketId, instance: nat, boot: nat)

  datatype Pending = Pending(host: HostId, future: FutureId)

  datatype Message = JobAccepted(e: ExecId) | JobProgress(e: ExecId) | JobResult(e: ExecId, result: Result) | JobError(e: ExecId, result: Result)

  datatype Sent = Start(e: ExecId) | Cancel(e: ExecId) | Ack(e: ExecId)

  /** A handle's future: the execution it waits for on a host, and its result once there is one. */
  datatype Future = Future(e: ExecId, host: HostId, result: Option<Result>)

  datatype CancelAnswer = Confirmed | Unconfirmed | TimedOut | NotConnected

  /** What a lost connection makes of a future, while the executions in rest are still to be dealt with. */
  function Cut(f: Future, host: HostId, rest: set<ExecId>): Future {
    if f.result.None? && f.host == host && f.e !in rest then f.(result := Some(LOST)) else f
  }

  class Gateway {
    var connections: map<HostId, Connection>
    var pending: map<ExecId, Pending>
    var futures: map<FutureId, Future>
    var sent: seq<(HostId, Sent)>

    /** A future has no result exactly as long as it is pending. */
    ghost predicate Valid()
      reads this
    {
      && (forall e | e in pending :: pending[e].future in futures
            && futures[pending[e].future] == Future(e, pending[e].host, None))
      && (forall f | f in futures && futures[f].result.None? :: futures[f].e in pending
            && pending[futures[f].e].future == f)
    }

    /** Results are final. */
    twostate predicate Resolves()
      reads this
    {
      forall f | f in old(futures) :: f in futures && futures[f].e == old(futures)[f].e && futures[f].host == old(futures)[f].host
                                      && (old(futures)[f].result.Some? ==> futures[f] == old(futures)[f])
    }

    constructor ()
      ensures Valid() && pending == map[] && futures == map[]
    {
      connections, pending, futures, sent := map[], map[], map[], [];
    }

    /** A second connection of a host must come from the same runner generation. */
    method Attach(host: HostId, socket: SocketId, instance: nat, boot: nat) returns (ok: bool)
      requires Valid()
      modifies this`connections
      ensures Valid()
      ensures ok <==> host in old(connections) && old(connections)[host].socket != socket ==>
                        old(connections)[host].instance == instance && old(connections)[host].boot == boot
      ensures connections == if ok then old(connections)[host := Connection(socket, instance, boot)] else old(connections)
    {
      if host in connections && connections[host].socket != socket
         && (connections[host].instance != instance || connections[host].boot != boot) {
        return false;
      }
      connections := connections[host := Connection(socket, instance, boot)];
      ok := true;
    }

    /** Only the current socket can detach its host; every run that waits on the host is lost. */
    method Detach(host: HostId, socket: SocketId) returns (did: bool)
      requires Valid()
      modifies this
      ensures Valid() && Resolves() && sent == old(sent)
      ensures did <==> host in old(connections) && old(connections)[host].socket == socket
      ensures connections == if did then old(connections) - {host} else old(connections)
      ensures futures.Keys == old(futures).Keys
      ensures forall f | f in old(futures) :: futures[f].result ==
                if did && old(futures)[f].result.None? && old(futures)[f].host == host then Some(Result(75, HostRetry))
                else old(futures)[f].result
    {
      if host !in connections || connections[host].socket != socket {
        return false;
      }
      connections := connections - {host};
      LoseRuns(host);
      did := true;
    }

    /** Every run that waits on the host gets the result that its runner is gone. */
    method LoseRuns(host: HostId)
      requires Valid()
      modifies this`futures, this`pending
      ensures Valid() && futures.Keys == old(futures).Keys
      ensures forall f | f in old(futures) :: futures[f] == Cut(old(futures)[f], host, {})
    {
      var rest := pending.Keys;
      while rest != {}
        invariant Valid() && rest <= old(pending).Keys && futures.Keys == old(futures).Keys
        invariant forall e :: e in pending <==> e in old(pending) && (e in rest || old(pending)[e].host != host)
        invariant forall e | e in pending :: pending[e] == old(pending)[e]
        invariant forall f | f in old(futures) :: futures[f] == Cut(old(futures)[f], host, rest)
        decreases |rest|
      {
        var e :| e in rest;
        rest := rest - {e};
        if pending[e].host == host {
          Resolve(e, LOST);
        }
      }
    }

    /** The future of a pending run gets its result, and the run is no longer pending. */
    method Resolve(e: ExecId, r: Result)
      requires Valid() && e in pending
      modifies this`futures, this`pending
      ensures Valid() && Resolves() && pending == old(pending) - {e}
      ensures var f := old(pending)[e].future; futures == old(futures)[f := old(futures)[f].(result := Some(r))]
    {
      var f := pending[e].future;
      futures := futures[f := futures[f].(result := Some(r))];
      pending := pending - {e};
    }

    /** A run is pending, with its future, before the request to start it is sent: a lost connection or an early answer
        finds it. */
    method BeginStart(host: HostId, e: ExecId, f: FutureId) returns (ok: bool)
      requires Valid() && e !in pending && f !in futures
      modifies this`pending, this`futures
      ensures Valid() && Resolves() && ok == (host in connections)
      ensures futures == if ok then old(futures)[f := Future(e, host, None)] else old(futures)
      ensures pending == if ok then old(pending)[e := Pending(host, f)] else old(pending)
    {
      ok := host in connections;
      if ok {
        futures := futures[f := Future(e, host, None)];
        pending := pending[e := Pending(host, f)];
      }
    }

    /** If the request cannot be sent, nobody gets the handle, and the run is not pending any more. */
    method SendStart(host: HostId, e: ExecId, f: FutureId, sends: bool)
      requires Valid() && f in futures && futures[f].e == e && (e in pending ==> pending[e].future == f)
      modifies this`pending, this`futures, this`sent
      ensures Valid() && sent == old(sent) + if sends then [(host, Start(e))] else []
      ensures sends ==> futures == old(futures) && pending == old(pending)
      ensures !sends ==> e !in pending && pending == old(pending) - {e} && futures == old(futures) - {f}
    {
      if sends {
        sent := sent + [(host, Start(e))];
      } else {
        pending := pending - {e};
        futures := futures - {f};
      }
    }

    /** The handle of a run that is started here, if nothing comes in between; without a connection, or if the request
        cannot be sent, there is none. */
    method StartRemote(host: HostId, e: ExecId, f: FutureId, sends: bool) returns (ok: bool)
      requires Valid() && e !in pending && f !in futures
      modifies this`pending, this`futures, this`sent
      ensures Valid() && Resolves() && ok == (host in connections && sends)
      ensures futures == if ok then old(futures)[f := Future(e, host, None)] else old(futures)
      ensures pending == if ok then old(pending)[e := Pending(host, f)] else old(pending)
      ensures sent == old(sent) + if ok then [(host, Start(e))] else []
    {
      ok := BeginStart(host, e, f);
      if ok {
        SendStart(host, e, f, sends);
        ok := sends;
      }
    }

    /** A run that the runner reported: its present handle if it is pending, or a new one. */
    method AdoptRemote(host: HostId, e: ExecId, next: FutureId) returns (f: FutureId)
      requires Valid() && next !in futures
      modifies this`pending, this`futures
      ensures Valid() && Resolves() && f in futures && futures[f].e == e && futures[f].result.None?
      ensures e in old(pending) ==> f == old(pending)[e].future && futures == old(futures) && pending == old(pending)
      ensures e !in old(pending) ==> f == next && futures == old(futures)[next := Future(e, host, None)]
                                     && pending == old(pending)[e := Pending(host, next)]
    {
      if e in pending {
        return pending[e].future;
      }
      futures := futures[next := Future(e, host, None)];
      pending := pending[e := Pending(host, next)];
      f := next;
    }

    /** A message about a run that is not pending on that host changes nothing, and is not acknowledged. */
    method Handle(host: HostId, m: Message)
      requires Valid()
      modifies this`pending, this`futures
      ensures Valid() && Resolves() && futures.Keys == old(futures).Keys
      ensures forall f | f in old(futures) :: futures[f].result ==
                if (m.JobResult? || m.JobError?) && m.e in old(pending) && old(pending)[m.e] == Pending(host, f)
                then Some(m.result) else old(futures)[f].result
    {
      if m.e !in pending || pending[m.e].host != host || m.JobAccepted? || m.JobProgress? {
        return;
      }
      Resolve(m.e, m.result);
    }

    /** Asks the runner to stop the run and waits: answer is what resolves the future in time. A run that is not pending
        has its result already. */
    method CancelRemote(host: HostId, e: ExecId, answer: Option<Result>) returns (c: CancelAnswer)
      requires Valid()
      modifies this`pending, this`futures, this`sent
      ensures Valid() && Resolves()
      ensures e !in old(pending) ==> c.Confirmed? && futures == old(futures) && pending == old(pending) && sent == old(sent)
      ensures e in old(pending) && (old(pending)[e].host != host || host !in connections) ==>
                c.NotConnected? && futures == old(futures) && pending == old(pending) && sent == old(sent)
      ensures e in old(pending) && old(pending)[e].host == host && host in connections ==>
                && sent == old(sent) + [(host, Cancel(e))]
                && match answer
                   case None => c.TimedOut? && futures == old(futures) && pending == old(pending)
                   case Some(r) =>
                     var f := old(pending)[e].future;
                     && futures == old(futures)[f := Future(e, host, Some(r))] && pending == old(pending) - {e}
                     && c == if r.kind.HostRetry? || r.kind.CancelUnconfirmed? then Unconfirmed else Confirmed
    {
      if e !in pending {
        return Confirmed;
      }
      if pending[e].host != host || host !in connections {
        return NotConnected;
      }
      sent := sent + [(host, Cancel(e))];
      if answer.None? {
        return TimedOut;
      }
      Resolve(e, answer.value);
      c := if Indefinite(answer.value) then Unconfirmed else Confirmed;
    }

    /** RemoteRunHandle.cancel: it returns normally only when the run has a definite result. Without one the runner is
        asked, and its answer in time is the result. */
    method CancelHandle(f: FutureId, answer: Option<Result>) returns (c: CancelAnswer)
      requires Valid() && f in futures
      modifies this`pending, this`futures, this`sent
      ensures Valid() && Resolves()
      ensures c.Confirmed? <==> futures[f].result.Some? && !Indefinite(futures[f].result.value)
      ensures old(futures)[f].result.Some? ==>
                && futures == old(futures) && pending == old(pending) && sent == old(sent)
                && var r := old(futures)[f].result.value;
                   c == if r.kind.HostRetry? || r.kind.CancelUnconfirmed? then Unconfirmed else Confirmed
      ensures old(futures)[f].result.None? && old(futures)[f].host !in connections ==>
                c.NotConnected? && futures == old(futures) && pending == old(pending) && sent == old(sent)
      ensures old(futures)[f].result.None? && old(futures)[f].host in connections ==>
                var e, host := old(futures)[f].e, old(futures)[f].host;
                && sent == old(sent) + [(host, Cancel(e))]
                && match answer
                   case None => c.TimedOut? && futures == old(futures) && pending == old(pending)
                   case Some(r) =>
                     && futures == old(futures)[f := Future(e, host, Some(r))] && pending == old(pending) - {e}
                     && c == if r.kind.HostRetry? || r.kind.CancelUnconfirmed? then Unconfirmed else Confirmed
    {
      var future := futures[f];
      if future.result.Some? {
        return if Indefinite(future.result.value) then Unconfirmed else Confirmed;
      }
      c := CancelRemote(future.host, future.e, answer);
    }

    /** RemoteRunHandle.acknowledge_result: only a definite result is acknowledged. */
    method Acknowledge(f: FutureId) returns (acked: bool)
      requires Valid() && f in futures
      modifies this`sent
      ensures Valid()
      ensures acked <==> match futures[f].result
                         case None => false
                         case Some(r) => !r.kind.HostRetry? && !r.kind.CancelUnconfirmed? && futures[f].host in connections
      ensures sent == old(sent) + if acked then [(futures[f].host, Ack(futures[f].e))] else []
    {
      var future := futures[f];
      if future.result.None? || Indefinite(future.result.value) || future.host !in connections {
        return false;
      }
      sent := sent + [(future.host, Ack(future.e))];
      acked := true;
    }
  }
}
