/** The lifecycle of connection.ts and the pending requests of client.ts as an object whose methods reassign its fields,
    proved to be the steps of ClientRequests they stand for. */
module RequestTables {
  import Spec = ClientRequests
  import opened ClientRequests

  function Failing(outcomes: map<CallId, Outcome>, calls: set<CallId>, reason: Reason): map<CallId, Outcome> {
    outcomes + map call | call in calls :: Failure(reason)
  }

  lemma FailingOne(outcomes: map<CallId, Outcome>, calls: set<CallId>, call: CallId, reason: Reason)
    ensures Failing(outcomes, calls + {call}, reason) == Failing(outcomes, calls, reason)[call := Failure(reason)]
  {
  }

  class Client {
    var lifecycle: Lifecycle
    var sequence: nat
    var handshakes: map<ConnectionId, Handshake>
    var pendingRequests: map<RequestId, PendingRequest>
    var requestSequence: nat
    var disposed: bool
    var commands: seq<Command>
    var outcomes: map<CallId, Outcome>

    ghost function Abs(): State
      reads this
    {
      State(lifecycle, sequence, handshakes, pendingRequests, requestSequence, commands, outcomes, disposed)
    }

    constructor ()
      ensures Abs() == INIT
    {
      lifecycle, sequence, handshakes := Disconnected, 0, map[];
      pendingRequests, requestSequence, disposed := map[], 0, false;
      commands, outcomes := [], map[];
    }

    /** The promise of a request settles. */
    method Settle(call: CallId, outcome: Outcome)
      modifies this`outcomes
      ensures Abs() == Settled(old(Abs()), call, outcome)
    {
      outcomes := outcomes[call := outcome];
    }

    method RejectPendingRequests(reason: Reason)
      modifies this`pendingRequests, this`outcomes
      ensures Abs() == RejectPending(old(Abs()), reason)
    {
      var requests := pendingRequests;
      pendingRequests := map[];
      var rest := requests.Keys;
      ghost var rejected := {};
      while rest != {}
        invariant pendingRequests == map[] && rest <= requests.Keys
        invariant rejected == set id | id in requests.Keys - rest :: requests[id].call
        invariant outcomes == Failing(old(outcomes), rejected, reason)
      {
        var id :| id in rest;
        assert requests.Keys - (rest - {id}) == (requests.Keys - rest) + {id};
        FailingOne(old(outcomes), rejected, requests[id].call, reason);
        Settle(requests[id].call, Failure(reason));
        rest := rest - {id};
        rejected := rejected + {requests[id].call};
      }
      assert rejected == PendingCalls(old(Abs()));
    }

    /** fail: the lifecycle ends before anything is rejected. */
    method Fail()
      modifies this
      ensures Abs() == Spec.Fail(old(Abs()))
    {
      var ended := lifecycle;
      if ended.Disconnected? {
        return;
      }
      lifecycle := Disconnected;
      if ended.Connecting? || ended.settling {
        handshakes := handshakes[ended.id := Rejected];
      }
      RejectPendingRequests(ConnectionLost);
    }

    method Connect() returns (started: bool)
      modifies this
      ensures Abs() == Spec.Connect(old(Abs())) && (started <==> !old(disposed) && old(lifecycle).Disconnected?)
    {
      if disposed || !lifecycle.Disconnected? {
        return false;
      }
      sequence := sequence + 1;
      handshakes := handshakes[sequence := Unsettled];
      lifecycle := Connecting(sequence, false);
      return true;
    }

    method OpenTransport(id: ConnectionId, ok: bool)
      modifies this
      ensures Abs() == TransportOpens(old(Abs()), id, ok)
    {
      if !ok {
        if !lifecycle.Disconnected? && lifecycle.id == id {
          Fail();
        }
        return;
      }
      if !lifecycle.Connecting? || lifecycle.id != id {
        return;
      }
      lifecycle := Connecting(id, true);
    }

    /** The transport closes, reports an error, or fails to send. */
    method FailTransport(id: ConnectionId)
      modifies this
      ensures Abs() == TransportFails(old(Abs()), id)
    {
      if !lifecycle.Disconnected? && lifecycle.id == id {
        Fail();
      }
    }

    method TakePendingRequest(id: RequestId) returns (found: bool, request: PendingRequest)
      modifies this`pendingRequests
      ensures (found <==> id in old(pendingRequests)) && (found ==> request == old(pendingRequests)[id])
      ensures pendingRequests == old(pendingRequests) - {id}
    {
      found := id in pendingRequests;
      if found {
        request := pendingRequests[id];
        pendingRequests := pendingRequests - {id};
      } else {
        request := PendingRequest(0, List);
      }
    }

    method HandleResponse(m: Message)
      requires m.Response?
      modifies this
      ensures Abs() == Spec.HandleResponse(old(Abs()), m)
    {
      var found, request := TakePendingRequest(m.request);
      if !found {
        assert pendingRequests == old(pendingRequests);
        Fail();
        return;
      }
      if !m.ok {
        Settle(request.call, Failure(ServerFailed));
        return;
      }
      if m.command != request.command {
        Settle(request.call, Failure(CommandMismatch));
        Fail();
        return;
      }
      Settle(request.call, Result(m.command));
    }

    /** handleData, with one message. */
    method HandleData(id: ConnectionId, m: Message)
      modifies this
      ensures Abs() == Arrives(old(Abs()), id, m)
    {
      if lifecycle.Disconnected? || lifecycle.id != id {
        return;
      }
      if m.Malformed? || (lifecycle.Connecting? && !lifecycle.transport) {
        Fail();
      } else if lifecycle.Connecting? {
        if m.Hello? {
          lifecycle := Connected(id, true);
        } else {
          Fail();
        }
      } else if m.Hello? || m.HelloError? {
        Fail();
      } else if m.Response? {
        HandleResponse(m);
      }
    }

    method ResolveHandshake(id: ConnectionId)
      modifies this`lifecycle, this`handshakes
      ensures Abs() == HandshakeSettles(old(Abs()), id)
    {
      if lifecycle != Connected(id, true) {
        return;
      }
      lifecycle := Connected(id, false);
      handshakes := handshakes[id := Resolved];
    }

    /** request, with what becomes of encoding its frame and of handing it to the transport. */
    method Request(command: Command, encodes: bool, sends: bool) returns (call: CallId)
      requires Requests(Abs())
      modifies this
      ensures Abs() == Spec.Request(old(Abs()), command, encodes, sends) && call == |old(commands)|
    {
      hide Spec.Fail;
      call := |commands|;
      commands := commands + [command];
      if disposed {
        Settle(call, Failure(ClientDisposed));
        return;
      }
      if !lifecycle.Connected? {
        Settle(call, Failure(NotConnected));
        return;
      }
      requestSequence := requestSequence + 1;
      assert requestSequence in pendingRequests ==> PendingOk(old(Abs()), requestSequence);
      pendingRequests := pendingRequests[requestSequence := PendingRequest(call, command)];
      if !encodes {
        var _, request := TakePendingRequest(requestSequence);
        assert pendingRequests == old(pendingRequests);
        Settle(request.call, Failure(EncodingFailed));
        return;
      }
      if !sends {
        Fail();
      }
    }

    method Dispose()
      modifies this
      ensures Abs() == Spec.Dispose(old(Abs()))
    {
      if disposed {
        return;
      }
      disposed := true;
      RejectPendingRequests(ClientDisposed);
      Fail();
    }
  }

  method Take(client: Client, step: Step)
    requires Requests(client.Abs())
    modifies client
    ensures client.Abs() == Next(old(client.Abs()), step)
  {
    hide Spec.Connect, TransportOpens, TransportFails, Arrives, HandshakeSettles, Spec.Request, Spec.Fail, Spec.Dispose;
    match step
    case SConnect => var _ := client.Connect();
    case STransportOpens(id, ok) => client.OpenTransport(id, ok);
    case STransportFails(id) => client.FailTransport(id);
    case SArrives(id, m) => client.HandleData(id, m);
    case SHandshakeSettles(id) => client.ResolveHandshake(id);
    case SRequest(command, encodes, sends) => var _ := client.Request(command, encodes, sends);
    case SDisconnect => client.Fail();
    case SDispose => client.Dispose();
  }

  /** A new client, driven by any sequence of steps, is in the state of that run, and its invariant holds. */
  method Serve(steps: seq<Step>) returns (client: Client)
    ensures fresh(client) && client.Abs() == Run(INIT, steps) && Invariant(client.Abs())
  {
    hide Next, Requests, Handshakes;
    client := new Client();
    InvariantRun([]);
    for i := 0 to |steps|
      invariant fresh(client) && client.Abs() == Run(INIT, steps[..i]) && Invariant(client.Abs())
    {
      assert steps[..i + 1][..i] == steps[..i];
      InvariantNext(client.Abs(), steps[i]);
      Take(client, steps[i]);
    }
    assert steps[..|steps|] == steps;
  }
}
