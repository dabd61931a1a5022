/** The publisher, the handshake and message sending of pi/packages/server/src as an object whose methods update its
    fields, one method per stretch of code between two awaits, proved to be the step of Snapshots it stands for. */
module SnapshotServing {
  import opened Options
  import opened ServerConnections
  import Spec = Snapshots
  import opened Snapshots
  import opened SnapshotsConvergence

  class SnapshotServer {
    var closing: bool
    var connections: map<ConnId, Conn>
    var revision: nat
    var pending: nat
    var current: Broadcast
    ghost var missed: set<ConnId>

    ghost function Abs(): State
      reads this
    {
      State(closing, connections, revision, pending, current, missed)
    }

    constructor ()
      ensures Abs() == INIT
    {
      closing, connections, revision, pending, current, missed := false, map[], 0, 0, Idle, {};
    }

    // ----- sendMessage, failProtocol

    method SendMessage(c: ConnId, message: Message) returns (handedOver: bool)
      requires c in connections
      modifies this`connections
      ensures Abs() == With(old(Abs()), c, Send(old(connections[c]), message))
      ensures handedOver <==> connections[c].sent == old(connections[c].sent) + [message]
    {
      var state := connections[c];
      handedOver := !state.disconnected && !state.transportClosed;
      if handedOver {
        state := state.(sent := state.sent + [message]);
      }
      connections := connections[c := state];
    }

    method FailProtocol(c: ConnId)
      requires c in connections
      modifies this`connections
      ensures Abs() == Spec.FailProtocol(old(Abs()), c)
    {
      var state := connections[c];
      if state.disconnected || state.stage == Closing || state.stage == Closed {
        connections := connections[c := state];
        return;
      }
      connections := connections[c := state.(stage := Closing)];
      var _ := SendMessage(c, HelloError);
      assert connections == old(connections)[c := Failing(old(connections[c]))];
    }

    // ----- dispatchMessage, finishHandshake

    method Accept(c: ConnId)
      requires c !in connections
      modifies this`connections
      ensures Abs() == Spec.Accept(old(Abs()), c)
    {
      if !closing {
        connections := connections[c := NEW_CONN];
      }
    }

    method Disconnect(c: ConnId)
      requires c in connections
      modifies this`connections
      ensures Abs() == Spec.Disconnect(old(Abs()), c)
    {
      if !connections[c].disconnected {
        connections := connections[c := connections[c].(disconnected := true, stage := Closed)];
      }
    }

    /** The transport has closed; nobody has been told yet. */
    method TransportCloses(c: ConnId)
      requires c in connections
      modifies this`connections
      ensures Abs() == Spec.TransportCloses(old(Abs()), c)
    {
      connections := connections[c := connections[c].(transportClosed := true)];
    }

    method BeginClosing()
      modifies this`closing
      ensures Abs() == Spec.BeginClosing(old(Abs()))
    {
      closing := true;
    }

    /** closeServerState, for one of the remaining connections. */
    method CloseConnection(c: ConnId)
      requires closing && c in connections
      modifies this`connections
      ensures Abs() == Spec.CloseConnection(old(Abs()), c)
    {
      if !connections[c].disconnected {
        connections := connections[c := connections[c].(stage := Closing)];
      }
    }

    /** A decoded message on a connection that is not ending; a hello of an unsupported version fails the handshake. */
    method DispatchMessage(c: ConnId, hello: bool, supported: bool)
      requires c in connections
      requires !connections[c].disconnected && connections[c].stage != Closing && connections[c].stage != Closed
      modifies this`connections
      ensures Abs() == Spec.Dispatch(old(Abs()), c, hello, supported)
    {
      var state := connections[c];
      if state.stage == AwaitingHello {
        if !hello {
          FailProtocol(c);
          return;
        }
        if !supported {
          connections := connections[c := state.(stage := Handshaking, handshake := Finished)];
          FailProtocol(c);
          assert connections == old(connections)[c := Failing(state.(stage := Handshaking, handshake := Finished))];
          return;
        }
        connections := connections[c := state.(stage := Handshaking, handshake := Fetching(revision))];
        return;
      }
      if hello {
        FailProtocol(c);
        return;
      }
      if state.stage == Ready {
        connections := connections[c := state.(running := state.running + 1)];
      } else {
        connections := connections[c := state.(queued := state.queued + 1)];
      }
    }

    /** finishHandshake, when its snapshot is there. */
    method SendHello(c: ConnId)
      requires c in connections && connections[c].handshake.Fetching?
      modifies this`connections
      ensures Abs() == Spec.Fetched(old(Abs()), c)
    {
      var state := connections[c];
      if closing || state.disconnected || state.stage != Handshaking || state.transportClosed {
        connections := connections[c := state.(handshake := Finished)];
        return;
      }
      connections := connections[c := state.(handshake := SendingHello(state.handshake.taken))];
      var _ := SendMessage(c, Hello(state.handshake.taken));
      assert connections == old(connections)[c := connections[c]];
    }

    /** finishHandshake, when the hello has been sent. */
    method BecomeReady(c: ConnId)
      requires c in connections && connections[c].handshake.SendingHello?
      modifies this`connections
      ensures Abs() == Spec.HelloSent(old(Abs()), c)
    {
      var state := connections[c];
      if state.disconnected || state.stage != Handshaking {
        connections := connections[c := state.(handshake := Finished)];
        return;
      }
      var taken := state.handshake.taken;
      state := state.(handshakeComplete := true);
      state := state.(stage := Ready);
      if taken != revision {
        state := state.(handshake := Refetching(revision));
      } else {
        state := state.(handshake := Finished);
      }
      connections := connections[c := state];
    }

    /** finishHandshake, when the newer snapshot is there. */
    method SendRefresh(c: ConnId)
      requires c in connections && connections[c].handshake.Refetching?
      modifies this`connections
      ensures Abs() == Spec.Refetched(old(Abs()), c)
    {
      var state := connections[c];
      connections := connections[c := state.(handshake := Finished)];
      var _ := SendMessage(c, ServerSnapshot(state.handshake.taken));
      assert connections == old(connections)[c := connections[c]];
    }

    /** finishHandshake, when the service has failed. */
    method FailFetch(c: ConnId)
      requires c in connections && (connections[c].handshake.Fetching? || connections[c].handshake.Refetching?)
      modifies this`connections
      ensures Abs() == Spec.FetchFails(old(Abs()), c)
    {
      var state := connections[c].(handshake := Finished);
      connections := connections[c := state];
      FailProtocol(c);
      assert connections == old(connections)[c := Failing(state)];
    }

    // ----- Requests and session events

    /** A request that waited for the handshake runs, unless the connection is not ready. */
    method RunQueued(c: ConnId)
      requires c in connections && connections[c].handshake.Finished? && connections[c].queued > 0
      modifies this`connections
      ensures Abs() == Spec.QueuedRuns(old(Abs()), c)
    {
      var state := connections[c];
      state := state.(queued := state.queued - 1);
      if state.stage == Ready && !state.disconnected {
        state := state.(running := state.running + 1);
      }
      connections := connections[c := state];
    }

    method EndRequest(c: ConnId)
      requires c in connections && connections[c].running > 0
      modifies this`connections
      ensures Abs() == Spec.RequestEnds(old(Abs()), c)
    {
      connections := connections[c := connections[c].(running := connections[c].running - 1)];
      var _ := SendMessage(c, Other);
      assert connections == old(connections)[c := connections[c]];
    }

    method SendSessionEvent(c: ConnId)
      requires c in connections && connections[c].handshakeComplete
      modifies this`connections
      ensures Abs() == Spec.SessionEvent(old(Abs()), c)
    {
      var _ := SendMessage(c, Other);
    }

    /** The client is given the next message; applyServerSnapshot keeps the newer snapshot. */
    method Deliver(c: ConnId)
      requires c in connections && connections[c].delivered < |connections[c].sent|
      modifies this`connections
      ensures Abs() == Spec.Deliver(old(Abs()), c)
    {
      var state := connections[c];
      var message := state.sent[state.delivered];
      if message.Hello? || message.ServerSnapshot? {
        if state.held.None? || message.revision >= state.held.value {
          state := state.(held := Some(message.revision));
        }
      }
      connections := connections[c := state.(delivered := state.delivered + 1)];
    }

    // ----- ServerSnapshotPublisher

    method Broadcast()
      modifies this`pending
      ensures Abs() == Enqueue(old(Abs()))
    {
      pending := pending + 1;
    }

    method PerformBroadcast()
      requires current.Idle? && pending > 0
      modifies this
      ensures Abs() == PerformBegins(old(Abs()))
    {
      var ready := set c | c in connections && connections[c].stage == Ready && !connections[c].disconnected;
      assert ready == ReadyConns(old(Abs()));
      pending := pending - 1;
      if ready == {} || closing {
        return;
      }
      revision := revision + 1;
      current := Listing(revision, ready);
      missed := {};
    }

    method SessionsListed(failed: bool)
      requires current.Listing?
      modifies this`current, this`missed
      ensures Abs() == if failed then ListingFails(old(Abs())) else Listed(old(Abs()))
    {
      if failed {
        missed := current.targets;
        current := Idle;
      } else {
        current := Sending(current.revision, current.targets);
      }
    }

    /** The broadcast's loop over the connections that were ready. */
    method SendNext()
      requires current.Sending?
      requires current.targets <= connections.Keys
      modifies this`connections, this`current
      ensures if old(current).targets == {} then Abs() == PerformEnds(old(Abs()))
              else exists c :: c in old(current).targets && Abs() == PerformSends(old(Abs()), c)
    {
      if current.targets == {} {
        current := Idle;
        return;
      }
      var c :| c in current.targets;
      SendTo(c);
    }

    method SendTo(c: ConnId)
      requires current.Sending? && c in current.targets && c in connections
      modifies this`connections, this`current
      ensures Abs() == PerformSends(old(Abs()), c)
    {
      var _ := SendMessage(c, ServerSnapshot(current.revision));
      current := Sending(current.revision, current.targets - {c});
    }
  }

  predicate IsPublisherStep(step: Step) {
    step.SEnqueue? || step.SPerformBegins? || step.SListed? || step.SListingFails? || step.SPerformSends?
    || step.SPerformEnds? || step.SBeginClosing?
  }

  method TakePublisherStep(server: SnapshotServer, step: Step)
    requires IsPublisherStep(step) && server.current.Remaining() <= server.connections.Keys
    modifies server
    ensures server.Abs() == Next(old(server.Abs()), step)
  {
    match step
    case SEnqueue => server.Broadcast();
    case SPerformBegins =>
      if server.current.Idle? && server.pending > 0 {
        server.PerformBroadcast();
      }
    case SListed =>
      if server.current.Listing? {
        server.SessionsListed(false);
      }
    case SListingFails =>
      if server.current.Listing? {
        server.SessionsListed(true);
      }
    case SPerformSends(c) =>
      if server.current.Sending? && c in server.current.targets {
        server.SendTo(c);
      }
    case SPerformEnds =>
      if server.current.Sending? && server.current.targets == {} {
        server.SendNext();
      }
    case SBeginClosing => server.BeginClosing();
  }

  predicate IsHandshakeStep(step: Step) {
    step.SAccept? || step.SDispatch? || step.SFetched? || step.SFetchFails? || step.SHelloSent? || step.SRefetched?
    || step.SQueuedRuns?
  }

  method TakeHandshakeStep(server: SnapshotServer, step: Step)
    requires IsHandshakeStep(step)
    modifies server
    ensures server.Abs() == Next(old(server.Abs()), step)
  {
    hide Failing, Send;
    var c := step.c;
    if step.SAccept? {
      if c !in server.connections {
        server.Accept(c);
      }
    } else if c in server.connections {
      var state := server.connections[c];
      match step
      case SDispatch(_, hello, supported) =>
        if !state.disconnected && state.stage != Closing && state.stage != Closed {
          server.DispatchMessage(c, hello, supported);
        }
      case SFetched(_) =>
        if state.handshake.Fetching? {
          server.SendHello(c);
        }
      case SFetchFails(_) =>
        if state.handshake.Fetching? || state.handshake.Refetching? {
          server.FailFetch(c);
        }
      case SHelloSent(_) =>
        if state.handshake.SendingHello? {
          server.BecomeReady(c);
        }
      case SRefetched(_) =>
        if state.handshake.Refetching? {
          server.SendRefresh(c);
        }
      case SQueuedRuns(_) =>
        if state.handshake.Finished? && state.queued > 0 {
          server.RunQueued(c);
        }
    }
  }

  method TakeConnectionStep(server: SnapshotServer, step: Step)
    requires !IsPublisherStep(step) && !IsHandshakeStep(step)
    modifies server
    ensures server.Abs() == Next(old(server.Abs()), step)
  {
    hide Failing, Send;
    var c := step.c;
    if c in server.connections {
      match step
      case SFailProtocol(_) => server.FailProtocol(c);
      case SDisconnect(_) => server.Disconnect(c);
      case STransportCloses(_) => server.TransportCloses(c);
      case SCloseConnection(_) =>
        if server.closing {
          server.CloseConnection(c);
        }
      case SRequestEnds(_) =>
        if server.connections[c].running > 0 {
          server.EndRequest(c);
        }
      case SSessionEvent(_) =>
        if server.connections[c].handshakeComplete {
          server.SendSessionEvent(c);
        }
      case SDeliver(_) =>
        if server.connections[c].delivered < |server.connections[c].sent| {
          server.Deliver(c);
        }
    }
  }

  /** A new server, driven by any sequence of steps, is in the state of that run, and its invariant holds. */
  method Serve(steps: seq<Step>) returns (server: SnapshotServer)
    ensures fresh(server) && server.Abs() == Run(INIT, steps) && Invariant(server.Abs())
  {
    hide Next, ConnOk, Accounted;
    server := new SnapshotServer();
    InvariantRun([]);
    for i := 0 to |steps|
      invariant fresh(server) && server.Abs() == Run(INIT, steps[..i]) && Invariant(server.Abs())
    {
      assert steps[..i + 1][..i] == steps[..i];
      InvariantNext(server.Abs(), steps[i]);
      if IsPublisherStep(steps[i]) {
        RemainingKnown(server.Abs());
        TakePublisherStep(server, steps[i]);
      } else if IsHandshakeStep(steps[i]) {
        TakeHandshakeStep(server, steps[i]);
      } else {
        TakeConnectionStep(server, steps[i]);
      }
    }
    assert steps[..|steps|] == steps;
  }

  lemma RemainingKnown(s: State)
    requires Invariant(s)
    ensures s.current.Remaining() <= s.conns.Keys
  {
    forall c | c in s.current.Remaining() ensures c in s.conns {
      assert c in s.current.Remaining() + s.missed;
    }
  }
}
