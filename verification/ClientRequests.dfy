/** The connection lifecycle and the request table of pi/packages/client as a state machine over transport events and
    calls. */
module ClientRequests {

  type ConnectionId = nat
  type RequestId = nat
  /** The position of a request among all requests ever made. */
  type CallId = nat

  datatype Command = List | Create | Attach | Detach | Prompt | Steer | Abort | SetModel | SetThinking

  datatype Lifecycle =
    | Disconnected
    | Connecting(id: ConnectionId, transport: bool)
    | Connected(id: ConnectionId, settling: bool)

  datatype Handshake = Unsettled | Resolved | Rejected

  datatype PendingRequest = PendingRequest(call: CallId, command: Command)

  datatype Reason = ClientDisposed | NotConnected | EncodingFailed | ServerFailed | CommandMismatch | ConnectionLost

  datatype Outcome = Result(command: Command) | Failure(reason: Reason)

  /** A decoded server message, or bytes that cannot be decoded. */
  datatype Message =
    | Hello
    | HelloError
    | Event
    | Response(request: RequestId, ok: bool, command: Command)
    | Malformed

  /** `commands` are all requests ever made, `outcomes` what their promises have settled to; `handshakes` are the
      promises of all connects that got as far as starting one. */
  datatype State = State(
    lifecycle: Lifecycle,
    sequence: nat,
    handshakes: map<ConnectionId, Handshake>,
    pending: map<RequestId, PendingRequest>,
    requestSequence: nat,
    commands: seq<Command>,
    outcomes: map<CallId, Outcome>,
    disposed: bool)

  const INIT: State := State(Disconnected, 0, map[], map[], 0, [], map[], false)

  predicate IsCurrent(s: State, id: ConnectionId) {
    !s.lifecycle.Disconnected? && s.lifecycle.id == id
  }

  /** The handshake promise of this connection has not settled yet. */
  predicate Shaking(x: Lifecycle) {
    x.Connecting? || (x.Connected? && x.settling)
  }

  function PendingCalls(s: State): set<CallId> {
    set id | id in s.pending :: s.pending[id].call
  }

  function Settled(s: State, call: CallId, outcome: Outcome): State {
    s.(outcomes := s.outcomes[call := outcome])
  }

  /** rejectPendingRequests. */
  function RejectPending(s: State, reason: Reason): State {
    s.(pending := map[], outcomes := s.outcomes + map call | call in PendingCalls(s) :: Failure(reason))
  }

  /** fail: the handshake is rejected if it has not settled, and so is every pending request. */
  function Fail(s: State): State {
    if s.lifecycle.Disconnected? then s
    else
      RejectPending(s, ConnectionLost).(
        lifecycle := Disconnected,
        handshakes := if Shaking(s.lifecycle) then s.handshakes[s.lifecycle.id := Rejected] else s.handshakes)
  }

  function Connect(s: State): State {
    if s.disposed || !s.lifecycle.Disconnected? then s
    else
      s.(sequence := s.sequence + 1, lifecycle := Connecting(s.sequence + 1, false),
         handshakes := s.handshakes[s.sequence + 1 := Unsettled])
  }

  /** The transport of connection `id` is open, and the hello goes out on it, or it cannot be opened. */
  function TransportOpens(s: State, id: ConnectionId, ok: bool): State {
    if !ok then (if IsCurrent(s, id) then Fail(s) else s)
    else if s.lifecycle.Connecting? && s.lifecycle.id == id then s.(lifecycle := Connecting(id, true))
    else s
  }

  /** The transport closes, reports an error, or fails to send. */
  function TransportFails(s: State, id: ConnectionId): State {
    if IsCurrent(s, id) then Fail(s) else s
  }

  /** handleMessage on a connection whose handshake is under way. */
  function HandleHandshake(s: State, m: Message): State
    requires s.lifecycle.Connecting?
  {
    if m.Hello? then s.(lifecycle := Connected(s.lifecycle.id, true)) else Fail(s)
  }

  function HandleResponse(s: State, m: Message): State
    requires m.Response?
  {
    if m.request !in s.pending then Fail(s)
    else
      var p := s.pending[m.request];
      var taken := s.(pending := s.pending - {m.request});
      if !m.ok then Settled(taken, p.call, Failure(ServerFailed))
      else if m.command != p.command then Fail(Settled(taken, p.call, Failure(CommandMismatch)))
      else Settled(taken, p.call, Result(m.command))
  }

  /** A message arrives on connection `id`. */
  function Arrives(s: State, id: ConnectionId, m: Message): State {
    if !IsCurrent(s, id) then s
    else if m.Malformed? || (s.lifecycle.Connecting? && !s.lifecycle.transport) then Fail(s)
    else if s.lifecycle.Connecting? then HandleHandshake(s, m)
    else if m.Hello? || m.HelloError? then Fail(s)
    else if m.Event? then s
    else HandleResponse(s, m)
  }

  /** The listeners have heard of the new connection: if they have left it alone, the handshake resolves. */
  function HandshakeSettles(s: State, id: ConnectionId): State {
    if s.lifecycle == Connected(id, true) then
      s.(lifecycle := Connected(id, false), handshakes := s.handshakes[id := Resolved])
    else s
  }

  /** The table with a new request in it. */
  function Entered(s: State, command: Command): State {
    s.(commands := s.commands + [command], requestSequence := s.requestSequence + 1,
       pending := s.pending[s.requestSequence + 1 := PendingRequest(|s.commands|, command)])
  }

  /** request, with what becomes of encoding its frame and of handing it to the transport. */
  function Request(s: State, command: Command, encodes: bool, sends: bool): State {
    var call := |s.commands|;
    var made := s.(commands := s.commands + [command]);
    if s.disposed then Settled(made, call, Failure(ClientDisposed))
    else if !s.lifecycle.Connected? then Settled(made, call, Failure(NotConnected))
    else if !encodes then Settled(made.(requestSequence := s.requestSequence + 1), call, Failure(EncodingFailed))
    else if sends then Entered(s, command)
    else Fail(Entered(s, command))
  }

  function Disconnect(s: State): State {
    Fail(s)
  }

  function Dispose(s: State): State {
    if s.disposed then s else Fail(RejectPending(s, ClientDisposed).(disposed := true))
  }

  datatype Step =
    | SConnect
    | STransportOpens(id: ConnectionId, ok: bool)
    | STransportFails(id: ConnectionId)
    | SArrives(id: ConnectionId, m: Message)
    | SHandshakeSettles(id: ConnectionId)
    | SRequest(command: Command, encodes: bool, sends: bool)
    | SDisconnect
    | SDispose

  function Next(s: State, step: Step): State {
    match step
    case SConnect => Connect(s)
    case STransportOpens(id, ok) => TransportOpens(s, id, ok)
    case STransportFails(id) => TransportFails(s, id)
    case SArrives(id, m) => Arrives(s, id, m)
    case SHandshakeSettles(id) => HandshakeSettles(s, id)
    case SRequest(command, encodes, sends) => Request(s, command, encodes, sends)
    case SDisconnect => Disconnect(s)
    case SDispose => Dispose(s)
  }

  function Run(s: State, steps: seq<Step>): State
    decreases |steps|
  {
    if steps == [] then s else Next(Run(s, steps[..|steps| - 1]), steps[|steps| - 1])
  }

  // ----- Invariant

  predicate PendingOk(s: State, id: RequestId)
    requires id in s.pending
  {
    var p := s.pending[id];
    && 0 < id <= s.requestSequence && p.call < |s.commands| && p.call !in s.outcomes && p.command == s.commands[p.call]
  }

  predicate OutcomeOk(s: State, call: CallId)
    requires call in s.outcomes
  {
    call < |s.commands| && (s.outcomes[call].Result? ==> s.outcomes[call].command == s.commands[call])
  }

  ghost predicate Requests(s: State) {
    && (forall id: RequestId :: id in s.pending ==> PendingOk(s, id))
    && (forall id: RequestId, other: RequestId :: id in s.pending && other in s.pending && id != other ==>
          s.pending[id].call != s.pending[other].call)
    && (forall call: CallId :: call in s.outcomes ==> OutcomeOk(s, call))
    && (forall call: CallId :: call < |s.commands| ==> call in s.outcomes || call in PendingCalls(s))
  }

  ghost predicate Handshakes(s: State) {
    && (!s.lifecycle.Disconnected? ==> 0 < s.lifecycle.id == s.sequence)
    && (forall id: ConnectionId :: id in s.handshakes <==> 0 < id <= s.sequence)
    && (forall id: ConnectionId :: id in s.handshakes ==>
          (s.handshakes[id] == Unsettled <==> IsCurrent(s, id) && Shaking(s.lifecycle)))
  }

  ghost predicate Invariant(s: State) {
    && Requests(s) && Handshakes(s)
    && (s.pending != map[] ==> s.lifecycle.Connected?) && (s.disposed ==> s.lifecycle.Disconnected?)
  }

  lemma RejectPendingKeeps(s: State, reason: Reason)
    requires Requests(s)
    ensures Requests(RejectPending(s, reason))
  {
    var r := RejectPending(s, reason);
    forall call: CallId | call in r.outcomes ensures OutcomeOk(r, call) {
      if call in PendingCalls(s) {
        var id :| id in s.pending && s.pending[id].call == call;
        assert PendingOk(s, id);
      } else {
        assert OutcomeOk(s, call);
      }
    }
  }

  lemma FailKeeps(s: State)
    requires Requests(s) && Handshakes(s)
    ensures Requests(Fail(s)) && Handshakes(Fail(s)) && Fail(s).lifecycle.Disconnected?
    ensures !s.lifecycle.Disconnected? ==> Fail(s).pending == map[]
  {
    RejectPendingKeeps(s, ConnectionLost);
    if !s.lifecycle.Disconnected? {
      var r := Fail(s);
      assert r.outcomes == RejectPending(s, ConnectionLost).outcomes && r.pending == map[] && r.commands == s.commands;
      assert Requests(r) by {
        forall call: CallId | call in r.outcomes ensures OutcomeOk(r, call) {
          assert OutcomeOk(RejectPending(s, ConnectionLost), call);
        }
      }
    }
  }

  /** A request leaves the table as its promise settles. */
  lemma TakenKeeps(s: State, id: RequestId, outcome: Outcome)
    requires Requests(s) && id in s.pending && (outcome.Result? ==> outcome.command == s.pending[id].command)
    ensures Requests(Settled(s.(pending := s.pending - {id}), s.pending[id].call, outcome))
  {
    var r := Settled(s.(pending := s.pending - {id}), s.pending[id].call, outcome);
    assert PendingOk(s, id);
    forall other: RequestId | other in r.pending ensures PendingOk(r, other) {
      assert PendingOk(s, other);
    }
    forall call: CallId | call in r.outcomes ensures OutcomeOk(r, call) {
      assert call != s.pending[id].call ==> OutcomeOk(s, call);
    }
    forall call: CallId | call < |r.commands| ensures call in r.outcomes || call in PendingCalls(r) {
      if call !in r.outcomes {
        assert call in PendingCalls(s);
        var other :| other in s.pending && s.pending[other].call == call;
        assert other in r.pending;
      }
    }
  }

  lemma ResponseKeeps(s: State, m: Message)
    requires Invariant(s) && s.lifecycle.Connected? && m.Response?
    ensures Invariant(HandleResponse(s, m))
  {
    if m.request !in s.pending {
      FailKeeps(s);
    } else if !m.ok {
      TakenKeeps(s, m.request, Failure(ServerFailed));
    } else if m.command != s.pending[m.request].command {
      TakenKeeps(s, m.request, Failure(CommandMismatch));
      FailKeeps(Settled(s.(pending := s.pending - {m.request}), s.pending[m.request].call, Failure(CommandMismatch)));
    } else {
      TakenKeeps(s, m.request, Result(m.command));
    }
  }

  lemma ArrivesKeeps(s: State, id: ConnectionId, m: Message)
    requires Invariant(s)
    ensures Invariant(Arrives(s, id, m))
  {
    FailKeeps(s);
    if IsCurrent(s, id) && s.lifecycle.Connected? && m.Response? {
      ResponseKeeps(s, m);
    }
  }

  /** A new request that has settled at once. */
  lemma RefusedKeeps(s: State, r: State, command: Command, reason: Reason)
    requires Requests(s) && r.commands == s.commands + [command] && r.pending == s.pending
    requires s.requestSequence <= r.requestSequence && r.outcomes == s.outcomes[|s.commands| := Failure(reason)]
    ensures Requests(r)
  {
    forall id: RequestId | id in r.pending ensures PendingOk(r, id) {
      assert PendingOk(s, id);
    }
    forall call: CallId | call in r.outcomes ensures OutcomeOk(r, call) {
      assert call in s.outcomes ==> OutcomeOk(s, call);
    }
    assert PendingCalls(r) == PendingCalls(s);
  }

  /** A new request that waits under a new id. */
  lemma MadeKeeps(s: State, r: State, command: Command)
    requires Requests(s) && r.commands == s.commands + [command]
    requires r.requestSequence == s.requestSequence + 1 && r.outcomes == s.outcomes
    requires r.pending == s.pending[r.requestSequence := PendingRequest(|s.commands|, command)]
    ensures Requests(r)
  {
    assert |s.commands| in s.outcomes ==> OutcomeOk(s, |s.commands|);
    forall id: RequestId | id in r.pending ensures PendingOk(r, id) {
      assert id in s.pending ==> PendingOk(s, id);
    }
    forall call: CallId | call in r.outcomes ensures OutcomeOk(r, call) {
      assert OutcomeOk(s, call);
    }
    forall call: CallId | call < |r.commands| ensures call in r.outcomes || call in PendingCalls(r) {
      if call in PendingCalls(s) {
        var id :| id in s.pending && s.pending[id].call == call;
        assert PendingOk(s, id);
        assert id in r.pending && r.pending[id].call == call;
      } else if call == |s.commands| {
        assert r.pending[r.requestSequence].call == call;
      }
    }
  }

  lemma RequestKeeps(s: State, command: Command, encodes: bool, sends: bool)
    requires Invariant(s)
    ensures Invariant(Request(s, command, encodes, sends))
  {
    var r := Request(s, command, encodes, sends);
    if s.disposed {
      RefusedKeeps(s, r, command, ClientDisposed);
    } else if !s.lifecycle.Connected? {
      RefusedKeeps(s, r, command, NotConnected);
    } else if !encodes {
      RefusedKeeps(s, r, command, EncodingFailed);
    } else {
      EnteredKeeps(s, command);
      FailKeeps(Entered(s, command));
    }
  }

  lemma EnteredKeeps(s: State, command: Command)
    requires Invariant(s) && s.lifecycle.Connected?
    ensures Invariant(Entered(s, command))
  {
    MadeKeeps(s, Entered(s, command), command);
  }

  lemma DisposeKeeps(s: State)
    requires Invariant(s)
    ensures Invariant(Dispose(s))
  {
    if !s.disposed {
      RejectPendingKeeps(s, ClientDisposed);
      var m := RejectPending(s, ClientDisposed).(disposed := true);
      assert Requests(m) by {
        forall call: CallId | call in m.outcomes ensures OutcomeOk(m, call) {
          assert OutcomeOk(RejectPending(s, ClientDisposed), call);
        }
      }
      FailKeeps(m);
    }
  }

  lemma ConnectKeeps(s: State)
    requires Invariant(s)
    ensures Invariant(Connect(s))
  {
  }

  lemma TransportOpensKeeps(s: State, id: ConnectionId, ok: bool)
    requires Invariant(s)
    ensures Invariant(TransportOpens(s, id, ok))
  {
    FailKeeps(s);
  }

  lemma HandshakeSettlesKeeps(s: State, id: ConnectionId)
    requires Invariant(s)
    ensures Invariant(HandshakeSettles(s, id))
  {
  }

  lemma InvariantNext(s: State, step: Step)
    requires Invariant(s)
    ensures Invariant(Next(s, step))
  {
    match step
    case SConnect => ConnectKeeps(s);
    case STransportOpens(id, ok) => TransportOpensKeeps(s, id, ok);
    case STransportFails(_) => FailKeeps(s);
    case SArrives(id, m) => ArrivesKeeps(s, id, m);
    case SHandshakeSettles(id) => HandshakeSettlesKeeps(s, id);
    case SRequest(command, encodes, sends) => RequestKeeps(s, command, encodes, sends);
    case SDisconnect => FailKeeps(s);
    case SDispose => DisposeKeeps(s);
  }

  lemma {:induction false} InvariantRun(steps: seq<Step>)
    ensures Invariant(Run(INIT, steps))
    decreases |steps|
  {
    if steps != [] {
      InvariantRun(steps[..|steps| - 1]);
      InvariantNext(Run(INIT, steps[..|steps| - 1]), steps[|steps| - 1]);
    }
  }

  /** Every request is pending, under one id, or has settled, and not both; the table is empty whenever there is no
      connection; a result is one for the command that was asked. */
  lemma PendingIsUnsettled(steps: seq<Step>, call: CallId)
    ensures var s := Run(INIT, steps);
            && (call < |s.commands| <==> call in s.outcomes || call in PendingCalls(s))
            && !(call in s.outcomes && call in PendingCalls(s))
            && (!s.lifecycle.Connected? ==> s.pending == map[])
            && (call in s.outcomes && s.outcomes[call].Result? ==> s.outcomes[call].command == s.commands[call])
  {
    InvariantRun(steps);
    var s := Run(INIT, steps);
    if call in PendingCalls(s) {
      var id :| id in s.pending && s.pending[id].call == call;
      assert PendingOk(s, id);
    }
    if call in s.outcomes {
      assert OutcomeOk(s, call);
    }
  }

  /** No promise settles twice: what a request or a handshake has settled to stays. */
  lemma SettlesOnce(steps: seq<Step>, step: Step, call: CallId, id: ConnectionId)
    ensures var (s, r) := (Run(INIT, steps), Run(INIT, steps + [step]));
            && (call in s.outcomes ==> call in r.outcomes && r.outcomes[call] == s.outcomes[call])
            && (id in s.handshakes && s.handshakes[id] != Unsettled ==> id in r.handshakes && r.handshakes[id] == s.handshakes[id])
  {
    InvariantRun(steps);
    assert (steps + [step])[..|steps|] == steps;
    StaysSettled(Run(INIT, steps), step, call, id);
  }

  /** Nothing that has settled changes. */
  predicate Stays(s: State, r: State, call: CallId, id: ConnectionId) {
    && (call in s.outcomes ==> call in r.outcomes && r.outcomes[call] == s.outcomes[call])
    && (id in s.handshakes && s.handshakes[id] != Unsettled ==> id in r.handshakes && r.handshakes[id] == s.handshakes[id])
  }

  lemma FailStays(s: State, call: CallId, id: ConnectionId)
    requires Requests(s) && Handshakes(s)
    ensures Stays(s, Fail(s), call, id) && Stays(s, RejectPending(s, ClientDisposed), call, id)
  {
    if call in PendingCalls(s) {
      var i :| i in s.pending && s.pending[i].call == call;
      assert PendingOk(s, i);
    }
  }

  lemma TakenStays(s: State, i: RequestId, outcome: Outcome, call: CallId, id: ConnectionId)
    requires Requests(s) && i in s.pending
    ensures Stays(s, Settled(s.(pending := s.pending - {i}), s.pending[i].call, outcome), call, id)
  {
    assert PendingOk(s, i);
  }

  lemma ResponseStays(s: State, m: Message, call: CallId, id: ConnectionId)
    requires Invariant(s) && m.Response?
    ensures Stays(s, HandleResponse(s, m), call, id)
  {
    if m.request !in s.pending {
      FailStays(s, call, id);
    } else if m.ok && m.command != s.pending[m.request].command {
      TakenStays(s, m.request, Failure(CommandMismatch), call, id);
      TakenKeeps(s, m.request, Failure(CommandMismatch));
      FailStays(Settled(s.(pending := s.pending - {m.request}), s.pending[m.request].call, Failure(CommandMismatch)), call, id);
    } else {
      TakenStays(s, m.request, if m.ok then Result(m.command) else Failure(ServerFailed), call, id);
    }
  }

  lemma RequestStays(s: State, command: Command, encodes: bool, sends: bool, call: CallId, id: ConnectionId)
    requires Invariant(s)
    ensures Stays(s, Request(s, command, encodes, sends), call, id)
  {
    assert call in s.outcomes ==> OutcomeOk(s, call);
    if !s.disposed && s.lifecycle.Connected? && encodes {
      EnteredKeeps(s, command);
      FailStays(Entered(s, command), call, id);
    }
  }

  lemma ArrivesStays(s: State, c: ConnectionId, m: Message, call: CallId, id: ConnectionId)
    requires Invariant(s)
    ensures Stays(s, Arrives(s, c, m), call, id)
  {
    hide Stays, Fail, HandleResponse;
    FailStays(s, call, id);
    LifecycleStays(s, s.lifecycle, call, id);
    if m.Response? {
      ResponseStays(s, m, call, id);
    }
    if m.Hello? && s.lifecycle.Connecting? {
      LifecycleStays(s, Connected(s.lifecycle.id, true), call, id);
    }
  }

  lemma LifecycleStays(s: State, l: Lifecycle, call: CallId, id: ConnectionId)
    ensures Stays(s, s.(lifecycle := l), call, id) && Stays(s, s, call, id)
  {
  }

  lemma ConnectStays(s: State, call: CallId, id: ConnectionId)
    requires Invariant(s)
    ensures Stays(s, Connect(s), call, id)
  {
  }

  lemma OpensStays(s: State, c: ConnectionId, ok: bool, call: CallId, id: ConnectionId)
    requires Invariant(s)
    ensures Stays(s, TransportOpens(s, c, ok), call, id) && Stays(s, TransportFails(s, c), call, id)
  {
    FailStays(s, call, id);
    hide Fail;
  }

  lemma HandshakeStays(s: State, c: ConnectionId, call: CallId, id: ConnectionId)
    requires Invariant(s)
    ensures Stays(s, HandshakeSettles(s, c), call, id)
  {
  }

  lemma StaysSettled(s: State, step: Step, call: CallId, id: ConnectionId)
    requires Invariant(s)
    ensures Stays(s, Next(s, step), call, id)
  {
    hide Stays, Connect, TransportOpens, TransportFails, Arrives, HandshakeSettles, Request, Dispose, Fail;
    match step
    case SConnect => ConnectStays(s, call, id);
    case STransportOpens(c, ok) => OpensStays(s, c, ok, call, id);
    case STransportFails(c) => OpensStays(s, c, true, call, id);
    case SArrives(c, m) => ArrivesStays(s, c, m, call, id);
    case SHandshakeSettles(c) => HandshakeStays(s, c, call, id);
    case SRequest(command, encodes, sends) => RequestStays(s, command, encodes, sends, call, id);
    case SDisconnect => FailStays(s, call, id);
    case SDispose => DisposeStays(s, call, id);
  }

  lemma DisposeStays(s: State, call: CallId, id: ConnectionId)
    requires Invariant(s)
    ensures Stays(s, Dispose(s), call, id)
  {
    FailStays(s, call, id);
    assert RejectPending(s, ClientDisposed).pending == map[];
  }
}
