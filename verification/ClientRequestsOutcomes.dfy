/** What every request, response and handshake of the client comes to, in every run. */
module ClientRequestsOutcomes {
  import opened ClientRequests

  lemma RunMore(steps: seq<Step>, step: Step)
    ensures Run(INIT, steps + [step]) == Next(Run(INIT, steps), step)
  {
    assert (steps + [step])[..|steps|] == steps;
  }

  /** Request `id` has been sent for call `call` on connection `c` and has not been answered. */
  predicate Asked(s: State, c: ConnectionId, id: RequestId, call: CallId) {
    s.lifecycle.Connected? && s.lifecycle.id == c && id in s.pending && s.pending[id].call == call
  }

  /** The connection is gone: what was pending has been rejected, and so has a handshake under way. */
  ghost predicate Lost(s: State, r: State) {
    && r.lifecycle.Disconnected? && r.pending == map[] && r.commands == s.commands
    && (forall id: RequestId :: id in s.pending ==>
          s.pending[id].call in r.outcomes && r.outcomes[s.pending[id].call] == Failure(ConnectionLost))
    && (s.lifecycle.Connecting? || (s.lifecycle.Connected? && s.lifecycle.settling) ==>
          s.lifecycle.id in r.handshakes && r.handshakes[s.lifecycle.id] == Rejected)
  }

  lemma FailLoses(s: State)
    requires s.lifecycle.Disconnected? ==> s.pending == map[]
    ensures Lost(s, Fail(s))
    ensures forall call :: call in s.outcomes && call !in PendingCalls(s) ==>
              call in Fail(s).outcomes && Fail(s).outcomes[call] == s.outcomes[call]
  {
    forall id: RequestId | id in s.pending ensures s.pending[id].call in PendingCalls(s) {
    }
  }

  lemma AskedInOrder(s: State, c: ConnectionId, id: RequestId, call: CallId)
    requires Invariant(s) && Asked(s, c, id, call)
    ensures call < |s.commands| && s.pending[id].command == s.commands[call] && call !in s.outcomes
    ensures forall other: RequestId :: other in s.pending && other != id ==> s.pending[other].call != call
  {
    assert PendingOk(s, id);
  }

  // ----- Responses

  /** A response that reports an error rejects its request, and only that. */
  lemma ErrorRejects(steps: seq<Step>, c: ConnectionId, id: RequestId, call: CallId, command: Command)
    requires Asked(Run(INIT, steps), c, id, call)
    ensures var (s, r) := (Run(INIT, steps), Run(INIT, steps + [SArrives(c, Response(id, false, command))]));
            && call in r.outcomes && r.outcomes[call] == Failure(ServerFailed)
            && r == s.(pending := s.pending - {id}, outcomes := s.outcomes[call := Failure(ServerFailed)])
  {
    RunMore(steps, SArrives(c, Response(id, false, command)));
    hide Run;
  }

  /** A result for the command that was asked resolves its request, and only that. */
  lemma ResultResolves(steps: seq<Step>, c: ConnectionId, id: RequestId, call: CallId)
    requires Asked(Run(INIT, steps), c, id, call)
    ensures call < |Run(INIT, steps).commands|
    ensures var s := Run(INIT, steps);
            var (command, r) := (s.commands[call], Run(INIT, steps + [SArrives(c, Response(id, true, s.commands[call]))]));
            && call in r.outcomes && r.outcomes[call] == Result(command)
            && r == s.(pending := s.pending - {id}, outcomes := s.outcomes[call := Result(command)])
  {
    InvariantRun(steps);
    hide Run;
    var s := Run(INIT, steps);
    AskedInOrder(s, c, id, call);
    RunMore(steps, SArrives(c, Response(id, true, s.commands[call])));
    hide Invariant;
  }

  lemma MismatchFails(s: State, c: ConnectionId, id: RequestId, call: CallId, command: Command)
    requires Asked(s, c, id, call) && command != s.pending[id].command
    ensures Next(s, SArrives(c, Response(id, true, command)))
            == Fail(Settled(s.(pending := s.pending - {id}), call, Failure(CommandMismatch)))
  {
    hide Fail;
  }

  /** A connection that is lost right after a call has settled. */
  lemma SettledLost(taken: State, call: CallId, outcome: Outcome)
    requires taken.lifecycle.Connected? && forall id: RequestId :: id in taken.pending ==> taken.pending[id].call != call
    ensures var r := Fail(Settled(taken, call, outcome));
            Lost(taken, r) && call in r.outcomes && r.outcomes[call] == outcome
  {
    hide Fail;
    FailLoses(Settled(taken, call, outcome));
  }

  /** A result for another command rejects its request and ends the connection, with whatever else is pending. */
  lemma MismatchRejects(steps: seq<Step>, c: ConnectionId, id: RequestId, call: CallId, command: Command)
    requires Asked(Run(INIT, steps), c, id, call)
    ensures call < |Run(INIT, steps).commands|
    ensures command != Run(INIT, steps).commands[call] ==>
              var (s, r) := (Run(INIT, steps), Run(INIT, steps + [SArrives(c, Response(id, true, command))]));
              && call in r.outcomes && r.outcomes[call] == Failure(CommandMismatch)
              && Lost(s.(pending := s.pending - {id}), r)
  {
    InvariantRun(steps);
    hide Run;
    var s := Run(INIT, steps);
    AskedInOrder(s, c, id, call);
    RunMore(steps, SArrives(c, Response(id, true, command)));
    if command != s.commands[call] {
      var taken := s.(pending := s.pending - {id});
      hide Invariant, Fail, Lost, Requests, Handshakes;
      MismatchFails(s, c, id, call, command);
      hide Next, Settled;
      SettledLost(taken, call, Failure(CommandMismatch));
    }
  }

  /** A response to no pending request ends the connection, as do bytes that cannot be decoded and a second hello. */
  lemma StrayMessageEndsConnection(steps: seq<Step>, c: ConnectionId, m: Message)
    requires Run(INIT, steps).lifecycle.Connected? && Run(INIT, steps).lifecycle.id == c
    requires if m.Response? then m.request !in Run(INIT, steps).pending else !m.Event?
    ensures Lost(Run(INIT, steps), Run(INIT, steps + [SArrives(c, m)]))
  {
    RunMore(steps, SArrives(c, m));
    hide Run;
    FailLoses(Run(INIT, steps));
    hide Lost, Fail;
  }

  /** Events, and whatever arrives on a connection that is not the current one, change nothing about requests. */
  lemma OtherMessagesIgnored(steps: seq<Step>, c: ConnectionId, m: Message)
    requires var l := Run(INIT, steps).lifecycle;
             if l.Connected? && l.id == c then m.Event? else l.Disconnected? || l.id != c
    ensures Run(INIT, steps + [SArrives(c, m)]) == Run(INIT, steps)
  {
    RunMore(steps, SArrives(c, m));
    hide Run;
  }

  /** Step `n` of a run is the response that settles `call` with `outcome`. */
  ghost predicate SettledBy(steps: seq<Step>, n: nat, call: CallId, ok: bool, command: Command) {
    && n < |steps| && steps[n].SArrives? && steps[n].m.Response? && steps[n].m.ok == ok && steps[n].m.command == command
    && Asked(Run(INIT, steps[..n]), steps[n].id, steps[n].m.request, call)
  }

  /** What a step can settle a call to: a result only as its request's response says, a server error only as one says. */
  lemma OutcomeFromStep(s: State, step: Step, call: CallId)
    requires Invariant(s) && call !in s.outcomes && call in Next(s, step).outcomes
    ensures Next(s, step).outcomes[call].Result? || Next(s, step).outcomes[call] == Failure(ServerFailed) ==>
              && step.SArrives? && step.m.Response? && Asked(s, step.id, step.m.request, call)
              && if step.m.ok then Next(s, step).outcomes[call] == Result(step.m.command)
                 else Next(s, step).outcomes[call] == Failure(ServerFailed)
  {
    hide Requests, Handshakes;
  }

  /** A result or a server error in the outcomes is what a response to that very request has said. */
  lemma {:induction false} OutcomeHasResponse(steps: seq<Step>, call: CallId) returns (n: nat)
    requires call in Run(INIT, steps).outcomes
    requires var x := Run(INIT, steps).outcomes[call]; x.Result? || x == Failure(ServerFailed)
    ensures var x := Run(INIT, steps).outcomes[call];
            n < |steps| && steps[n].SArrives? && steps[n].m.Response?
            && SettledBy(steps, n, call, x.Result?, steps[n].m.command) && (x.Result? ==> x.command == steps[n].m.command)
    decreases |steps|
  {
    var init := steps[..|steps| - 1];
    InvariantRun(init);
    assert steps == init + [steps[|init|]];
    if call in Run(INIT, init).outcomes {
      SettlesOnce(init, steps[|init|], call, 0);
      n := OutcomeHasResponse(init, call);
      assert init[..n] == steps[..n];
    } else {
      RunMore(init, steps[|init|]);
      OutcomeFromStep(Run(INIT, init), steps[|init|], call);
      n := |init|;
    }
  }

  // ----- Requests

  /** A client that has been disposed of, or has no connection, refuses a request and says which. */
  lemma RequestRefused(steps: seq<Step>, command: Command, encodes: bool, sends: bool)
    requires var s := Run(INIT, steps); s.disposed || !s.lifecycle.Connected?
    ensures var (s, r) := (Run(INIT, steps), Run(INIT, steps + [SRequest(command, encodes, sends)]));
            var reason := if s.disposed then ClientDisposed else NotConnected;
            && r.commands == s.commands + [command] && r.outcomes == s.outcomes[|s.commands| := Failure(reason)]
            && r.pending == s.pending && r.lifecycle == s.lifecycle
  {
    RunMore(steps, SRequest(command, encodes, sends));
    hide Run;
  }

  lemma ConnectedIsNotDisposed(steps: seq<Step>)
    requires Run(INIT, steps).lifecycle.Connected?
    ensures !Run(INIT, steps).disposed
  {
    InvariantRun(steps);
  }

  /** A request that cannot be encoded is rejected, and nothing else happens. */
  lemma RequestNotEncoded(steps: seq<Step>, command: Command, sends: bool)
    requires Run(INIT, steps).lifecycle.Connected?
    ensures var (s, r) := (Run(INIT, steps), Run(INIT, steps + [SRequest(command, false, sends)]));
            && r.commands == s.commands + [command] && r.outcomes == s.outcomes[|s.commands| := Failure(EncodingFailed)]
            && r.pending == s.pending && r.lifecycle == s.lifecycle
  {
    RunMore(steps, SRequest(command, false, sends));
    ConnectedIsNotDisposed(steps);
    hide Run;
  }

  lemma NextIdIsFree(s: State)
    requires Invariant(s)
    ensures s.requestSequence + 1 !in s.pending
  {
    forall id: RequestId | id in s.pending ensures id <= s.requestSequence {
      assert PendingOk(s, id);
    }
  }

  /** A request that has been sent is pending, under an id that none has. */
  lemma RequestSent(steps: seq<Step>, command: Command)
    requires Run(INIT, steps).lifecycle.Connected?
    ensures var (s, r) := (Run(INIT, steps), Run(INIT, steps + [SRequest(command, true, true)]));
            && r.commands == s.commands + [command] && r.outcomes == s.outcomes && r.lifecycle == s.lifecycle
            && exists id: RequestId :: id !in s.pending && r.pending == s.pending[id := PendingRequest(|s.commands|, command)]
  {
    RunMore(steps, SRequest(command, true, true));
    ConnectedIsNotDisposed(steps);
    InvariantRun(steps);
    hide Run;
    var s := Run(INIT, steps);
    NextIdIsFree(s);
    hide Invariant;
  }

  lemma EnteredLost(s: State, command: Command, r: State)
    requires s.requestSequence + 1 !in s.pending && s.lifecycle.Connected? && Lost(Entered(s, command), r)
    ensures r.commands == s.commands + [command] && Lost(s.(commands := r.commands), r)
    ensures |s.commands| in r.outcomes && r.outcomes[|s.commands|] == Failure(ConnectionLost)
  {
    var m := Entered(s, command);
    assert s.requestSequence + 1 in m.pending;
    forall id: RequestId | id in s.pending ensures id in m.pending && m.pending[id] == s.pending[id] {
    }
  }

  /** A request that the transport refuses ends the connection, and is rejected with it. */
  lemma RequestNotSent(steps: seq<Step>, command: Command)
    requires Run(INIT, steps).lifecycle.Connected?
    ensures var (s, r) := (Run(INIT, steps), Run(INIT, steps + [SRequest(command, true, false)]));
            && r.commands == s.commands + [command] && Lost(s.(commands := r.commands), r)
            && |s.commands| in r.outcomes && r.outcomes[|s.commands|] == Failure(ConnectionLost)
  {
    RunMore(steps, SRequest(command, true, false));
    ConnectedIsNotDisposed(steps);
    InvariantRun(steps);
    hide Run;
    var s := Run(INIT, steps);
    NextIdIsFree(s);
    var m := Entered(s, command);
    assert Request(s, command, true, false) == Fail(m);
    hide Invariant, Fail, Request;
    FailLoses(m);
    EnteredLost(s, command, Fail(m));
  }

  // ----- The end of a connection

  /** A connection that is given up, or whose transport fails, is lost. */
  lemma ConnectionEnds(steps: seq<Step>, c: ConnectionId)
    requires !Run(INIT, steps).lifecycle.Disconnected? && Run(INIT, steps).lifecycle.id == c
    ensures Lost(Run(INIT, steps), Run(INIT, steps + [SDisconnect]))
    ensures Lost(Run(INIT, steps), Run(INIT, steps + [STransportFails(c)]))
    ensures Lost(Run(INIT, steps), Run(INIT, steps + [STransportOpens(c, false)]))
  {
    RunMore(steps, SDisconnect);
    RunMore(steps, STransportFails(c));
    RunMore(steps, STransportOpens(c, false));
    hide Run;
    FailLoses(Run(INIT, steps));
    hide Lost, Fail;
  }

  /** What an earlier transport still reports changes nothing. */
  lemma OtherTransportIgnored(steps: seq<Step>, c: ConnectionId, ok: bool)
    requires Run(INIT, steps).lifecycle.Disconnected? || Run(INIT, steps).lifecycle.id != c
    ensures Run(INIT, steps + [STransportFails(c)]) == Run(INIT, steps)
    ensures Run(INIT, steps + [STransportOpens(c, ok)]) == Run(INIT, steps)
    ensures Run(INIT, steps + [SHandshakeSettles(c)]) == Run(INIT, steps)
  {
    RunMore(steps, STransportFails(c));
    RunMore(steps, STransportOpens(c, ok));
    RunMore(steps, SHandshakeSettles(c));
    hide Run;
  }

  lemma FailWithNothingPending(s: State)
    requires s.pending == map[]
    ensures Fail(s).outcomes == s.outcomes && Fail(s).pending == map[] && Fail(s).lifecycle.Disconnected?
    ensures Fail(s).disposed == s.disposed && Fail(s).commands == s.commands
  {
    assert PendingCalls(s) == {};
  }

  /** Disposing of the client rejects what is pending as disposed, and ends the connection for good. */
  lemma DisposeRejects(steps: seq<Step>)
    ensures var (s, r) := (Run(INIT, steps), Run(INIT, steps + [SDispose]));
            && r.disposed && r.lifecycle.Disconnected? && r.pending == map[] && r.commands == s.commands
            && forall id: RequestId :: id in s.pending ==>
                 s.pending[id].call in r.outcomes && r.outcomes[s.pending[id].call] == Failure(ClientDisposed)
  {
    RunMore(steps, SDispose);
    InvariantRun(steps);
    hide Run;
    var s := Run(INIT, steps);
    if !s.disposed {
      var m := RejectPending(s, ClientDisposed).(disposed := true);
      forall id: RequestId | id in s.pending
        ensures s.pending[id].call in m.outcomes && m.outcomes[s.pending[id].call] == Failure(ClientDisposed)
      {
        assert s.pending[id].call in PendingCalls(s);
      }
      hide Invariant, Fail;
      FailWithNothingPending(m);
    }
  }

  // ----- Handshakes

  /** Connecting starts a handshake, unless there is a connection or the client has been disposed of. */
  lemma ConnectStarts(steps: seq<Step>)
    ensures var (s, r) := (Run(INIT, steps), Run(INIT, steps + [SConnect]));
            if s.disposed || !s.lifecycle.Disconnected? then r == s
            else exists c :: c !in s.handshakes && r.lifecycle == Connecting(c, false) && r.handshakes == s.handshakes[c := Unsettled]
                             && r.outcomes == s.outcomes
  {
    RunMore(steps, SConnect);
    InvariantRun(steps);
    hide Run;
    var s := Run(INIT, steps);
    assert s.sequence + 1 !in s.handshakes;
    hide Invariant;
  }

  /** Once its transport is open, a hello connects it, and the handshake resolves as soon as the listeners have heard. */
  lemma HelloConnects(steps: seq<Step>, c: ConnectionId)
    requires Run(INIT, steps).lifecycle == Connecting(c, false)
    ensures var s := Run(INIT, steps);
            var open := steps + [STransportOpens(c, true)];
            var greeted := open + [SArrives(c, Hello)];
            var settled := greeted + [SHandshakeSettles(c)];
            && Run(INIT, open) == s.(lifecycle := Connecting(c, true))
            && Run(INIT, greeted) == s.(lifecycle := Connected(c, true))
            && Run(INIT, settled) == s.(lifecycle := Connected(c, false), handshakes := s.handshakes[c := Resolved])
  {
    var open := steps + [STransportOpens(c, true)];
    var greeted := open + [SArrives(c, Hello)];
    RunMore(steps, STransportOpens(c, true));
    RunMore(open, SArrives(c, Hello));
    RunMore(greeted, SHandshakeSettles(c));
    hide Run;
  }

  /** Any other first message, or one before the transport is open, ends the connection and rejects the handshake. */
  lemma OtherFirstMessageEnds(steps: seq<Step>, c: ConnectionId, m: Message)
    requires Run(INIT, steps).lifecycle.Connecting? && Run(INIT, steps).lifecycle.id == c
    requires !m.Hello? || !Run(INIT, steps).lifecycle.transport
    ensures var r := Run(INIT, steps + [SArrives(c, m)]); Lost(Run(INIT, steps), r) && r.handshakes[c] == Rejected
  {
    RunMore(steps, SArrives(c, m));
    hide Run;
    FailLoses(Run(INIT, steps));
    hide Fail;
  }
}
