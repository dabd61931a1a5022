/** What a client of the server gets for what it does, in every run: its hello, its requests, and the snapshots. */
module SnapshotsAnswers {
  import opened Options
  import opened ServerConnections
  import opened Snapshots
  import opened SnapshotsConvergence

  lemma RunMore(steps: seq<Step>, step: Step)
    ensures Run(INIT, steps + [step]) == Next(Run(INIT, steps), step)
  {
    assert (steps + [step])[..|steps|] == steps;
  }

  /** Connection `c` is in this stage, and messages can still be sent on it. */
  predicate Heard(s: State, c: ConnId, stage: ConnStage) {
    c in s.conns && s.conns[c].stage == stage && !s.conns[c].disconnected && !s.conns[c].transportClosed
  }

  /** Only connection `c` has changed, and is `k` now. */
  predicate Becomes(s: State, r: State, c: ConnId, k: Conn) {
    r == s.(conns := s.conns[c := k])
  }

  // ----- Handshakes

  /** A connection that is accepted has yet to say hello; a closing server accepts none. */
  lemma AcceptedWaits(steps: seq<Step>, c: ConnId)
    requires c !in Run(INIT, steps).conns
    ensures var (s, r) := (Run(INIT, steps), Run(INIT, steps + [SAccept(c)]));
            if s.closing then r == s
            else Heard(r, c, AwaitingHello) && r.conns[c].sent == [] && r.conns[c].held == None && Becomes(s, r, c, r.conns[c])
  {
    RunMore(steps, SAccept(c));
    hide Run;
  }

  /** A supported hello takes the revision of when it came, and has the snapshot fetched. */
  lemma HelloIsAnswered(steps: seq<Step>, c: ConnId)
    requires Heard(Run(INIT, steps), c, AwaitingHello)
    ensures var (s, r) := (Run(INIT, steps), Run(INIT, steps + [SDispatch(c, true, true)]));
            Becomes(s, r, c, s.conns[c].(stage := Handshaking, handshake := Fetching(s.revision)))
  {
    RunMore(steps, SDispatch(c, true, true));
    hide Run;
  }

  /** The hello that goes back carries that revision, and is the first message sent. */
  lemma HelloIsSent(steps: seq<Step>, c: ConnId)
    requires Heard(Run(INIT, steps), c, Handshaking) && Run(INIT, steps).conns[c].handshake.Fetching?
    ensures var (s, r) := (Run(INIT, steps), Run(INIT, steps + [SFetched(c)]));
            var k := s.conns[c];
            Becomes(s, r, c, if s.closing then k.(handshake := Finished)
                             else k.(handshake := SendingHello(k.handshake.taken), sent := [Hello(k.handshake.taken)]))
  {
    RunMore(steps, SFetched(c));
    InvariantRun(steps);
    hide Run;
    var s := Run(INIT, steps);
    assert ConnOk(ConnOf(s, c), s.revision) && s.conns[c].sent == [];
    hide Invariant, ConnOk, Accounted;
    assert [] + [Hello(s.conns[c].handshake.taken)] == [Hello(s.conns[c].handshake.taken)];
  }

  /** Once it has been sent, the connection is ready; if the revision has moved on, a newer snapshot is fetched. */
  lemma BecomesReady(steps: seq<Step>, c: ConnId)
    requires Heard(Run(INIT, steps), c, Handshaking) && Run(INIT, steps).conns[c].handshake.SendingHello?
    ensures var (s, r) := (Run(INIT, steps), Run(INIT, steps + [SHelloSent(c)]));
            var k := s.conns[c];
            Becomes(s, r, c, k.(stage := Ready, handshakeComplete := true,
                                handshake := if k.handshake.taken == s.revision then Finished else Refetching(s.revision)))
  {
    RunMore(steps, SHelloSent(c));
    hide Run;
  }

  /** And sent. */
  lemma NewerSnapshotFollows(steps: seq<Step>, c: ConnId)
    requires Heard(Run(INIT, steps), c, Ready) && Run(INIT, steps).conns[c].handshake.Refetching?
    ensures var (s, r) := (Run(INIT, steps), Run(INIT, steps + [SRefetched(c)]));
            var k := s.conns[c];
            Becomes(s, r, c, k.(handshake := Finished, sent := k.sent + [ServerSnapshot(k.handshake.taken)]))
  {
    RunMore(steps, SRefetched(c));
    hide Run;
  }

  /** A hello of another version, a message before the hello, a second hello, and a service that fails to give the snapshot
      all get a hello error, and end the connection. */
  lemma WrongHelloRefused(steps: seq<Step>, c: ConnId, step: Step)
    requires var s := Run(INIT, steps);
             || (Heard(s, c, AwaitingHello) && step.SDispatch? && step.c == c && !(step.hello && step.supported))
             || ((Heard(s, c, Handshaking) || Heard(s, c, Ready)) && step.SDispatch? && step.c == c && step.hello)
             || (Heard(s, c, Handshaking) && s.conns[c].handshake.Fetching? && step == SFetchFails(c))
             || (Heard(s, c, Ready) && s.conns[c].handshake.Refetching? && step == SFetchFails(c))
    ensures var (s, r) := (Run(INIT, steps), Run(INIT, steps + [step]));
            && c in r.conns && r.conns[c].stage == Closing && r.conns[c].sent == s.conns[c].sent + [HelloError]
            && Becomes(s, r, c, r.conns[c])
  {
    RunMore(steps, step);
    hide Run;
  }

  // ----- Requests

  /** A request on a ready connection is executed; one that comes during the handshake is queued. */
  lemma RequestRuns(steps: seq<Step>, c: ConnId, supported: bool)
    ensures var (s, r) := (Run(INIT, steps), Run(INIT, steps + [SDispatch(c, false, supported)]));
            && (Heard(s, c, Ready) ==> Becomes(s, r, c, s.conns[c].(running := s.conns[c].running + 1)))
            && (Heard(s, c, Handshaking) ==> Becomes(s, r, c, s.conns[c].(queued := s.conns[c].queued + 1)))
  {
    RunMore(steps, SDispatch(c, false, supported));
    hide Run;
  }

  /** A queued request is executed once the connection is ready, or dropped if the handshake has failed. */
  lemma QueuedRequestRuns(steps: seq<Step>, c: ConnId)
    requires c in Run(INIT, steps).conns && Run(INIT, steps).conns[c].queued > 0
    requires Run(INIT, steps).conns[c].handshake.Finished?
    ensures var (s, r) := (Run(INIT, steps), Run(INIT, steps + [SQueuedRuns(c)]));
            var k := s.conns[c];
            Becomes(s, r, c, if k.stage == Ready then k.(queued := k.queued - 1, running := k.running + 1)
                             else k.(queued := k.queued - 1))
  {
    RunMore(steps, SQueuedRuns(c));
    InvariantRun(steps);
    hide Run;
    assert ConnOk(ConnOf(Run(INIT, steps), c), Run(INIT, steps).revision);
    hide Invariant, Accounted;
  }

  /** A request that has been executed is answered, unless the connection is gone. */
  lemma RequestIsAnswered(steps: seq<Step>, c: ConnId)
    requires c in Run(INIT, steps).conns && Run(INIT, steps).conns[c].running > 0
    ensures var (s, r) := (Run(INIT, steps), Run(INIT, steps + [SRequestEnds(c)]));
            var k := s.conns[c];
            Becomes(s, r, c, k.(running := k.running - 1,
                                sent := if k.disconnected || k.transportClosed then k.sent else k.sent + [Other]))
  {
    RunMore(steps, SRequestEnds(c));
    hide Run;
  }

  /** Nothing that still arrives on a connection that is ending is looked at. */
  lemma EndingIgnoresMessages(steps: seq<Step>, c: ConnId, hello: bool, supported: bool)
    requires var s := Run(INIT, steps); c in s.conns && (s.conns[c].stage == Closing || s.conns[c].stage == Closed)
    ensures Run(INIT, steps + [SDispatch(c, hello, supported)]) == Run(INIT, steps)
    ensures Run(INIT, steps + [SFailProtocol(c)]) == Run(INIT, steps)
  {
    RunMore(steps, SDispatch(c, hello, supported));
    RunMore(steps, SFailProtocol(c));
    hide Run;
    var s := Run(INIT, steps);
    assert s.conns[c := s.conns[c]] == s.conns;
  }

  // ----- Broadcasts

  /** A broadcast that is due takes the next revision for all connections that are ready; if there is none, or the server
      is closing, it is dropped. */
  lemma BroadcastTakesRevision(steps: seq<Step>, ready: set<ConnId>)
    requires Run(INIT, steps).current.Idle? && Run(INIT, steps).pending > 0
    requires var s := Run(INIT, steps); forall c :: c in ready <==> c in s.conns && s.conns[c].stage == Ready
    ensures var (s, r) := (Run(INIT, steps), Run(INIT, steps + [SPerformBegins]));
            r == if s.closing || ready == {} then s.(pending := s.pending - 1)
                 else s.(pending := s.pending - 1, revision := s.revision + 1, missed := {}, current := Listing(s.revision + 1, ready))
  {
    RunMore(steps, SPerformBegins);
    InvariantRun(steps);
    hide Run;
    ReadyAre(Run(INIT, steps), ready);
    hide Invariant, ReadyConns;
  }

  lemma ReadyAre(s: State, ready: set<ConnId>)
    requires Invariant(s) && forall c :: c in ready <==> c in s.conns && s.conns[c].stage == Ready
    ensures ReadyConns(s) == ready
  {
    hide Accounted, BroadcastOk;
    forall c ensures c in ReadyConns(s) <==> c in ready {
      if c in s.conns {
        assert ConnOk(ConnOf(s, c), s.revision);
      }
    }
  }

  /** The steps that send a broadcast to these connections, in this order. */
  function SendTo(order: seq<ConnId>): seq<Step> {
    if order == [] then [] else SendTo(order[..|order| - 1]) + [SPerformSends(order[|order| - 1])]
  }

  lemma SendToOneMore(steps: seq<Step>, order: seq<ConnId>)
    requires order != []
    ensures steps + SendTo(order) == steps + SendTo(order[..|order| - 1]) + [SPerformSends(order[|order| - 1])]
  {
  }

  /** What a connection has been sent once the broadcast has reached it. */
  function Reached(k: Conn, revision: nat): Conn {
    if k.disconnected || k.transportClosed then k else k.(sent := k.sent + [ServerSnapshot(revision)])
  }

  /** What a broadcast has done once it has been sent to these connections. */
  ghost predicate SentTo(s: State, r: State, order: seq<ConnId>) {
    && s.current.Sending? && r.current.Sending? && r.current.revision == s.current.revision
    && (forall c :: c in r.current.targets <==> c in s.current.targets && c !in order)
    && r == s.(conns := r.conns, current := r.current) && r.conns.Keys == s.conns.Keys
    && forall c :: c in s.conns ==> r.conns[c] == if c in order then Reached(s.conns[c], s.current.revision) else s.conns[c]
  }

  lemma SentToOneMore(s: State, m: State, init: seq<ConnId>, c: ConnId)
    requires SentTo(s, m, init) && c !in init && c in s.current.targets && c in s.conns
    ensures SentTo(s, PerformSends(m, c), init + [c])
  {
    var r := PerformSends(m, c);
    assert r == m.(conns := m.conns[c := Reached(s.conns[c], s.current.revision)],
                   current := Sending(s.current.revision, m.current.targets - {c}));
    hide Reached, PerformSends;
  }

  /** Every connection of a broadcast is sent its revision, once each and in any order; no other connection is. */
  lemma {:induction false} BroadcastReachesAll(steps: seq<Step>, order: seq<ConnId>)
    requires Run(INIT, steps).current.Sending?
    requires forall i, j :: 0 <= i < j < |order| ==> order[i] != order[j]
    requires forall c :: c in order ==> c in Run(INIT, steps).current.targets
    ensures SentTo(Run(INIT, steps), Run(INIT, steps + SendTo(order)), order)
    decreases |order|
  {
    var s := Run(INIT, steps);
    if order == [] {
      assert steps + SendTo(order) == steps;
    } else {
      var (init, c) := (order[..|order| - 1], order[|order| - 1]);
      TargetIsConnected(steps, c);
      SendToOneMore(steps, order);
      assert c !in init && order == init + [c];
      hide Run, Next, SentTo, SendTo;
      BroadcastReachesAll(steps, init);
      RunMore(steps + SendTo(init), SPerformSends(c));
      SentToOneMore(s, Run(INIT, steps + SendTo(init)), init, c);
      NextSends(Run(INIT, steps + SendTo(init)), c);
    }
  }

  lemma NextSends(s: State, c: ConnId)
    ensures Next(s, SPerformSends(c)) == PerformSends(s, c)
  {
  }

  lemma TargetIsConnected(steps: seq<Step>, c: ConnId)
    requires Run(INIT, steps).current.Sending? && c in Run(INIT, steps).current.targets
    ensures c in Run(INIT, steps).conns
  {
    InvariantRun(steps);
    hide Run;
    assert c in Run(INIT, steps).current.Remaining() + Run(INIT, steps).missed;
  }

  /** Once it has been sent to all of them, the next one can begin. */
  lemma BroadcastEnds(steps: seq<Step>)
    requires Run(INIT, steps).current.Sending? && Run(INIT, steps).current.targets == {}
    ensures Run(INIT, steps + [SPerformEnds]) == Run(INIT, steps).(current := Idle)
  {
    RunMore(steps, SPerformEnds);
    hide Run;
  }

  /** A broadcast is sent once the sessions have been listed, and given up if they cannot be. */
  lemma BroadcastListed(steps: seq<Step>)
    requires Run(INIT, steps).current.Listing?
    ensures var s := Run(INIT, steps);
            && Run(INIT, steps + [SListed]) == s.(current := Sending(s.current.revision, s.current.targets))
            && Run(INIT, steps + [SListingFails]) == s.(current := Idle, missed := s.current.targets)
  {
    RunMore(steps, SListed);
    RunMore(steps, SListingFails);
    hide Run;
  }

  // ----- The client

  /** A client is given what it was sent, in order; it keeps the revision of a hello or snapshot unless it has a newer one. */
  lemma ClientKeepsNewer(steps: seq<Step>, c: ConnId)
    requires c in Run(INIT, steps).conns && Run(INIT, steps).conns[c].delivered < |Run(INIT, steps).conns[c].sent|
    ensures var (s, r) := (Run(INIT, steps), Run(INIT, steps + [SDeliver(c)]));
            var (k, m) := (s.conns[c], s.conns[c].sent[s.conns[c].delivered]);
            Becomes(s, r, c, k.(delivered := k.delivered + 1,
                                held := if (m.Hello? || m.ServerSnapshot?) && (k.held.None? || m.revision >= k.held.value)
                                        then Some(m.revision) else k.held))
  {
    RunMore(steps, SDeliver(c));
    hide Run;
  }
}
