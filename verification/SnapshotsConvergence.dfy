/** Clients and server agree on the newest revision, over every run. */
module SnapshotsConvergence {
  import opened Options
  import opened ServerConnections
  import opened Snapshots

  predicate Carries(m: Message) {
    m.Hello? || m.ServerSnapshot?
  }

  /** The newest revision among the snapshots of a log. */
  function Newest(log: seq<Message>): (r: Option<nat>)
    decreases |log|
  {
    if log == [] then None
    else
      var (before, m) := (Newest(log[..|log| - 1]), log[|log| - 1]);
      if !Carries(m) || (before.Some? && m.revision <= before.value) then before else Some(m.revision)
  }

  /** Newest is the maximum. */
  lemma {:induction false} NewestIsMaximal(log: seq<Message>, i: nat)
    requires i < |log| && Carries(log[i])
    ensures Newest(log).Some? && log[i].revision <= Newest(log).value
    decreases |log|
  {
    if i < |log| - 1 {
      NewestIsMaximal(log[..|log| - 1], i);
    }
  }

  lemma {:induction false} NewestIsThere(log: seq<Message>)
    requires Newest(log).Some?
    ensures exists i :: 0 <= i < |log| && Carries(log[i]) && log[i].revision == Newest(log).value
    decreases |log|
  {
    var init := log[..|log| - 1];
    if Newest(init) == Newest(log) {
      NewestIsThere(init);
      var i :| 0 <= i < |init| && Carries(init[i]) && init[i].revision == Newest(init).value;
      assert log[i] == init[i];
    }
  }

  lemma NewestAppend(log: seq<Message>, m: Message)
    ensures Newest(log + [m]) ==
            if !Carries(m) || (Newest(log).Some? && m.revision <= Newest(log).value) then Newest(log) else Some(m.revision)
  {
    assert (log + [m])[..|log|] == log;
  }

  lemma NewestIsGreatest(log: seq<Message>)
    ensures forall i :: 0 <= i < |log| && Carries(log[i]) ==> Newest(log).Some? && log[i].revision <= Newest(log).value
    ensures Newest(log).Some? ==> exists i :: 0 <= i < |log| && Carries(log[i]) && log[i].revision == Newest(log).value
  {
    forall i | 0 <= i < |log| && Carries(log[i]) ensures Newest(log).Some? && log[i].revision <= Newest(log).value {
      NewestIsMaximal(log, i);
    }
    if Newest(log).Some? {
      NewestIsThere(log);
    }
  }

  /** The client's filter, message by message, keeps the newest revision whatever the order. */
  lemma ReceiveIsNewest(k: Conn)
    requires k.delivered < |k.sent| && k.held == Newest(k.sent[..k.delivered])
    ensures Receive(k.held, k.sent[k.delivered]) == Newest(k.sent[..k.delivered + 1])
  {
    NewestAppend(k.sent[..k.delivered], k.sent[k.delivered]);
    assert k.sent[..k.delivered + 1] == k.sent[..k.delivered] + [k.sent[k.delivered]];
  }

  predicate UpTo(h: Option<nat>, revision: nat) {
    h.Some? ==> h.value <= revision
  }

  /** What holds of each connection by itself, at server revision `revision`. */
  predicate ConnOk(k: Conn, revision: nat) {
    && (k.disconnected <==> k.stage == Closed)
    && k.delivered <= |k.sent| && k.held == Newest(k.sent[..k.delivered])
    && UpTo(Newest(k.sent), revision)
    && (k.sent != [] ==> k.sent[0].Hello? || k.sent[0].HelloError?)
    && (k.stage == AwaitingHello ==> k.handshake.Waiting? && k.sent == [])
    && (k.stage == Handshaking ==>
          (k.handshake.Fetching? && k.sent == []) || (k.handshake.SendingHello? && Newest(k.sent) == Some(k.handshake.taken))
          || k.handshake.Finished?)
    && (k.stage == Ready ==> k.handshakeComplete && (k.handshake.Refetching? || k.handshake.Finished?))
    && (k.stage == AwaitingHello || k.stage == Handshaking ==> !k.handshakeComplete)
    && (k.handshakeComplete ==> k.sent != [])
    && (k.running > 0 ==> k.handshakeComplete)
    && (k.handshake.Refetching? ==> k.handshakeComplete && k.handshake.taken <= revision)
    && (k.handshake.Fetching? || k.handshake.SendingHello? ==> !k.handshakeComplete && k.handshake.taken <= revision)
  }

  /** The newest revision is still on its way to `c`: in the broadcast under way or in the handshake's second fetch. */
  predicate OnTheWay(s: State, c: ConnId) {
    c in s.current.Remaining() || ConnOf(s, c).handshake == Refetching(s.revision)
  }

  /** A ready connection has been sent the newest revision exactly if it is not on its way nor was missed. */
  predicate Accounted(s: State, c: ConnId) {
    ConnOf(s, c).Open() ==>
      (Newest(ConnOf(s, c).sent) != Some(s.revision) <==> OnTheWay(s, c) || c in s.missed)
  }

  predicate BroadcastOk(s: State) {
    && (!s.current.Idle? ==> s.current.revision == s.revision && s.missed == {})
    && (forall c :: c in s.current.Remaining() + s.missed ==>
          c in s.conns && ConnOf(s, c).handshakeComplete && ConnOf(s, c).handshake != Refetching(s.revision))
  }

  predicate Invariant(s: State) {
    && BroadcastOk(s)
    && (forall c :: c in s.conns ==> ConnOk(ConnOf(s, c), s.revision) && Accounted(s, c))
  }

  /** A step that changes connection `c` only. */
  lemma OneConn(s: State, c: ConnId, k: Conn)
    requires Invariant(s) && c in s.conns && ConnOk(k, s.revision) && Accounted(With(s, c, k), c)
    requires ConnOf(s, c).handshakeComplete ==> k.handshakeComplete
    requires ConnOf(s, c).handshakeComplete && k.handshake == Refetching(s.revision) ==> ConnOf(s, c).handshake == k.handshake
    ensures Invariant(With(s, c, k))
  {
    var r := With(s, c, k);
    forall d | d in r.conns ensures ConnOk(ConnOf(r, d), r.revision) && Accounted(r, d) {
      assert d != c ==> ConnOf(r, d) == ConnOf(s, d) && Accounted(s, d);
    }
  }

  lemma KeptByFailProtocol(s: State, c: ConnId)
    requires Invariant(s)
    ensures Invariant(FailProtocol(s, c))
  {
    if c in s.conns {
      FailingOk(s.conns[c], s.revision);
      OneConn(s, c, Failing(s.conns[c]));
    }
  }

  lemma FailingOk(k: Conn, revision: nat)
    requires ConnOk(k, revision)
    ensures ConnOk(Failing(k), revision)
  {
    NewestAppend(k.sent, HelloError);
    assert (k.sent + [HelloError])[..k.delivered] == k.sent[..k.delivered];
  }

  lemma KeptByFetchFails(s: State, c: ConnId)
    requires Invariant(s)
    ensures Invariant(FetchFails(s, c))
  {
    var k := ConnOf(s, c);
    if k.handshake.Fetching? || k.handshake.Refetching? {
      assert ConnOk(k, s.revision);
      var f := k.(handshake := Finished);
      FailingOk(f, s.revision);
      OneConn(s, c, Failing(f));
    }
  }

  lemma KeptByDispatch(s: State, c: ConnId, hello: bool, supported: bool)
    requires Invariant(s)
    ensures Invariant(Dispatch(s, c, hello, supported))
  {
    hide Newest;
    if c in s.conns {
      var k := s.conns[c];
      assert ConnOk(k, s.revision) && Accounted(s, c);
      FailingOk(k, s.revision);
      if k.stage == AwaitingHello {
        FailingOk(k.(stage := Handshaking, handshake := Finished), s.revision);
      }
      if !k.disconnected && k.stage != Closing && k.stage != Closed {
        OneConn(s, c, ConnOf(Dispatch(s, c, hello, supported), c));
      }
    }
  }

  lemma FetchedOk(s: State, c: ConnId)
    requires c in s.conns && ConnOk(s.conns[c], s.revision) && s.conns[c].handshake.Fetching?
    ensures var k := ConnOf(Fetched(s, c), c);
            && Fetched(s, c) == With(s, c, k) && ConnOk(k, s.revision) && !k.Open()
            && k.handshake != Refetching(s.revision) && k.handshakeComplete == s.conns[c].handshakeComplete
  {
    hide Newest;
    var k := s.conns[c];
    if !(s.closing || k.disconnected || k.stage != Handshaking || k.transportClosed) {
      assert k.sent == [] && k.delivered == 0 && k.sent[..0] == [];
      NewestOfHello(k.handshake.taken);
      assert ([] + [Hello(k.handshake.taken)])[..0] == [];
    }
  }

  lemma NewestOfHello(taken: nat)
    ensures Newest([]) == None && Newest([] + [Hello(taken)]) == Some(taken)
  {
    NewestAppend([], Hello(taken));
  }

  lemma KeptByFetched(s: State, c: ConnId)
    requires Invariant(s)
    ensures Invariant(Fetched(s, c))
  {
    if ConnOf(s, c).handshake.Fetching? {
      assert ConnOk(s.conns[c], s.revision);
      FetchedOk(s, c);
      hide ConnOk, Fetched;
      OneConn(s, c, ConnOf(Fetched(s, c), c));
    }
  }

  lemma KeptByHelloSent(s: State, c: ConnId)
    requires Invariant(s)
    ensures Invariant(HelloSent(s, c))
  {
    var k := ConnOf(s, c);
    if k.handshake.SendingHello? {
      assert ConnOk(k, s.revision) && Accounted(s, c);
      assert c !in s.current.Remaining() + s.missed;
      OneConn(s, c, ConnOf(HelloSent(s, c), c));
    }
  }

  lemma KeptByRefetched(s: State, c: ConnId)
    requires Invariant(s)
    ensures Invariant(Refetched(s, c))
  {
    var k := ConnOf(s, c);
    if k.handshake.Refetching? {
      assert ConnOk(k, s.revision) && Accounted(s, c);
      var m := ServerSnapshot(k.handshake.taken);
      NewestAppend(k.sent, m);
      assert (k.sent + [m])[..k.delivered] == k.sent[..k.delivered];
      assert k.handshake.taken == s.revision ==> c !in s.current.Remaining() + s.missed;
      OneConn(s, c, ConnOf(Refetched(s, c), c));
    }
  }

  /** A message without a revision. */
  lemma KeptByOther(s: State, c: ConnId, k: Conn)
    requires Invariant(s) && c in s.conns && ConnOf(s, c).handshakeComplete
    requires k == ConnOf(s, c) || k == ConnOf(s, c).(running := k.running)
    ensures Invariant(With(s, c, Send(k, Other)))
  {
    assert ConnOk(ConnOf(s, c), s.revision) && Accounted(s, c);
    NewestAppend(k.sent, Other);
    assert (k.sent + [Other])[..k.delivered] == k.sent[..k.delivered];
    OneConn(s, c, Send(k, Other));
  }

  lemma KeptByDeliver(s: State, c: ConnId)
    requires Invariant(s)
    ensures Invariant(Deliver(s, c))
  {
    var k := ConnOf(s, c);
    if k.delivered < |k.sent| {
      assert ConnOk(k, s.revision) && Accounted(s, c);
      ReceiveIsNewest(k);
      OneConn(s, c, ConnOf(Deliver(s, c), c));
    }
  }

  lemma KeptByQueuedRuns(s: State, c: ConnId)
    requires Invariant(s)
    ensures Invariant(QueuedRuns(s, c))
  {
    var k := ConnOf(s, c);
    if k.handshake.Finished? && k.queued > 0 {
      assert ConnOk(k, s.revision) && Accounted(s, c);
      OneConn(s, c, ConnOf(QueuedRuns(s, c), c));
    }
  }

  lemma KeptByEndings(s: State, c: ConnId)
    requires Invariant(s)
    ensures Invariant(Disconnect(s, c)) && Invariant(TransportCloses(s, c)) && Invariant(CloseConnection(s, c))
  {
    if c in s.conns {
      var k := s.conns[c];
      assert ConnOk(k, s.revision);
      OneConn(s, c, k.(transportClosed := true));
      if !k.disconnected {
        OneConn(s, c, k.(stage := Closed, disconnected := true));
        OneConn(s, c, k.(stage := Closing));
      }
    }
  }

  lemma KeptByAccept(s: State, c: ConnId)
    requires Invariant(s)
    ensures Invariant(Accept(s, c))
  {
    if c !in s.conns && !s.closing {
      var r := Accept(s, c);
      forall d | d in r.conns ensures ConnOk(ConnOf(r, d), r.revision) && Accounted(r, d) {
        assert d != c ==> ConnOf(r, d) == ConnOf(s, d) && Accounted(s, d);
      }
    }
  }

  /** A new revision: every ready connection is in the broadcast, no other has been sent it. */
  lemma KeptByPerformBegins(s: State)
    requires Invariant(s)
    ensures Invariant(PerformBegins(s))
  {
    var r := PerformBegins(s);
    forall d | d in r.conns ensures ConnOk(ConnOf(r, d), r.revision) && Accounted(r, d) {
      assert ConnOk(ConnOf(s, d), s.revision) && Accounted(s, d);
      assert d in ReadyConns(s) <==> ConnOf(s, d).stage == Ready && !ConnOf(s, d).disconnected;
    }
    forall c | c in r.current.Remaining() + r.missed
      ensures c in r.conns && ConnOf(r, c).handshakeComplete && ConnOf(r, c).handshake != Refetching(r.revision)
    {
      assert ConnOk(ConnOf(s, c), s.revision);
    }
  }

  lemma SentOk(k: Conn, revision: nat)
    requires ConnOk(k, revision) && k.handshakeComplete
    ensures ConnOk(Send(k, ServerSnapshot(revision)), revision)
    ensures k.Open() ==> Newest(Send(k, ServerSnapshot(revision)).sent) == Some(revision)
  {
    NewestAppend(k.sent, ServerSnapshot(revision));
    assert (k.sent + [ServerSnapshot(revision)])[..k.delivered] == k.sent[..k.delivered];
  }

  lemma KeptByPerformSends(s: State, c: ConnId)
    requires Invariant(s)
    ensures Invariant(PerformSends(s, c))
  {
    if s.current.Sending? && c in s.current.targets {
      assert c in s.current.Remaining() + s.missed;
      assert ConnOk(ConnOf(s, c), s.revision) && Accounted(s, c);
      SentOk(ConnOf(s, c), s.revision);
      hide Newest, ConnOk;
      var r := PerformSends(s, c);
      assert r == With(s, c, ConnOf(r, c)).(current := r.current) && r.current.Remaining() == s.current.Remaining() - {c};
      assert Accounted(r, c);
      forall d | d in r.conns && d != c ensures ConnOk(ConnOf(r, d), r.revision) && Accounted(r, d) {
        assert ConnOf(r, d) == ConnOf(s, d) && Accounted(s, d);
      }
    }
  }

  /** The broadcast moves on without reaching or losing a connection. */
  lemma KeptByListing(s: State)
    requires Invariant(s)
    ensures Invariant(Listed(s)) && Invariant(ListingFails(s)) && Invariant(PerformEnds(s))
  {
    forall d | d in s.conns ensures Accounted(Listed(s), d) && Accounted(ListingFails(s), d) && Accounted(PerformEnds(s), d) {
      assert Accounted(s, d);
    }
  }

  lemma KeptByClosing(s: State)
    requires Invariant(s)
    ensures Invariant(BeginClosing(s)) && Invariant(Enqueue(s))
  {
    forall d | d in s.conns ensures Accounted(BeginClosing(s), d) && Accounted(Enqueue(s), d) {
      assert Accounted(s, d);
    }
  }

  lemma InvariantNext(s: State, step: Step)
    requires Invariant(s)
    ensures Invariant(Next(s, step))
  {
    hide Accept, Dispatch, FailProtocol, Disconnect, TransportCloses, CloseConnection, Fetched, FetchFails, HelloSent;
    hide Refetched, QueuedRuns, Deliver, PerformBegins, Listed, ListingFails, PerformSends, PerformEnds;
    match step
    case SAccept(c) => KeptByAccept(s, c);
    case SDispatch(c, hello, supported) => KeptByDispatch(s, c, hello, supported);
    case SFailProtocol(c) => KeptByFailProtocol(s, c);
    case SDisconnect(c) => KeptByEndings(s, c);
    case STransportCloses(c) => KeptByEndings(s, c);
    case SCloseConnection(c) => KeptByEndings(s, c);
    case SFetched(c) => KeptByFetched(s, c);
    case SFetchFails(c) => KeptByFetchFails(s, c);
    case SHelloSent(c) => KeptByHelloSent(s, c);
    case SRefetched(c) => KeptByRefetched(s, c);
    case SQueuedRuns(c) => KeptByQueuedRuns(s, c);
    case SRequestEnds(c) =>
      if ConnOf(s, c).running > 0 {
        assert ConnOk(ConnOf(s, c), s.revision);
        KeptByOther(s, c, ConnOf(s, c).(running := ConnOf(s, c).running - 1));
      }
    case SSessionEvent(c) =>
      if ConnOf(s, c).handshakeComplete {
        KeptByOther(s, c, ConnOf(s, c));
      }
    case SDeliver(c) => KeptByDeliver(s, c);
    case SEnqueue => KeptByClosing(s);
    case SPerformBegins => KeptByPerformBegins(s);
    case SListed => KeptByListing(s);
    case SListingFails => KeptByListing(s);
    case SPerformSends(c) => KeptByPerformSends(s, c);
    case SPerformEnds => KeptByListing(s);
    case SBeginClosing => KeptByClosing(s);
  }

  lemma {:induction false} InvariantRun(steps: seq<Step>)
    ensures Invariant(Run(INIT, steps))
    decreases |steps|
  {
    if steps != [] {
      InvariantRun(steps[..|steps| - 1]);
      InvariantNext(Run(INIT, steps[..|steps| - 1]), steps[|steps| - 1]);
    }
  }

  /** No handshake is under way on `c`, no broadcast is under way, and the client has been given all it was sent. */
  predicate Quiet(s: State, c: ConnId) {
    s.current.Idle? && !ConnOf(s, c).handshake.Refetching? && ConnOf(s, c).delivered == |ConnOf(s, c).sent|
  }

  /** Once things are quiet, a ready client holds the server's revision, whatever the interleaving of handshakes and
      broadcasts, exactly unless the broadcast of that revision failed with the client among its connections. */
  lemma Converges(steps: seq<Step>, c: ConnId)
    ensures var s := Run(INIT, steps);
            ConnOf(s, c).Open() && Quiet(s, c) ==> (ConnOf(s, c).held == Some(s.revision) <==> c !in s.missed)
  {
    InvariantRun(steps);
    var s := Run(INIT, steps);
    if ConnOf(s, c).Open() && Quiet(s, c) {
      assert ConnOk(ConnOf(s, c), s.revision) && Accounted(s, c);
      assert ConnOf(s, c).sent[..|ConnOf(s, c).sent|] == ConnOf(s, c).sent;
    }
  }

  lemma {:induction false} NothingMissed(steps: seq<Step>)
    requires SListingFails !in steps
    ensures Run(INIT, steps).missed == {}
    decreases |steps|
  {
    if steps != [] {
      NothingMissed(steps[..|steps| - 1]);
      assert steps[|steps| - 1] in steps;
    }
  }

  /** With a service that does not fail, every ready client ends up with the server's revision. */
  lemma ConvergesWithoutFailures(steps: seq<Step>, c: ConnId)
    requires SListingFails !in steps
    ensures var s := Run(INIT, steps);
            ConnOf(s, c).Open() && Quiet(s, c) ==> ConnOf(s, c).held == Some(s.revision)
  {
    NothingMissed(steps);
    Converges(steps, c);
  }

  predicate Reaches(h: Option<nat>, g: Option<nat>) {
    h.Some? ==> g.Some? && h.value <= g.value
  }

  /** The revision a client holds never decreases within a connection, and is the newest it has been given. */
  lemma HeldNeverDecreases(steps: seq<Step>, step: Step, c: ConnId)
    ensures var (s, r) := (Run(INIT, steps), Run(INIT, steps + [step]));
            && Reaches(ConnOf(s, c).held, ConnOf(r, c).held)
            && ConnOf(r, c).delivered <= |ConnOf(r, c).sent|
            && ConnOf(r, c).held == Newest(ConnOf(r, c).sent[..ConnOf(r, c).delivered])
  {
    InvariantRun(steps + [step]);
    var (s, r) := (Run(INIT, steps), Run(INIT, steps + [step]));
    assert (steps + [step])[..|steps|] == steps;
    if c in r.conns {
      assert ConnOk(ConnOf(r, c), r.revision);
    }
    HeldNext(s, step, c);
  }

  /** A client holds the newest of the revisions it has been given: one of them, and none of them is newer. */
  lemma HeldIsGreatest(steps: seq<Step>, c: ConnId)
    ensures var k := ConnOf(Run(INIT, steps), c);
            && k.delivered <= |k.sent|
            && (forall i :: 0 <= i < k.delivered && Carries(k.sent[i]) ==> k.held.Some? && k.sent[i].revision <= k.held.value)
            && (k.held.Some? ==> exists i :: 0 <= i < k.delivered && Carries(k.sent[i]) && k.sent[i].revision == k.held.value)
  {
    hide Run, Newest, Carries;
    InvariantRun(steps);
    var s := Run(INIT, steps);
    if c in s.conns {
      var k := ConnOf(s, c);
      assert ConnOk(k, s.revision);
      hide Invariant, ConnOk;
      NewestIsGreatest(k.sent[..k.delivered]);
      assert forall i :: 0 <= i < k.delivered ==> k.sent[..k.delivered][i] == k.sent[i];
    }
  }

  lemma HeldNext(s: State, step: Step, c: ConnId)
    ensures Reaches(ConnOf(s, c).held, ConnOf(Next(s, step), c).held)
  {
  }

  /** The first message sent on any connection is a hello or a hello error, and nothing is sent or executed for a
      client that has not completed its handshake. */
  lemma HelloComesFirst(steps: seq<Step>, c: ConnId)
    ensures var k := ConnOf(Run(INIT, steps), c);
            && (k.sent != [] ==> k.sent[0].Hello? || k.sent[0].HelloError?)
            && (k.running > 0 ==> k.handshakeComplete && k.sent != [])
  {
    InvariantRun(steps);
    var s := Run(INIT, steps);
    if c in s.conns {
      assert ConnOk(ConnOf(s, c), s.revision);
    }
  }

  /** After a hello error the connection is ending, and there is no hello and no other hello error. */
  predicate ErrorOk(k: Conn) {
    forall i :: 0 <= i < |k.sent| && k.sent[i].HelloError? ==>
      && (k.stage == Closing || k.stage == Closed)
      && forall j :: i < j < |k.sent| ==> !k.sent[j].Hello? && !k.sent[j].HelloError?
  }

  lemma ErrorSend(k: Conn, m: Message)
    requires ErrorOk(k) && !m.HelloError? && (m.Hello? ==> k.stage != Closing && k.stage != Closed)
    ensures ErrorOk(Send(k, m))
  {
  }

  lemma ErrorFailing(k: Conn)
    requires ErrorOk(k)
    ensures ErrorOk(Failing(k))
  {
  }

  lemma NewIsOk()
    ensures ErrorOk(NEW_CONN)
  {
  }

  /** Nothing is sent, and a connection that is ending goes on ending. */
  lemma ErrorStays(k: Conn, l: Conn)
    requires ErrorOk(k) && l.sent == k.sent && (k.stage == Closing || k.stage == Closed ==> l.stage == Closing || l.stage == Closed)
    ensures ErrorOk(l)
  {
  }

  lemma ErrorDispatch(s: State, c: ConnId, hello: bool, supported: bool)
    requires ErrorOk(ConnOf(s, c)) && c in s.conns
    ensures ErrorOk(ConnOf(Dispatch(s, c, hello, supported), c))
  {
    hide ErrorOk, Failing;
    var k := s.conns[c];
    ErrorFailing(k);
    if !k.disconnected && k.stage != Closing && k.stage != Closed {
      ErrorStays(k, k.(stage := Handshaking, handshake := Finished));
      ErrorFailing(k.(stage := Handshaking, handshake := Finished));
      ErrorStays(k, k.(stage := Handshaking, handshake := Fetching(s.revision)));
      ErrorStays(k, k.(running := k.running + 1));
      ErrorStays(k, k.(queued := k.queued + 1));
    }
  }

  lemma ErrorFetched(s: State, c: ConnId)
    requires ErrorOk(ConnOf(s, c)) && c in s.conns
    ensures ErrorOk(ConnOf(Fetched(s, c), c)) && ErrorOk(ConnOf(FetchFails(s, c), c))
  {
    hide ErrorOk, Failing, Send;
    var k := s.conns[c];
    ErrorStays(k, k.(handshake := Finished));
    ErrorFailing(k.(handshake := Finished));
    if k.handshake.Fetching? && k.stage == Handshaking {
      ErrorStays(k, k.(handshake := SendingHello(k.handshake.taken)));
      ErrorSend(k.(handshake := SendingHello(k.handshake.taken)), Hello(k.handshake.taken));
    }
  }

  lemma ErrorSends(s: State, c: ConnId)
    requires ErrorOk(ConnOf(s, c)) && c in s.conns
    ensures ErrorOk(ConnOf(Refetched(s, c), c)) && ErrorOk(ConnOf(RequestEnds(s, c), c))
    ensures ErrorOk(ConnOf(SessionEvent(s, c), c)) && ErrorOk(ConnOf(PerformSends(s, c), c))
  {
    hide ErrorOk, Send;
    var k := s.conns[c];
    ErrorSend(k, Other);
    if k.handshake.Refetching? {
      ErrorStays(k, k.(handshake := Finished));
      ErrorSend(k.(handshake := Finished), ServerSnapshot(k.handshake.taken));
    }
    if k.running > 0 {
      ErrorStays(k, k.(running := k.running - 1));
      ErrorSend(k.(running := k.running - 1), Other);
    }
    if s.current.Sending? {
      ErrorSend(k, ServerSnapshot(s.current.revision));
    }
  }

  predicate Sends(step: Step) {
    step.SRefetched? || step.SRequestEnds? || step.SSessionEvent? || step.SPerformSends?
  }

  /** The step is about one connection. */
  predicate Targets(step: Step) {
    !(step.SEnqueue? || step.SPerformBegins? || step.SListed? || step.SListingFails? || step.SPerformEnds? || step.SBeginClosing?)
  }

  /** A step about another connection, or one that can at most accept this one. */
  lemma ErrorUntouched(s: State, step: Step, c: ConnId)
    requires c !in s.conns || (Targets(step) && step.c != c)
    ensures ConnOf(Next(s, step), c) in [ConnOf(s, c), NEW_CONN]
    ensures c in s.conns ==> ConnOf(Next(s, step), c) == ConnOf(s, c)
  {
    hide Failing;
  }

  lemma NothingSent(s: State, step: Step, c: ConnId)
    requires c in s.conns && (Targets(step) ==> step.c == c) && !Sends(step)
    requires !step.SDispatch? && !step.SFetched? && !step.SFetchFails? && !step.SFailProtocol?
    ensures var (k, l) := (ConnOf(s, c), ConnOf(Next(s, step), c));
            l.sent == k.sent && (k.stage == Closing || k.stage == Closed ==> l.stage == Closing || l.stage == Closed)
  {
    hide Dispatch, Send, Failing, Fetched, FetchFails, Refetched, RequestEnds, SessionEvent, PerformSends;
  }

  lemma ErrorNext(s: State, step: Step, c: ConnId)
    requires ErrorOk(ConnOf(s, c))
    ensures ErrorOk(ConnOf(Next(s, step), c))
  {
    hide ErrorOk, HelloSent, QueuedRuns, Deliver, Disconnect, TransportCloses, CloseConnection, PerformBegins;
    var (k, r) := (ConnOf(s, c), Next(s, step));
    if c !in s.conns || (Targets(step) && step.c != c) {
      NewIsOk();
      ErrorUntouched(s, step, c);
    } else if Sends(step) {
      hide Refetched, RequestEnds, SessionEvent, PerformSends;
      ErrorSends(s, c);
    } else if step.SDispatch? {
      hide Dispatch;
      ErrorDispatch(s, c, step.hello, step.supported);
    } else if step.SFetched? || step.SFetchFails? {
      hide Fetched, FetchFails;
      ErrorFetched(s, c);
    } else if step.SFailProtocol? {
      hide Failing;
      ErrorFailing(k);
    } else {
      NothingSent(s, step, c);
      ErrorStays(k, ConnOf(r, c));
    }
  }

  /** A hello error ends the conversation: no hello and no second hello error follows it, and requests start no more;
      what can still follow are answers to requests that are running, session events, and server snapshots under way. */
  lemma {:induction false} HelloErrorEnds(steps: seq<Step>, c: ConnId)
    ensures ErrorOk(ConnOf(Run(INIT, steps), c))
    decreases |steps|
  {
    if steps != [] {
      hide ErrorOk, Next;
      HelloErrorEnds(steps[..|steps| - 1], c);
      ErrorNext(Run(INIT, steps[..|steps| - 1]), steps[|steps| - 1], c);
    }
  }

  /** A request starts only on a ready connection. */
  lemma RequestsStartReady(s: State, step: Step, c: ConnId)
    ensures ConnOf(Next(s, step), c).running > ConnOf(s, c).running ==> ConnOf(s, c).stage == Ready && !ConnOf(s, c).disconnected
  {
  }

  lemma RunAppend(steps: seq<Step>, step: Step)
    ensures Run(INIT, steps + [step]) == Next(Run(INIT, steps), step)
  {
    assert (steps + [step])[..|steps|] == steps;
  }

  const HANDSHAKE: seq<Step> := [SAccept(0), SDispatch(0, true, true), SFetched(0), SHelloSent(0)]

  lemma AfterHandshake()
    ensures Run(INIT, HANDSHAKE) ==
            INIT.(conns := map[0 := NEW_CONN.(stage := Ready, handshakeComplete := true, handshake := Finished, sent := [Hello(0)])])
  {
    var accepted := [SAccept(0)];
    var greeted := accepted + [SDispatch(0, true, true)];
    var fetched := greeted + [SFetched(0)];
    RunAppend([], SAccept(0));
    assert [] + [SAccept(0)] == accepted;
    RunAppend(accepted, SDispatch(0, true, true));
    RunAppend(greeted, SFetched(0));
    RunAppend(fetched, SHelloSent(0));
    assert HANDSHAKE == fetched + [SHelloSent(0)];
    assert [] + [Hello(0)] == [Hello(0)];
    var k := ConnOf(Run(INIT, HANDSHAKE), 0);
    assert Run(INIT, HANDSHAKE).conns == map[0 := k];
  }

  /** Convergence does need the service: a broadcast that fails leaves a ready client behind for good, until the next
      broadcast. */
  lemma FailedBroadcastLeavesBehind()
    ensures var s := Run(INIT, HANDSHAKE + [SEnqueue] + [SPerformBegins] + [SListingFails] + [SDeliver(0)]);
            ConnOf(s, 0).Open() && Quiet(s, 0) && ConnOf(s, 0).held == Some(0) && s.revision == 1
  {
    hide Run;
    AfterHandshake();
    RunAppend(HANDSHAKE, SEnqueue);
    RunAppend(HANDSHAKE + [SEnqueue], SPerformBegins);
    RunAppend(HANDSHAKE + [SEnqueue] + [SPerformBegins], SListingFails);
    RunAppend(HANDSHAKE + [SEnqueue] + [SPerformBegins] + [SListingFails], SDeliver(0));
    assert 0 in ReadyConns(Run(INIT, HANDSHAKE + [SEnqueue]));
  }

  /** Messages can arrive in the wrong order, which is why the client filters: a broadcast that begins during a
      handshake's second fetch reaches the client first, and the handshake's older snapshot after it. */
  lemma RefreshMayArriveLate(s: State, c: ConnId)
    requires Invariant(s) && ConnOf(s, c).Open() && ConnOf(s, c).handshake.Refetching?
    requires s.current.Idle? && s.pending > 0 && !s.closing
    ensures var r := Refetched(PerformSends(Listed(PerformBegins(s)), c), c); var taken := ConnOf(s, c).handshake.taken;
            && ConnOf(r, c).sent == ConnOf(s, c).sent + [ServerSnapshot(s.revision + 1), ServerSnapshot(taken)]
            && taken < s.revision + 1
            && Receive(Receive(ConnOf(s, c).held, ServerSnapshot(s.revision + 1)), ServerSnapshot(taken)) == Some(s.revision + 1)
  {
    assert ConnOk(ConnOf(s, c), s.revision);
    assert c in ReadyConns(s);
    var sent := ConnOf(s, c).sent;
    var taken := ConnOf(s, c).handshake.taken;
    assert taken <= s.revision && UpTo(Newest(sent), s.revision) && ConnOf(s, c).held == Newest(sent[..ConnOf(s, c).delivered]);
    hide Invariant, ConnOk;
    assert sent + [ServerSnapshot(s.revision + 1)] + [ServerSnapshot(taken)]
        == sent + [ServerSnapshot(s.revision + 1), ServerSnapshot(taken)];
    HeldUpTo(ConnOf(s, c).sent, ConnOf(s, c).delivered);
  }

  lemma {:induction false} HeldUpTo(log: seq<Message>, n: nat)
    requires n <= |log|
    ensures Newest(log[..n]).Some? ==> Newest(log).Some? && Newest(log[..n]).value <= Newest(log).value
    decreases |log|
  {
    if n < |log| {
      HeldUpTo(log[..|log| - 1], n);
      assert log[..|log| - 1][..n] == log[..n];
    } else {
      assert log[..n] == log;
    }
  }
}
