/** Server snapshots as a state machine: the handshake of server.ts, the publisher of snapshots.ts and the revision
    filter of the client's state.ts, one step per stretch of code between two awaits. */
module Snapshots {
  import opened Options
  import opened ServerConnections

  /** What finishHandshake waits for; `taken` is the revision its snapshot carries. */
  datatype Handshake =
    | Waiting
    | Fetching(taken: nat)
    | SendingHello(taken: nat)
    | Refetching(taken: nat)
    | Finished

  /** A message handed to the transport. Responses and session events carry no server revision. */
  datatype Message = Hello(revision: nat) | HelloError | ServerSnapshot(revision: nat) | Other

  /** `queued` requests wait for the handshake to finish; `running` requests are being executed. `sent` is all that was
      handed to the transport, of which the client has been given the first `delivered`; `held` is the revision of the
      snapshot the client keeps. */
  datatype Conn = Conn(
    stage: ConnStage,
    disconnected: bool,
    handshakeComplete: bool,
    transportClosed: bool,
    handshake: Handshake,
    queued: nat,
    running: nat,
    sent: seq<Message>,
    delivered: nat,
    held: Option<nat>)
  {
    predicate Open() {
      stage == Ready && !disconnected && !transportClosed
    }
  }

  /** The broadcast under way, with the connections it has yet to send to. */
  datatype Broadcast = Idle | Listing(revision: nat, targets: set<ConnId>) | Sending(revision: nat, targets: set<ConnId>)
  {
    function Remaining(): set<ConnId> {
      if Idle? then {} else targets
    }
  }

  /** `missed` are the connections of a broadcast that failed, while its revision is still the newest. */
  datatype State = State(
    closing: bool,
    conns: map<ConnId, Conn>,
    revision: nat,
    pending: nat,
    current: Broadcast,
    missed: set<ConnId>)

  const INIT: State := State(false, map[], 0, 0, Idle, {})

  const NEW_CONN: Conn := Conn(AwaitingHello, false, false, false, Waiting, 0, 0, [], 0, None)

  const NO_CONN: Conn := Conn(Closed, true, false, true, Finished, 0, 0, [], 0, None)

  function ConnOf(s: State, c: ConnId): Conn {
    if c in s.conns then s.conns[c] else NO_CONN
  }

  function With(s: State, c: ConnId, k: Conn): State {
    s.(conns := s.conns[c := k])
  }

  /** sendMessage, up to its await. */
  function Send(k: Conn, m: Message): Conn {
    if k.disconnected || k.transportClosed then k else k.(sent := k.sent + [m])
  }

  // ----- The client

  /** applyServerSnapshot: an older snapshot than the one held is dropped. */
  function Apply(held: Option<nat>, revision: nat): Option<nat> {
    if held.Some? && revision < held.value then held else Some(revision)
  }

  function Receive(held: Option<nat>, m: Message): Option<nat> {
    if m.Hello? || m.ServerSnapshot? then Apply(held, m.revision) else held
  }

  function Deliver(s: State, c: ConnId): State {
    var k := ConnOf(s, c);
    if k.delivered < |k.sent| then
      With(s, c, k.(delivered := k.delivered + 1, held := Receive(k.held, k.sent[k.delivered])))
    else s
  }

  // ----- Connections

  function Accept(s: State, c: ConnId): State {
    if c in s.conns || s.closing then s else With(s, c, NEW_CONN)
  }

  function Failing(k: Conn): Conn {
    if k.disconnected || k.stage == Closing || k.stage == Closed then k else Send(k.(stage := Closing), HelloError)
  }

  function FailProtocol(s: State, c: ConnId): State {
    if c in s.conns then With(s, c, Failing(s.conns[c])) else s
  }

  function Disconnect(s: State, c: ConnId): State {
    if c in s.conns && !s.conns[c].disconnected then With(s, c, s.conns[c].(stage := Closed, disconnected := true)) else s
  }

  function TransportCloses(s: State, c: ConnId): State {
    if c in s.conns then With(s, c, s.conns[c].(transportClosed := true)) else s
  }

  /** A decoded client message reaches dispatchMessage. */
  function Dispatch(s: State, c: ConnId, hello: bool, supported: bool): State {
    if c in s.conns && !s.conns[c].disconnected && s.conns[c].stage != Closing && s.conns[c].stage != Closed then
      var k := s.conns[c];
      With(s, c,
           if k.stage == AwaitingHello && hello then
             if supported then k.(stage := Handshaking, handshake := Fetching(s.revision))
             else Failing(k.(stage := Handshaking, handshake := Finished))
           else if k.stage == AwaitingHello || hello then Failing(k)
           else if k.stage == Ready then k.(running := k.running + 1)
           else k.(queued := k.queued + 1))
    else s
  }

  /** The handshake's snapshot is there. */
  function Fetched(s: State, c: ConnId): State {
    var k := ConnOf(s, c);
    if k.handshake.Fetching? then
      With(s, c,
           if s.closing || k.disconnected || k.stage != Handshaking || k.transportClosed then k.(handshake := Finished)
           else Send(k.(handshake := SendingHello(k.handshake.taken)), Hello(k.handshake.taken)))
    else s
  }

  /** The service failed to give the handshake its snapshot, before or after the hello. */
  function FetchFails(s: State, c: ConnId): State {
    var k := ConnOf(s, c);
    if k.handshake.Fetching? || k.handshake.Refetching? then With(s, c, Failing(k.(handshake := Finished))) else s
  }

  /** The hello has been sent: the connection is ready, and is sent a newer snapshot if there is one. */
  function HelloSent(s: State, c: ConnId): State {
    var k := ConnOf(s, c);
    if k.handshake.SendingHello? then
      With(s, c,
           if k.disconnected || k.stage != Handshaking then k.(handshake := Finished)
           else k.(stage := Ready, handshakeComplete := true,
                   handshake := if k.handshake.taken != s.revision then Refetching(s.revision) else Finished))
    else s
  }

  function Refetched(s: State, c: ConnId): State {
    var k := ConnOf(s, c);
    if k.handshake.Refetching? then
      With(s, c, Send(k.(handshake := Finished), ServerSnapshot(k.handshake.taken)))
    else s
  }

  /** A request that waited for the handshake. */
  function QueuedRuns(s: State, c: ConnId): State {
    var k := ConnOf(s, c);
    if k.handshake.Finished? && k.queued > 0 then
      With(s, c, if k.stage == Ready && !k.disconnected then k.(queued := k.queued - 1, running := k.running + 1)
                 else k.(queued := k.queued - 1))
    else s
  }

  function RequestEnds(s: State, c: ConnId): State {
    var k := ConnOf(s, c);
    if k.running > 0 then With(s, c, Send(k.(running := k.running - 1), Other)) else s
  }

  /** An event of a session the connection is attached to; it has completed its handshake
      (LiveSessionsRuns.ConnectionsAreKnown). */
  function SessionEvent(s: State, c: ConnId): State {
    var k := ConnOf(s, c);
    if k.handshakeComplete then With(s, c, Send(k, Other)) else s
  }

  // ----- The publisher

  /** Attaching, detaching, disposing and disconnecting ask for a broadcast, at any time. */
  function Enqueue(s: State): State {
    s.(pending := s.pending + 1)
  }

  function ReadyConns(s: State): set<ConnId> {
    set c | c in s.conns && s.conns[c].stage == Ready && !s.conns[c].disconnected
  }

  /** performBroadcast, once the broadcast before it has ended. */
  function PerformBegins(s: State): State {
    if s.current.Idle? && s.pending > 0 then
      if ReadyConns(s) == {} || s.closing then s.(pending := s.pending - 1)
      else s.(pending := s.pending - 1, revision := s.revision + 1, current := Listing(s.revision + 1, ReadyConns(s)),
              missed := {})
    else s
  }

  function Listed(s: State): State {
    if s.current.Listing? then s.(current := Sending(s.current.revision, s.current.targets)) else s
  }

  /** The service failed: the broadcast is given up, its revision stays taken. */
  function ListingFails(s: State): State {
    if s.current.Listing? then s.(current := Idle, missed := s.current.targets) else s
  }

  function PerformSends(s: State, c: ConnId): State {
    if s.current.Sending? && c in s.current.targets then
      With(s, c, Send(ConnOf(s, c), ServerSnapshot(s.current.revision)))
        .(current := s.current.(targets := s.current.targets - {c}))
    else s
  }

  function PerformEnds(s: State): State {
    if s.current.Sending? && s.current.targets == {} then s.(current := Idle) else s
  }

  // ----- Closing

  function BeginClosing(s: State): State {
    s.(closing := true)
  }

  function CloseConnection(s: State, c: ConnId): State {
    if s.closing && c in s.conns && !s.conns[c].disconnected then With(s, c, s.conns[c].(stage := Closing)) else s
  }

  // ----- Runs

  datatype Step =
    | SAccept(c: ConnId) | SDispatch(c: ConnId, hello: bool, supported: bool) | SFailProtocol(c: ConnId)
    | SDisconnect(c: ConnId) | STransportCloses(c: ConnId) | SCloseConnection(c: ConnId)
    | SFetched(c: ConnId) | SFetchFails(c: ConnId) | SHelloSent(c: ConnId) | SRefetched(c: ConnId)
    | SQueuedRuns(c: ConnId) | SRequestEnds(c: ConnId) | SSessionEvent(c: ConnId) | SDeliver(c: ConnId)
    | SEnqueue | SPerformBegins | SListed | SListingFails | SPerformSends(c: ConnId) | SPerformEnds | SBeginClosing

  function Next(s: State, step: Step): State {
    match step
    case SAccept(c) => Accept(s, c)
    case SDispatch(c, hello, supported) => Dispatch(s, c, hello, supported)
    case SFailProtocol(c) => FailProtocol(s, c)
    case SDisconnect(c) => Disconnect(s, c)
    case STransportCloses(c) => TransportCloses(s, c)
    case SCloseConnection(c) => CloseConnection(s, c)
    case SFetched(c) => Fetched(s, c)
    case SFetchFails(c) => FetchFails(s, c)
    case SHelloSent(c) => HelloSent(s, c)
    case SRefetched(c) => Refetched(s, c)
    case SQueuedRuns(c) => QueuedRuns(s, c)
    case SRequestEnds(c) => RequestEnds(s, c)
    case SSessionEvent(c) => SessionEvent(s, c)
    case SDeliver(c) => Deliver(s, c)
    case SEnqueue => Enqueue(s)
    case SPerformBegins => PerformBegins(s)
    case SListed => Listed(s)
    case SListingFails => ListingFails(s)
    case SPerformSends(c) => PerformSends(s, c)
    case SPerformEnds => PerformEnds(s)
    case SBeginClosing => BeginClosing(s)
  }

  function Run(s: State, steps: seq<Step>): State
    decreases |steps|
  {
    if steps == [] then s else Next(Run(s, steps[..|steps| - 1]), steps[|steps| - 1])
  }
}
