/** The session server's live sessions as a state machine: one step per stretch of code between two awaits.
    Model of pi/packages/server/src/sessions.ts and of the connection stages in server.ts. */
module LiveSessions {
  import opened ServerConnections

  type SessionId = nat
  type TaskId = nat
  /** An opening and the runtime it acquires share one number. */
  type RuntimeId = nat

  /** How far `create` is: waiting for the service, waiting for the first snapshot, waiting for the dispose of a
      runtime it rejected, or settled one way or the other. */
  datatype Stage = Acquiring | Probing | Rejecting | Opened | Failed

  /** An opening, its runtime and its LiveSession record. `acquired`, `disposeCalls` and `settled` record what has
      happened to the runtime; the program does not store them. */
  datatype Session = Session(
    id: SessionId,
    stage: Stage,
    connections: set<ConnId>,
    operationCount: nat,
    terminal: bool,
    disposing: bool,
    subscribed: bool,
    idle: bool,
    acquired: bool,
    disposeCalls: nat,
    settled: bool,
    disposeFailed: bool)
  {
    predicate Unsettled() {
      stage == Acquiring || stage == Probing || stage == Rejecting
    }

    /** Between the acquisition of the runtime and the settling of its dispose. */
    predicate Held() {
      acquired && !settled
    }
  }

  datatype Conn = Conn(stage: ConnStage, disconnected: bool, handshakeComplete: bool, transportClosed: bool,
                       sessionIds: set<SessionId>)

  /** An async call that is suspended at an await. */
  datatype Frame =
    | AwaitDisposing(conn: ConnId, id: SessionId, awaited: RuntimeId)
    | AwaitOpening(conn: ConnId, opening: RuntimeId, opener: bool)
    | Attaching(conn: ConnId, target: RuntimeId)
    | Operating(operated: RuntimeId)
    | DetachBroadcast(left: RuntimeId)
    | Terminating(terminated: RuntimeId, remaining: set<ConnId>)
    | ClosingSessions(waiting: set<RuntimeId>)

  datatype State = State(
    closing: bool,
    cleared: bool,
    sessions: map<RuntimeId, Session>,
    live: map<SessionId, RuntimeId>,
    opening: map<SessionId, RuntimeId>,
    conns: map<ConnId, Conn>,
    frames: map<TaskId, Frame>,
    next: nat)

  const INIT: State := State(false, false, map[], map[], map[], map[], map[], 0)

  /** What a number or connection that is not in use reads as. */
  const NO_SESSION: Session := Session(0, Failed, {}, 0, false, false, false, false, false, 0, false, false)
  const NO_CONN: Conn := Conn(Closed, true, false, true, {})

  function Of(s: State, o: RuntimeId): Session {
    if o in s.sessions then s.sessions[o] else NO_SESSION
  }

  function ConnOf(s: State, c: ConnId): Conn {
    if c in s.conns then s.conns[c] else NO_CONN
  }

  // ----- Pieces of steps

  function With(s: State, o: RuntimeId, x: Session): State {
    s.(sessions := s.sessions[o := x])
  }

  function WithConn(s: State, c: ConnId, x: Conn): State {
    s.(conns := s.conns[c := x])
  }

  function WithFrame(s: State, t: TaskId, f: Frame): State {
    s.(frames := s.frames[t := f])
  }

  function Ended(s: State, t: TaskId): State {
    s.(frames := s.frames - {t})
  }

  /** maybeDispose, up to its first await. */
  function MaybeDispose(closing: bool, x: Session): Session {
    if closing || x.stage != Opened || x.disposing || x.connections != {} || x.operationCount > 0
       || (!x.terminal && !x.idle) then x
    else x.(subscribed := false, disposing := true, disposeCalls := x.disposeCalls + 1)
  }

  function Disposed(s: State, o: RuntimeId): State {
    With(s, o, MaybeDispose(s.closing, Of(s, o)))
  }

  // ----- acquire, create, attach

  function NewSession(id: SessionId): Session {
    Session(id, Acquiring, {}, 0, false, false, false, false, false, 0, false, false)
  }

  /** create, up to its first await, entered among the openings. */
  function NewOpening(s: State, id: SessionId): State {
    With(s, s.next, NewSession(id)).(opening := s.opening[id := s.next], next := s.next + 1)
  }

  /** One turn of acquire's loop for request `t` of connection `c`. */
  function AcquireTurn(s: State, t: TaskId, c: ConnId, id: SessionId): State {
    if id in s.live then
      var o := s.live[id];
      if Of(s, o).terminal then Ended(s, t)
      else if Of(s, o).disposing then WithFrame(s, t, AwaitDisposing(c, id, o))
      else WithFrame(s, t, Attaching(c, o))
    else if id in s.opening then WithFrame(s, t, AwaitOpening(c, s.opening[id], false))
    else WithFrame(NewOpening(s, id), t, AwaitOpening(c, s.next, true))
  }

  predicate MayStart(s: State, t: TaskId, c: ConnId) {
    t !in s.frames && ConnOf(s, c).stage == Ready && !ConnOf(s, c).disconnected
  }

  function StartAttach(s: State, t: TaskId, c: ConnId, id: SessionId): State {
    if MayStart(s, t, c) then AcquireTurn(s, t, c, id) else s
  }

  /** The awaited dispose has settled: try again, or fail with its error. */
  function Retry(s: State, t: TaskId): State {
    if t in s.frames && s.frames[t].AwaitDisposing? && Of(s, s.frames[t].awaited).settled then
      if Of(s, s.frames[t].awaited).disposeFailed then Ended(s, t)
      else AcquireTurn(s, t, s.frames[t].conn, s.frames[t].id)
    else s
  }

  function RuntimeArrives(s: State, o: RuntimeId): State {
    if Of(s, o).stage == Acquiring then
      var x := Of(s, o).(acquired := true);
      With(s, o, if s.closing then x.(stage := Rejecting, disposeCalls := x.disposeCalls + 1) else x.(stage := Probing))
    else s
  }

  function RuntimeRefused(s: State, o: RuntimeId): State {
    if Of(s, o).stage == Acquiring then With(s, o, Of(s, o).(stage := Failed)) else s
  }

  /** The first snapshot has the right id: the session goes live. */
  function ProbeSucceeds(s: State, o: RuntimeId, idle: bool): State {
    if Of(s, o).stage == Probing then
      With(s, o, Of(s, o).(stage := Opened, subscribed := true, idle := idle)).(live := s.live[Of(s, o).id := o])
    else s
  }

  function ProbeFails(s: State, o: RuntimeId): State {
    if Of(s, o).stage == Probing then
      With(s, o, Of(s, o).(stage := Rejecting, disposeCalls := Of(s, o).disposeCalls + 1))
    else s
  }

  function RejectionSettles(s: State, o: RuntimeId): State {
    if Of(s, o).stage == Rejecting then
      With(s, o, Of(s, o).(stage := Failed, settled := true))
    else s
  }

  /** The opening has settled: its opener removes the entry, and every waiter goes on to attach or fails. */
  function OpeningResumes(s: State, t: TaskId): State {
    if t in s.frames && s.frames[t].AwaitOpening? && !Of(s, s.frames[t].opening).Unsettled() then
      var f := s.frames[t];
      var x := Of(s, f.opening);
      var s1 := if f.opener && x.id in s.opening && s.opening[x.id] == f.opening then s.(opening := s.opening - {x.id}) else s;
      if x.stage == Opened then WithFrame(s1, t, Attaching(f.conn, f.opening)) else Ended(s1, t)
    else s
  }

  predicate CanAttach(c: Conn) {
    !c.disconnected && c.stage == Ready && !c.transportClosed
  }

  function Attach(s: State, t: TaskId): State {
    if t in s.frames && s.frames[t].Attaching? then
      var (c, o) := (s.frames[t].conn, s.frames[t].target);
      if CanAttach(ConnOf(s, c)) then
        var s1 := WithConn(s, c, ConnOf(s, c).(sessionIds := ConnOf(s, c).sessionIds + {Of(s, o).id}));
        Ended(With(s1, o, Of(s, o).(connections := Of(s, o).connections + {c})), t)
      else Ended(Disposed(s, o), t)
    else s
  }

  // ----- detach, operations

  /** Session `o` loses connection `c`; a snapshot goes to those that are left. */
  function Leave(s: State, t: TaskId, c: ConnId, o: RuntimeId): State {
    var x := Of(s, o).(connections := Of(s, o).connections - {c});
    if x.connections != {} && !x.terminal && !x.disposing then WithFrame(With(s, o, x), t, DetachBroadcast(o))
    else With(s, o, MaybeDispose(s.closing, x))
  }

  function StartDetach(s: State, t: TaskId, c: ConnId, id: SessionId): State {
    if MayStart(s, t, c) && id in ConnOf(s, c).sessionIds then
      var s1 := WithConn(s, c, ConnOf(s, c).(sessionIds := ConnOf(s, c).sessionIds - {id}));
      if id in s.live then Leave(s1, t, c, s.live[id]) else s1
    else s
  }

  /** The snapshot for the remaining connections came, or failed and took the request with it. */
  function DetachResumes(s: State, t: TaskId, failed: bool): State {
    if t in s.frames && s.frames[t].DetachBroadcast? then
      Ended(if failed then s else Disposed(s, s.frames[t].left), t)
    else s
  }

  function Operate(s: State, t: TaskId, o: RuntimeId): State {
    WithFrame(With(s, o, Of(s, o).(operationCount := Of(s, o).operationCount + 1)), t, Operating(o))
  }

  function StartOperation(s: State, t: TaskId, c: ConnId, id: SessionId): State {
    if MayStart(s, t, c) && id in ConnOf(s, c).sessionIds && id in s.live
       && !Of(s, s.live[id]).terminal && !Of(s, s.live[id]).disposing then Operate(s, t, s.live[id])
    else s
  }

  function OperationEnds(s: State, t: TaskId): State {
    if t in s.frames && s.frames[t].Operating? && Of(s, s.frames[t].operated).operationCount > 0 then
      var o := s.frames[t].operated;
      Ended(With(s, o, MaybeDispose(s.closing, Of(s, o).(operationCount := Of(s, o).operationCount - 1))), t)
    else s
  }

  // ----- Runtime events

  function TurnsBusy(s: State, o: RuntimeId): State {
    if o in s.sessions then With(s, o, Of(s, o).(idle := false)) else s
  }

  /** A snapshot or progress event, sent in particular whenever the runtime turns idle; nobody hears it after
      the server has unsubscribed. */
  function Event(s: State, o: RuntimeId, turnsIdle: bool): State {
    if o in s.sessions then With(s, o, Heard(s.closing, Of(s, o).(idle := turnsIdle || Of(s, o).idle))) else s
  }

  function Heard(closing: bool, x: Session): Session {
    if x.subscribed then MaybeDispose(closing, x) else x
  }

  /** An error event: terminate, up to its first await. */
  function RuntimeError(s: State, t: TaskId, o: RuntimeId): State {
    if t !in s.frames && Of(s, o).subscribed && !Of(s, o).terminal then
      WithFrame(With(s, o, Of(s, o).(terminal := true, subscribed := false)), t,
                Terminating(o, Of(s, o).connections))
    else s
  }

  function TerminateDisconnects(s: State, t: TaskId, c: ConnId): State {
    if t in s.frames && s.frames[t].Terminating? && c in s.frames[t].remaining then
      WithFrame(Disconnect(s, c), t, Terminating(s.frames[t].terminated, s.frames[t].remaining - {c}))
    else s
  }

  function TerminateEnds(s: State, t: TaskId): State {
    if t in s.frames && s.frames[t].Terminating? && s.frames[t].remaining == {} then
      Ended(Disposed(s, s.frames[t].terminated), t)
    else s
  }

  /** The runtime's dispose has settled: the session leaves the map, unless another took its place. */
  function DisposeSettles(s: State, o: RuntimeId, failed: bool): State {
    if Of(s, o).stage == Opened && Of(s, o).disposeCalls > 0 && !Of(s, o).settled then
      var x := Of(s, o);
      var s1 := With(s, o, x.(settled := true, disposeFailed := failed));
      if x.disposing && x.id in s.live && s.live[x.id] == o then s1.(live := s.live - {x.id}) else s1
    else s
  }

  // ----- Connections

  function Accept(s: State, c: ConnId): State {
    if c in s.conns || s.closing then s else WithConn(s, c, Conn(AwaitingHello, false, false, false, {}))
  }

  function Hello(s: State, c: ConnId): State {
    if c in s.conns && ConnOf(s, c).stage == AwaitingHello && !ConnOf(s, c).disconnected then
      WithConn(s, c, ConnOf(s, c).(stage := Handshaking))
    else s
  }

  function HandshakeDone(s: State, c: ConnId): State {
    if c in s.conns && ConnOf(s, c).stage == Handshaking && !ConnOf(s, c).disconnected then
      WithConn(s, c, ConnOf(s, c).(stage := Ready, handshakeComplete := true))
    else s
  }

  function FailProtocol(s: State, c: ConnId): State {
    if c in s.conns && !ConnOf(s, c).disconnected && ConnOf(s, c).stage != Closing && ConnOf(s, c).stage != Closed then
      WithConn(s, c, ConnOf(s, c).(stage := Closing))
    else s
  }

  function TransportCloses(s: State, c: ConnId): State {
    if c in s.conns then WithConn(s, c, ConnOf(s, c).(transportClosed := true)) else s
  }

  /** What disconnecting `c` does to session `o`. */
  function WithoutConn(s: State, c: ConnId, o: RuntimeId): Session {
    var x := Of(s, o);
    if x.id in ConnOf(s, c).sessionIds && x.id in s.live && s.live[x.id] == o then
      MaybeDispose(s.closing, x.(connections := x.connections - {c}))
    else x
  }

  function Disconnect(s: State, c: ConnId): State {
    if c in s.conns && !ConnOf(s, c).disconnected then
      WithConn(s, c, ConnOf(s, c).(stage := Closed, disconnected := true, sessionIds := {}))
        .(sessions := map o | o in s.sessions :: WithoutConn(s, c, o))
    else s
  }

  // ----- Closing

  function BeginClosing(s: State): State {
    s.(closing := true)
  }

  /** closeServerState puts every remaining connection into stage closing. */
  function CloseConnections(s: State): State {
    if s.closing then
      s.(conns := map c | c in s.conns :: if ConnOf(s, c).disconnected then ConnOf(s, c) else ConnOf(s, c).(stage := Closing))
    else s
  }

  /** sessions.close: waits for the openings there are. */
  function CloseBegins(s: State, t: TaskId): State {
    if s.closing && t !in s.frames then WithFrame(s, t, ClosingSessions(s.opening.Values)) else s
  }

  function Swept(s: State, o: RuntimeId): Session {
    var x := Of(s, o);
    if x.id in s.live && s.live[x.id] == o && !x.disposing then
      x.(subscribed := false, disposeCalls := x.disposeCalls + 1)
    else x
  }

  /** The openings have settled: the map is emptied and every session that is not disposing yet is disposed. */
  function CloseSweeps(s: State, t: TaskId): State {
    if t in s.frames && s.frames[t].ClosingSessions?
       && forall o :: o in s.frames[t].waiting ==> !Of(s, o).Unsettled() then
      Ended(s.(live := map[], cleared := true, sessions := map o | o in s.sessions :: Swept(s, o)), t)
    else s
  }

  // ----- Runs

  /** Every step a run can take; a step that is not possible changes nothing. */
  datatype Step =
    | SAccept(c: ConnId) | SHello(c: ConnId) | SHandshakeDone(c: ConnId) | SFailProtocol(c: ConnId)
    | STransportCloses(c: ConnId) | SDisconnect(c: ConnId)
    | SStartAttach(t: TaskId, c: ConnId, id: SessionId) | SRetry(t: TaskId)
    | SRuntimeArrives(o: RuntimeId) | SRuntimeRefused(o: RuntimeId) | SProbeSucceeds(o: RuntimeId, idle: bool)
    | SProbeFails(o: RuntimeId) | SRejectionSettles(o: RuntimeId) | SOpeningResumes(t: TaskId) | SAttach(t: TaskId)
    | SStartDetach(t: TaskId, c: ConnId, id: SessionId) | SDetachResumes(t: TaskId, failed: bool)
    | SStartOperation(t: TaskId, c: ConnId, id: SessionId) | SOperationEnds(t: TaskId)
    | STurnsBusy(o: RuntimeId) | SEvent(o: RuntimeId, idle: bool) | SRuntimeError(t: TaskId, o: RuntimeId)
    | STerminateDisconnects(t: TaskId, c: ConnId) | STerminateEnds(t: TaskId)
    | SDisposeSettles(o: RuntimeId, failed: bool)
    | SBeginClosing | SCloseConnections | SCloseBegins(t: TaskId) | SCloseSweeps(t: TaskId)

  predicate IsOpeningStep(step: Step) {
    step.SStartAttach? || step.SRetry? || step.SRuntimeArrives? || step.SRuntimeRefused? || step.SProbeSucceeds?
    || step.SProbeFails? || step.SRejectionSettles? || step.SOpeningResumes?
  }

  predicate IsSessionStep(step: Step) {
    step.SAttach? || step.SStartDetach? || step.SDetachResumes? || step.SStartOperation? || step.SOperationEnds?
  }

  predicate IsRuntimeStep(step: Step) {
    step.STurnsBusy? || step.SEvent? || step.SRuntimeError? || step.STerminateDisconnects? || step.STerminateEnds?
    || step.SDisposeSettles?
  }

  function Next(s: State, step: Step): State {
    match step
    case SAccept(c) => Accept(s, c)
    case SHello(c) => Hello(s, c)
    case SHandshakeDone(c) => HandshakeDone(s, c)
    case SFailProtocol(c) => FailProtocol(s, c)
    case STransportCloses(c) => TransportCloses(s, c)
    case SDisconnect(c) => Disconnect(s, c)
    case SStartAttach(t, c, id) => StartAttach(s, t, c, id)
    case SRetry(t) => Retry(s, t)
    case SRuntimeArrives(o) => RuntimeArrives(s, o)
    case SRuntimeRefused(o) => RuntimeRefused(s, o)
    case SProbeSucceeds(o, idle) => ProbeSucceeds(s, o, idle)
    case SProbeFails(o) => ProbeFails(s, o)
    case SRejectionSettles(o) => RejectionSettles(s, o)
    case SOpeningResumes(t) => OpeningResumes(s, t)
    case SAttach(t) => Attach(s, t)
    case SStartDetach(t, c, id) => StartDetach(s, t, c, id)
    case SDetachResumes(t, failed) => DetachResumes(s, t, failed)
    case SStartOperation(t, c, id) => StartOperation(s, t, c, id)
    case SOperationEnds(t) => OperationEnds(s, t)
    case STurnsBusy(o) => TurnsBusy(s, o)
    case SEvent(o, idle) => Event(s, o, idle)
    case SRuntimeError(t, o) => RuntimeError(s, t, o)
    case STerminateDisconnects(t, c) => TerminateDisconnects(s, t, c)
    case STerminateEnds(t) => TerminateEnds(s, t)
    case SDisposeSettles(o, failed) => DisposeSettles(s, o, failed)
    case SBeginClosing => BeginClosing(s)
    case SCloseConnections => CloseConnections(s)
    case SCloseBegins(t) => CloseBegins(s, t)
    case SCloseSweeps(t) => CloseSweeps(s, t)
  }

  function Run(s: State, steps: seq<Step>): State
    decreases |steps|
  {
    if steps == [] then s else Next(Run(s, steps[..|steps| - 1]), steps[|steps| - 1])
  }
}
