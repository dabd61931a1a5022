/** What a single step can do to the history of a runtime and to the stage of a connection. */
module LiveSessionsHistory {
  import opened ServerConnections
  import opened LiveSessions

  predicate Remembers(x: Session, y: Session) {
    && (x.acquired ==> y.acquired) && (x.settled ==> y.settled)
    && x.disposeCalls <= y.disposeCalls <= x.disposeCalls + 1
  }

  predicate Forward(k: Conn, l: Conn) {
    Order(k.stage) <= Order(l.stage) && (k.handshakeComplete ==> l.handshakeComplete)
  }

  /** Nothing about runtime `o` is forgotten, and connection `c` does not move backward. */
  predicate Keeps(s: State, r: State, o: RuntimeId, c: ConnId) {
    Remembers(Of(s, o), Of(r, o)) && (c in s.conns ==> c in r.conns && Forward(ConnOf(s, c), ConnOf(r, c)))
  }

  lemma SessionsChange(s: State, r: State, o: RuntimeId, c: ConnId)
    requires r.conns == s.conns && Remembers(Of(s, o), Of(r, o))
    ensures Keeps(s, r, o, c)
  {
  }

  lemma ConnsChange(s: State, r: State, o: RuntimeId, c: ConnId)
    requires r.sessions == s.sessions && (c in s.conns ==> c in r.conns && Forward(ConnOf(s, c), ConnOf(r, c)))
    ensures Keeps(s, r, o, c)
  {
  }

  lemma NewOpeningKeeps(s: State, id: SessionId, o: RuntimeId, c: ConnId)
    requires s.next !in s.sessions
    ensures Keeps(s, NewOpening(s, id), o, c)
  {
    hide Keeps;
    OneKeeps(s, s.next, NewSession(id), NewOpening(s, id), o, c);
  }

  lemma FramesKeep(s: State, m: State, r: State, o: RuntimeId, c: ConnId)
    requires Keeps(s, m, o, c) && r.sessions == m.sessions && r.conns == m.conns
    ensures Keeps(s, r, o, c)
  {
  }

  lemma AcquireTurnKeeps(s: State, t: TaskId, d: ConnId, id: SessionId, o: RuntimeId, c: ConnId)
    requires s.next !in s.sessions
    ensures Keeps(s, AcquireTurn(s, t, d, id), o, c)
  {
    hide Keeps, NewOpening;
    SameKeeps(s, o, c);
    NewOpeningKeeps(s, id, o, c);
    FramesKeep(s, if id in s.live || id in s.opening then s else NewOpening(s, id), AcquireTurn(s, t, d, id), o, c);
  }

  lemma OpeningResumesKeeps(s: State, t: TaskId, o: RuntimeId, c: ConnId)
    ensures Keeps(s, OpeningResumes(s, t), o, c)
  {
    hide Keeps;
    SessionsChange(s, OpeningResumes(s, t), o, c);
  }

  /** A step that changes one session only. */
  lemma OneKeeps(s: State, p: RuntimeId, y: Session, r: State, o: RuntimeId, c: ConnId)
    requires r.sessions == s.sessions[p := y] && r.conns == s.conns && Remembers(Of(s, p), y)
    ensures Keeps(s, r, o, c)
  {
    hide Keeps;
    SessionsChange(s, r, o, c);
  }

  lemma SameKeeps(s: State, o: RuntimeId, c: ConnId)
    ensures Keeps(s, s, o, c)
  {
  }

  lemma ProbeKeeps(s: State, p: RuntimeId, idle: bool, o: RuntimeId, c: ConnId)
    ensures Keeps(s, ProbeSucceeds(s, p, idle), o, c)
  {
    hide Keeps;
    if Of(s, p).stage == Probing {
      OneKeeps(s, p, Of(s, p).(stage := Opened, subscribed := true, idle := idle), ProbeSucceeds(s, p, idle), o, c);
    } else {
      SameKeeps(s, o, c);
    }
  }

  lemma ProbeFailsKeeps(s: State, p: RuntimeId, o: RuntimeId, c: ConnId)
    ensures Keeps(s, ProbeFails(s, p), o, c)
  {
    hide Keeps;
    if Of(s, p).stage == Probing {
      OneKeeps(s, p, Of(ProbeFails(s, p), p), ProbeFails(s, p), o, c);
    } else {
      SameKeeps(s, o, c);
    }
  }

  lemma RuntimeKeeps(s: State, p: RuntimeId, o: RuntimeId, c: ConnId)
    ensures Keeps(s, RuntimeArrives(s, p), o, c)
  {
    hide Keeps;
    if Of(s, p).stage == Acquiring {
      OneKeeps(s, p, Of(RuntimeArrives(s, p), p), RuntimeArrives(s, p), o, c);
    } else {
      SameKeeps(s, o, c);
    }
  }

  lemma RefusedKeeps(s: State, p: RuntimeId, o: RuntimeId, c: ConnId)
    ensures Keeps(s, RuntimeRefused(s, p), o, c)
  {
    hide Keeps;
    if Of(s, p).stage == Acquiring {
      OneKeeps(s, p, Of(s, p).(stage := Failed), RuntimeRefused(s, p), o, c);
    } else {
      SameKeeps(s, o, c);
    }
  }

  lemma RejectionKeeps(s: State, p: RuntimeId, o: RuntimeId, c: ConnId)
    ensures Keeps(s, RejectionSettles(s, p), o, c)
  {
    hide Keeps;
    if Of(s, p).stage == Rejecting {
      OneKeeps(s, p, Of(s, p).(stage := Failed, settled := true), RejectionSettles(s, p), o, c);
    } else {
      SameKeeps(s, o, c);
    }
  }

  lemma OpeningKeeps(s: State, step: Step, o: RuntimeId, c: ConnId)
    requires s.next !in s.sessions && IsOpeningStep(step)
    ensures Keeps(s, Next(s, step), o, c)
  {
    hide Keeps;
    match step
    case SStartAttach(t, d, id) =>
      AcquireTurnKeeps(s, t, d, id, o, c);
      SameKeeps(s, o, c);
    case SRetry(t) => RetryKeeps(s, t, o, c);
    case SRuntimeArrives(p) => RuntimeKeeps(s, p, o, c);
    case SRuntimeRefused(p) => RefusedKeeps(s, p, o, c);
    case SProbeSucceeds(p, idle) => ProbeKeeps(s, p, idle, o, c);
    case SProbeFails(p) => ProbeFailsKeeps(s, p, o, c);
    case SRejectionSettles(p) => RejectionKeeps(s, p, o, c);
    case SOpeningResumes(t) => OpeningResumesKeeps(s, t, o, c);
  }

  lemma RetryKeeps(s: State, t: TaskId, o: RuntimeId, c: ConnId)
    requires s.next !in s.sessions
    ensures Keeps(s, Retry(s, t), o, c)
  {
    hide AcquireTurn;
    if t in s.frames && s.frames[t].AwaitDisposing? {
      AcquireTurnKeeps(s, t, s.frames[t].conn, s.frames[t].id, o, c);
    }
  }

  /** A step that changes one session and one connection. */
  lemma BothKeep(s: State, r: State, p: RuntimeId, y: Session, d: ConnId, k: Conn, o: RuntimeId, c: ConnId)
    requires r.sessions == s.sessions[p := y] && Remembers(Of(s, p), y)
    requires r.conns == s.conns[d := k] && Forward(ConnOf(s, d), k)
    ensures Keeps(s, r, o, c)
  {
  }

  lemma DisposeRemembers(closing: bool, x: Session)
    ensures Remembers(x, MaybeDispose(closing, x))
  {
  }

  lemma AttachKeeps(s: State, t: TaskId, o: RuntimeId, c: ConnId)
    ensures Keeps(s, Attach(s, t), o, c)
  {
    hide Keeps, MaybeDispose;
    var r := Attach(s, t);
    if t in s.frames && s.frames[t].Attaching? {
      var (d, p) := (s.frames[t].conn, s.frames[t].target);
      if CanAttach(ConnOf(s, d)) {
        BothKeep(s, r, p, Of(s, p).(connections := Of(s, p).connections + {d}),
                 d, ConnOf(s, d).(sessionIds := ConnOf(s, d).sessionIds + {Of(s, p).id}), o, c);
      } else {
        DisposeRemembers(s.closing, Of(s, p));
        OneKeeps(s, p, MaybeDispose(s.closing, Of(s, p)), r, o, c);
      }
    } else {
      SameKeeps(s, o, c);
    }
  }

  lemma LeaveKeeps(s: State, t: TaskId, d: ConnId, p: RuntimeId, o: RuntimeId, c: ConnId)
    ensures Keeps(s, Leave(s, t, d, p), o, c)
  {
    hide Keeps, MaybeDispose;
    var x := Of(s, p).(connections := Of(s, p).connections - {d});
    DisposeRemembers(s.closing, x);
    if x.connections != {} && !x.terminal && !x.disposing {
      OneKeeps(s, p, x, Leave(s, t, d, p), o, c);
    } else {
      OneKeeps(s, p, MaybeDispose(s.closing, x), Leave(s, t, d, p), o, c);
    }
  }

  lemma KeepsTwice(s: State, m: State, r: State, o: RuntimeId, c: ConnId)
    requires m.sessions == s.sessions && Keeps(s, m, o, c) && Keeps(m, r, o, c)
    ensures Keeps(s, r, o, c)
  {
  }

  lemma StartDetachKeeps(s: State, t: TaskId, d: ConnId, id: SessionId, o: RuntimeId, c: ConnId)
    ensures Keeps(s, StartDetach(s, t, d, id), o, c)
  {
    SameKeeps(s, o, c);
    if MayStart(s, t, d) && id in ConnOf(s, d).sessionIds {
      var s1 := WithConn(s, d, ConnOf(s, d).(sessionIds := ConnOf(s, d).sessionIds - {id}));
      ConnsChange(s, s1, o, c);
      hide Keeps, Leave;
      if id in s.live {
        LeaveKeeps(s1, t, d, s.live[id], o, c);
        KeepsTwice(s, s1, Leave(s1, t, d, s.live[id]), o, c);
      }
    }
  }

  lemma OperationKeeps(s: State, t: TaskId, d: ConnId, id: SessionId, o: RuntimeId, c: ConnId)
    ensures Keeps(s, StartOperation(s, t, d, id), o, c)
  {
    hide Keeps;
    if StartOperation(s, t, d, id) != s {
      var p := s.live[id];
      OneKeeps(s, p, Of(s, p).(operationCount := Of(s, p).operationCount + 1), StartOperation(s, t, d, id), o, c);
    } else {
      SameKeeps(s, o, c);
    }
  }

  lemma OperationEndsKeeps(s: State, t: TaskId, o: RuntimeId, c: ConnId)
    ensures Keeps(s, OperationEnds(s, t), o, c)
  {
    var r := OperationEnds(s, t);
    if r != s {
      OneKeeps(s, s.frames[t].operated, Of(r, s.frames[t].operated), r, o, c);
    }
  }

  lemma DetachResumesKeeps(s: State, t: TaskId, failed: bool, o: RuntimeId, c: ConnId)
    ensures Keeps(s, DetachResumes(s, t, failed), o, c)
  {
    var r := DetachResumes(s, t, failed);
    if r != s && !failed {
      OneKeeps(s, s.frames[t].left, Of(r, s.frames[t].left), r, o, c);
    }
  }

  lemma SessionKeeps(s: State, step: Step, o: RuntimeId, c: ConnId)
    requires IsSessionStep(step)
    ensures Keeps(s, Next(s, step), o, c)
  {
    hide Keeps;
    match step
    case SAttach(t) => AttachKeeps(s, t, o, c);
    case SStartDetach(t, d, id) => StartDetachKeeps(s, t, d, id, o, c);
    case SDetachResumes(t, failed) => DetachResumesKeeps(s, t, failed, o, c);
    case SStartOperation(t, d, id) => OperationKeeps(s, t, d, id, o, c);
    case SOperationEnds(t) => OperationEndsKeeps(s, t, o, c);
  }

  lemma BusyKeeps(s: State, p: RuntimeId, o: RuntimeId, c: ConnId)
    ensures Keeps(s, TurnsBusy(s, p), o, c)
  {
    hide Keeps;
    if p in s.sessions {
      OneKeeps(s, p, Of(s, p).(idle := false), TurnsBusy(s, p), o, c);
    } else {
      SameKeeps(s, o, c);
    }
  }

  lemma HeardRemembers(closing: bool, x: Session, turnsIdle: bool)
    ensures Remembers(x, Heard(closing, x.(idle := turnsIdle || x.idle)))
  {
  }

  lemma EventKeeps(s: State, p: RuntimeId, turnsIdle: bool, o: RuntimeId, c: ConnId)
    ensures Keeps(s, Event(s, p, turnsIdle), o, c)
  {
    hide Keeps, Heard;
    HeardRemembers(s.closing, Of(s, p), turnsIdle);
    if p in s.sessions {
      OneKeeps(s, p, Heard(s.closing, Of(s, p).(idle := turnsIdle || Of(s, p).idle)), Event(s, p, turnsIdle), o, c);
    } else {
      SameKeeps(s, o, c);
    }
  }

  lemma ErrorKeeps(s: State, t: TaskId, p: RuntimeId, o: RuntimeId, c: ConnId)
    ensures Keeps(s, RuntimeError(s, t, p), o, c)
  {
    hide Keeps;
    SessionsChange(s, RuntimeError(s, t, p), o, c);
  }

  lemma DisconnectKeeps(s: State, d: ConnId, o: RuntimeId, c: ConnId)
    ensures Keeps(s, Disconnect(s, d), o, c)
  {
  }

  lemma TerminateKeeps(s: State, t: TaskId, d: ConnId, o: RuntimeId, c: ConnId)
    ensures Keeps(s, TerminateDisconnects(s, t, d), o, c)
  {
    DisconnectKeeps(s, d, o, c);
  }

  lemma TerminateEndsKeeps(s: State, t: TaskId, o: RuntimeId, c: ConnId)
    ensures Keeps(s, TerminateEnds(s, t), o, c)
  {
    var r := TerminateEnds(s, t);
    if r != s {
      OneKeeps(s, s.frames[t].terminated, Of(r, s.frames[t].terminated), r, o, c);
    }
  }

  lemma DisposeSettlesKeeps(s: State, p: RuntimeId, failed: bool, o: RuntimeId, c: ConnId)
    ensures Keeps(s, DisposeSettles(s, p, failed), o, c)
  {
    hide Keeps;
    SessionsChange(s, DisposeSettles(s, p, failed), o, c);
  }

  lemma EventsKeep(s: State, step: Step, o: RuntimeId, c: ConnId)
    requires IsRuntimeStep(step)
    ensures Keeps(s, Next(s, step), o, c)
  {
    hide Keeps;
    match step
    case STurnsBusy(p) => BusyKeeps(s, p, o, c);
    case SEvent(p, turnsIdle) => EventKeeps(s, p, turnsIdle, o, c);
    case SRuntimeError(t, p) => ErrorKeeps(s, t, p, o, c);
    case STerminateDisconnects(t, d) => TerminateKeeps(s, t, d, o, c);
    case STerminateEnds(t) => TerminateEndsKeeps(s, t, o, c);
    case SDisposeSettles(p, failed) => DisposeSettlesKeeps(s, p, failed, o, c);
  }

  lemma CloseKeeps(s: State, t: TaskId, o: RuntimeId, c: ConnId)
    requires ConnOf(s, c).stage == Closed ==> ConnOf(s, c).disconnected
    ensures Keeps(s, CloseConnections(s), o, c) && Keeps(s, CloseSweeps(s, t), o, c)
  {
  }

  lemma StageKeeps(s: State, step: Step, o: RuntimeId, c: ConnId)
    requires step.SAccept? || step.SHello? || step.SHandshakeDone? || step.SFailProtocol? || step.STransportCloses?
    ensures Keeps(s, Next(s, step), o, c)
  {
    hide Keeps;
    ConnsChange(s, Next(s, step), o, c);
  }

  lemma KeepsNext(s: State, step: Step, o: RuntimeId, c: ConnId)
    requires s.next !in s.sessions && (ConnOf(s, c).stage == Closed ==> ConnOf(s, c).disconnected)
    ensures Keeps(s, Next(s, step), o, c)
  {
    hide Keeps;
    if IsOpeningStep(step) {
      OpeningKeeps(s, step, o, c);
    } else if IsSessionStep(step) {
      SessionKeeps(s, step, o, c);
    } else if IsRuntimeStep(step) {
      EventsKeep(s, step, o, c);
    } else {
      match step
      case SDisconnect(d) => DisconnectKeeps(s, d, o, c);
      case SBeginClosing => SessionsChange(s, BeginClosing(s), o, c);
      case SCloseConnections => CloseKeeps(s, 0, o, c);
      case SCloseBegins(t) => SessionsChange(s, CloseBegins(s, t), o, c);
      case SCloseSweeps(t) => CloseKeeps(s, t, o, c);
      case _ => StageKeeps(s, step, o, c);
    }
  }
}
