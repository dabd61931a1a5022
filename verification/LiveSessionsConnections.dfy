/** Which connections a session knows, over every run. */
module LiveSessionsConnections {
  import opened ServerConnections
  import opened LiveSessions

  predicate ConnOk(c: Conn) {
    && (c.disconnected <==> c.stage == Closed)
    && (c.stage == Ready ==> c.handshakeComplete)
    && (c.disconnected ==> c.sessionIds == {})
  }

  /** Every session's connections have completed their hello; those of a session in the map also list its id and
      are not disconnected. */
  predicate Connections(s: State) {
    && (forall c :: c in s.conns ==> ConnOk(ConnOf(s, c)))
    && (forall o, c :: o in s.sessions && c in Of(s, o).connections ==> c in s.conns && ConnOf(s, c).handshakeComplete)
    && (forall id, c :: id in s.live && c in Of(s, s.live[id]).connections ==>
          id in ConnOf(s, c).sessionIds && !ConnOf(s, c).disconnected)
  }

  /** Connections keep what they have completed and list; sessions gain no connection. */
  lemma NothingGained(s: State, r: State)
    requires Connections(s)
    requires forall c :: c in r.conns ==> ConnOk(ConnOf(r, c))
    requires forall c :: c in s.conns ==>
               && c in r.conns && (ConnOf(s, c).handshakeComplete ==> ConnOf(r, c).handshakeComplete)
               && ConnOf(s, c).sessionIds <= ConnOf(r, c).sessionIds
               && (ConnOf(r, c).disconnected ==> ConnOf(s, c).disconnected)
    requires forall o :: o in r.sessions ==> Of(r, o).connections <= Of(s, o).connections
    requires forall id :: id in r.live ==> (id in s.live && s.live[id] == r.live[id]) || Of(r, r.live[id]).connections == {}
    ensures Connections(r)
  {
    forall o, c | o in r.sessions && c in Of(r, o).connections
      ensures c in r.conns && ConnOf(r, c).handshakeComplete
    {
      assert c in Of(s, o).connections && o in s.sessions;
    }
    forall id, c | id in r.live && c in Of(r, r.live[id]).connections
      ensures id in ConnOf(r, c).sessionIds && !ConnOf(r, c).disconnected
    {
      assert c in Of(s, s.live[id]).connections && s.live[id] in s.sessions;
    }
  }

  predicate LiveById(s: State) {
    forall id :: id in s.live ==> s.live[id] in s.sessions && Of(s, s.live[id]).id == id
  }

  lemma ConnJoins(s: State, c: ConnId, o: RuntimeId)
    requires Connections(s) && LiveById(s) && c in s.conns && CanAttach(ConnOf(s, c)) && o in s.sessions
    ensures Connections(With(WithConn(s, c, ConnOf(s, c).(sessionIds := ConnOf(s, c).sessionIds + {Of(s, o).id})),
                             o, Of(s, o).(connections := Of(s, o).connections + {c})))
  {
    var s1 := WithConn(s, c, ConnOf(s, c).(sessionIds := ConnOf(s, c).sessionIds + {Of(s, o).id}));
    ConnChange(s, c, ConnOf(s1, c));
    var r := With(s1, o, Of(s, o).(connections := Of(s, o).connections + {c}));
    forall p, d | p in r.sessions && d in Of(r, p).connections ensures d in r.conns && ConnOf(r, d).handshakeComplete {
      assert d == c || (p in s1.sessions && d in Of(s1, p).connections);
    }
    forall id, d | id in r.live && d in Of(r, r.live[id]).connections
      ensures id in ConnOf(r, d).sessionIds && !ConnOf(r, d).disconnected
    {
      assert (d == c && r.live[id] == o) || d in Of(s1, s1.live[id]).connections;
    }
  }

  lemma ConnectionsAttach(s: State, t: TaskId)
    requires Connections(s) && LiveById(s) && (t in s.frames && s.frames[t].Attaching? ==> s.frames[t].target in s.sessions)
    ensures Connections(Attach(s, t))
  {
    hide Connections, LiveById;
    if t in s.frames && s.frames[t].Attaching? {
      var (c, o) := (s.frames[t].conn, s.frames[t].target);
      if CanAttach(ConnOf(s, c)) {
        ConnJoins(s, c, o);
        var s1 := WithConn(s, c, ConnOf(s, c).(sessionIds := ConnOf(s, c).sessionIds + {Of(s, o).id}));
        var m := With(s1, o, Of(s, o).(connections := Of(s, o).connections + {c}));
        ConnElsewhere(m, Ended(m, t));
      } else {
        ConnectionsDisposed(s, o, Attach(s, t));
      }
    }
  }

  lemma ConnSession(s: State, o: RuntimeId, y: Session)
    requires Connections(s) && y.connections <= Of(s, o).connections
    ensures Connections(With(s, o, y))
  {
    NothingGained(s, With(s, o, y));
  }

  /** Only connections, sessions and the map of live sessions matter. */
  lemma ConnElsewhere(s: State, r: State)
    requires Connections(s) && r.sessions == s.sessions && r.conns == s.conns && r.live == s.live
    ensures Connections(r)
  {
    NothingGained(s, r);
  }

  lemma ConnChange(s: State, c: ConnId, k: Conn)
    requires Connections(s) && ConnOk(k) && (c in s.conns ==>
               && (ConnOf(s, c).handshakeComplete ==> k.handshakeComplete) && ConnOf(s, c).sessionIds <= k.sessionIds
               && (k.disconnected ==> ConnOf(s, c).disconnected))
    ensures Connections(WithConn(s, c, k))
  {
    NothingGained(s, WithConn(s, c, k));
  }

  /** Taking a session id off a connection that the live session of that id does not have. */
  lemma ConnForgets(s: State, c: ConnId, id: SessionId)
    requires Connections(s) && c in s.conns && (id in s.live ==> c !in Of(s, s.live[id]).connections)
    ensures Connections(WithConn(s, c, ConnOf(s, c).(sessionIds := ConnOf(s, c).sessionIds - {id})))
  {
  }

  /** What leaving changes. */
  lemma LeaveDoes(s: State, t: TaskId, c: ConnId, o: RuntimeId)
    ensures var r := Leave(s, t, c, o);
            && r.conns == s.conns && r.live == s.live && r.sessions == s.sessions[o := Of(r, o)]
            && Of(r, o).connections <= Of(s, o).connections - {c}
  {
  }

  lemma ConnLeaves(s: State, r: State, c: ConnId, o: RuntimeId)
    requires Connections(s) && LiveById(s) && c in s.conns && o in s.sessions && Of(s, o).id in s.live && s.live[Of(s, o).id] == o
    requires r.conns == s.conns[c := ConnOf(s, c).(sessionIds := ConnOf(s, c).sessionIds - {Of(s, o).id})] && r.live == s.live
    requires r.sessions == s.sessions[o := Of(r, o)] && Of(r, o).connections <= Of(s, o).connections - {c}
    ensures Connections(r)
  {
    forall p, d | p in r.sessions && d in Of(r, p).connections ensures d in r.conns && ConnOf(r, d).handshakeComplete {
      assert p in s.sessions && d in Of(s, p).connections;
    }
    forall i, d | i in r.live && d in Of(r, r.live[i]).connections
      ensures i in ConnOf(r, d).sessionIds && !ConnOf(r, d).disconnected
    {
      assert d in Of(s, s.live[i]).connections && (d == c ==> i != Of(s, o).id);
    }
  }

  lemma ConnectionsStartDetach(s: State, t: TaskId, c: ConnId, id: SessionId)
    requires Connections(s) && LiveById(s)
    ensures Connections(StartDetach(s, t, c, id))
  {
    if MayStart(s, t, c) && id in ConnOf(s, c).sessionIds {
      var s1 := WithConn(s, c, ConnOf(s, c).(sessionIds := ConnOf(s, c).sessionIds - {id}));
      hide Connections, Leave;
      if id in s.live {
        LeaveDoes(s1, t, c, s.live[id]);
        ConnLeaves(s, Leave(s1, t, c, s.live[id]), c, s.live[id]);
      } else {
        ConnForgets(s, c, id);
      }
    }
  }

  lemma ConnectionsDisconnect(s: State, c: ConnId)
    requires Connections(s) && LiveById(s)
    ensures Connections(Disconnect(s, c)) && LiveById(Disconnect(s, c))
  {
    var r := Disconnect(s, c);
    if r != s {
      forall p, d | p in r.sessions && d in Of(r, p).connections ensures d in r.conns && ConnOf(r, d).handshakeComplete {
        assert p in s.sessions && d in Of(s, p).connections;
      }
      forall i, d | i in r.live && d in Of(r, r.live[i]).connections
        ensures i in ConnOf(r, d).sessionIds && !ConnOf(r, d).disconnected
      {
        assert d in Of(s, s.live[i]).connections && d != c;
      }
    }
  }

  predicate OpenedOnly(s: State) {
    forall o :: o in s.sessions && Of(s, o).stage != Opened ==> Of(s, o).connections == {}
  }

  lemma ConnectionsNewOpening(s: State, id: SessionId)
    requires Connections(s)
    ensures Connections(NewOpening(s, id))
  {
    hide Connections;
    ConnSession(s, s.next, NewSession(id));
    ConnElsewhere(With(s, s.next, NewSession(id)), NewOpening(s, id));
  }

  lemma ConnectionsAcquireTurn(s: State, t: TaskId, c: ConnId, id: SessionId)
    requires Connections(s)
    ensures Connections(AcquireTurn(s, t, c, id))
  {
    hide Connections, NewOpening;
    ConnectionsNewOpening(s, id);
    ConnElsewhere(if id in s.live || id in s.opening then s else NewOpening(s, id), AcquireTurn(s, t, c, id));
  }

  lemma ConnectionsOnProbe(s: State, o: RuntimeId, idle: bool)
    requires Connections(s) && OpenedOnly(s)
    ensures Connections(ProbeSucceeds(s, o, idle)) && Connections(ProbeFails(s, o))
  {
    if Of(s, o).stage == Probing {
      var y := Of(s, o).(stage := Opened, subscribed := true, idle := idle);
      ConnSession(s, o, y);
      NothingGained(With(s, o, y), ProbeSucceeds(s, o, idle));
      ConnSession(s, o, Of(ProbeFails(s, o), o));
    }
  }

  lemma ConnectionsArrives(s: State, o: RuntimeId)
    requires Connections(s)
    ensures Connections(RuntimeArrives(s, o))
  {
    hide Connections;
    ConnectionsDisposed(s, o, RuntimeArrives(s, o));
  }

  lemma ConnectionsRefused(s: State, o: RuntimeId)
    requires Connections(s)
    ensures Connections(RuntimeRefused(s, o))
  {
    hide Connections;
    ConnectionsDisposed(s, o, RuntimeRefused(s, o));
  }

  lemma ConnectionsRejection(s: State, o: RuntimeId)
    requires Connections(s)
    ensures Connections(RejectionSettles(s, o))
  {
    hide Connections;
    ConnectionsDisposed(s, o, RejectionSettles(s, o));
  }

  lemma ConnectionsRetry(s: State, t: TaskId)
    requires Connections(s)
    ensures Connections(Retry(s, t))
  {
    ConnElsewhere(s, Ended(s, t));
    if t in s.frames && s.frames[t].AwaitDisposing? {
      ConnectionsAcquireTurn(s, t, s.frames[t].conn, s.frames[t].id);
    }
  }

  lemma ConnectionsTerminateDisconnects(s: State, t: TaskId, c: ConnId)
    requires Connections(s) && LiveById(s)
    ensures Connections(TerminateDisconnects(s, t, c))
  {
    ConnectionsDisconnect(s, c);
    if TerminateDisconnects(s, t, c) != s {
      ConnElsewhere(Disconnect(s, c), TerminateDisconnects(s, t, c));
    }
  }

  lemma ConnectionsOnOpening(s: State, step: Step)
    requires Connections(s) && OpenedOnly(s) && IsOpeningStep(step)
    ensures Connections(Next(s, step))
  {
    hide Connections;
    match step
    case SStartAttach(t, c, id) => ConnectionsAcquireTurn(s, t, c, id);
    case SRetry(t) => ConnectionsRetry(s, t);
    case SRuntimeArrives(o) => ConnectionsArrives(s, o);
    case SRuntimeRefused(o) => ConnectionsRefused(s, o);
    case SProbeSucceeds(o, idle) => ConnectionsOnProbe(s, o, idle);
    case SProbeFails(o) => ConnectionsOnProbe(s, o, false);
    case SRejectionSettles(o) => ConnectionsRejection(s, o);
    case SOpeningResumes(t) => ConnectionsOpeningResumes(s, t);
  }

  lemma ConnectionsOpeningResumes(s: State, t: TaskId)
    requires Connections(s)
    ensures Connections(OpeningResumes(s, t))
  {
    hide Connections;
    ConnElsewhere(s, OpeningResumes(s, t));
  }

  lemma ConnectionsDisposed(s: State, o: RuntimeId, r: State)
    requires Connections(s) && r.conns == s.conns && r.live == s.live
    requires r.sessions == s.sessions || (r.sessions == s.sessions[o := Of(r, o)] && Of(r, o).connections <= Of(s, o).connections)
    ensures Connections(r)
  {
    hide Connections;
    ConnSession(s, o, Of(r, o));
    ConnElsewhere(if r.sessions == s.sessions then s else With(s, o, Of(r, o)), r);
  }

  lemma ConnectionsDetachResumes(s: State, t: TaskId, failed: bool)
    requires Connections(s)
    ensures Connections(DetachResumes(s, t, failed))
  {
    hide Connections;
    ConnectionsDisposed(s, if t in s.frames && s.frames[t].DetachBroadcast? then s.frames[t].left else 0, DetachResumes(s, t, failed));
  }

  lemma ConnectionsStartOperation(s: State, t: TaskId, c: ConnId, id: SessionId)
    requires Connections(s)
    ensures Connections(StartOperation(s, t, c, id))
  {
    hide Connections;
    ConnectionsDisposed(s, if id in s.live then s.live[id] else 0, StartOperation(s, t, c, id));
  }

  lemma ConnectionsOperationEnds(s: State, t: TaskId)
    requires Connections(s)
    ensures Connections(OperationEnds(s, t))
  {
    hide Connections;
    ConnectionsDisposed(s, if t in s.frames && s.frames[t].Operating? then s.frames[t].operated else 0, OperationEnds(s, t));
  }

  /** A call about to attach refers to a session there is. */
  predicate TargetsKnown(s: State) {
    forall t: TaskId :: t in s.frames && s.frames[t].Attaching? ==> s.frames[t].target in s.sessions
  }

  lemma ConnectionsOnSession(s: State, step: Step)
    requires Connections(s) && LiveById(s) && TargetsKnown(s) && IsSessionStep(step)
    ensures Connections(Next(s, step))
  {
    hide Connections, LiveById, Attach, StartDetach, DetachResumes, StartOperation, OperationEnds;
    match step
    case SAttach(t) => ConnectionsAttach(s, t);
    case SStartDetach(t, c, id) => ConnectionsStartDetach(s, t, c, id);
    case SDetachResumes(t, failed) => ConnectionsDetachResumes(s, t, failed);
    case SStartOperation(t, c, id) => ConnectionsStartOperation(s, t, c, id);
    case SOperationEnds(t) => ConnectionsOperationEnds(s, t);
  }

  lemma SettlingKeepsConnections(s: State, o: RuntimeId, failed: bool)
    ensures var r := DisposeSettles(s, o, failed);
            && r.conns == s.conns && (forall id :: id in r.live ==> id in s.live && r.live[id] == s.live[id])
            && forall p :: p in r.sessions ==> Of(r, p).connections == Of(s, p).connections
  {
  }

  lemma ConnectionsDisposeSettles(s: State, o: RuntimeId, failed: bool)
    requires Connections(s)
    ensures Connections(DisposeSettles(s, o, failed))
  {
    var r := DisposeSettles(s, o, failed);
    SettlingKeepsConnections(s, o, failed);
    assert forall c :: c in s.conns ==> ConnOk(ConnOf(s, c));
    hide DisposeSettles, ConnOk, Connections;
    NothingGained(s, r);
  }

  lemma ConnectionsOnEvent(s: State, o: RuntimeId, turnsIdle: bool)
    requires Connections(s)
    ensures Connections(TurnsBusy(s, o)) && Connections(Event(s, o, turnsIdle))
  {
    hide Connections;
    ConnectionsDisposed(s, o, TurnsBusy(s, o));
    ConnectionsDisposed(s, o, Event(s, o, turnsIdle));
  }

  lemma ConnectionsRuntimeError(s: State, t: TaskId, o: RuntimeId)
    requires Connections(s)
    ensures Connections(RuntimeError(s, t, o))
  {
    hide Connections;
    ConnectionsDisposed(s, o, RuntimeError(s, t, o));
  }

  lemma ConnectionsTerminateEnds(s: State, t: TaskId)
    requires Connections(s)
    ensures Connections(TerminateEnds(s, t))
  {
    hide Connections;
    ConnectionsDisposed(s, if t in s.frames && s.frames[t].Terminating? then s.frames[t].terminated else 0, TerminateEnds(s, t));
  }

  lemma ConnectionsOnEvents(s: State, step: Step)
    requires Connections(s) && LiveById(s) && IsRuntimeStep(step)
    ensures Connections(Next(s, step))
  {
    hide Connections, LiveById;
    match step
    case STurnsBusy(o) => ConnectionsOnEvent(s, o, false);
    case SEvent(o, turnsIdle) => ConnectionsOnEvent(s, o, turnsIdle);
    case SRuntimeError(t, o) => ConnectionsRuntimeError(s, t, o);
    case STerminateDisconnects(t, c) => ConnectionsTerminateDisconnects(s, t, c);
    case STerminateEnds(t) => ConnectionsTerminateEnds(s, t);
    case SDisposeSettles(o, failed) => ConnectionsDisposeSettles(s, o, failed);
  }

  lemma ConnectionsCloseConnections(s: State)
    requires Connections(s)
    ensures Connections(CloseConnections(s))
  {
    NothingGained(s, CloseConnections(s));
  }

  lemma ConnectionsCloseSweeps(s: State, t: TaskId)
    requires Connections(s)
    ensures Connections(CloseSweeps(s, t))
  {
    NothingGained(s, CloseSweeps(s, t));
  }

  lemma ConnectionsNext(s: State, step: Step)
    requires Connections(s) && LiveById(s) && OpenedOnly(s) && TargetsKnown(s)
    ensures Connections(Next(s, step))
  {
    if IsOpeningStep(step) {
      ConnectionsOnOpening(s, step);
    } else if IsSessionStep(step) {
      ConnectionsOnSession(s, step);
    } else if IsRuntimeStep(step) {
      ConnectionsOnEvents(s, step);
    } else {
      match step
      case SAccept(c) => ConnectionsOnStage(s, step);
      case SHello(c) => ConnectionsOnStage(s, step);
      case SHandshakeDone(c) => ConnectionsOnStage(s, step);
      case SFailProtocol(c) => ConnectionsOnStage(s, step);
      case STransportCloses(c) => ConnectionsOnStage(s, step);
      case SDisconnect(c) => ConnectionsDisconnect(s, c);
      case SBeginClosing => ConnElsewhere(s, Next(s, step));
      case SCloseConnections => ConnectionsCloseConnections(s);
      case SCloseBegins(_) => ConnElsewhere(s, Next(s, step));
      case SCloseSweeps(t) => ConnectionsCloseSweeps(s, t);
    }
  }

  lemma ConnectionsOnStage(s: State, step: Step)
    requires Connections(s)
    requires step.SAccept? || step.SHello? || step.SHandshakeDone? || step.SFailProtocol? || step.STransportCloses?
    ensures Connections(Next(s, step))
  {
    if Next(s, step) != s {
      ConnChange(s, step.c, ConnOf(Next(s, step), step.c));
    }
  }
}
