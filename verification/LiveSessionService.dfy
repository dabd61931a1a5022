/** The manager driven by any sequence of steps: its state is that of the state machine's run, so what holds of every run
    holds of it. */
module LiveSessionService {
  import opened ServerConnections
  import opened LiveSessions
  import opened LiveSessionManagement
  import opened LiveSessionsRuns

  lemma SessionIs(manager: LiveSessionManager, o: RuntimeId)
    ensures Of(manager.Abs(), o) == if o in manager.records then manager.records[o].View() else NO_SESSION
  {
  }

  lemma ConnectionIs(manager: LiveSessionManager, c: ConnId)
    ensures ConnOf(manager.Abs(), c) == if c in manager.connections then manager.connections[c].View() else NO_CONN
    ensures c in manager.Abs().conns <==> c in manager.connections
  {
  }

  /** The connections of a session are known. */
  lemma MembersKnown(manager: LiveSessionManager, o: RuntimeId)
    requires Invariant(manager.Abs()) && o in manager.records
    ensures manager.records[o].connections <= manager.connections.Keys
  {
    var s := manager.Abs();
    forall c | c in manager.records[o].connections ensures c in manager.connections {
      assert o in s.sessions && c in Of(s, o).connections;
    }
  }

  predicate IsConnectionStep(step: Step) {
    step.SAccept? || step.SHello? || step.SHandshakeDone? || step.SFailProtocol? || step.STransportCloses? || step.SDisconnect?
  }

  method TakeConnectionStep(manager: LiveSessionManager, step: Step)
    requires manager.Valid() && IsConnectionStep(step)
    modifies manager, manager.Objects()
    ensures manager.Valid() && fresh(manager.Objects() - old(manager.Objects()))
    ensures manager.Abs() == Next(old(manager.Abs()), step)
  {
    ConnectionIs(manager, step.c);
    match step
    case SAccept(c) =>
      if c !in manager.connections {
        manager.Accept(c);
      }
    case SHello(c) =>
      if c in manager.connections && manager.connections[c].stage == AwaitingHello {
        manager.Hello(c);
      }
    case SHandshakeDone(c) =>
      if c in manager.connections {
        manager.HandshakeDone(c);
      }
    case SFailProtocol(c) =>
      if c in manager.connections {
        manager.FailProtocol(c);
      }
    case STransportCloses(c) =>
      if c in manager.connections {
        manager.TransportCloses(c);
      }
    case SDisconnect(c) =>
      if c in manager.connections {
        manager.Disconnect(c);
      }
  }

  method TakeOpeningStep(manager: LiveSessionManager, step: Step)
    requires manager.Valid() && IsOpeningStep(step) && (step.SStartAttach? || step.SRetry? || step.SOpeningResumes?)
    modifies manager, manager.Objects()
    ensures manager.Valid() && fresh(manager.Objects() - old(manager.Objects()))
    ensures manager.Abs() == Next(old(manager.Abs()), step)
  {
    var t := step.t;
    match step
    case SStartAttach(_, c, id) =>
      ConnectionIs(manager, c);
      if t !in manager.calls && c in manager.connections && manager.connections[c].stage == Ready
         && !manager.connections[c].disconnected {
        manager.StartAttach(t, c, id);
      }
    case SRetry(_) =>
      if t in manager.calls && manager.calls[t].AwaitDisposing? {
        SessionIs(manager, manager.calls[t].awaited);
        assert manager.Known(manager.calls[t]);
        if manager.records[manager.calls[t].awaited].settled {
          manager.Retry(t);
        }
      }
    case SOpeningResumes(_) =>
      if t in manager.calls && manager.calls[t].AwaitOpening? {
        var o := manager.calls[t].opening;
        SessionIs(manager, o);
        assert manager.Known(manager.calls[t]);
        if manager.records[o].stage == Opened || manager.records[o].stage == Failed {
          manager.OpeningResumes(t);
        }
      }
  }

  method TakeRuntimeOpeningStep(manager: LiveSessionManager, step: Step)
    requires manager.Valid() && IsOpeningStep(step) && !(step.SStartAttach? || step.SRetry? || step.SOpeningResumes?)
    modifies manager, manager.Objects()
    ensures manager.Valid() && fresh(manager.Objects() - old(manager.Objects()))
    ensures manager.Abs() == Next(old(manager.Abs()), step)
  {
    var o := step.o;
    SessionIs(manager, o);
    if o in manager.records {
      match step
      case SRuntimeArrives(_) =>
        if manager.records[o].stage == Acquiring {
          manager.RuntimeArrives(o);
        }
      case SRuntimeRefused(_) =>
        if manager.records[o].stage == Acquiring {
          manager.RuntimeRefused(o);
        }
      case SProbeSucceeds(_, idle) =>
        if manager.records[o].stage == Probing {
          manager.ProbeSucceeds(o, idle);
        }
      case SProbeFails(_) =>
        if manager.records[o].stage == Probing {
          manager.ProbeFails(o);
        }
      case SRejectionSettles(_) =>
        if manager.records[o].stage == Rejecting {
          manager.RejectionSettles(o);
        }
    }
  }

  method TakeSessionStep(manager: LiveSessionManager, step: Step)
    requires manager.Valid() && IsSessionStep(step)
    modifies manager, manager.Objects()
    ensures manager.Valid() && fresh(manager.Objects() - old(manager.Objects()))
    ensures manager.Abs() == Next(old(manager.Abs()), step)
  {
    hide Attach, StartDetach, DetachResumes, StartOperation, OperationEnds;
    match step
    case SAttach(t) => TakeAttach(manager, t);
    case SStartDetach(t, c, id) => TakeDetach(manager, t, c, id);
    case SDetachResumes(t, failed) => TakeDetached(manager, t, failed);
    case SStartOperation(t, c, id) => TakeOperation(manager, t, c, id);
    case SOperationEnds(t) => TakeOperationEnd(manager, t);
  }

  method TakeAttach(manager: LiveSessionManager, t: TaskId)
    requires manager.Valid()
    modifies manager, manager.Objects()
    ensures manager.Valid() && fresh(manager.Objects() - old(manager.Objects()))
    ensures manager.Abs() == Attach(old(manager.Abs()), t)
  {
    if t in manager.calls && manager.calls[t].Attaching? {
      manager.Attach(t);
    }
  }

  method TakeDetach(manager: LiveSessionManager, t: TaskId, c: ConnId, id: SessionId)
    requires manager.Valid()
    modifies manager, manager.Objects()
    ensures manager.Valid() && fresh(manager.Objects() - old(manager.Objects()))
    ensures manager.Abs() == StartDetach(old(manager.Abs()), t, c, id)
  {
    ConnectionIs(manager, c);
    if t !in manager.calls && c in manager.connections && manager.connections[c].stage == Ready
       && !manager.connections[c].disconnected {
      manager.StartDetach(t, c, id);
    }
  }

  method TakeDetached(manager: LiveSessionManager, t: TaskId, failed: bool)
    requires manager.Valid()
    modifies manager, manager.Objects()
    ensures manager.Valid() && fresh(manager.Objects() - old(manager.Objects()))
    ensures manager.Abs() == DetachResumes(old(manager.Abs()), t, failed)
  {
    if t in manager.calls && manager.calls[t].DetachBroadcast? {
      manager.DetachResumes(t, failed);
    }
  }

  method TakeOperation(manager: LiveSessionManager, t: TaskId, c: ConnId, id: SessionId)
    requires manager.Valid()
    modifies manager, manager.Objects()
    ensures manager.Valid() && fresh(manager.Objects() - old(manager.Objects()))
    ensures manager.Abs() == StartOperation(old(manager.Abs()), t, c, id)
  {
    ConnectionIs(manager, c);
    if t !in manager.calls && c in manager.connections && manager.connections[c].stage == Ready
       && !manager.connections[c].disconnected {
      var _ := manager.StartOperation(t, c, id);
    }
  }

  method TakeOperationEnd(manager: LiveSessionManager, t: TaskId)
    requires manager.Valid()
    modifies manager, manager.Objects()
    ensures manager.Valid() && fresh(manager.Objects() - old(manager.Objects()))
    ensures manager.Abs() == OperationEnds(old(manager.Abs()), t)
  {
    if t in manager.calls && manager.calls[t].Operating? {
      SessionIs(manager, manager.calls[t].operated);
      assert manager.Known(manager.calls[t]);
      if manager.records[manager.calls[t].operated].operationCount > 0 {
        manager.OperationEnds(t);
      }
    }
  }

  method TakeRuntimeStep(manager: LiveSessionManager, step: Step)
    requires manager.Valid() && (step.STurnsBusy? || step.SEvent? || step.SDisposeSettles?)
    modifies manager, manager.Objects()
    ensures manager.Valid() && fresh(manager.Objects() - old(manager.Objects()))
    ensures manager.Abs() == Next(old(manager.Abs()), step)
  {
    var o := step.o;
    SessionIs(manager, o);
    if o in manager.records {
      match step
      case STurnsBusy(_) => manager.TurnsBusy(o);
      case SEvent(_, idle) => manager.Event(o, idle);
      case SDisposeSettles(_, failed) =>
        if manager.records[o].stage == Opened && manager.records[o].disposeCalls > 0 && !manager.records[o].settled {
          manager.DisposeSettles(o, failed);
        }
    }
  }

  method TakeErrorStep(manager: LiveSessionManager, t: TaskId, o: RuntimeId)
    requires manager.Valid() && Invariant(manager.Abs())
    modifies manager, manager.Objects()
    ensures manager.Valid() && fresh(manager.Objects() - old(manager.Objects()))
    ensures manager.Abs() == RuntimeError(old(manager.Abs()), t, o)
  {
    SessionIs(manager, o);
    if o in manager.records {
      MembersKnown(manager, o);
      hide Invariant;
      if t !in manager.calls && manager.records[o].subscribed {
        manager.RuntimeError(t, o);
      }
    }
  }

  method TakeTerminatingStep(manager: LiveSessionManager, step: Step)
    requires manager.Valid() && (step.STerminateDisconnects? || step.STerminateEnds?)
    modifies manager, manager.Objects()
    ensures manager.Valid() && fresh(manager.Objects() - old(manager.Objects()))
    ensures manager.Abs() == Next(old(manager.Abs()), step)
  {
    match step
    case STerminateDisconnects(t, c) => TakeDisconnection(manager, t, c);
    case STerminateEnds(t) =>
      if t in manager.calls && manager.calls[t].Terminating? && manager.calls[t].remaining == {} {
        manager.TerminateEnds(t);
      }
  }

  method TakeDisconnection(manager: LiveSessionManager, t: TaskId, c: ConnId)
    requires manager.Valid()
    modifies manager, manager.Objects()
    ensures manager.Valid() && fresh(manager.Objects() - old(manager.Objects()))
    ensures manager.Abs() == TerminateDisconnects(old(manager.Abs()), t, c)
  {
    if t in manager.calls && manager.calls[t].Terminating? && c in manager.calls[t].remaining {
      manager.TerminateDisconnects(t, c);
    }
  }

  /** sessions.close goes on once the openings it waits for have settled. */
  method AllSettled(manager: LiveSessionManager, waiting: set<RuntimeId>) returns (settled: bool)
    requires manager.Valid() && waiting <= manager.records.Keys
    ensures settled <==> forall o :: o in waiting ==> !Of(manager.Abs(), o).Unsettled()
  {
    var rest := waiting;
    while rest != {}
      invariant rest <= waiting && forall o :: o in waiting - rest ==> !Of(manager.Abs(), o).Unsettled()
    {
      var o :| o in rest;
      SessionIs(manager, o);
      if manager.records[o].stage != Opened && manager.records[o].stage != Failed {
        return false;
      }
      rest := rest - {o};
    }
    return true;
  }

  method TakeSweepStep(manager: LiveSessionManager, t: TaskId)
    requires manager.Valid()
    modifies manager, manager.Objects()
    ensures manager.Valid() && fresh(manager.Objects() - old(manager.Objects()))
    ensures manager.Abs() == CloseSweeps(old(manager.Abs()), t)
  {
    if t in manager.calls && manager.calls[t].ClosingSessions? {
      assert manager.Known(manager.calls[t]);
      var settled := AllSettled(manager, manager.calls[t].waiting);
      if settled {
        manager.CloseSweeps(t);
      }
    }
  }

  method TakeCloseConnections(manager: LiveSessionManager)
    requires manager.Valid()
    modifies manager, manager.Objects()
    ensures manager.Valid() && fresh(manager.Objects() - old(manager.Objects()))
    ensures manager.Abs() == CloseConnections(old(manager.Abs()))
  {
    if manager.closing {
      manager.CloseConnections();
    }
  }

  method TakeClosingStep(manager: LiveSessionManager, step: Step)
    requires manager.Valid() && (step.SBeginClosing? || step.SCloseConnections? || step.SCloseBegins?)
    modifies manager, manager.Objects()
    ensures manager.Valid() && fresh(manager.Objects() - old(manager.Objects()))
    ensures manager.Abs() == Next(old(manager.Abs()), step)
  {
    hide CloseConnections;
    match step
    case SBeginClosing => manager.BeginClosing();
    case SCloseConnections => TakeCloseConnections(manager);
    case SCloseBegins(t) =>
      if manager.closing && t !in manager.calls {
        manager.CloseBegins(t);
      }
  }

  /** One step; it does nothing where it is not possible. */
  method Take(manager: LiveSessionManager, step: Step)
    requires manager.Valid() && Invariant(manager.Abs())
    modifies manager, manager.Objects()
    ensures manager.Valid() && Invariant(manager.Abs()) && fresh(manager.Objects() - old(manager.Objects()))
    ensures manager.Abs() == Next(old(manager.Abs()), step)
  {
    hide Invariant, RuntimeError, CloseSweeps;
    InvariantNext(manager.Abs(), step);
    assert step.SRuntimeError? ==> Next(manager.Abs(), step) == RuntimeError(manager.Abs(), step.t, step.o);
    assert step.SCloseSweeps? ==> Next(manager.Abs(), step) == CloseSweeps(manager.Abs(), step.t);
    hide Next;
    if IsConnectionStep(step) {
      TakeConnectionStep(manager, step);
    } else if step.SStartAttach? || step.SRetry? || step.SOpeningResumes? {
      TakeOpeningStep(manager, step);
    } else if IsOpeningStep(step) {
      TakeRuntimeOpeningStep(manager, step);
    } else if IsSessionStep(step) {
      TakeSessionStep(manager, step);
    } else if step.STerminateDisconnects? || step.STerminateEnds? {
      TakeTerminatingStep(manager, step);
    } else if step.SRuntimeError? {
      TakeErrorStep(manager, step.t, step.o);
    } else if IsRuntimeStep(step) {
      TakeRuntimeStep(manager, step);
    } else if step.SCloseSweeps? {
      TakeSweepStep(manager, step.t);
    } else {
      TakeClosingStep(manager, step);
    }
  }

  /** A new manager, driven by any sequence of steps, is in the state of the run, and the run's invariant holds of it. */
  method Serve(steps: seq<Step>) returns (manager: LiveSessionManager)
    ensures fresh(manager) && fresh(manager.Objects()) && manager.Valid()
    ensures manager.Abs() == Run(INIT, steps) && Invariant(manager.Abs())
  {
    hide Next, Invariant;
    manager := new LiveSessionManager();
    InvariantRun([]);
    for i := 0 to |steps|
      invariant fresh(manager) && fresh(manager.Objects()) && manager.Valid()
      invariant manager.Abs() == Run(INIT, steps[..i]) && Invariant(manager.Abs())
    {
      Take(manager, steps[i]);
      assert steps[..i + 1][..i] == steps[..i];
    }
    assert steps[..|steps|] == steps;
  }

  /** Two runtimes that a served manager holds for one session id are one. */
  lemma ServedOneRuntimePerId(manager: LiveSessionManager, steps: seq<Step>, o: RuntimeId, p: RuntimeId)
    requires manager.Abs() == Run(INIT, steps) && o in manager.records && p in manager.records && !manager.cleared
    requires manager.records[o].id == manager.records[p].id
    requires manager.records[o].View().Held() && manager.records[p].View().Held()
    ensures o == p
  {
    SessionIs(manager, o);
    SessionIs(manager, p);
    OneRuntimePerId(steps, o, p);
  }
}
