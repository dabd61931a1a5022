/** Suspended calls, operation counts and connection sets over every run. */
module LiveSessionsTasks {
  import opened ServerConnections
  import opened LiveSessions

  /** What a suspended call relies on when it resumes. */
  predicate FrameOk(s: State, f: Frame) {
    match f
    case AwaitDisposing(_, id, o) => o in s.sessions && Of(s, o).stage == Opened && Of(s, o).disposing && Of(s, o).id == id
    case AwaitOpening(_, o, _) => o in s.sessions
    case Attaching(_, o) => o in s.sessions && Of(s, o).stage == Opened
    case Operating(o) => o in s.sessions && Of(s, o).stage == Opened
    case DetachBroadcast(o) => o in s.sessions && Of(s, o).stage == Opened
    case Terminating(o, _) => o in s.sessions && Of(s, o).stage == Opened && Of(s, o).terminal
    case ClosingSessions(_) => true
  }

  predicate OpensFor(s: State, t: TaskId, o: RuntimeId) {
    t in s.frames && s.frames[t].AwaitOpening? && s.frames[t].opening == o && s.frames[t].opener
  }

  predicate Operates(s: State, t: TaskId, o: RuntimeId) {
    t in s.frames && s.frames[t] == Operating(o)
  }

  /** The running runOperation calls on session `o`. */
  function Operations(s: State, o: RuntimeId): set<TaskId> {
    set t | t in s.frames && Operates(s, t, o)
  }

  predicate RecordOk(x: Session) {
    && (x.disposing ==> x.operationCount == 0)
    && (x.stage != Opened ==> x.connections == {} && x.operationCount == 0 && !x.terminal && !x.disposing)
  }

  ghost predicate Tasks(s: State) {
    && (forall t :: t in s.frames ==> FrameOk(s, s.frames[t]))
    && (forall o :: o in s.sessions ==> RecordOk(Of(s, o)))
    && (forall o :: o in s.sessions ==> Of(s, o).operationCount == |Operations(s, o)|)
    && (forall o :: o in s.sessions && Of(s, o).Unsettled() ==> exists t :: OpensFor(s, t, o))
  }

  /** Sessions only move on. */
  predicate Grows(s: State, r: State) {
    forall o :: o in s.sessions ==>
      && o in r.sessions && Of(r, o).id == Of(s, o).id
      && (Of(s, o).stage == Opened ==> Of(r, o).stage == Opened)
      && (Of(s, o).terminal ==> Of(r, o).terminal) && (Of(s, o).disposing ==> Of(r, o).disposing)
  }

  /** Only the call `t` has moved. */
  ghost predicate OnlyMoves(s: State, r: State, t: TaskId) {
    forall u :: u != t ==> (u in r.frames <==> u in s.frames) && (u in s.frames ==> r.frames[u] == s.frames[u])
  }

  function One(b: bool): nat {
    if b then 1 else 0
  }

  /** The other operations on `o`. */
  lemma OperationsWithout(s: State, t: TaskId, o: RuntimeId)
    ensures |Operations(s, o)| == |Operations(s, o) - {t}| + One(Operates(s, t, o))
  {
    if Operates(s, t, o) {
      assert Operations(s, o) == (Operations(s, o) - {t}) + {t};
    } else {
      assert Operations(s, o) == Operations(s, o) - {t};
    }
  }

  lemma OperationsAre(s: State, o: RuntimeId)
    ensures forall u: TaskId :: u in Operations(s, o) <==> Operates(s, u, o)
  {
  }

  lemma OperationsStep(s: State, r: State, t: TaskId, o: RuntimeId)
    requires OnlyMoves(s, r, t)
    ensures |Operations(r, o)| + One(Operates(s, t, o)) == |Operations(s, o)| + One(Operates(r, t, o))
  {
    forall u: TaskId | u != t ensures Operates(s, u, o) <==> Operates(r, u, o) {
    }
    OperationsAre(s, o);
    OperationsAre(r, o);
    hide Operations, Operates, OnlyMoves;
    OperationsWithout(s, t, o);
    OperationsWithout(r, t, o);
    assert Operations(s, o) - {t} == Operations(r, o) - {t};
  }

  /** A step that moves call `t` and lets sessions move on keeps the invariant if counts follow the call and no
      opening loses its opener. */
  lemma TasksKept(s: State, r: State, t: TaskId)
    requires Tasks(s) && OnlyMoves(s, r, t) && Grows(s, r)
    requires t in r.frames ==> FrameOk(r, r.frames[t])
    requires forall o :: o in r.sessions ==> RecordOk(Of(r, o))
    requires forall o :: o in r.sessions ==>
               Of(r, o).operationCount + One(Operates(s, t, o)) == Of(s, o).operationCount + One(Operates(r, t, o))
    requires forall o :: o in r.sessions && Of(r, o).Unsettled() ==>
               OpensFor(r, t, o) || (Of(s, o).Unsettled() && !OpensFor(s, t, o))
    ensures Tasks(r)
  {
    forall u | u in r.frames ensures FrameOk(r, r.frames[u]) {
      if u != t {
        assert FrameOk(s, s.frames[u]);
      }
    }
    forall o | o in r.sessions ensures Of(r, o).operationCount == |Operations(r, o)| {
      OperationsStep(s, r, t, o);
      if o !in s.sessions {
        assert Operations(s, o) == {} by { forall u | u in s.frames ensures !Operates(s, u, o) { assert FrameOk(s, s.frames[u]); } }
      }
    }
    forall o | o in r.sessions && Of(r, o).Unsettled() ensures exists u :: OpensFor(r, u, o) {
      if !OpensFor(r, t, o) {
        var u :| OpensFor(s, u, o);
        assert OpensFor(r, u, o);
      }
    }
  }

  /** Only sessions and suspended calls matter. */
  lemma TasksElsewhere(s: State, r: State)
    requires Tasks(s) && r.sessions == s.sessions && r.frames == s.frames
    ensures Tasks(r)
  {
    forall u | u in r.frames ensures FrameOk(r, r.frames[u]) {
      assert FrameOk(s, s.frames[u]);
    }
    forall o | o in r.sessions ensures Operations(r, o) == Operations(s, o) {
      assert forall u :: Operates(r, u, o) <==> Operates(s, u, o);
    }
    forall o | o in r.sessions && Of(r, o).Unsettled() ensures exists u :: OpensFor(r, u, o) {
      var u :| OpensFor(s, u, o);
      assert OpensFor(r, u, o);
    }
  }

  predicate Counts(f: Frame) {
    f.Operating?
  }

  lemma TasksFrame(s: State, t: TaskId, f: Frame)
    requires Tasks(s) && FrameOk(s, f) && !Counts(f)
    requires t in s.frames ==> !Counts(s.frames[t]) && (s.frames[t].AwaitOpening? ==> !Of(s, s.frames[t].opening).Unsettled())
    ensures Tasks(WithFrame(s, t, f))
  {
    TasksKept(s, WithFrame(s, t, f), t);
  }

  lemma TasksEnded(s: State, t: TaskId)
    requires Tasks(s)
    requires t in s.frames ==> !Counts(s.frames[t]) && (s.frames[t].AwaitOpening? ==> !Of(s, s.frames[t].opening).Unsettled())
    ensures Tasks(Ended(s, t))
  {
    TasksKept(s, Ended(s, t), t);
  }

  /** A session moves on without its operation count changing. */
  predicate MovesOn(x: Session, y: Session) {
    && y.id == x.id && y.operationCount == x.operationCount && RecordOk(y)
    && (x.stage == Opened ==> y.stage == Opened) && (x.terminal ==> y.terminal) && (x.disposing ==> y.disposing)
    && (y.Unsettled() ==> x.Unsettled())
  }

  lemma TasksSession(s: State, o: RuntimeId, y: Session)
    requires Tasks(s) && o in s.sessions && MovesOn(Of(s, o), y)
    ensures Tasks(With(s, o, y))
  {
    var r := With(s, o, y);
    forall u | u in r.frames ensures FrameOk(r, r.frames[u]) {
      assert FrameOk(s, s.frames[u]);
    }
    forall p | p in r.sessions ensures Operations(r, p) == Operations(s, p) {
      assert forall u :: Operates(r, u, p) <==> Operates(s, u, p);
    }
    forall p | p in r.sessions && Of(r, p).Unsettled() ensures exists u :: OpensFor(r, u, p) {
      var u :| OpensFor(s, u, p);
      assert OpensFor(r, u, p);
    }
  }

  lemma MaybeDisposeMovesOn(closing: bool, x: Session, y: Session)
    requires MovesOn(x, y)
    ensures MovesOn(x, MaybeDispose(closing, y))
  {
  }

  lemma TasksDisposed(s: State, o: RuntimeId, y: Session)
    requires Tasks(s) && o in s.sessions && MovesOn(Of(s, o), y)
    ensures Tasks(With(s, o, MaybeDispose(s.closing, y)))
  {
    hide Tasks;
    MaybeDisposeMovesOn(s.closing, Of(s, o), y);
    TasksSession(s, o, MaybeDispose(s.closing, y));
  }

  lemma TasksNewOpening(s: State, t: TaskId, c: ConnId, x: Session)
    requires Tasks(s) && s.next !in s.sessions && (t in s.frames ==> s.frames[t].AwaitDisposing?)
    requires x.stage == Acquiring && RecordOk(x) && x.operationCount == 0
    ensures Tasks(WithFrame(With(s, s.next, x), t, AwaitOpening(c, s.next, true)))
  {
    var r := WithFrame(With(s, s.next, x), t, AwaitOpening(c, s.next, true));
    assert OpensFor(r, t, s.next);
    TasksKept(s, r, t);
  }

  /** The two maps point at sessions with the right id. */
  predicate MapsOk(s: State) {
    && (forall id :: id in s.live ==> s.live[id] in s.sessions && Of(s, s.live[id]).stage == Opened && Of(s, s.live[id]).id == id)
    && (forall id :: id in s.opening ==> s.opening[id] in s.sessions)
    && s.next !in s.sessions
  }

  lemma TasksAcquireTurn(s: State, t: TaskId, c: ConnId, id: SessionId)
    requires Tasks(s) && MapsOk(s) && (t in s.frames ==> s.frames[t].AwaitDisposing?)
    ensures Tasks(AcquireTurn(s, t, c, id))
  {
    hide Tasks;
    if id in s.live {
      var o := s.live[id];
      if Of(s, o).terminal {
        TasksEnded(s, t);
      } else if Of(s, o).disposing {
        TasksFrame(s, t, AwaitDisposing(c, id, o));
      } else {
        TasksFrame(s, t, Attaching(c, o));
      }
    } else if id in s.opening {
      TasksFrame(s, t, AwaitOpening(c, s.opening[id], false));
    } else {
      var x := NewSession(id);
      TasksNewOpening(s, t, c, x);
      TasksElsewhere(WithFrame(With(s, s.next, x), t, AwaitOpening(c, s.next, true)), AcquireTurn(s, t, c, id));
    }
  }

  lemma TasksAttach(s: State, t: TaskId)
    requires Tasks(s)
    ensures Tasks(Attach(s, t))
  {
    if t in s.frames && s.frames[t].Attaching? {
      assert FrameOk(s, s.frames[t]);
      var (c, o) := (s.frames[t].conn, s.frames[t].target);
      if CanAttach(ConnOf(s, c)) {
        var y := Of(s, o).(connections := Of(s, o).connections + {c});
        TasksSession(s, o, y);
        TasksEnded(With(s, o, y), t);
        TasksElsewhere(Ended(With(s, o, y), t), Attach(s, t));
      } else {
        TasksDisposed(s, o, Of(s, o));
        TasksEnded(Disposed(s, o), t);
      }
    }
  }

  lemma TasksOpeningResumes(s: State, t: TaskId)
    requires Tasks(s)
    ensures Tasks(OpeningResumes(s, t))
  {
    hide OpensFor;
    if t in s.frames && s.frames[t].AwaitOpening? && !Of(s, s.frames[t].opening).Unsettled() {
      assert FrameOk(s, s.frames[t]);
      var f := s.frames[t];
      TasksEnded(s, t);
      if Of(s, f.opening).stage == Opened {
        TasksFrame(s, t, Attaching(f.conn, f.opening));
        TasksElsewhere(WithFrame(s, t, Attaching(f.conn, f.opening)), OpeningResumes(s, t));
      } else {
        TasksElsewhere(Ended(s, t), OpeningResumes(s, t));
      }
    }
  }

  lemma TasksLeaves(s: State, t: TaskId, c: ConnId, o: RuntimeId)
    requires Tasks(s) && o in s.sessions && Of(s, o).stage == Opened && t !in s.frames
    ensures Tasks(Leave(s, t, c, o))
  {
    assert RecordOk(Of(s, o));
    hide Tasks, MaybeDispose;
    var x := Of(s, o).(connections := Of(s, o).connections - {c});
    TasksSession(s, o, x);
    TasksDisposed(s, o, x);
    TasksFrame(With(s, o, x), t, DetachBroadcast(o));
  }

  lemma TasksStartDetach(s: State, t: TaskId, c: ConnId, id: SessionId)
    requires Tasks(s) && MapsOk(s)
    ensures Tasks(StartDetach(s, t, c, id))
  {
    hide Tasks, Leave;
    if MayStart(s, t, c) && id in ConnOf(s, c).sessionIds {
      var s1 := WithConn(s, c, ConnOf(s, c).(sessionIds := ConnOf(s, c).sessionIds - {id}));
      TasksElsewhere(s, s1);
      if id in s.live {
        TasksLeaves(s1, t, c, s.live[id]);
      }
    }
  }

  lemma TasksOperates(s: State, t: TaskId, o: RuntimeId)
    requires Tasks(s) && o in s.sessions && Of(s, o).stage == Opened && !Of(s, o).disposing && t !in s.frames
    ensures Tasks(Operate(s, t, o))
  {
    assert RecordOk(Of(s, o));
    TasksKept(s, Operate(s, t, o), t);
  }

  lemma TasksStartOperation(s: State, t: TaskId, c: ConnId, id: SessionId)
    requires Tasks(s) && MapsOk(s)
    ensures Tasks(StartOperation(s, t, c, id))
  {
    hide Tasks, Operate;
    if MayStart(s, t, c) && id in s.live && !Of(s, s.live[id]).disposing {
      TasksOperates(s, t, s.live[id]);
    }
  }

  lemma TasksOperationEnds(s: State, t: TaskId)
    requires Tasks(s)
    ensures Tasks(OperationEnds(s, t))
  {
    if OperationEnds(s, t) != s {
      assert FrameOk(s, s.frames[t]);
      TasksKept(s, OperationEnds(s, t), t);
    }
  }

  lemma TasksDetachResumes(s: State, t: TaskId, failed: bool)
    requires Tasks(s)
    ensures Tasks(DetachResumes(s, t, failed))
  {
    if t in s.frames && s.frames[t].DetachBroadcast? {
      assert FrameOk(s, s.frames[t]);
      TasksDisposed(s, s.frames[t].left, Of(s, s.frames[t].left));
      TasksEnded(if failed then s else Disposed(s, s.frames[t].left), t);
    }
  }

  lemma TasksTerminateEnds(s: State, t: TaskId)
    requires Tasks(s)
    ensures Tasks(TerminateEnds(s, t))
  {
    if t in s.frames && s.frames[t].Terminating? {
      assert FrameOk(s, s.frames[t]);
      TasksDisposed(s, s.frames[t].terminated, Of(s, s.frames[t].terminated));
      TasksEnded(Disposed(s, s.frames[t].terminated), t);
    }
  }

  lemma TasksManySessions(s: State, r: State)
    requires Tasks(s) && r.frames == s.frames && r.sessions.Keys == s.sessions.Keys
    requires forall o :: o in s.sessions ==> MovesOn(Of(s, o), Of(r, o))
    ensures Tasks(r)
  {
    forall u | u in r.frames ensures FrameOk(r, r.frames[u]) {
      assert FrameOk(s, s.frames[u]);
    }
    forall p | p in r.sessions ensures Operations(r, p) == Operations(s, p) {
      assert forall u :: Operates(r, u, p) <==> Operates(s, u, p);
    }
    forall p | p in r.sessions && Of(r, p).Unsettled() ensures exists u :: OpensFor(r, u, p) {
      var u :| OpensFor(s, u, p);
      assert OpensFor(r, u, p);
    }
  }

  lemma TasksDisconnect(s: State, c: ConnId)
    requires Tasks(s)
    ensures Tasks(Disconnect(s, c)) && Disconnect(s, c).frames == s.frames
  {
    if Disconnect(s, c) != s {
      forall o | o in s.sessions ensures MovesOn(Of(s, o), WithoutConn(s, c, o)) {
        assert RecordOk(Of(s, o));
        MaybeDisposeMovesOn(s.closing, Of(s, o), Of(s, o).(connections := Of(s, o).connections - {c}));
      }
      TasksManySessions(s, Disconnect(s, c));
    }
  }

  lemma TasksTerminateDisconnects(s: State, t: TaskId, c: ConnId)
    requires Tasks(s)
    ensures Tasks(TerminateDisconnects(s, t, c))
  {
    TasksDisconnect(s, c);
    if TerminateDisconnects(s, t, c) != s {
      var d := Disconnect(s, c);
      assert FrameOk(d, d.frames[t]);
      TasksFrame(d, t, Terminating(s.frames[t].terminated, s.frames[t].remaining - {c}));
    }
  }

  lemma TasksRuntimeArrives(s: State, o: RuntimeId)
    requires Tasks(s)
    ensures Tasks(RuntimeArrives(s, o)) && Tasks(RuntimeRefused(s, o))
  {
    if Of(s, o).stage == Acquiring {
      assert RecordOk(Of(s, o));
      TasksSession(s, o, Of(RuntimeArrives(s, o), o));
      TasksSession(s, o, Of(s, o).(stage := Failed));
    }
  }

  lemma TasksProbeSucceeds(s: State, o: RuntimeId, idle: bool)
    requires Tasks(s)
    ensures Tasks(ProbeSucceeds(s, o, idle))
  {
    if Of(s, o).stage == Probing {
      assert RecordOk(Of(s, o));
      var y := Of(s, o).(stage := Opened, subscribed := true, idle := idle);
      TasksSession(s, o, y);
      TasksElsewhere(With(s, o, y), ProbeSucceeds(s, o, idle));
    }
  }

  lemma TasksProbeFails(s: State, o: RuntimeId)
    requires Tasks(s)
    ensures Tasks(ProbeFails(s, o))
  {
    if Of(s, o).stage == Probing {
      assert RecordOk(Of(s, o));
      var y := Of(s, o).(stage := Rejecting, disposeCalls := Of(s, o).disposeCalls + 1);
      TasksSession(s, o, y);
      assert ProbeFails(s, o) == With(s, o, y);
    }
  }

  lemma TasksRejectionSettles(s: State, o: RuntimeId)
    requires Tasks(s)
    ensures Tasks(RejectionSettles(s, o))
  {
    if Of(s, o).stage == Rejecting {
      assert RecordOk(Of(s, o));
      TasksSession(s, o, Of(s, o).(stage := Failed, settled := true));
    }
  }

  lemma TasksDisposeSettles(s: State, o: RuntimeId, failed: bool)
    requires Tasks(s)
    ensures Tasks(DisposeSettles(s, o, failed))
  {
    if DisposeSettles(s, o, failed) != s {
      assert RecordOk(Of(s, o));
      var y := Of(s, o).(settled := true, disposeFailed := failed);
      TasksSession(s, o, y);
      TasksElsewhere(With(s, o, y), DisposeSettles(s, o, failed));
    }
  }

  lemma TasksTurnsBusy(s: State, o: RuntimeId)
    requires Tasks(s)
    ensures Tasks(TurnsBusy(s, o))
  {
    if o in s.sessions {
      assert RecordOk(Of(s, o));
      TasksSession(s, o, Of(s, o).(idle := false));
    }
  }

  lemma TasksEvent(s: State, o: RuntimeId, turnsIdle: bool)
    requires Tasks(s)
    ensures Tasks(Event(s, o, turnsIdle))
  {
    if o in s.sessions {
      assert RecordOk(Of(s, o));
      var y := Of(s, o).(idle := turnsIdle || Of(s, o).idle);
      MaybeDisposeMovesOn(s.closing, Of(s, o), y);
      TasksSession(s, o, Heard(s.closing, y));
    }
  }

  lemma TasksRuntimeError(s: State, t: TaskId, o: RuntimeId)
    requires Tasks(s) && (Of(s, o).subscribed ==> o in s.sessions && Of(s, o).stage == Opened)
    ensures Tasks(RuntimeError(s, t, o))
  {
    if RuntimeError(s, t, o) != s {
      var y := Of(s, o).(terminal := true, subscribed := false);
      assert RecordOk(Of(s, o));
      TasksSession(s, o, y);
      TasksFrame(With(s, o, y), t, Terminating(o, Of(s, o).connections));
    }
  }

  lemma TasksCloseSweeps(s: State, t: TaskId)
    requires Tasks(s)
    ensures Tasks(CloseSweeps(s, t))
  {
    if CloseSweeps(s, t) != s {
      TasksEnded(s, t);
      var e := Ended(s, t);
      forall o | o in e.sessions ensures MovesOn(Of(e, o), Swept(s, o)) {
        assert RecordOk(Of(e, o));
      }
      TasksManySessions(e, CloseSweeps(s, t));
    }
  }

  lemma TasksOnOpening(s: State, step: Step)
    requires Tasks(s) && MapsOk(s) && IsOpeningStep(step)
    ensures Tasks(Next(s, step))
  {
    hide Tasks;
    match step
    case SStartAttach(t, c, id) =>
      if MayStart(s, t, c) {
        TasksAcquireTurn(s, t, c, id);
      }
    case SRetry(t) =>
      if t in s.frames && s.frames[t].AwaitDisposing? {
        TasksEnded(s, t);
        TasksAcquireTurn(s, t, s.frames[t].conn, s.frames[t].id);
      }
    case SRuntimeArrives(o) => TasksRuntimeArrives(s, o);
    case SRuntimeRefused(o) => TasksRuntimeArrives(s, o);
    case SProbeSucceeds(o, idle) => TasksProbeSucceeds(s, o, idle);
    case SProbeFails(o) => TasksProbeFails(s, o);
    case SRejectionSettles(o) => TasksRejectionSettles(s, o);
    case SOpeningResumes(t) => TasksOpeningResumes(s, t);
  }

  ghost predicate SubscribedOpen(s: State) {
    forall o :: o in s.sessions && Of(s, o).subscribed ==> Of(s, o).stage == Opened
  }

  lemma TasksOnSession(s: State, step: Step)
    requires Tasks(s) && MapsOk(s) && IsSessionStep(step)
    ensures Tasks(Next(s, step))
  {
    hide Tasks;
    match step
    case SAttach(t) => TasksAttach(s, t);
    case SStartDetach(t, c, id) => TasksStartDetach(s, t, c, id);
    case SDetachResumes(t, failed) => TasksDetachResumes(s, t, failed);
    case SStartOperation(t, c, id) => TasksStartOperation(s, t, c, id);
    case SOperationEnds(t) => TasksOperationEnds(s, t);
  }

  lemma TasksOnRuntime(s: State, step: Step)
    requires Tasks(s) && SubscribedOpen(s) && IsRuntimeStep(step)
    ensures Tasks(Next(s, step))
  {
    hide Tasks;
    match step
    case STurnsBusy(o) => TasksTurnsBusy(s, o);
    case SEvent(o, idle) => TasksEvent(s, o, idle);
    case SRuntimeError(t, o) => TasksRuntimeError(s, t, o);
    case STerminateDisconnects(t, c) => TasksTerminateDisconnects(s, t, c);
    case STerminateEnds(t) => TasksTerminateEnds(s, t);
    case SDisposeSettles(o, failed) => TasksDisposeSettles(s, o, failed);
  }

  lemma TasksNext(s: State, step: Step)
    requires Tasks(s) && MapsOk(s) && SubscribedOpen(s)
    ensures Tasks(Next(s, step))
  {
    hide Tasks;
    if IsOpeningStep(step) {
      TasksOnOpening(s, step);
    } else if IsSessionStep(step) {
      TasksOnSession(s, step);
    } else if IsRuntimeStep(step) {
      TasksOnRuntime(s, step);
    } else {
      match step
      case SDisconnect(c) => TasksDisconnect(s, c);
      case SCloseBegins(t) =>
        if CloseBegins(s, t) != s {
          TasksFrame(s, t, ClosingSessions(s.opening.Values));
        }
      case SCloseSweeps(t) => TasksCloseSweeps(s, t);
      case _ => TasksElsewhere(s, Next(s, step));
    }
  }
}
