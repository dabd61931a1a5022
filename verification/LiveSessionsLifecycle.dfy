/** One runtime per session id, and one dispose per runtime, over every run. */
module LiveSessionsLifecycle {
  import opened ServerConnections
  import opened LiveSessions

  /** How far the runtime of session `o` has come, in terms of the two maps. */
  predicate SessionOk(s: State, o: RuntimeId) {
    var x := Of(s, o);
    && (x.Unsettled() ==> x.id in s.opening && s.opening[x.id] == o && x.id !in s.live)
    && (x.stage == Opened && !x.settled && !s.cleared ==> x.id in s.live && s.live[x.id] == o)
    && DisposalOk(s.cleared, x)
  }

  /** Dispose is called at most once, and not before there is a runtime. */
  predicate DisposalOk(cleared: bool, x: Session) {
    match x.stage
    case Acquiring => !x.acquired && x.disposeCalls == 0 && !x.settled && !x.disposing && !x.subscribed
    case Probing => x.acquired && x.disposeCalls == 0 && !x.settled && !x.disposing && !cleared && !x.subscribed
    case Rejecting => x.acquired && x.disposeCalls == 1 && !x.settled && !x.disposing && !x.subscribed
    case Opened =>
      && x.acquired && x.disposeCalls == (if x.disposing || cleared then 1 else 0) && (x.settled ==> x.disposeCalls == 1)
      && (x.subscribed ==> x.disposeCalls == 0)
    case Failed =>
      && x.disposeCalls == (if x.acquired then 1 else 0) && (x.settled <==> x.acquired) && !x.disposing && !x.subscribed
  }

  predicate SessionsOk(s: State) {
    forall o :: o in s.sessions ==> o < s.next && SessionOk(s, o)
  }

  /** Both maps point at sessions with the right id, the live one at opened sessions that are not disposed of. */
  predicate Mapped(s: State) {
    && (forall id :: id in s.live ==>
          s.live[id] in s.sessions && Of(s, s.live[id]).id == id && Of(s, s.live[id]).stage == Opened
          && !Of(s, s.live[id]).settled)
    && (forall id :: id in s.opening ==> s.opening[id] in s.sessions && Of(s, s.opening[id]).id == id)
  }

  predicate ClosingOk(s: State) {
    && (s.cleared ==> s.closing && s.live == map[])
    && (forall t :: t in s.frames && s.frames[t].ClosingSessions? ==> s.closing && WaitsForProbing(s, s.frames[t].waiting))
  }

  predicate Lifecycle(s: State) {
    SessionsOk(s) && Mapped(s) && ClosingOk(s)
  }

  /** Once closing, the openings that may still bring a session to life are being waited for. */
  predicate WaitsForProbing(s: State, waiting: set<RuntimeId>) {
    forall o :: o in s.sessions && Of(s, o).stage == Probing ==> o in waiting
  }

  /** No call of sessions.close starts waiting. */
  predicate NoNewClose(s: State, r: State) {
    forall t :: t in r.frames && r.frames[t].ClosingSessions? ==> t in s.frames && r.frames[t] == s.frames[t]
  }

  /** Steps that only move calls along or change connections. */
  lemma FramesOnly(s: State, r: State)
    requires Lifecycle(s) && NoNewClose(s, r)
    requires r.sessions == s.sessions && r.live == s.live && r.opening == s.opening
    requires r.closing == s.closing && r.cleared == s.cleared && r.next == s.next
    ensures Lifecycle(r)
  {
    forall o | o in r.sessions ensures o < r.next && SessionOk(r, o) {
      assert SessionOk(s, o);
    }
  }

  /** What a step may do to a session that stays in both maps as it was. */
  predicate Advances(s: State, x: Session, y: Session) {
    && y.id == x.id
    && (y.Unsettled() ==> x.Unsettled()) && (y.stage == Probing ==> x.stage == Probing || !s.closing)
    && (y.stage == Opened <==> x.stage == Opened) && (y.stage == Opened ==> y.settled == x.settled)
    && (DisposalOk(s.cleared, x) ==> DisposalOk(s.cleared, y))
  }

  /** What happens elsewhere leaves a session as it was. */
  lemma SessionElsewhere(s: State, r: State, p: RuntimeId)
    requires SessionOk(s, p) && Of(r, p) == Of(s, p) && r.cleared == s.cleared
    requires Of(s, p).id in s.opening && s.opening[Of(s, p).id] == p ==> Of(s, p).id in r.opening && r.opening[Of(s, p).id] == p
    requires Of(s, p).id in s.live && s.live[Of(s, p).id] == p ==> Of(s, p).id in r.live && r.live[Of(s, p).id] == p
    requires Of(s, p).Unsettled() && Of(s, p).id !in s.live ==> Of(s, p).id !in r.live
    ensures SessionOk(r, p)
  {
    hide DisposalOk;
  }

  lemma SessionAdvances(s: State, o: RuntimeId, y: Session)
    requires SessionOk(s, o) && o in s.sessions && Advances(s, Of(s, o), y)
    ensures SessionOk(With(s, o, y), o)
  {
    hide DisposalOk;
  }

  lemma OneAmongSessions(s: State, o: RuntimeId, y: Session)
    requires SessionsOk(s) && o in s.sessions && Advances(s, Of(s, o), y)
    ensures SessionsOk(With(s, o, y))
  {
    hide SessionOk, DisposalOk, Advances;
    var r := With(s, o, y);
    forall p | p in r.sessions ensures p < r.next && SessionOk(r, p) {
      assert SessionOk(s, p);
      if p == o {
        SessionAdvances(s, o, y);
      } else {
        SessionElsewhere(s, r, p);
      }
    }
  }

  lemma OneSession(s: State, o: RuntimeId, y: Session)
    requires Lifecycle(s) && o in s.sessions && Advances(s, Of(s, o), y)
    ensures Lifecycle(With(s, o, y))
  {
    hide SessionsOk, SessionOk, DisposalOk;
    OneAmongSessions(s, o, y);
  }

  lemma ManySessions(s: State, r: State)
    requires Lifecycle(s) && r == s.(sessions := r.sessions, conns := r.conns) && r.sessions.Keys == s.sessions.Keys
    requires forall o :: o in s.sessions ==> Advances(s, Of(s, o), Of(r, o))
    ensures Lifecycle(r)
  {
    forall p | p in r.sessions ensures p < r.next && SessionOk(r, p) {
      assert SessionOk(s, p);
    }
  }

  lemma NewOpeningSessions(s: State, id: SessionId)
    requires SessionsOk(s) && id !in s.live && id !in s.opening
    ensures SessionsOk(NewOpening(s, id))
  {
    var o := s.next;
    assert o !in s.sessions;
    var r := NewOpening(s, id);
    assert Of(r, o) == NewSession(id) && SessionOk(r, o);
    hide DisposalOk;
    forall p | p in s.sessions ensures Of(r, p) == Of(s, p) && SessionOk(r, p) {
      assert SessionOk(s, p);
      SessionElsewhere(s, r, p);
    }
  }

  lemma KeptByNewOpening(s: State, id: SessionId)
    requires Lifecycle(s) && id !in s.live && id !in s.opening
    ensures Lifecycle(NewOpening(s, id))
  {
    assert s.next !in s.sessions;
    hide SessionsOk, DisposalOk;
    NewOpeningSessions(s, id);
  }

  lemma KeptByFrame(s: State, t: TaskId, f: Frame)
    requires Lifecycle(s) && !f.ClosingSessions?
    ensures Lifecycle(WithFrame(s, t, f)) && Lifecycle(Ended(s, t))
  {
    hide Lifecycle;
    FramesOnly(s, WithFrame(s, t, f));
    FramesOnly(s, Ended(s, t));
  }

  lemma KeptByAcquireTurn(s: State, t: TaskId, c: ConnId, id: SessionId)
    requires Lifecycle(s)
    ensures Lifecycle(AcquireTurn(s, t, c, id))
  {
    hide Lifecycle, NewOpening, WithFrame, Ended;
    if id in s.live {
      KeptByFrame(s, t, AwaitDisposing(c, id, s.live[id]));
      KeptByFrame(s, t, Attaching(c, s.live[id]));
    } else if id in s.opening {
      KeptByFrame(s, t, AwaitOpening(c, s.opening[id], false));
    } else {
      KeptByNewOpening(s, id);
      KeptByFrame(NewOpening(s, id), t, AwaitOpening(c, s.next, true));
    }
  }

  lemma MaybeDisposeAdvances(s: State, x: Session, y: Session)
    requires Advances(s, x, y) && (s.cleared ==> s.closing)
    ensures Advances(s, x, MaybeDispose(s.closing, y))
  {
  }

  lemma KeptByDisconnect(s: State, c: ConnId)
    requires Lifecycle(s)
    ensures Lifecycle(Disconnect(s, c))
  {
    forall o | o in s.sessions
      ensures Advances(s, Of(s, o), WithoutConn(s, c, o))
    {
      MaybeDisposeAdvances(s, Of(s, o), Of(s, o).(connections := Of(s, o).connections - {c}));
    }
    if c in s.conns && !ConnOf(s, c).disconnected {
      ManySessions(s, Disconnect(s, c));
    }
  }

  lemma DisposalOnOpen(cleared: bool, x: Session, idle: bool)
    requires DisposalOk(cleared, x) && x.stage == Probing
    ensures DisposalOk(cleared, x.(stage := Opened, subscribed := true, idle := idle)) && !x.settled
  {
  }

  lemma ProbedSessions(s: State, o: RuntimeId, idle: bool)
    requires SessionsOk(s) && Of(s, o).stage == Probing
    ensures SessionsOk(ProbeSucceeds(s, o, idle)) && !Of(s, o).settled
  {
    hide DisposalOk;
    var r := ProbeSucceeds(s, o, idle);
    assert SessionOk(s, o);
    DisposalOnOpen(s.cleared, Of(s, o), idle);
    assert SessionOk(r, o);
    forall p | p in r.sessions ensures p < r.next && SessionOk(r, p) {
      assert SessionOk(s, p);
      if p != o {
        SessionElsewhere(s, r, p);
      }
    }
  }

  lemma ProbedMaps(s: State, o: RuntimeId, idle: bool)
    requires Mapped(s) && Of(s, o).stage == Probing && !Of(s, o).settled
    ensures Mapped(ProbeSucceeds(s, o, idle))
  {
  }

  lemma KeptByProbeSucceeds(s: State, o: RuntimeId, idle: bool)
    requires Lifecycle(s)
    ensures Lifecycle(ProbeSucceeds(s, o, idle))
  {
    if Of(s, o).stage == Probing {
      assert SessionOk(s, o);
      ProbedSessions(s, o, idle);
      ProbedMaps(s, o, idle);
      hide SessionsOk, SessionOk, Mapped;
    }
  }

  lemma KeptByOpeningRemoved(s: State, id: SessionId)
    requires Lifecycle(s) && (id in s.opening ==> !Of(s, s.opening[id]).Unsettled())
    ensures Lifecycle(s.(opening := s.opening - {id}))
  {
    var r := s.(opening := s.opening - {id});
    forall p | p in r.sessions ensures p < r.next && SessionOk(r, p) {
      assert SessionOk(s, p);
    }
  }

  lemma KeptByOpeningResumes(s: State, t: TaskId)
    requires Lifecycle(s)
    ensures Lifecycle(OpeningResumes(s, t))
  {
    hide Lifecycle, SessionOk;
    if t in s.frames && s.frames[t].AwaitOpening? && !Of(s, s.frames[t].opening).Unsettled() {
      var f := s.frames[t];
      var x := Of(s, f.opening);
      var s1 := if f.opener && x.id in s.opening && s.opening[x.id] == f.opening then s.(opening := s.opening - {x.id}) else s;
      if f.opener && x.id in s.opening && s.opening[x.id] == f.opening {
        KeptByOpeningRemoved(s, x.id);
      }
      FramesOnly(s1, if x.stage == Opened then WithFrame(s1, t, Attaching(f.conn, f.opening)) else Ended(s1, t));
    }
  }

  lemma DisposalOnSettle(cleared: bool, x: Session, failed: bool)
    requires DisposalOk(cleared, x) && x.stage == Opened && x.disposeCalls > 0
    ensures DisposalOk(cleared, x.(settled := true, disposeFailed := failed)) && (!cleared ==> x.disposing)
  {
  }

  lemma SettledSessions(s: State, o: RuntimeId, failed: bool)
    requires SessionsOk(s) && Of(s, o).stage == Opened && Of(s, o).disposeCalls > 0 && !Of(s, o).settled
    ensures SessionsOk(DisposeSettles(s, o, failed))
  {
    hide DisposalOk;
    var r := DisposeSettles(s, o, failed);
    assert SessionOk(s, o);
    DisposalOnSettle(s.cleared, Of(s, o), failed);
    forall p | p in r.sessions ensures p < r.next && SessionOk(r, p) {
      assert SessionOk(s, p);
      if p != o {
        SessionElsewhere(s, r, p);
      }
    }
  }

  lemma SettledMaps(s: State, o: RuntimeId, failed: bool)
    requires Lifecycle(s) && Of(s, o).stage == Opened && Of(s, o).disposeCalls > 0 && !Of(s, o).settled
    ensures Mapped(DisposeSettles(s, o, failed))
  {
    assert SessionOk(s, o);
    DisposalOnSettle(s.cleared, Of(s, o), failed);
    hide SessionsOk, DisposalOk, SessionOk;
  }

  lemma KeptByDisposeSettles(s: State, o: RuntimeId, failed: bool)
    requires Lifecycle(s)
    ensures Lifecycle(DisposeSettles(s, o, failed))
  {
    if Of(s, o).stage == Opened && Of(s, o).disposeCalls > 0 && !Of(s, o).settled {
      SettledSessions(s, o, failed);
      SettledMaps(s, o, failed);
      hide SessionsOk, Mapped;
    }
  }

  lemma KeptByCloseBegins(s: State, t: TaskId)
    requires Lifecycle(s)
    ensures Lifecycle(CloseBegins(s, t))
  {
    var r := CloseBegins(s, t);
    forall p | p in r.sessions ensures p < r.next && SessionOk(r, p) && (Of(s, p).stage == Probing ==> p in s.opening.Values) {
      assert SessionOk(s, p);
    }
  }

  lemma KeptByCloseSweeps(s: State, t: TaskId)
    requires Lifecycle(s)
    ensures Lifecycle(CloseSweeps(s, t))
  {
    var r := CloseSweeps(s, t);
    if r != s {
      forall p | p in r.sessions ensures p < r.next && SessionOk(r, p) && Of(r, p).stage != Probing {
        assert SessionOk(s, p);
      }
    }
  }

  lemma KeptByRuntimeArrives(s: State, o: RuntimeId)
    requires Lifecycle(s)
    ensures Lifecycle(RuntimeArrives(s, o))
  {
    if Of(s, o).stage == Acquiring {
      assert SessionOk(s, o);
      OneSession(s, o, Of(RuntimeArrives(s, o), o));
    }
  }

  lemma KeptByRuntimeRefused(s: State, o: RuntimeId)
    requires Lifecycle(s)
    ensures Lifecycle(RuntimeRefused(s, o))
  {
    if Of(s, o).stage == Acquiring {
      assert SessionOk(s, o);
      OneSession(s, o, Of(s, o).(stage := Failed));
    }
  }

  lemma KeptByProbeFails(s: State, o: RuntimeId)
    requires Lifecycle(s)
    ensures Lifecycle(ProbeFails(s, o))
  {
    if Of(s, o).stage == Probing {
      assert SessionOk(s, o);
      OneSession(s, o, Of(s, o).(stage := Rejecting, disposeCalls := Of(s, o).disposeCalls + 1));
    }
  }

  lemma KeptByRejectionSettles(s: State, o: RuntimeId)
    requires Lifecycle(s)
    ensures Lifecycle(RejectionSettles(s, o))
  {
    if Of(s, o).stage == Rejecting {
      assert SessionOk(s, o);
      OneSession(s, o, Of(s, o).(stage := Failed, settled := true));
    }
  }

  lemma KeptByTurnsBusy(s: State, o: RuntimeId)
    requires Lifecycle(s)
    ensures Lifecycle(TurnsBusy(s, o))
  {
    hide Lifecycle;
    if o in s.sessions {
      OneSession(s, o, Of(s, o).(idle := false));
    }
  }

  lemma KeptByEvent(s: State, o: RuntimeId, turnsIdle: bool)
    requires Lifecycle(s)
    ensures Lifecycle(Event(s, o, turnsIdle))
  {
    assert s.cleared ==> s.closing;
    hide Lifecycle;
    if o in s.sessions {
      var y := Of(s, o).(idle := turnsIdle || Of(s, o).idle);
      MaybeDisposeAdvances(s, Of(s, o), y);
      OneSession(s, o, Heard(s.closing, y));
    }
  }

  lemma KeptByRuntimeError(s: State, t: TaskId, o: RuntimeId)
    requires Lifecycle(s)
    ensures Lifecycle(RuntimeError(s, t, o))
  {
    if t !in s.frames && Of(s, o).subscribed && !Of(s, o).terminal {
      assert SessionOk(s, o);
      var y := Of(s, o).(terminal := true, subscribed := false);
      OneSession(s, o, y);
      FramesOnly(With(s, o, y), RuntimeError(s, t, o));
    }
  }

  /** A session dropped by one of its holders: changed by `y`, then considered for disposal. */
  lemma KeptByDisposed(s: State, o: RuntimeId, y: Session)
    requires Lifecycle(s) && o in s.sessions && Advances(s, Of(s, o), y)
    ensures Lifecycle(With(s, o, MaybeDispose(s.closing, y)))
  {
    MaybeDisposeAdvances(s, Of(s, o), y);
    OneSession(s, o, MaybeDispose(s.closing, y));
  }

  lemma KeptByAttach(s: State, t: TaskId)
    requires Lifecycle(s) && FramesKnown(s)
    ensures Lifecycle(Attach(s, t))
  {
    if t in s.frames && s.frames[t].Attaching? {
      var (c, o) := (s.frames[t].conn, s.frames[t].target);
      if CanAttach(ConnOf(s, c)) {
        var y := Of(s, o).(connections := Of(s, o).connections + {c});
        OneSession(s, o, y);
        FramesOnly(With(s, o, y), Attach(s, t));
      } else {
        KeptByDisposed(s, o, Of(s, o));
        FramesOnly(Disposed(s, o), Attach(s, t));
      }
    }
  }

  /** Suspended calls refer to sessions there are. */
  predicate FramesKnown(s: State) {
    forall t :: t in s.frames ==>
      match s.frames[t]
      case Attaching(_, o) => o in s.sessions
      case Operating(o) => o in s.sessions
      case DetachBroadcast(o) => o in s.sessions
      case Terminating(o, _) => o in s.sessions
      case _ => true
  }

  lemma KeptByStartDetach(s: State, t: TaskId, c: ConnId, id: SessionId)
    requires Lifecycle(s)
    ensures Lifecycle(StartDetach(s, t, c, id))
  {
    if id in s.live {
      var o := s.live[id];
      var y := Of(s, o).(connections := Of(s, o).connections - {c});
      var r := StartDetach(s, t, c, id);
      if r == s {
      } else if y.connections != {} && !y.terminal && !y.disposing {
        OneSession(s, o, y);
        FramesOnly(With(s, o, y), r);
      } else {
        KeptByDisposed(s, o, y);
        FramesOnly(With(s, o, MaybeDispose(s.closing, y)), r);
      }
    } else {
      FramesOnly(s, StartDetach(s, t, c, id));
    }
  }

  lemma KeptByStartOperation(s: State, t: TaskId, c: ConnId, id: SessionId)
    requires Lifecycle(s)
    ensures Lifecycle(StartOperation(s, t, c, id))
  {
    var r := StartOperation(s, t, c, id);
    if r != s {
      var o := s.live[id];
      var y := Of(s, o).(operationCount := Of(s, o).operationCount + 1);
      OneSession(s, o, y);
      FramesOnly(With(s, o, y), r);
    }
  }

  lemma KeptByDetachResumes(s: State, t: TaskId, failed: bool)
    requires Lifecycle(s) && FramesKnown(s)
    ensures Lifecycle(DetachResumes(s, t, failed))
  {
    if t in s.frames && s.frames[t].DetachBroadcast? {
      var o := s.frames[t].left;
      KeptByDisposed(s, o, Of(s, o));
      FramesOnly(if failed then s else Disposed(s, o), DetachResumes(s, t, failed));
    }
  }

  lemma KeptByOperationEnds(s: State, t: TaskId)
    requires Lifecycle(s) && FramesKnown(s)
    ensures Lifecycle(OperationEnds(s, t))
  {
    if OperationEnds(s, t) != s {
      var o := s.frames[t].operated;
      var y := Of(s, o).(operationCount := Of(s, o).operationCount - 1);
      KeptByDisposed(s, o, y);
      FramesOnly(With(s, o, MaybeDispose(s.closing, y)), OperationEnds(s, t));
    }
  }

  lemma KeptByTerminateEnds(s: State, t: TaskId)
    requires Lifecycle(s) && FramesKnown(s)
    ensures Lifecycle(TerminateEnds(s, t))
  {
    if TerminateEnds(s, t) != s {
      var o := s.frames[t].terminated;
      KeptByDisposed(s, o, Of(s, o));
      FramesOnly(Disposed(s, o), TerminateEnds(s, t));
    }
  }

  lemma KeptByTerminateDisconnects(s: State, t: TaskId, c: ConnId)
    requires Lifecycle(s)
    ensures Lifecycle(TerminateDisconnects(s, t, c))
  {
    hide Lifecycle;
    KeptByDisconnect(s, c);
    if TerminateDisconnects(s, t, c) != s {
      FramesOnly(Disconnect(s, c), TerminateDisconnects(s, t, c));
    }
  }

  lemma KeptByRetry(s: State, t: TaskId)
    requires Lifecycle(s)
    ensures Lifecycle(Retry(s, t))
  {
    hide Lifecycle;
    FramesOnly(s, Ended(s, t));
    if t in s.frames && s.frames[t].AwaitDisposing? {
      KeptByAcquireTurn(s, t, s.frames[t].conn, s.frames[t].id);
    }
  }

  lemma LifecycleOnOpening(s: State, step: Step)
    requires Lifecycle(s) && IsOpeningStep(step)
    ensures Lifecycle(Next(s, step))
  {
    hide Lifecycle;
    match step
    case SStartAttach(t, c, id) => KeptByAcquireTurn(s, t, c, id);
    case SRetry(t) => KeptByRetry(s, t);
    case SRuntimeArrives(o) => KeptByRuntimeArrives(s, o);
    case SRuntimeRefused(o) => KeptByRuntimeRefused(s, o);
    case SProbeSucceeds(o, idle) => KeptByProbeSucceeds(s, o, idle);
    case SProbeFails(o) => KeptByProbeFails(s, o);
    case SRejectionSettles(o) => KeptByRejectionSettles(s, o);
    case SOpeningResumes(t) => KeptByOpeningResumes(s, t);
  }

  lemma LifecycleOnSession(s: State, step: Step)
    requires Lifecycle(s) && FramesKnown(s) && IsSessionStep(step)
    ensures Lifecycle(Next(s, step))
  {
    hide Lifecycle, FramesKnown;
    match step
    case SAttach(t) => KeptByAttach(s, t);
    case SStartDetach(t, c, id) => KeptByStartDetach(s, t, c, id);
    case SDetachResumes(t, failed) => KeptByDetachResumes(s, t, failed);
    case SStartOperation(t, c, id) => KeptByStartOperation(s, t, c, id);
    case SOperationEnds(t) => KeptByOperationEnds(s, t);
  }

  lemma LifecycleOnRuntime(s: State, step: Step)
    requires Lifecycle(s) && FramesKnown(s) && IsRuntimeStep(step)
    ensures Lifecycle(Next(s, step))
  {
    hide Lifecycle, FramesKnown;
    match step
    case STurnsBusy(o) => KeptByTurnsBusy(s, o);
    case SEvent(o, idle) => KeptByEvent(s, o, idle);
    case SRuntimeError(t, o) => KeptByRuntimeError(s, t, o);
    case STerminateDisconnects(t, c) => KeptByTerminateDisconnects(s, t, c);
    case STerminateEnds(t) => KeptByTerminateEnds(s, t);
    case SDisposeSettles(o, failed) => KeptByDisposeSettles(s, o, failed);
  }

  lemma LifecycleKept(s: State, step: Step)
    requires Lifecycle(s) && FramesKnown(s)
    ensures Lifecycle(Next(s, step))
  {
    hide Lifecycle, FramesKnown;
    if IsOpeningStep(step) {
      LifecycleOnOpening(s, step);
    } else if IsSessionStep(step) {
      LifecycleOnSession(s, step);
    } else if IsRuntimeStep(step) {
      LifecycleOnRuntime(s, step);
    } else {
      match step
      case SDisconnect(c) => KeptByDisconnect(s, c);
      case SBeginClosing => KeptByBeginClosing(s);
      case SCloseBegins(t) => KeptByCloseBegins(s, t);
      case SCloseSweeps(t) => KeptByCloseSweeps(s, t);
      case _ => FramesOnly(s, Next(s, step));
    }
  }

  lemma KeptByBeginClosing(s: State)
    requires Lifecycle(s)
    ensures Lifecycle(BeginClosing(s))
  {
    var r := BeginClosing(s);
    forall p | p in r.sessions ensures p < r.next && SessionOk(r, p) {
      assert SessionOk(s, p);
    }
  }
}
