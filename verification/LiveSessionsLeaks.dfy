/** No live session is left behind idle, over every run until the server closes. */
module LiveSessionsLeaks {
  import opened ServerConnections
  import opened LiveSessions

  /** Why a session may stay in the map. */
  predicate InUse(x: Session) {
    x.disposing || x.connections != {} || x.operationCount > 0 || (!x.terminal && !x.idle)
  }

  /** A suspended call that will attach to the session or consider its disposal. */
  predicate HeldBy(s: State, t: TaskId, o: RuntimeId) {
    t in s.frames &&
    match s.frames[t]
    case AwaitOpening(_, p, _) => p == o
    case Attaching(_, p) => p == o
    case Terminating(p, _) => p == o
    case _ => false
  }

  ghost predicate Retained(s: State, o: RuntimeId) {
    InUse(Of(s, o)) || exists t :: HeldBy(s, t, o)
  }

  /** While the server hears a session, is ending it, or has begun to dispose of it. */
  predicate Attended(x: Session) {
    x.stage == Opened ==> x.subscribed || x.terminal || x.disposing
  }

  ghost predicate NoLeak(s: State) {
    !s.closing ==>
      && (forall id :: id in s.live ==> Retained(s, s.live[id]))
      && (forall o :: o in s.sessions ==> Attended(Of(s, o)))
  }

  ghost predicate OthersStay(s: State, r: State, t: TaskId) {
    forall u :: u != t && u in s.frames ==> u in r.frames && r.frames[u] == s.frames[u]
  }

  /** A step that moves only call `t`: every live session is in use afterwards, or held by `t`, or was held before by
      another call or in use before and still is. */
  lemma LeakKept(s: State, r: State, t: TaskId)
    requires NoLeak(s) && (!r.closing ==> !s.closing) && OthersStay(s, r, t)
    requires !r.closing ==> forall id :: id in r.live ==>
               || InUse(Of(r, r.live[id])) || HeldBy(r, t, r.live[id])
               || (id in s.live && s.live[id] == r.live[id] && (InUse(Of(s, s.live[id])) ==> InUse(Of(r, r.live[id])))
                   && (HeldBy(s, t, s.live[id]) ==> HeldBy(r, t, r.live[id])))
    requires !r.closing ==> forall o :: o in r.sessions ==> Attended(Of(r, o))
    ensures NoLeak(r)
  {
    if !r.closing {
      forall id | id in r.live ensures Retained(r, r.live[id]) {
        var o := r.live[id];
        if !InUse(Of(r, o)) && !HeldBy(r, t, o) {
          assert Retained(s, o);
          var u :| HeldBy(s, u, o);
          assert HeldBy(r, u, o);
        }
      }
    }
  }

  lemma DisposedInUse(x: Session)
    requires x.stage == Opened
    ensures InUse(MaybeDispose(false, x)) && (Attended(x) ==> Attended(MaybeDispose(false, x)))
    ensures MaybeDispose(false, x).stage == Opened
  {
  }

  predicate LiveOpen(s: State) {
    forall id :: id in s.live ==> s.live[id] in s.sessions && Of(s, s.live[id]).stage == Opened && Of(s, s.live[id]).id == id
  }

  /** One session changes, keeping or gaining a reason to stay, and call `t` does not let go of another. */
  lemma LeakOne(s: State, r: State, t: TaskId, o: RuntimeId)
    requires NoLeak(s) && (!r.closing ==> !s.closing) && OthersStay(s, r, t)
    requires r.sessions == s.sessions || r.sessions == s.sessions[o := Of(r, o)]
    requires forall id :: id in r.live ==> id in s.live && s.live[id] == r.live[id]
    requires !r.closing && o in r.sessions && (o in s.sessions ==> Attended(Of(s, o))) ==> Attended(Of(r, o))
    requires !r.closing && (exists id :: id in r.live && r.live[id] == o) ==>
               InUse(Of(r, o)) || HeldBy(r, t, o) || ((InUse(Of(s, o)) ==> InUse(Of(r, o))) && (HeldBy(s, t, o) ==> HeldBy(r, t, o)))
    requires forall p :: p != o && HeldBy(s, t, p) ==> HeldBy(r, t, p)
    ensures NoLeak(r)
  {
    if !r.closing {
      forall p | p in r.sessions ensures Attended(Of(r, p)) {
        assert p == o || (p in s.sessions && Of(r, p) == Of(s, p));
      }
      forall id | id in r.live ensures Retained(r, r.live[id]) {
        var p := r.live[id];
        assert Retained(s, p);
        if !InUse(Of(r, p)) && !HeldBy(r, t, p) {
          assert !HeldBy(s, t, p);
          var u :| HeldBy(s, u, p);
          assert HeldBy(r, u, p);
        }
      }
    }
  }

  lemma LeakAcquireTurn(s: State, t: TaskId, c: ConnId, id: SessionId)
    requires NoLeak(s) && LiveOpen(s) && s.next !in s.sessions && (t in s.frames ==> s.frames[t].AwaitDisposing?)
    ensures NoLeak(AcquireTurn(s, t, c, id))
  {
    hide NoLeak;
    var r := AcquireTurn(s, t, c, id);
    if id in s.live || id in s.opening {
      assert r == s.(frames := r.frames);
      LeakElsewhere(s, r, t);
    } else {
      var x := NewSession(id);
      LeakOpening(s, s.next, x);
      assert r == With(s, s.next, x).(opening := r.opening, next := r.next, frames := r.frames);
      hide NewSession, AcquireTurn;
      LeakElsewhere(With(s, s.next, x), r, t);
    }
  }

  lemma LeakOpening(s: State, o: RuntimeId, y: Session)
    requires NoLeak(s) && LiveOpen(s) && Of(s, o).stage != Opened && y.stage != Opened
    ensures NoLeak(With(s, o, y))
  {
    hide NoLeak;
    LeakOne(s, With(s, o, y), 0, o);
  }

  lemma LeakProbeSucceeds(s: State, o: RuntimeId, idle: bool, opener: TaskId)
    requires NoLeak(s) && LiveOpen(s) && (Of(s, o).stage == Probing ==> HeldBy(s, opener, o))
    ensures NoLeak(ProbeSucceeds(s, o, idle))
  {
    if Of(s, o).stage == Probing {
      LeakKept(s, ProbeSucceeds(s, o, idle), opener);
    }
  }

  /** What call `t` holds at most. */
  predicate HoldsAtMost(s: State, t: TaskId, o: RuntimeId) {
    t in s.frames ==>
      match s.frames[t]
      case AwaitOpening(_, p, _) => p == o
      case Attaching(_, p) => p == o
      case Terminating(p, _) => p == o
      case _ => true
  }

  lemma HeldOnly(s: State, t: TaskId, o: RuntimeId)
    requires HoldsAtMost(s, t, o)
    ensures forall p: RuntimeId :: HeldBy(s, t, p) ==> p == o
  {
  }

  lemma LeakOpeningResumes(s: State, t: TaskId)
    requires NoLeak(s) && LiveOpen(s)
    ensures NoLeak(OpeningResumes(s, t))
  {
    if t in s.frames && s.frames[t].AwaitOpening? && !Of(s, s.frames[t].opening).Unsettled() {
      var r := OpeningResumes(s, t);
      var o := s.frames[t].opening;
      HeldOnly(s, t, o);
      assert Of(s, o).stage == Opened ==> HeldBy(r, t, o);
      assert r.sessions == s.sessions && r.live == s.live && r.closing == s.closing && OthersStay(s, r, t);
      hide OpeningResumes;
      LeakHandedOver(s, r, t, o);
    }
  }

  /** Call `t` lets go of `o`, unless it is open. */
  lemma LeakHandedOver(s: State, r: State, t: TaskId, o: RuntimeId)
    requires NoLeak(s) && LiveOpen(s) && OthersStay(s, r, t)
    requires r.sessions == s.sessions && r.live == s.live && r.closing == s.closing
    requires forall p: RuntimeId :: HeldBy(s, t, p) ==> p == o
    requires Of(s, o).stage == Opened ==> HeldBy(r, t, o)
    ensures NoLeak(r)
  {
    hide NoLeak, HeldBy, InUse, Attended, OthersStay;
    LeakOne(s, r, t, o);
  }

  lemma LeakAttach(s: State, t: TaskId)
    requires NoLeak(s) && LiveOpen(s)
    ensures NoLeak(Attach(s, t))
  {
    if t in s.frames && s.frames[t].Attaching? {
      var (c, o) := (s.frames[t].conn, s.frames[t].target);
      HeldOnly(s, t, o);
      hide NoLeak, HeldBy;
      if CanAttach(ConnOf(s, c)) {
        assert c in Of(Attach(s, t), o).connections;
        LeakOne(s, Attach(s, t), t, o);
      } else {
        LeakDisposed(s, t, o);
      }
    }
  }

  lemma LeakLeave(s: State, t: TaskId, c: ConnId, o: RuntimeId)
    requires NoLeak(s) && LiveOpen(s) && t !in s.frames && o in s.sessions && Of(s, o).stage == Opened
    ensures NoLeak(Leave(s, t, c, o))
  {
    var x := Of(s, o).(connections := Of(s, o).connections - {c});
    assert forall p: RuntimeId :: !HeldBy(s, t, p);
    DisposedInUse(x);
    hide NoLeak, HeldBy, MaybeDispose;
    LeakOne(s, Leave(s, t, c, o), t, o);
  }

  lemma LeakStartDetach(s: State, t: TaskId, c: ConnId, id: SessionId)
    requires NoLeak(s) && LiveOpen(s)
    ensures NoLeak(StartDetach(s, t, c, id))
  {
    hide NoLeak, Leave;
    if MayStart(s, t, c) && id in ConnOf(s, c).sessionIds {
      var s1 := WithConn(s, c, ConnOf(s, c).(sessionIds := ConnOf(s, c).sessionIds - {id}));
      LeakElsewhere(s, s1, t);
      if id in s.live {
        LeakLeave(s1, t, c, s.live[id]);
      }
    }
  }

  lemma LeakDisposed(s: State, t: TaskId, o: RuntimeId)
    requires NoLeak(s) && LiveOpen(s) && (t in s.frames ==> forall p :: HeldBy(s, t, p) ==> p == o)
    ensures NoLeak(Ended(Disposed(s, o), t))
  {
    hide NoLeak;
    if Of(s, o).stage == Opened {
      DisposedInUse(Of(s, o));
    }
    LeakOne(s, Ended(Disposed(s, o), t), t, o);
  }

  lemma LeakDetachResumes(s: State, t: TaskId, failed: bool)
    requires NoLeak(s) && LiveOpen(s)
    ensures NoLeak(DetachResumes(s, t, failed))
  {
    if t in s.frames && s.frames[t].DetachBroadcast? {
      LeakDisposed(s, t, s.frames[t].left);
      LeakOne(s, Ended(s, t), t, s.next);
    }
  }

  lemma LeakTerminateEnds(s: State, t: TaskId)
    requires NoLeak(s) && LiveOpen(s)
    ensures NoLeak(TerminateEnds(s, t))
  {
    if t in s.frames && s.frames[t].Terminating? {
      LeakDisposed(s, t, s.frames[t].terminated);
    }
  }

  lemma LeakStartOperation(s: State, t: TaskId, c: ConnId, id: SessionId)
    requires NoLeak(s) && LiveOpen(s)
    ensures NoLeak(StartOperation(s, t, c, id))
  {
    hide NoLeak;
    if StartOperation(s, t, c, id) != s {
      LeakOne(s, StartOperation(s, t, c, id), t, s.live[id]);
    }
  }

  lemma LeakOperationEnds(s: State, t: TaskId)
    requires NoLeak(s) && LiveOpen(s)
    ensures NoLeak(OperationEnds(s, t))
  {
    hide NoLeak;
    if OperationEnds(s, t) != s {
      var o := s.frames[t].operated;
      if Of(s, o).stage == Opened {
        DisposedInUse(Of(s, o).(operationCount := Of(s, o).operationCount - 1));
      }
      LeakOne(s, OperationEnds(s, t), t, o);
    }
  }

  /** Only one session changes, and keeps its reason to stay. */
  lemma LeakSession(s: State, o: RuntimeId, y: Session)
    requires NoLeak(s) && o in s.sessions
    requires !s.closing && Attended(Of(s, o)) ==> Attended(y)
    requires !s.closing && Attended(Of(s, o)) && (exists id :: id in s.live && s.live[id] == o) && InUse(Of(s, o)) ==> InUse(y)
    ensures NoLeak(With(s, o, y))
  {
    LeakOne(s, With(s, o, y), 0, o);
  }

  lemma LeakTurnsBusy(s: State, o: RuntimeId)
    requires NoLeak(s)
    ensures NoLeak(TurnsBusy(s, o))
  {
    hide NoLeak;
    LeakOne(s, TurnsBusy(s, o), 0, o);
  }

  /** The runtime turning idle is heard, unless the session is ending or already being disposed of. */
  lemma EventInUse(x: Session, turnsIdle: bool)
    requires x.stage == Opened && Attended(x)
    ensures var y := Heard(false, x.(idle := turnsIdle || x.idle)); Attended(y) && (InUse(x) ==> InUse(y))
  {
  }

  lemma LeakEvent(s: State, o: RuntimeId, turnsIdle: bool)
    requires NoLeak(s) && LiveOpen(s)
    ensures NoLeak(Event(s, o, turnsIdle))
  {
    assert o in s.sessions && !s.closing ==> Attended(Of(s, o));
    hide NoLeak, Heard;
    if o in s.sessions {
      if !s.closing && Of(s, o).stage == Opened && Attended(Of(s, o)) {
        EventInUse(Of(s, o), turnsIdle);
      }
      var y := Of(s, o).(idle := turnsIdle || Of(s, o).idle);
      HeardKeepsStage(s.closing, y);
      LeakSession(s, o, Heard(s.closing, y));
    }
  }

  lemma HeardKeepsStage(closing: bool, x: Session)
    ensures Heard(closing, x).stage == x.stage
  {
  }

  lemma LeakRuntimeError(s: State, t: TaskId, o: RuntimeId)
    requires NoLeak(s)
    ensures NoLeak(RuntimeError(s, t, o))
  {
    hide NoLeak;
    if RuntimeError(s, t, o) != s {
      LeakOne(s, RuntimeError(s, t, o), t, o);
    }
  }

  lemma LeakDisposeSettles(s: State, o: RuntimeId, failed: bool)
    requires NoLeak(s)
    ensures NoLeak(DisposeSettles(s, o, failed))
  {
    hide NoLeak;
    if DisposeSettles(s, o, failed) != s {
      LeakOne(s, DisposeSettles(s, o, failed), 0, o);
    }
  }

  lemma LeakDisconnect(s: State, c: ConnId)
    requires NoLeak(s) && LiveOpen(s)
    ensures NoLeak(Disconnect(s, c))
  {
    var r := Disconnect(s, c);
    if r != s && !r.closing {
      forall o | o in s.sessions && Of(s, o).stage == Opened
        ensures (InUse(Of(s, o)) ==> InUse(Of(r, o))) && (Attended(Of(s, o)) ==> Attended(Of(r, o)))
      {
        DisposedInUse(Of(s, o).(connections := Of(s, o).connections - {c}));
      }
      LeakKept(s, r, 0);
    }
  }

  lemma LeakTerminateDisconnects(s: State, t: TaskId, c: ConnId)
    requires NoLeak(s) && LiveOpen(s)
    ensures NoLeak(TerminateDisconnects(s, t, c))
  {
    hide NoLeak;
    LeakDisconnect(s, c);
    if TerminateDisconnects(s, t, c) != s {
      LeakOne(Disconnect(s, c), TerminateDisconnects(s, t, c), t, s.next);
    }
  }

  /** Connections and calls that hold no session do not matter. */
  lemma LeakElsewhere(s: State, r: State, t: TaskId)
    requires NoLeak(s) && r.sessions == s.sessions && r.live == s.live && (!r.closing ==> !s.closing)
    requires OthersStay(s, r, t) && (forall p :: HeldBy(s, t, p) ==> HeldBy(r, t, p))
    ensures NoLeak(r)
  {
    hide NoLeak;
    LeakOne(s, r, t, s.next);
  }

  lemma LeakOnOpening(s: State, step: Step, opener: TaskId)
    requires NoLeak(s) && LiveOpen(s) && s.next !in s.sessions && IsOpeningStep(step)
    requires step.SProbeSucceeds? && Of(s, step.o).stage == Probing ==> HeldBy(s, opener, step.o)
    ensures NoLeak(Next(s, step))
  {
    hide NoLeak;
    match step
    case SStartAttach(t, c, id) =>
      if MayStart(s, t, c) {
        LeakAcquireTurn(s, t, c, id);
      }
    case SRetry(t) => LeakRetry(s, t);
    case SRuntimeArrives(o) =>
      if Of(s, o).stage == Acquiring {
        LeakOpening(s, o, Of(RuntimeArrives(s, o), o));
      }
    case SRuntimeRefused(o) =>
      if Of(s, o).stage == Acquiring {
        LeakOpening(s, o, Of(RuntimeRefused(s, o), o));
      }
    case SProbeSucceeds(o, idle) => LeakProbeSucceeds(s, o, idle, opener);
    case SProbeFails(o) =>
      if Of(s, o).stage == Probing {
        LeakOpening(s, o, Of(ProbeFails(s, o), o));
      }
    case SRejectionSettles(o) =>
      if Of(s, o).stage == Rejecting {
        LeakOpening(s, o, Of(RejectionSettles(s, o), o));
      }
    case SOpeningResumes(t) => LeakOpeningResumes(s, t);
  }

  lemma LeakRetry(s: State, t: TaskId)
    requires NoLeak(s) && LiveOpen(s) && s.next !in s.sessions
    ensures NoLeak(Retry(s, t))
  {
    if t in s.frames && s.frames[t].AwaitDisposing? {
      LeakAcquireTurn(s, t, s.frames[t].conn, s.frames[t].id);
      LeakElsewhere(s, Ended(s, t), t);
    }
  }

  lemma LeakOnSession(s: State, step: Step)
    requires NoLeak(s) && LiveOpen(s) && IsSessionStep(step)
    ensures NoLeak(Next(s, step))
  {
    hide NoLeak, LiveOpen;
    match step
    case SAttach(t) => LeakAttach(s, t);
    case SStartDetach(t, c, id) => LeakStartDetach(s, t, c, id);
    case SDetachResumes(t, failed) => LeakDetachResumes(s, t, failed);
    case SStartOperation(t, c, id) => LeakStartOperation(s, t, c, id);
    case SOperationEnds(t) => LeakOperationEnds(s, t);
  }

  lemma LeakOnRuntime(s: State, step: Step)
    requires NoLeak(s) && LiveOpen(s) && IsRuntimeStep(step)
    ensures NoLeak(Next(s, step))
  {
    hide NoLeak, LiveOpen;
    match step
    case STurnsBusy(o) => LeakTurnsBusy(s, o);
    case SEvent(o, idle) => LeakEvent(s, o, idle);
    case SRuntimeError(t, o) => LeakRuntimeError(s, t, o);
    case STerminateDisconnects(t, c) => LeakTerminateDisconnects(s, t, c);
    case STerminateEnds(t) => LeakTerminateEnds(s, t);
    case SDisposeSettles(o, failed) => LeakDisposeSettles(s, o, failed);
  }

  lemma LeakNext(s: State, step: Step, opener: TaskId)
    requires NoLeak(s) && LiveOpen(s) && s.next !in s.sessions && (s.cleared ==> s.closing)
    requires forall t :: t in s.frames && s.frames[t].ClosingSessions? ==> s.closing
    requires step.SProbeSucceeds? && Of(s, step.o).stage == Probing ==> HeldBy(s, opener, step.o)
    ensures NoLeak(Next(s, step))
  {
    if IsOpeningStep(step) {
      LeakOnOpening(s, step, opener);
    } else if IsSessionStep(step) {
      LeakOnSession(s, step);
    } else if IsRuntimeStep(step) {
      LeakOnRuntime(s, step);
    } else if step.SDisconnect? {
      LeakDisconnect(s, step.c);
    } else if !Next(s, step).closing {
      LeakElsewhere(s, Next(s, step), 0);
    }
  }
}
