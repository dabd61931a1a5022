/** The live sessions of pi/packages/server/src/sessions.ts as objects whose fields the calls update; every method
    is one stretch of code between two awaits, proved to be the step of LiveSessions it stands for. */
module LiveSessionManagement {
  import opened ServerConnections
  import Spec = LiveSessions
  import opened LiveSessions

  /** An opening, and the LiveSession it becomes. */
  class LiveSession {
    const number: RuntimeId
    const id: SessionId
    var stage: Stage
    var connections: set<ConnId>
    var operationCount: nat
    var terminal: bool
    var disposing: bool
    var subscribed: bool
    var idle: bool
    var acquired: bool
    var disposeCalls: nat
    var settled: bool
    var disposeFailed: bool

    ghost function View(): Session
      reads this
    {
      Session(id, stage, connections, operationCount, terminal, disposing, subscribed, idle, acquired, disposeCalls,
              settled, disposeFailed)
    }

    constructor (number: RuntimeId, id: SessionId)
      ensures this.number == number && this.id == id
      ensures View() == NewSession(id)
    {
      this.number, this.id := number, id;
      stage, connections, operationCount := Acquiring, {}, 0;
      terminal, disposing, subscribed, idle := false, false, false, false;
      acquired, disposeCalls, settled, disposeFailed := false, 0, false, false;
    }

    method MaybeDispose(closing: bool)
      modifies this
      ensures View() == Spec.MaybeDispose(closing, old(View()))
    {
      if closing || stage != Opened || disposing || connections != {} || operationCount > 0 || (!terminal && !idle) {
        return;
      }
      subscribed := false;
      disposing := true;
      disposeCalls := disposeCalls + 1;
    }

    method Remove(c: ConnId)
      modifies this
      ensures View() == old(View()).(connections := old(connections) - {c})
    {
      connections := connections - {c};
    }

    /** What sessions.close does to a session, up to its await. */
    method CloseDown()
      modifies this
      ensures View() == ClosedDown(old(View()))
    {
      if !disposing {
        subscribed := false;
        disposeCalls := disposeCalls + 1;
      }
    }
  }

  function ClosedDown(x: Session): Session {
    if x.disposing then x else x.(subscribed := false, disposeCalls := x.disposeCalls + 1)
  }

  class ConnectionState {
    const number: ConnId
    var stage: ConnStage
    var disconnected: bool
    var handshakeComplete: bool
    var transportClosed: bool
    var sessionIds: set<SessionId>

    ghost function View(): Conn
      reads this
    {
      Conn(stage, disconnected, handshakeComplete, transportClosed, sessionIds)
    }

    constructor (number: ConnId)
      ensures this.number == number && View() == Conn(AwaitingHello, false, false, false, {})
    {
      this.number := number;
      stage, disconnected, handshakeComplete, transportClosed, sessionIds := AwaitingHello, false, false, false, {};
    }
  }

  // ----- Steps taken apart

  lemma OperationStarts(s: State, t: TaskId, c: ConnId, id: SessionId)
    requires MayStart(s, t, c) && id in ConnOf(s, c).sessionIds && id in s.live
    requires !Of(s, s.live[id]).terminal && !Of(s, s.live[id]).disposing
    ensures var o := s.live[id];
            Spec.StartOperation(s, t, c, id) == Spec.Operate(s, t, o)
  {
  }

  lemma LeaveIs(s: State, t: TaskId, c: ConnId, o: RuntimeId)
    ensures var x := Of(s, o).(connections := Of(s, o).connections - {c});
            Spec.Leave(s, t, c, o) == if x.connections != {} && !x.terminal && !x.disposing
                                      then WithFrame(With(s, o, x), t, DetachBroadcast(o)) else Disposed(With(s, o, x), o)
  {
    var x := Of(s, o).(connections := Of(s, o).connections - {c});
    assert s.sessions[o := x][o := Spec.MaybeDispose(s.closing, x)] == s.sessions[o := Spec.MaybeDispose(s.closing, x)];
  }

  lemma OperationReturns(s: State, t: TaskId)
    requires t in s.frames && s.frames[t].Operating? && Of(s, s.frames[t].operated).operationCount > 0
    ensures var o := s.frames[t].operated;
            Spec.OperationEnds(s, t)
            == Ended(Disposed(With(s, o, Of(s, o).(operationCount := Of(s, o).operationCount - 1)), o), t)
  {
    var o := s.frames[t].operated;
    var x := Of(s, o).(operationCount := Of(s, o).operationCount - 1);
    assert s.sessions[o := x][o := Spec.MaybeDispose(s.closing, x)] == s.sessions[o := Spec.MaybeDispose(s.closing, x)];
  }

  lemma Disconnects(s: State, r: State, c: ConnId)
    requires c in s.conns && !ConnOf(s, c).disconnected
    requires r == WithConn(s, c, ConnOf(s, c).(stage := Closed, disconnected := true, sessionIds := {})).(sessions := r.sessions)
    requires r.sessions.Keys == s.sessions.Keys && forall o :: o in s.sessions ==> r.sessions[o] == WithoutConn(s, c, o)
    ensures r == Spec.Disconnect(s, c)
  {
    assert r.sessions == Spec.Disconnect(s, c).sessions;
  }

  lemma ClosesConnections(s: State, r: State)
    requires s.closing && r == s.(conns := r.conns) && r.conns.Keys == s.conns.Keys
    requires forall c :: c in s.conns ==>
               r.conns[c] == if s.conns[c].disconnected then s.conns[c] else s.conns[c].(stage := Closing)
    ensures r == Spec.CloseConnections(s)
  {
    assert r.conns == Spec.CloseConnections(s).conns;
  }

  lemma Sweeps(s: State, r: State, t: TaskId)
    requires t in s.frames && s.frames[t].ClosingSessions?
    requires forall o :: o in s.frames[t].waiting ==> !Of(s, o).Unsettled()
    requires r == Ended(s.(live := map[], cleared := true, sessions := r.sessions), t)
    requires r.sessions.Keys == s.sessions.Keys && forall o :: o in s.sessions ==> r.sessions[o] == Swept(s, o)
    ensures r == Spec.CloseSweeps(s, t)
  {
    assert r.sessions == Spec.CloseSweeps(s, t).sessions;
  }

  class LiveSessionManager {
    var closing: bool
    var cleared: bool
    var records: map<RuntimeId, LiveSession>
    var liveSessions: map<SessionId, LiveSession>
    var openingSessions: map<SessionId, LiveSession>
    var connections: map<ConnId, ConnectionState>
    var calls: map<TaskId, Frame>
    var next: nat

    /** The session and the connections a suspended call holds on to are known. */
    ghost predicate Known(f: Frame)
      reads this
    {
      match f
      case AwaitDisposing(c, _, o) => c in connections && o in records
      case AwaitOpening(c, o, _) => c in connections && o in records
      case Attaching(c, o) => c in connections && o in records
      case Operating(o) => o in records
      case DetachBroadcast(o) => o in records
      case Terminating(o, remaining) => o in records && remaining <= connections.Keys
      case ClosingSessions(waiting) => waiting <= records.Keys
    }

    ghost predicate Registered(id: SessionId, live: LiveSession)
      reads this
    {
      live.id == id && live.number in records && records[live.number] == live
    }

    ghost predicate Tracked(connection: ConnectionState)
      reads this
    {
      connection.number in connections && connections[connection.number] == connection
    }

    ghost predicate Valid()
      reads this
    {
      && (forall o :: o in records ==> o < next && records[o].number == o)
      && (forall id :: id in liveSessions ==> Registered(id, liveSessions[id]))
      && (forall id :: id in openingSessions ==> Registered(id, openingSessions[id]))
      && (forall c :: c in connections ==> connections[c].number == c)
      && (forall t :: t in calls ==> Known(calls[t]))
    }

    ghost function Objects(): set<object>
      reads this
    {
      records.Values + connections.Values
    }

    ghost function Sessions(): map<RuntimeId, Session>
      reads this, records.Values
    {
      map o | o in records :: records[o].View()
    }

    ghost function Conns(): map<ConnId, Conn>
      reads this, connections.Values
    {
      map c | c in connections :: connections[c].View()
    }

    ghost function Live(): map<SessionId, RuntimeId>
      reads this
    {
      map id | id in liveSessions :: liveSessions[id].number
    }

    ghost function Opening(): map<SessionId, RuntimeId>
      reads this
    {
      map id | id in openingSessions :: openingSessions[id].number
    }

    ghost function Abs(): State
      reads this, records.Values, connections.Values
    {
      State(closing, cleared, Sessions(), Live(), Opening(), Conns(), calls, next)
    }

    constructor ()
      ensures Valid() && Abs() == INIT && fresh(Objects())
    {
      closing, cleared, next := false, false, 0;
      records, liveSessions, openingSessions, connections, calls := map[], map[], map[], map[], map[];
    }

    // ----- What a step leaves as it is

    /** A step that leaves every record as it is. */
    twostate lemma RecordsStay()
      requires records == old(records) && connections == old(connections)
      requires forall o :: o in records ==> unchanged(records[o])
      requires forall c :: c in connections ==> unchanged(connections[c])
      ensures Sessions() == old(Sessions()) && Conns() == old(Conns())
    {
    }

    /** A step that changes the one record `o`. */
    twostate lemma OneRecord(o: RuntimeId)
      requires records == old(records) && connections == old(connections) && o in records
      requires forall p :: p in records && p != o ==> unchanged(records[p])
      requires forall c :: c in connections ==> unchanged(connections[c])
      ensures Sessions() == old(Sessions())[o := records[o].View()] && Conns() == old(Conns())
    {
    }

    /** A step that changes the one connection `c`. */
    twostate lemma OneConnection(c: ConnId)
      requires records == old(records) && connections == old(connections) && c in connections
      requires forall o :: o in records ==> unchanged(records[o])
      requires forall d :: d in connections && d != c ==> unchanged(connections[d])
      ensures Conns() == old(Conns())[c := connections[c].View()] && Sessions() == old(Sessions())
    {
    }

    lemma LiveOf(id: SessionId)
      requires Valid() && id in liveSessions
      ensures id in Live() && Live()[id] == liveSessions[id].number && Of(Abs(), Live()[id]) == liveSessions[id].View()
    {
    }

    lemma RecordOf(o: RuntimeId)
      requires o in records
      ensures Of(Abs(), o) == records[o].View()
    {
    }

    lemma ConnectionOf(c: ConnId)
      requires c in connections
      ensures ConnOf(Abs(), c) == connections[c].View()
    {
    }

    /** Only the call `t` moves. */
    method Move(t: TaskId, f: Frame)
      requires Valid() && Known(f)
      modifies this`calls
      ensures Valid() && Abs() == WithFrame(old(Abs()), t, f)
    {
      calls := calls[t := f];
      RecordsStay();
    }

    method Finish(t: TaskId)
      requires Valid()
      modifies this`calls
      ensures Valid() && Abs() == Ended(old(Abs()), t)
    {
      calls := calls - {t};
      RecordsStay();
    }

    /** maybeDispose on session `o`. */
    method Consider(o: RuntimeId)
      requires Valid() && o in records
      modifies records[o]
      ensures Valid() && Abs() == Disposed(old(Abs()), o)
    {
      RecordOf(o);
      records[o].MaybeDispose(closing);
      OneRecord(o);
    }

    method SetConnections(live: LiveSession, members: set<ConnId>)
      requires Valid() && Registered(live.id, live)
      modifies live`connections
      ensures Valid() && live.connections == members
      ensures Abs() == With(old(Abs()), live.number, Of(old(Abs()), live.number).(connections := members))
    {
      RecordOf(live.number);
      live.connections := members;
      OneRecord(live.number);
    }

    method SetSessionIds(connection: ConnectionState, ids: set<SessionId>)
      requires Valid() && Tracked(connection)
      modifies connection`sessionIds
      ensures Valid()
      ensures Abs() == WithConn(old(Abs()), connection.number, ConnOf(old(Abs()), connection.number).(sessionIds := ids))
    {
      ConnectionOf(connection.number);
      connection.sessionIds := ids;
      OneConnection(connection.number);
    }

    method SetOperationCount(live: LiveSession, count: nat)
      requires Valid() && Registered(live.id, live)
      modifies live`operationCount
      ensures Valid()
      ensures Abs() == With(old(Abs()), live.number, Of(old(Abs()), live.number).(operationCount := count))
    {
      RecordOf(live.number);
      live.operationCount := count;
      OneRecord(live.number);
    }

    // ----- acquire, create, attach

    /** One turn of acquire's loop. */
    method AcquireTurn(t: TaskId, c: ConnId, id: SessionId)
      requires Valid() && c in connections
      modifies this
      ensures Valid() && fresh(Objects() - old(Objects()))
      ensures Abs() == Spec.AcquireTurn(old(Abs()), t, c, id)
    {
      if id in liveSessions {
        var existing := liveSessions[id];
        LiveOf(id);
        if existing.terminal {
          Finish(t);
        } else if existing.disposing {
          Move(t, AwaitDisposing(c, id, existing.number));
        } else {
          Move(t, Attaching(c, existing.number));
        }
      } else if id in openingSessions {
        Move(t, AwaitOpening(c, openingSessions[id].number, false));
      } else {
        Open(id);
        Move(t, AwaitOpening(c, next - 1, true));
      }
    }

    /** create, up to its first await, entered among the openings. */
    method Open(id: SessionId)
      requires Valid() && id !in openingSessions
      modifies this
      ensures Valid() && fresh(Objects() - old(Objects())) && calls == old(calls) && next == old(next) + 1 && old(next) in records
      ensures connections == old(connections)
      ensures Abs() == NewOpening(old(Abs()), id)
    {
      var pending := new LiveSession(next, id);
      records := records[next := pending];
      openingSessions := openingSessions[id := pending];
      next := next + 1;
      NewRecord(pending);
      NewRecordKnown(pending);
    }

    /** A step that adds the opening `pending`. */
    twostate predicate Opens(new pending: LiveSession)
      reads this
    {
      && connections == old(connections) && liveSessions == old(liveSessions) && calls == old(calls)
      && closing == old(closing) && cleared == old(cleared)
      && pending.number == old(next) && next == old(next) + 1
      && records == old(records)[pending.number := pending]
      && openingSessions == old(openingSessions)[pending.id := pending]
    }

    twostate lemma NewRecord(new pending: LiveSession)
      requires Opens(pending) && pending.View() == NewSession(pending.id)
      requires forall o :: o in old(records) ==> unchanged(old(records)[o])
      requires forall c :: c in connections ==> unchanged(connections[c])
      ensures Abs() == NewOpening(old(Abs()), pending.id)
    {
      assert Sessions() == old(Sessions())[pending.number := pending.View()];
      assert Opening() == old(Opening())[pending.id := pending.number];
    }

    twostate lemma NewRecordKnown(new pending: LiveSession)
      requires old(Valid()) && Opens(pending)
      ensures Valid()
    {
    }

    method StartAttach(t: TaskId, c: ConnId, id: SessionId)
      requires Valid() && MayStart(Abs(), t, c)
      modifies this
      ensures Valid() && fresh(Objects() - old(Objects()))
      ensures Abs() == Spec.StartAttach(old(Abs()), t, c, id)
    {
      AcquireTurn(t, c, id);
    }

    /** The awaited dispose has settled. */
    method Retry(t: TaskId)
      requires Valid() && t in calls && calls[t].AwaitDisposing? && Of(Abs(), calls[t].awaited).settled
      modifies this
      ensures Valid() && fresh(Objects() - old(Objects()))
      ensures Abs() == Spec.Retry(old(Abs()), t)
    {
      assert Known(calls[t]);
      var o := calls[t].awaited;
      RecordOf(o);
      if records[o].disposeFailed {
        Finish(t);
      } else {
        AcquireTurn(t, calls[t].conn, calls[t].id);
      }
    }

    method RuntimeArrives(o: RuntimeId)
      requires Valid() && o in records && records[o].stage == Acquiring
      modifies records[o]
      ensures Valid() && Abs() == Spec.RuntimeArrives(old(Abs()), o)
    {
      RecordOf(o);
      var live := records[o];
      live.acquired := true;
      if closing {
        live.stage := Rejecting;
        live.disposeCalls := live.disposeCalls + 1;
      } else {
        live.stage := Probing;
      }
      OneRecord(o);
    }

    method RuntimeRefused(o: RuntimeId)
      requires Valid() && o in records && records[o].stage == Acquiring
      modifies records[o]
      ensures Valid() && Abs() == Spec.RuntimeRefused(old(Abs()), o)
    {
      RecordOf(o);
      records[o].stage := Failed;
      OneRecord(o);
    }

    method ProbeSucceeds(o: RuntimeId, phaseIdle: bool)
      requires Valid() && o in records && records[o].stage == Probing
      modifies this`liveSessions, records[o]
      ensures Valid() && Abs() == Spec.ProbeSucceeds(old(Abs()), o, phaseIdle)
    {
      RecordOf(o);
      Subscribe(o, phaseIdle);
      EnterLive(records[o]);
    }

    method Subscribe(o: RuntimeId, phaseIdle: bool)
      requires Valid() && o in records
      modifies records[o]
      ensures Valid() && Abs() == With(old(Abs()), o, Of(old(Abs()), o).(stage := Opened, subscribed := true, idle := phaseIdle))
    {
      RecordOf(o);
      var live := records[o];
      live.stage := Opened;
      live.subscribed := true;
      live.idle := phaseIdle;
      OneRecord(o);
    }

    method EnterLive(live: LiveSession)
      requires Valid() && Registered(live.id, live)
      modifies this`liveSessions
      ensures Valid() && Abs() == old(Abs()).(live := old(Abs()).live[live.id := live.number])
    {
      liveSessions := liveSessions[live.id := live];
      RecordsStay();
      assert Live() == old(Live())[live.id := live.number];
    }

    method ProbeFails(o: RuntimeId)
      requires Valid() && o in records && records[o].stage == Probing
      modifies records[o]
      ensures Valid() && Abs() == Spec.ProbeFails(old(Abs()), o)
    {
      RecordOf(o);
      records[o].stage := Rejecting;
      records[o].disposeCalls := records[o].disposeCalls + 1;
      OneRecord(o);
    }

    method RejectionSettles(o: RuntimeId)
      requires Valid() && o in records && records[o].stage == Rejecting
      modifies records[o]
      ensures Valid() && Abs() == Spec.RejectionSettles(old(Abs()), o)
    {
      RecordOf(o);
      records[o].stage := Failed;
      records[o].settled := true;
      OneRecord(o);
    }

    /** The opener's finally clause. */
    method RemoveOpening(pending: LiveSession)
      requires Valid() && pending.number in records && records[pending.number] == pending
      modifies this`openingSessions
      ensures Valid() && calls == old(calls) && var (s, o) := (old(Abs()), pending.number);
              Abs() == if pending.id in s.opening && s.opening[pending.id] == o then s.(opening := s.opening - {pending.id}) else s
    {
      if pending.id in openingSessions && openingSessions[pending.id] == pending {
        openingSessions := openingSessions - {pending.id};
        assert Opening() == old(Opening()) - {pending.id};
      }
      RecordsStay();
    }

    method OpeningResumes(t: TaskId)
      requires Valid() && t in calls && calls[t].AwaitOpening? && !Of(Abs(), calls[t].opening).Unsettled()
      modifies this
      ensures Valid() && Objects() == old(Objects())
      ensures Abs() == Spec.OpeningResumes(old(Abs()), t)
    {
      assert Known(calls[t]);
      var f := calls[t];
      var live := records[f.opening];
      RecordOf(f.opening);
      if f.opener {
        RemoveOpening(live);
      }
      GoOn(t, f.conn, live);
    }

    /** The caller of the opening `live` goes on to attach, unless the opening has failed. */
    method GoOn(t: TaskId, c: ConnId, live: LiveSession)
      requires Valid() && Registered(live.id, live) && c in connections
      modifies this`calls
      ensures Valid()
      ensures Abs() == if live.stage == Opened then WithFrame(old(Abs()), t, Attaching(c, live.number)) else Ended(old(Abs()), t)
    {
      if live.stage == Opened {
        Move(t, Attaching(c, live.number));
      } else {
        Finish(t);
      }
    }

    method Attach(t: TaskId)
      requires Valid() && t in calls && calls[t].Attaching?
      modifies this`calls, records.Values, connections.Values
      ensures Valid() && Abs() == Spec.Attach(old(Abs()), t)
    {
      assert Known(calls[t]);
      var (c, o) := (calls[t].conn, calls[t].target);
      var (connection, live) := (connections[c], records[o]);
      RecordOf(o);
      ConnectionOf(c);
      if connection.disconnected || connection.stage != Ready || connection.transportClosed {
        Consider(o);
        Finish(t);
      } else {
        SetSessionIds(connection, connection.sessionIds + {live.id});
        SetConnections(live, live.connections + {c});
        Finish(t);
      }
    }

    // ----- detach, operations

    method StartDetach(t: TaskId, c: ConnId, id: SessionId)
      requires Valid() && MayStart(Abs(), t, c) && c in connections
      modifies this`calls, records.Values, connections.Values
      ensures Valid() && Abs() == Spec.StartDetach(old(Abs()), t, c, id)
    {
      hide Spec.Leave;
      var connection := connections[c];
      ConnectionOf(c);
      if id in connection.sessionIds {
        SetSessionIds(connection, connection.sessionIds - {id});
        if id in liveSessions {
          LiveOf(id);
          Leave(t, c, liveSessions[id]);
        }
      }
    }

    /** The session loses connection `c`; a snapshot goes to those that are left. */
    method Leave(t: TaskId, c: ConnId, live: LiveSession)
      requires Valid() && Registered(live.id, live)
      modifies this`calls, live
      ensures Valid()
      ensures Abs() == Spec.Leave(old(Abs()), t, c, live.number)
    {
      LeaveIs(Abs(), t, c, live.number);
      hide Spec.MaybeDispose, Spec.Leave;
      RecordOf(live.number);
      SetConnections(live, live.connections - {c});
      if live.connections != {} && !live.terminal && !live.disposing {
        Move(t, DetachBroadcast(live.number));
      } else {
        Consider(live.number);
      }
    }

    method DetachResumes(t: TaskId, failed: bool)
      requires Valid() && t in calls && calls[t].DetachBroadcast?
      modifies this`calls, records.Values
      ensures Valid() && Abs() == Spec.DetachResumes(old(Abs()), t, failed)
    {
      assert Known(calls[t]);
      if !failed {
        Consider(calls[t].left);
      }
      Finish(t);
    }

    method StartOperation(t: TaskId, c: ConnId, id: SessionId) returns (started: bool)
      requires Valid() && MayStart(Abs(), t, c) && c in connections
      modifies this`calls, records.Values
      ensures Valid() && Abs() == Spec.StartOperation(old(Abs()), t, c, id)
      ensures started <==> t in calls
    {
      hide Spec.Operate;
      var connection := connections[c];
      ConnectionOf(c);
      started := false;
      if id in connection.sessionIds && id in liveSessions {
        var live := liveSessions[id];
        LiveOf(id);
        if !live.terminal && !live.disposing {
          OperationStarts(Abs(), t, c, id);
          Operate(t, live);
          started := true;
        }
      }
    }

    method Operate(t: TaskId, live: LiveSession)
      requires Valid() && Registered(live.id, live)
      modifies this`calls, live
      ensures Valid() && t in calls
      ensures Abs() == Spec.Operate(old(Abs()), t, live.number)
    {
      RecordOf(live.number);
      SetOperationCount(live, live.operationCount + 1);
      Move(t, Operating(live.number));
    }

    method OperationEnds(t: TaskId)
      requires Valid() && t in calls && calls[t].Operating? && Of(Abs(), calls[t].operated).operationCount > 0
      modifies this`calls, records.Values
      ensures Valid() && Abs() == Spec.OperationEnds(old(Abs()), t)
    {
      assert Known(calls[t]);
      var o := calls[t].operated;
      RecordOf(o);
      OperationReturns(Abs(), t);
      SetOperationCount(records[o], records[o].operationCount - 1);
      Consider(o);
      Finish(t);
    }

    // ----- Runtime events

    /** A snapshot or progress event; `turnsIdle` is what has become of the runtime's phase. */
    method Event(o: RuntimeId, turnsIdle: bool)
      requires Valid() && o in records
      modifies records[o]
      ensures Valid() && Abs() == Spec.Event(old(Abs()), o, turnsIdle)
    {
      RecordOf(o);
      records[o].idle := turnsIdle || records[o].idle;
      if records[o].subscribed {
        records[o].MaybeDispose(closing);
      }
      OneRecord(o);
    }

    /** The runtime has started to work. */
    method TurnsBusy(o: RuntimeId)
      requires Valid() && o in records
      modifies records[o]
      ensures Valid() && Abs() == Spec.TurnsBusy(old(Abs()), o)
    {
      RecordOf(o);
      records[o].idle := false;
      OneRecord(o);
    }

    /** terminate, up to its first await. */
    method RuntimeError(t: TaskId, o: RuntimeId)
      requires Valid() && o in records && t !in calls && records[o].subscribed && records[o].connections <= connections.Keys
      modifies this`calls, records[o]
      ensures Valid() && Abs() == Spec.RuntimeError(old(Abs()), t, o)
    {
      RecordOf(o);
      var live := records[o];
      if live.terminal {
        return;
      }
      live.terminal := true;
      live.subscribed := false;
      OneRecord(o);
      Move(t, Terminating(o, live.connections));
    }

    method TerminateDisconnects(t: TaskId, c: ConnId)
      requires Valid() && t in calls && calls[t].Terminating? && c in calls[t].remaining
      modifies this`calls, records.Values, connections.Values
      ensures Valid() && Abs() == Spec.TerminateDisconnects(old(Abs()), t, c)
    {
      assert Known(calls[t]);
      Disconnect(c);
      Move(t, Terminating(calls[t].terminated, calls[t].remaining - {c}));
    }

    method TerminateEnds(t: TaskId)
      requires Valid() && t in calls && calls[t].Terminating? && calls[t].remaining == {}
      modifies this`calls, records.Values
      ensures Valid() && Abs() == Spec.TerminateEnds(old(Abs()), t)
    {
      assert Known(calls[t]);
      Consider(calls[t].terminated);
      Finish(t);
    }

    method DisposeSettles(o: RuntimeId, failed: bool)
      requires Valid() && o in records && records[o].stage == Opened && records[o].disposeCalls > 0 && !records[o].settled
      modifies this`liveSessions, records[o]
      ensures Valid() && Abs() == Spec.DisposeSettles(old(Abs()), o, failed)
    {
      RecordOf(o);
      Settle(records[o], failed);
      if records[o].disposing {
        LeaveLive(records[o]);
      }
    }

    method Settle(live: LiveSession, failed: bool)
      requires Valid() && Registered(live.id, live)
      modifies live`settled, live`disposeFailed
      ensures Valid()
      ensures Abs() == With(old(Abs()), live.number, Of(old(Abs()), live.number).(settled := true, disposeFailed := failed))
    {
      RecordOf(live.number);
      live.settled := true;
      live.disposeFailed := failed;
      OneRecord(live.number);
    }

    method LeaveLive(live: LiveSession)
      requires Valid() && Registered(live.id, live)
      modifies this`liveSessions
      ensures Valid() && var (s, o) := (old(Abs()), live.number);
              Abs() == if live.id in s.live && s.live[live.id] == o then s.(live := s.live - {live.id}) else s
    {
      if live.id in liveSessions && liveSessions[live.id] == live {
        liveSessions := liveSessions - {live.id};
        assert Live() == old(Live()) - {live.id};
      }
      RecordsStay();
    }

    // ----- disconnect, close

    method MarkClosed(c: ConnId)
      requires Valid() && c in connections
      modifies connections[c]
      ensures Valid()
      ensures Abs() == WithConn(old(Abs()), c, ConnOf(old(Abs()), c).(stage := Closed, disconnected := true, sessionIds := {}))
    {
      ConnectionOf(c);
      var connection := connections[c];
      connection.disconnected := true;
      connection.stage := Closed;
      connection.sessionIds := {};
      OneConnection(c);
    }

    method RemoveFrom(c: ConnId, sessions: set<LiveSession>)
      requires Valid() && sessions <= records.Values
      modifies sessions
      ensures Valid() && forall o :: o in records ==>
                records[o].View() == var x := old(records[o].View());
                                     if records[o] in sessions then x.(connections := x.connections - {c}) else x
    {
      var rest := sessions;
      while rest != {}
        invariant rest <= sessions
        invariant forall live :: live in rest ==> live.View() == old(live.View())
        invariant forall live :: live in sessions - rest ==>
                    live.View() == old(live.View()).(connections := old(live.connections) - {c})
      {
        var live :| live in rest;
        live.Remove(c);
        rest := rest - {live};
      }
    }

    method ConsiderEach(sessions: set<LiveSession>)
      requires Valid() && sessions <= records.Values
      modifies sessions
      ensures Valid() && forall o :: o in records ==>
                records[o].View() == var x := old(records[o].View());
                                     if records[o] in sessions then Spec.MaybeDispose(closing, x) else x
    {
      hide Spec.MaybeDispose;
      var rest := sessions;
      while rest != {}
        invariant rest <= sessions
        invariant forall live :: live in rest ==> live.View() == old(live.View())
        invariant forall live :: live in sessions - rest ==> live.View() == Spec.MaybeDispose(closing, old(live.View()))
      {
        var live :| live in rest;
        live.MaybeDispose(closing);
        rest := rest - {live};
      }
    }

    /** Removes connection `c` from the sessions in `sessions`, then considers the disposal of each. */
    method LeaveSessions(c: ConnId, sessions: set<LiveSession>)
      requires Valid() && sessions <= records.Values
      modifies sessions
      ensures Valid() && forall o :: o in records ==>
                records[o].View() == var x := old(records[o].View());
                                     if records[o] !in sessions then x
                                     else Spec.MaybeDispose(closing, x.(connections := x.connections - {c}))
    {
      hide Spec.MaybeDispose;
      RemoveFrom(c, sessions);
      ConsiderEach(sessions);
    }

    /** The sessions of the map with an id in `ids`. */
    lemma ListedAre(ids: set<SessionId>, sessions: set<LiveSession>)
      requires Valid() && sessions == set id | id in ids && id in liveSessions :: liveSessions[id]
      ensures sessions <= records.Values
      ensures forall o :: o in records ==>
                (records[o] in sessions <==> records[o].id in ids && records[o].id in Live() && Live()[records[o].id] == o)
    {
    }

    /** Connection `c` leaves the sessions it lists; `s` is the state it leaves. */
    method LeaveListed(c: ConnId, ids: set<SessionId>, ghost s: State)
      requires Valid() && s.closing == closing && s.live == Live() && ids == ConnOf(s, c).sessionIds
      requires forall o :: o in records ==> Of(s, o) == records[o].View()
      modifies records.Values
      ensures Valid() && Sessions().Keys == old(Sessions()).Keys
      ensures forall o :: o in Sessions() ==> Sessions()[o] == WithoutConn(s, c, o)
      ensures Conns() == old(Conns())
    {
      hide Spec.MaybeDispose;
      var sessions := set id | id in ids && id in liveSessions :: liveSessions[id];
      ListedAre(ids, sessions);
      assert forall o :: o in records ==>
               WithoutConn(s, c, o) == var x := records[o].View();
                                       if records[o] !in sessions then x
                                       else Spec.MaybeDispose(closing, x.(connections := x.connections - {c}));
      hide Live, Opening, WithoutConn;
      LeaveSessions(c, sessions);
      assert Conns() == old(Conns());
      hide Conns;
    }

    method Disconnect(c: ConnId)
      requires Valid() && c in connections
      modifies records.Values, connections[c]
      ensures Valid() && Abs() == Spec.Disconnect(old(Abs()), c)
    {
      ConnectionOf(c);
      if !connections[c].disconnected {
        DisconnectFirst(c);
      }
    }

    method DisconnectFirst(c: ConnId)
      requires Valid() && c in connections && !connections[c].disconnected
      modifies records.Values, connections[c]
      ensures Valid() && Abs() == Spec.Disconnect(old(Abs()), c)
    {
      hide Spec.MaybeDispose, WithoutConn, Spec.Disconnect;
      ConnectionOf(c);
      var ids := connections[c].sessionIds;
      ghost var s := Abs();
      MarkClosed(c);
      hide Spec.WithConn;
      LeaveListed(c, ids, s);
      hide Valid, Sessions, Conns, Live, Opening;
      Disconnects(s, Abs(), c);
    }

    // ----- Connections

    method Accept(c: ConnId)
      requires Valid() && c !in connections
      modifies this`connections
      ensures Valid() && fresh(Objects() - old(Objects()))
      ensures Abs() == Spec.Accept(old(Abs()), c)
    {
      if !closing {
        var state := new ConnectionState(c);
        connections := connections[c := state];
        assert Sessions() == old(Sessions());
        assert Conns() == old(Conns())[c := state.View()];
      }
    }

    method Hello(c: ConnId)
      requires Valid() && c in connections && connections[c].stage == AwaitingHello
      modifies connections[c]
      ensures Valid() && Abs() == Spec.Hello(old(Abs()), c)
    {
      ConnectionOf(c);
      if !connections[c].disconnected {
        connections[c].stage := Handshaking;
        OneConnection(c);
      }
    }

    /** The hello has been sent. */
    method HandshakeDone(c: ConnId)
      requires Valid() && c in connections
      modifies connections[c]
      ensures Valid() && Abs() == Spec.HandshakeDone(old(Abs()), c)
    {
      ConnectionOf(c);
      var state := connections[c];
      if !state.disconnected && state.stage == Handshaking {
        state.handshakeComplete := true;
        state.stage := Ready;
        OneConnection(c);
      }
    }

    method FailProtocol(c: ConnId)
      requires Valid() && c in connections
      modifies connections[c]
      ensures Valid() && Abs() == Spec.FailProtocol(old(Abs()), c)
    {
      ConnectionOf(c);
      var state := connections[c];
      if !(state.disconnected || state.stage == Closing || state.stage == Closed) {
        state.stage := Closing;
        OneConnection(c);
      }
    }

    /** The transport has closed; nobody has been told yet. */
    method TransportCloses(c: ConnId)
      requires Valid() && c in connections
      modifies connections[c]
      ensures Valid() && Abs() == Spec.TransportCloses(old(Abs()), c)
    {
      ConnectionOf(c);
      connections[c].transportClosed := true;
      OneConnection(c);
    }

    // ----- Closing the server

    method BeginClosing()
      requires Valid()
      modifies this`closing
      ensures Valid() && Abs() == Spec.BeginClosing(old(Abs()))
    {
      closing := true;
      RecordsStay();
    }

    method CloseConnections()
      requires Valid() && closing
      modifies connections.Values
      ensures Valid() && Abs() == Spec.CloseConnections(old(Abs()))
    {
      CloseEach();
      assert Sessions() == old(Sessions());
      ClosesConnections(old(Abs()), Abs());
    }

    method CloseEach()
      requires Valid()
      modifies connections.Values
      ensures forall c :: c in connections ==>
                connections[c].View() == var k := old(connections[c].View());
                                         if k.disconnected then k else k.(stage := Closing)
    {
      var rest := set c | c in connections && !connections[c].disconnected :: connections[c];
      ghost var open := rest;
      while rest != {}
        invariant rest <= open
        invariant forall c :: c in connections ==>
                    connections[c].View() == var k := old(connections[c].View());
                                             if connections[c] in open - rest then k.(stage := Closing) else k
      {
        var state :| state in rest;
        state.stage := Closing;
        rest := rest - {state};
      }
    }

    method CloseBegins(t: TaskId)
      requires Valid() && closing && t !in calls
      modifies this`calls
      ensures Valid() && Abs() == Spec.CloseBegins(old(Abs()), t)
    {
      var waiting := set id | id in openingSessions :: openingSessions[id].number;
      forall o ensures o in waiting <==> o in Opening().Values {
        if o in Opening().Values {
          var id :| id in Opening() && Opening()[id] == o;
          assert id in openingSessions;
        }
        if o in waiting {
          var id :| id in openingSessions && openingSessions[id].number == o;
          assert Opening()[id] == o;
        }
      }
      assert waiting == Opening().Values;
      Move(t, ClosingSessions(waiting));
    }

    /** The openings have settled: every session of the map that is not disposing yet is disposed of. */
    method CloseSweeps(t: TaskId)
      requires Valid() && t in calls && calls[t].ClosingSessions?
      requires forall o :: o in calls[t].waiting ==> !Of(Abs(), o).Unsettled()
      modifies this, records.Values
      ensures Valid() && Objects() == old(Objects()) && Abs() == Spec.CloseSweeps(old(Abs()), t)
    {
      SweepAll(Abs());
      hide Valid, Sessions, Conns, Live, Opening, Swept;
      Clear(t);
      Sweeps(old(Abs()), Abs(), t);
    }

    /** The sweep is to close down the sessions of the map. */
    lemma LiveAre(sessions: set<LiveSession>, s: State)
      requires Valid() && sessions == set id | id in liveSessions :: liveSessions[id]
      requires s.live == Live() && forall o :: o in records ==> Of(s, o) == records[o].View()
      ensures sessions <= records.Values
      ensures forall o :: o in records ==>
                Swept(s, o) == if records[o] in sessions then ClosedDown(records[o].View()) else records[o].View()
    {
      forall o | o in records
        ensures records[o] in sessions <==> records[o].id in Live() && Live()[records[o].id] == o
      {
      }
    }

    method SweepAll(ghost s: State)
      requires Valid() && s.live == Live() && forall o :: o in records ==> Of(s, o) == records[o].View()
      modifies records.Values
      ensures Valid() && Sessions().Keys == old(Sessions()).Keys
      ensures forall o :: o in Sessions() ==> Sessions()[o] == Swept(s, o)
      ensures Conns() == old(Conns())
    {
      hide Swept, ClosedDown;
      var sessions := set id | id in liveSessions :: liveSessions[id];
      LiveAre(sessions, s);
      hide Live, Opening;
      Sweep(sessions);
      assert Conns() == old(Conns());
      hide Conns;
    }

    method Clear(t: TaskId)
      requires Valid()
      modifies this`liveSessions, this`cleared, this`calls
      ensures Valid() && Abs() == Ended(old(Abs()), t).(live := map[], cleared := true)
    {
      liveSessions := map[];
      cleared := true;
      calls := calls - {t};
      RecordsStay();
      assert Live() == map[];
    }

    method Sweep(sessions: set<LiveSession>)
      requires Valid() && sessions <= records.Values
      modifies sessions
      ensures Valid() && forall o :: o in records ==>
                records[o].View() == var x := old(records[o].View());
                                     if records[o] in sessions then ClosedDown(x) else x
    {
      var rest := sessions;
      while rest != {}
        invariant rest <= sessions
        invariant forall live :: live in rest ==> live.View() == old(live.View())
        invariant forall live :: live in sessions - rest ==> live.View() == ClosedDown(old(live.View()))
      {
        var live :| live in rest;
        live.CloseDown();
        rest := rest - {live};
      }
    }
  }
}
