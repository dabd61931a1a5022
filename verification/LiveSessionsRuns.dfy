/** What holds in every run of the session server, whatever the interleaving of its calls. */
module LiveSessionsRuns {
  import opened ServerConnections
  import opened LiveSessions
  import opened LiveSessionsLifecycle
  import opened LiveSessionsTasks
  import opened LiveSessionsConnections
  import opened LiveSessionsLeaks
  import opened LiveSessionsHistory

  ghost predicate Invariant(s: State) {
    Lifecycle(s) && Tasks(s) && Connections(s) && NoLeak(s)
  }

  lemma TasksKnown(s: State)
    requires Tasks(s)
    ensures FramesKnown(s) && OpenedOnly(s) && TargetsKnown(s)
  {
    forall t | t in s.frames ensures FrameOk(s, s.frames[t]) {
    }
    forall o | o in s.sessions ensures RecordOk(Of(s, o)) {
    }
  }

  lemma LifecycleKnown(s: State)
    requires Lifecycle(s)
    ensures MapsOk(s) && SubscribedOpen(s) && LiveById(s) && LiveOpen(s)
  {
    forall o | o in s.sessions ensures SessionOk(s, o) {
    }
  }

  lemma InvariantNext(s: State, step: Step)
    requires Invariant(s)
    ensures Invariant(Next(s, step))
  {
    TasksKnown(s);
    LifecycleKnown(s);
    LifecycleKept(s, step);
    TasksNext(s, step);
    ConnectionsNext(s, step);
    var opener: TaskId := 0;
    if step.SProbeSucceeds? && Of(s, step.o).stage == Probing {
      opener :| OpensFor(s, opener, step.o);
    }
    LeakNext(s, step, opener);
  }

  lemma {:induction false} InvariantRun(steps: seq<Step>)
    ensures Invariant(Run(INIT, steps))
    decreases |steps|
  {
    if steps != [] {
      InvariantRun(steps[..|steps| - 1]);
      InvariantNext(Run(INIT, steps[..|steps| - 1]), steps[|steps| - 1]);
    }
  }

  /** At most one runtime per session id between its acquisition and the settling of its dispose, until the
      closing server empties its map. */
  lemma OneRuntimePerId(steps: seq<Step>, o: RuntimeId, p: RuntimeId)
    ensures var s := Run(INIT, steps);
            !s.cleared && Of(s, o).Held() && Of(s, p).Held() && Of(s, o).id == Of(s, p).id ==> o == p
  {
    InvariantRun(steps);
    var s := Run(INIT, steps);
    if !s.cleared && Of(s, o).Held() && Of(s, p).Held() && Of(s, o).id == Of(s, p).id {
      assert SessionOk(s, o) && SessionOk(s, p);
    }
  }

  /** Dispose is called on acquired runtimes only and never twice; once sessions.close has emptied the map, it has
      been called on every runtime acquired so far, and so will it be on every runtime that still arrives. */
  lemma DisposedOnce(steps: seq<Step>, o: RuntimeId)
    ensures var s := Run(INIT, steps);
            && Of(s, o).disposeCalls <= (if Of(s, o).acquired then 1 else 0)
            && (s.cleared && Of(s, o).acquired ==> Of(s, o).disposeCalls == 1)
            && (Of(s, o).settled ==> Of(s, o).disposeCalls == 1)
  {
    InvariantRun(steps);
    var s := Run(INIT, steps);
    if o in s.sessions {
      assert SessionOk(s, o);
    }
  }

  /** What has happened to a runtime is never forgotten, so the counts above are counts over the whole run. */
  lemma HistoryGrows(steps: seq<Step>, step: Step, o: RuntimeId)
    ensures var (x, y) := (Of(Run(INIT, steps), o), Of(Run(INIT, steps + [step]), o));
            && (x.acquired ==> y.acquired) && (x.settled ==> y.settled)
            && x.disposeCalls <= y.disposeCalls <= x.disposeCalls + 1
  {
    InvariantRun(steps);
    assert (steps + [step])[..|steps|] == steps;
    KeepsNext(Run(INIT, steps), step, o, 0);
  }

  /** The operation count is the number of running operations, and while there is one, no dispose has begun,
      unless by the closing server. */
  lemma OperationsKeepAlive(steps: seq<Step>, o: RuntimeId)
    ensures var s := Run(INIT, steps);
            && Of(s, o).operationCount == |Operations(s, o)|
            && (Of(s, o).operationCount > 0 ==> !Of(s, o).disposing && (!s.closing ==> Of(s, o).disposeCalls == 0))
  {
    InvariantRun(steps);
    var s := Run(INIT, steps);
    if o in s.sessions {
      assert SessionOk(s, o) && RecordOk(Of(s, o));
    } else {
      forall t | t in s.frames ensures !Operates(s, t, o) {
        assert FrameOk(s, s.frames[t]);
      }
      assert Operations(s, o) == {};
    }
  }

  /** While the server is not closing, a session in the map that nothing uses is already disposing, or a suspended
      call is about to attach to it or to consider its disposal. */
  lemma NothingLeaks(steps: seq<Step>, id: SessionId)
    ensures var s := Run(INIT, steps);
            !s.closing && id in s.live ==>
              var x := Of(s, s.live[id]);
              x.connections == {} && |Operations(s, s.live[id])| == 0 && (x.terminal || x.idle) ==>
                x.disposing || exists t :: HeldBy(s, t, s.live[id])
  {
    InvariantRun(steps);
    var s := Run(INIT, steps);
    if !s.closing && id in s.live {
      OperationsKeepAlive(steps, s.live[id]);
      assert Retained(s, s.live[id]);
    }
  }

  /** Whoever is sent a session's events has completed its hello; a connection of a session in the map lists the
      session's id and is not disconnected. */
  lemma ConnectionsAreKnown(steps: seq<Step>, o: RuntimeId, c: ConnId)
    ensures var s := Run(INIT, steps);
            c in Of(s, o).connections ==>
              && ConnOf(s, c).handshakeComplete
              && (Of(s, o).id in s.live && s.live[Of(s, o).id] == o ==>
                    Of(s, o).id in ConnOf(s, c).sessionIds && !ConnOf(s, c).disconnected)
  {
    InvariantRun(steps);
  }

  /** A connection's stage never moves backward, and a completed handshake stays completed. */
  lemma StageForward(steps: seq<Step>, step: Step, c: ConnId)
    ensures var (s, r) := (Run(INIT, steps), Run(INIT, steps + [step]));
            c in s.conns ==>
              && c in r.conns && Order(ConnOf(s, c).stage) <= Order(ConnOf(r, c).stage)
              && (ConnOf(s, c).handshakeComplete ==> ConnOf(r, c).handshakeComplete)
  {
    InvariantRun(steps);
    assert (steps + [step])[..|steps|] == steps;
    KeepsNext(Run(INIT, steps), step, 0, c);
  }
}
