/** What the session server's requests come to: who gets linked to which runtime, and who is refused. */
module LiveSessionsAnswers {
  import opened ServerConnections
  import opened LiveSessions
  import opened LiveSessionsLifecycle
  import opened LiveSessionsTasks
  import opened LiveSessionsConnections
  import opened LiveSessionsRuns

  /** Request `t` of the ready connection `c` is about to be executed. */
  predicate Asks(s: State, t: TaskId, c: ConnId) {
    t !in s.frames && c in s.conns && s.conns[c].stage == Ready && !s.conns[c].disconnected
  }

  /** Connection `c` can still be linked to a session. */
  predicate Listening(s: State, c: ConnId) {
    c in s.conns && s.conns[c].stage == Ready && !s.conns[c].disconnected && !s.conns[c].transportClosed
  }

  /** Both sides know of the link, and nothing else has changed. */
  predicate Linked(s: State, r: State, c: ConnId, o: RuntimeId) {
    && o in s.sessions && c in s.conns
    && r.sessions == s.sessions[o := s.sessions[o].(connections := s.sessions[o].connections + {c})]
    && r.conns == s.conns[c := s.conns[c].(sessionIds := s.conns[c].sessionIds + {s.sessions[o].id})]
    && r.live == s.live && r.opening == s.opening && r.next == s.next
  }

  lemma RunAppend(steps: seq<Step>, step: Step)
    ensures Run(INIT, steps + [step]) == Next(Run(INIT, steps), step)
  {
    assert (steps + [step])[..|steps|] == steps;
  }

  // ----- Connections

  /** A connection that is accepted, says hello and has its handshake done can make requests and be linked; a protocol
      failure, a closed transport or a disconnect ends that. */
  lemma AcceptedBecomesReady(s: State, c: ConnId, t: TaskId)
    requires c !in s.conns && !s.closing && t !in s.frames
    ensures var r := Next(Next(Next(s, SAccept(c)), SHello(c)), SHandshakeDone(c));
            && Asks(r, t, c) && Listening(r, c) && r.conns[c].sessionIds == {} && r.conns[c].handshakeComplete
            && r == s.(conns := s.conns[c := r.conns[c]])
            && !Asks(Next(r, SFailProtocol(c)), t, c) && !Asks(Next(r, SDisconnect(c)), t, c)
            && !Listening(Next(r, STransportCloses(c)), c)
  {
    var a := s.(conns := s.conns[c := Conn(AwaitingHello, false, false, false, {})]);
    assert Next(s, SAccept(c)) == a;
    var h := a.(conns := a.conns[c := a.conns[c].(stage := Handshaking)]);
    assert Next(a, SHello(c)) == h;
    assert Next(h, SHandshakeDone(c)) == h.(conns := h.conns[c := h.conns[c].(stage := Ready, handshakeComplete := true)]);
    assert s.conns[c := a.conns[c]][c := h.conns[c]] == s.conns[c := h.conns[c]];
  }

  // ----- attach

  /** An attach to a live session links the connection to its runtime, and opens nothing. */
  lemma AttachToLive(steps: seq<Step>, t: TaskId, c: ConnId, id: SessionId)
    requires var s := Run(INIT, steps);
             && Asks(s, t, c) && Listening(s, c) && id in s.live && s.live[id] in s.sessions
             && !s.sessions[s.live[id]].terminal && !s.sessions[s.live[id]].disposing
    ensures var s := Run(INIT, steps); var (o, r) := (s.live[id], Next(Next(s, SStartAttach(t, c, id)), SAttach(t)));
            && Linked(s, r, c, o) && s.sessions[o].id == id && r.frames == s.frames
            && c in r.sessions[o].connections && id in r.conns[c].sessionIds && r.sessions.Keys == s.sessions.Keys
  {
    var s := Run(INIT, steps);
    InvariantRun(steps);
    assert s.sessions[s.live[id]].id == id;
    hide Run, Invariant, Linked, Next;
    AttachGoesOn(s, t, c, id);
    var m := Next(s, SStartAttach(t, c, id));
    AttachLinks(m, t);
    assert m.frames - {t} == s.frames;
    LinkedFrames(s, m, Next(m, SAttach(t)), c, s.live[id]);
  }

  lemma AttachGoesOn(s: State, t: TaskId, c: ConnId, id: SessionId)
    requires Asks(s, t, c) && id in s.live && s.live[id] in s.sessions
    requires !s.sessions[s.live[id]].terminal && !s.sessions[s.live[id]].disposing
    ensures Next(s, SStartAttach(t, c, id)) == s.(frames := s.frames[t := Attaching(c, s.live[id])])
  {
  }

  /** A call that has found its session links it, if the connection can still be linked. */
  lemma AttachLinks(s: State, t: TaskId)
    requires t in s.frames && s.frames[t].Attaching? && s.frames[t].target in s.sessions && Listening(s, s.frames[t].conn)
    ensures var r := Next(s, SAttach(t));
            && Linked(s, r, s.frames[t].conn, s.frames[t].target) && r.frames == s.frames - {t}
            && s.frames[t].conn in r.sessions[s.frames[t].target].connections
            && s.sessions[s.frames[t].target].id in r.conns[s.frames[t].conn].sessionIds
            && r.sessions.Keys == s.sessions.Keys
  {
  }

  lemma LinkedFrames(s: State, m: State, r: State, c: ConnId, o: RuntimeId)
    requires m == s.(frames := m.frames, opening := m.opening) && Linked(m, r, c, o)
    ensures r.sessions == s.sessions[o := s.sessions[o].(connections := s.sessions[o].connections + {c})]
    ensures m.opening == s.opening ==> Linked(s, r, c, o)
  {
  }

  /** An attach to a session that is ending for an error is refused, and changes nothing. */
  lemma AttachToTerminal(s: State, t: TaskId, c: ConnId, id: SessionId)
    requires Asks(s, t, c) && id in s.live && s.live[id] in s.sessions && s.sessions[s.live[id]].terminal
    ensures Next(s, SStartAttach(t, c, id)) == s
  {
    assert s.frames - {t} == s.frames;
  }

  /** An attach to a session that is being disposed of waits for the dispose, and changes nothing else. */
  lemma AttachToDisposing(s: State, t: TaskId, c: ConnId, id: SessionId)
    requires Asks(s, t, c) && id in s.live && s.live[id] in s.sessions
    requires !s.sessions[s.live[id]].terminal && s.sessions[s.live[id]].disposing
    ensures Next(s, SStartAttach(t, c, id)) == s.(frames := s.frames[t := AwaitDisposing(c, id, s.live[id])])
  {
  }

  /** An attach to a session that is neither live nor opening opens it. */
  lemma AttachOpens(s: State, t: TaskId, c: ConnId, id: SessionId)
    requires Asks(s, t, c) && id !in s.live && id !in s.opening
    ensures var (o, r) := (s.next, Next(s, SStartAttach(t, c, id)));
            && r.opening == s.opening[id := o] && r.frames == s.frames[t := AwaitOpening(c, o, true)] && r.next == s.next + 1
            && r.sessions.Keys == s.sessions.Keys + {o} && r.live == s.live && r.conns == s.conns
            && r.sessions[o].id == id && r.sessions[o].stage == Acquiring && !r.sessions[o].acquired
            && (forall p :: p in s.sessions && p != o ==> r.sessions[p] == s.sessions[p])
  {
  }

  /** An attach to a session that is opening waits for the same opening. */
  lemma AttachJoins(s: State, t: TaskId, c: ConnId, id: SessionId)
    requires Asks(s, t, c) && id !in s.live && id in s.opening
    ensures Next(s, SStartAttach(t, c, id)) == s.(frames := s.frames[t := AwaitOpening(c, s.opening[id], false)])
  {
  }

  // ----- Waiting

  /** The call waits, and what it waits for has not happened. */
  predicate Blocked(s: State, t: TaskId) {
    t in s.frames &&
    match s.frames[t]
    case AwaitDisposing(_, _, o) => !Of(s, o).settled
    case AwaitOpening(_, o, _) => Of(s, o).Unsettled()
    case _ => false
  }

  predicate FrameStays(s: State, r: State, t: TaskId) {
    t in s.frames && t in r.frames && r.frames[t] == s.frames[t]
  }

  lemma BlockedAcquireTurn(s: State, u: TaskId, c: ConnId, id: SessionId, t: TaskId)
    requires t in s.frames && t != u
    ensures FrameStays(s, AcquireTurn(s, u, c, id), t)
  {
  }

  lemma BlockedOpeningResumes(s: State, u: TaskId, t: TaskId)
    requires Blocked(s, t)
    ensures FrameStays(s, OpeningResumes(s, u), t)
  {
  }

  lemma RuntimeKeepsFrame(s: State, o: RuntimeId, idle: bool, t: TaskId)
    requires Blocked(s, t)
    ensures FrameStays(s, RuntimeArrives(s, o), t) && FrameStays(s, RuntimeRefused(s, o), t)
    ensures FrameStays(s, ProbeSucceeds(s, o, idle), t) && FrameStays(s, ProbeFails(s, o), t)
    ensures FrameStays(s, RejectionSettles(s, o), t)
  {
  }

  lemma BlockedStartAttach(s: State, u: TaskId, c: ConnId, id: SessionId, t: TaskId)
    requires Blocked(s, t)
    ensures FrameStays(s, StartAttach(s, u, c, id), t) && FrameStays(s, Retry(s, u), t)
  {
    hide AcquireTurn;
    if MayStart(s, u, c) {
      BlockedAcquireTurn(s, u, c, id, t);
    }
    if u in s.frames && s.frames[u].AwaitDisposing? && u != t {
      BlockedAcquireTurn(s, u, s.frames[u].conn, s.frames[u].id, t);
    }
  }

  lemma BlockedOpeningStep(s: State, step: Step, t: TaskId)
    requires Blocked(s, t) && IsOpeningStep(step)
    ensures FrameStays(s, Next(s, step), t)
  {
    hide Blocked, FrameStays, StartAttach, Retry;
    hide OpeningResumes, RuntimeArrives, RuntimeRefused, ProbeSucceeds, ProbeFails, RejectionSettles;
    match step
    case SStartAttach(u, c, id) => BlockedStartAttach(s, u, c, id, t);
    case SRetry(u) => BlockedStartAttach(s, u, 0, 0, t);
    case SOpeningResumes(u) => BlockedOpeningResumes(s, u, t);
    case SProbeSucceeds(o, idle) => RuntimeKeepsFrame(s, o, idle, t);
    case SRuntimeArrives(o) => RuntimeKeepsFrame(s, o, false, t);
    case SRuntimeRefused(o) => RuntimeKeepsFrame(s, o, false, t);
    case SProbeFails(o) => RuntimeKeepsFrame(s, o, false, t);
    case SRejectionSettles(o) => RuntimeKeepsFrame(s, o, false, t);
  }

  lemma BlockedAttach(s: State, u: TaskId, t: TaskId)
    requires Blocked(s, t)
    ensures FrameStays(s, Attach(s, u), t)
  {
    hide MaybeDispose;
  }

  lemma BlockedDetach(s: State, u: TaskId, c: ConnId, id: SessionId, failed: bool, t: TaskId)
    requires Blocked(s, t)
    ensures FrameStays(s, StartDetach(s, u, c, id), t) && FrameStays(s, DetachResumes(s, u, failed), t)
  {
    hide MaybeDispose;
  }

  lemma BlockedOperation(s: State, u: TaskId, c: ConnId, id: SessionId, t: TaskId)
    requires Blocked(s, t)
    ensures FrameStays(s, StartOperation(s, u, c, id), t) && FrameStays(s, OperationEnds(s, u), t)
  {
    hide MaybeDispose;
  }

  lemma BlockedSessionStep(s: State, step: Step, t: TaskId)
    requires Blocked(s, t) && IsSessionStep(step)
    ensures FrameStays(s, Next(s, step), t)
  {
    hide Blocked, FrameStays, Attach, StartDetach, DetachResumes, StartOperation, OperationEnds;
    match step
    case SAttach(u) => BlockedAttach(s, u, t);
    case SStartDetach(u, c, id) => BlockedDetach(s, u, c, id, false, t);
    case SDetachResumes(u, failed) => BlockedDetach(s, u, 0, 0, failed, t);
    case SStartOperation(u, c, id) => BlockedOperation(s, u, c, id, t);
    case SOperationEnds(u) => BlockedOperation(s, u, 0, 0, t);
  }

  lemma BlockedOtherStep(s: State, step: Step, t: TaskId)
    requires Blocked(s, t) && !IsOpeningStep(step) && !IsSessionStep(step)
    ensures FrameStays(s, Next(s, step), t)
  {
    hide MaybeDispose, Heard, WithoutConn, Swept;
  }

  lemma BlockedStays(s: State, step: Step, t: TaskId)
    requires Blocked(s, t)
    ensures FrameStays(s, Next(s, step), t)
  {
    hide Next, Blocked, FrameStays;
    if IsOpeningStep(step) {
      BlockedOpeningStep(s, step, t);
    } else if IsSessionStep(step) {
      BlockedSessionStep(s, step, t);
    } else {
      BlockedOtherStep(s, step, t);
    }
  }

  /** Whatever else happens, a call that waits for a dispose goes on waiting until that dispose has settled. */
  lemma {:induction false} WaitsForDispose(steps: seq<Step>, more: seq<Step>, t: TaskId)
    requires var s := Run(INIT, steps); t in s.frames && s.frames[t].AwaitDisposing?
    requires !Of(Run(INIT, steps + more), Run(INIT, steps).frames[t].awaited).settled
    ensures FrameStays(Run(INIT, steps), Run(INIT, steps + more), t)
    decreases |more|
  {
    hide Run, Next;
    if more == [] {
      assert steps + more == steps;
    } else {
      var (init, step) := (more[..|more| - 1], more[|more| - 1]);
      assert steps + more == steps + init + [step];
      HistoryGrows(steps + init, step, Run(INIT, steps).frames[t].awaited);
      RunAppend(steps + init, step);
      WaitsForDispose(steps, init, t);
      BlockedStays(Run(INIT, steps + init), step, t);
    }
  }

  /** And a call that waits for an opening, until the opening has succeeded or failed. */
  lemma {:induction false} WaitsForOpening(s: State, more: seq<Step>, t: TaskId)
    requires t in s.frames && s.frames[t].AwaitOpening?
    requires forall n :: 0 <= n < |more| ==> Of(Run(s, more[..n]), s.frames[t].opening).Unsettled()
    ensures FrameStays(s, Run(s, more), t)
    decreases |more|
  {
    hide Next;
    if more != [] {
      var init := more[..|more| - 1];
      forall n | 0 <= n < |init| ensures Of(Run(s, init[..n]), s.frames[t].opening).Unsettled() {
        assert init[..n] == more[..n];
      }
      WaitsForOpening(s, init, t);
      assert more[..|init|] == init;
      BlockedStays(Run(s, init), more[|more| - 1], t);
    }
  }

  /** Once the dispose has settled, the call fails with its error, or acquires the session anew: it goes on to the
      runtime that is live by then, or to an opening, and is refused if that runtime is ending for an error. */
  lemma DisposeSettled(s: State, t: TaskId)
    requires t in s.frames && s.frames[t].AwaitDisposing? && Of(s, s.frames[t].awaited).settled
    ensures var (r, c, id) := (Next(s, SRetry(t)), s.frames[t].conn, s.frames[t].id);
            if Of(s, s.frames[t].awaited).disposeFailed then r == s.(frames := s.frames - {t})
            else if id in s.live then
              r == s.(frames := if Of(s, s.live[id]).terminal then s.frames - {t}
                                else if Of(s, s.live[id]).disposing then s.frames[t := AwaitDisposing(c, id, s.live[id])]
                                else s.frames[t := Attaching(c, s.live[id])])
            else if id in s.opening then r == s.(frames := s.frames[t := AwaitOpening(c, s.opening[id], false)])
            else r.frames == s.frames[t := AwaitOpening(c, s.next, true)] && r.opening == s.opening[id := s.next]
                 && r.live == s.live && r.conns == s.conns
  {
  }

  // ----- The opening settles

  /** The runtime is there and its first snapshot too: the session is live. */
  lemma OpeningSucceeds(s: State, o: RuntimeId, idle: bool)
    requires o in s.sessions && s.sessions[o].stage == Acquiring && !s.closing
    ensures var (m, r) := (Next(s, SRuntimeArrives(o)), Next(Next(s, SRuntimeArrives(o)), SProbeSucceeds(o, idle)));
            && m.sessions[o].acquired && m.sessions[o].disposeCalls == s.sessions[o].disposeCalls
            && r.sessions[o] == s.sessions[o].(acquired := true, stage := Opened, subscribed := true, idle := idle)
            && r.live == s.live[s.sessions[o].id := o] && r.opening == s.opening && r.frames == s.frames && r.conns == s.conns
  {
  }

  /** A runtime that arrives while the server is closing, or whose first snapshot fails, is disposed of. */
  lemma OpeningFails(s: State, o: RuntimeId)
    requires o in s.sessions
    ensures s.sessions[o].stage == Acquiring && s.closing ==>
              Next(s, SRuntimeArrives(o)).sessions[o]
              == s.sessions[o].(acquired := true, stage := Rejecting, disposeCalls := s.sessions[o].disposeCalls + 1)
    ensures s.sessions[o].stage == Probing ==>
              Next(s, SProbeFails(o)).sessions[o] == s.sessions[o].(stage := Rejecting, disposeCalls := s.sessions[o].disposeCalls + 1)
    ensures s.sessions[o].stage == Rejecting ==>
              Next(s, SRejectionSettles(o)).sessions[o] == s.sessions[o].(stage := Failed, settled := true)
    ensures s.sessions[o].stage == Acquiring ==> Next(s, SRuntimeRefused(o)).sessions[o] == s.sessions[o].(stage := Failed)
    ensures Next(s, SProbeFails(o)).live == Next(s, SRuntimeRefused(o)).live == s.live
  {
  }

  /** A call that waited for an opening that succeeded gets its connection linked to the runtime. */
  lemma WaiterLinks(s: State, t: TaskId)
    requires t in s.frames && s.frames[t].AwaitOpening? && Listening(s, s.frames[t].conn)
    requires s.frames[t].opening in s.sessions && s.sessions[s.frames[t].opening].stage == Opened
    ensures var (o, c, r) := (s.frames[t].opening, s.frames[t].conn, Next(Next(s, SOpeningResumes(t)), SAttach(t)));
            && r.sessions == s.sessions[o := s.sessions[o].(connections := s.sessions[o].connections + {c})]
            && r.conns == s.conns[c := s.conns[c].(sessionIds := s.conns[c].sessionIds + {s.sessions[o].id})]
            && r.frames == s.frames - {t} && r.live == s.live
  {
    var (o, c) := (s.frames[t].opening, s.frames[t].conn);
    var m := Next(s, SOpeningResumes(t));
    assert m.frames == s.frames[t := Attaching(c, o)] && m == s.(frames := m.frames, opening := m.opening);
    hide Next, Linked;
    AttachLinks(m, t);
    LinkedFrames(s, m, Next(m, SAttach(t)), c, o);
    assert s.frames[t := Attaching(c, o)] - {t} == s.frames - {t};
  }

  /** A call that waited for an opening that failed fails, and changes nothing but the entry of the opening. */
  lemma WaiterFails(s: State, t: TaskId)
    requires t in s.frames && s.frames[t].AwaitOpening? && Of(s, s.frames[t].opening).stage == Failed
    ensures var r := Next(s, SOpeningResumes(t));
            r == s.(frames := s.frames - {t}, opening := r.opening)
            && (forall id :: id in r.opening <==> id in s.opening && !(s.frames[t].opener && id == Of(s, s.frames[t].opening).id
                                                                      && s.opening[id] == s.frames[t].opening))
  {
  }

  /** All the calls of `ts` go on, one after the other. */
  function Resuming(ts: seq<TaskId>): seq<Step>
    decreases |ts|
  {
    if ts == [] then [] else Resuming(ts[..|ts| - 1]) + [SOpeningResumes(ts[|ts| - 1])] + [SAttach(ts[|ts| - 1])]
  }

  /** The calls of `ts` wait for the opening of the runtime `o`, for connections that can be linked. */
  predicate AllWait(s: State, ts: seq<TaskId>, o: RuntimeId) {
    && (forall i, j :: 0 <= i < j < |ts| ==> ts[i] != ts[j])
    && forall t :: t in ts ==> t in s.frames && s.frames[t].AwaitOpening? && s.frames[t].opening == o && Listening(s, s.frames[t].conn)
  }

  /** The connections of these calls are linked to `o`, the other runtimes are as they were, and nobody else is linked. */
  ghost predicate AllLinked(s: State, r: State, ts: seq<TaskId>, o: RuntimeId) {
    && r.sessions.Keys == s.sessions.Keys && o in s.sessions
    && (forall p :: p in s.sessions && p != o ==> r.sessions[p] == s.sessions[p])
    && r.sessions[o] == s.sessions[o].(connections := r.sessions[o].connections)
    && (forall c :: c in r.sessions[o].connections <==>
          c in s.sessions[o].connections || exists t :: t in ts && t in s.frames && s.frames[t].AwaitOpening? && s.frames[t].conn == c)
    && (forall t :: t in ts && t in s.frames && s.frames[t].AwaitOpening? && s.frames[t].conn in r.conns ==>
          s.sessions[o].id in r.conns[s.frames[t].conn].sessionIds)
  }

  /** The calls that are still to go on are where they were, and so are their connections. */
  ghost predicate OthersWait(s: State, r: State, done: seq<TaskId>) {
    && (forall t :: t in s.frames && t !in done ==> t in r.frames && r.frames[t] == s.frames[t])
    && (forall c :: c in s.conns ==>
          c in r.conns && r.conns[c] == s.conns[c].(sessionIds := r.conns[c].sessionIds) && s.conns[c].sessionIds <= r.conns[c].sessionIds)
  }

  /** Requests that arrive while a session is opening all end up linked to the one runtime that opens. */
  lemma {:induction false} WaitersShareTheRuntime(s: State, ts: seq<TaskId>, o: RuntimeId)
    requires o in s.sessions && s.sessions[o].stage == Opened && AllWait(s, ts, o)
    ensures AllLinked(s, Run(s, Resuming(ts)), ts, o) && OthersWait(s, Run(s, Resuming(ts)), ts)
    decreases |ts|
  {
    hide Run, Next, Resuming, AllLinked, OthersWait, AllWait;
    if ts == [] {
      NoneResumes(s, o);
    } else {
      var (init, t) := (ts[..|ts| - 1], ts[|ts| - 1]);
      var before := Run(s, Resuming(init));
      FewerWait(s, ts, o);
      WaitersShareTheRuntime(s, init, o);
      ResumingMore(ts);
      RunTwice(s, Resuming(init), SOpeningResumes(t), SAttach(t));
      StillWaits(s, before, init, t, o);
      WaiterLinks(before, t);
      OneMoreLinked(s, before, Next(Next(before, SOpeningResumes(t)), SAttach(t)), init, t, o);
      assert init + [t] == ts;
    }
  }

  lemma NoneResumes(s: State, o: RuntimeId)
    requires o in s.sessions
    ensures Run(s, Resuming([])) == s && AllLinked(s, s, [], o) && OthersWait(s, s, [])
  {
  }

  lemma FewerWait(s: State, ts: seq<TaskId>, o: RuntimeId)
    requires ts != [] && AllWait(s, ts, o)
    ensures AllWait(s, ts[..|ts| - 1], o) && AllWait(s, [ts[|ts| - 1]], o) && ts[|ts| - 1] !in ts[..|ts| - 1]
  {
  }

  lemma ResumingMore(ts: seq<TaskId>)
    requires ts != []
    ensures Resuming(ts) == Resuming(ts[..|ts| - 1]) + [SOpeningResumes(ts[|ts| - 1])] + [SAttach(ts[|ts| - 1])]
  {
  }

  /** The next call still waits once the earlier ones have been linked. */
  lemma StillWaits(s: State, m: State, done: seq<TaskId>, t: TaskId, o: RuntimeId)
    requires o in s.sessions && s.sessions[o].stage == Opened && AllWait(s, [t], o) && t !in done
    requires AllLinked(s, m, done, o) && OthersWait(s, m, done)
    ensures t in m.frames && m.frames[t].AwaitOpening? && m.frames[t].opening == o && m.frames[t] == s.frames[t] && t in s.frames
    ensures Listening(m, m.frames[t].conn) && o in m.sessions && m.sessions[o].stage == Opened
  {
    assert [t][0] == t && t in [t];
  }

  lemma RunTwice(s: State, steps: seq<Step>, first: Step, second: Step)
    ensures Run(s, steps + [first] + [second]) == Next(Next(Run(s, steps), first), second)
  {
    assert (steps + [first] + [second])[..|steps| + 1] == steps + [first];
    assert (steps + [first])[..|steps|] == steps;
  }

  lemma OneMoreLinked(s: State, m: State, r: State, done: seq<TaskId>, t: TaskId, o: RuntimeId)
    requires AllLinked(s, m, done, o) && OthersWait(s, m, done)
    requires t !in done && t in s.frames && s.frames[t].AwaitOpening? && s.frames[t].conn in m.conns
    requires var c := s.frames[t].conn;
             && r.sessions == m.sessions[o := m.sessions[o].(connections := m.sessions[o].connections + {c})]
             && r.conns == m.conns[c := m.conns[c].(sessionIds := m.conns[c].sessionIds + {m.sessions[o].id})]
             && r.frames == m.frames - {t}
    ensures AllLinked(s, r, done + [t], o) && OthersWait(s, r, done + [t])
  {
    var c := s.frames[t].conn;
    forall d ensures d in r.sessions[o].connections <==>
      d in s.sessions[o].connections || exists u :: u in done + [t] && u in s.frames && s.frames[u].AwaitOpening? && s.frames[u].conn == d
    {
      if d == c {
        assert t in done + [t];
      }
    }
  }

  // ----- Leaving, and the beginning of a dispose

  /** An open session that nobody is connected to and nothing runs on, idle or ending, of a server that is not closing. */
  predicate Unused(s: State, x: Session) {
    !s.closing && x.stage == Opened && !x.disposing && x.connections == {} && x.operationCount == 0 && (x.terminal || x.idle)
  }

  /** What a session that is reconsidered becomes: it is unsubscribed from and its dispose is called, if it is unused. */
  function Reconsidered(s: State, x: Session): Session {
    if Unused(s, x) then x.(subscribed := false, disposing := true, disposeCalls := x.disposeCalls + 1) else x
  }

  /** A detach unlinks the connection on both sides; those that are left are sent a snapshot, or else the session is
      reconsidered. */
  lemma DetachUnlinks(s: State, t: TaskId, c: ConnId, id: SessionId)
    requires Asks(s, t, c) && id in s.conns[c].sessionIds && id in s.live && s.live[id] in s.sessions
    ensures var (o, r) := (s.live[id], Next(s, SStartDetach(t, c, id)));
            var x := s.sessions[o].(connections := s.sessions[o].connections - {c});
            && r.conns == s.conns[c := s.conns[c].(sessionIds := s.conns[c].sessionIds - {id})]
            && c !in r.sessions[o].connections && r.live == s.live && r.opening == s.opening
            && if x.connections != {} && !x.terminal && !x.disposing
               then r.sessions == s.sessions[o := x] && r.frames == s.frames[t := DetachBroadcast(o)]
               else r.sessions == s.sessions[o := Reconsidered(s, x)] && r.frames == s.frames
  {
    var o := s.live[id];
    var x := s.sessions[o].(connections := s.sessions[o].connections - {c});
    var s1 := s.(conns := s.conns[c := s.conns[c].(sessionIds := s.conns[c].sessionIds - {id})]);
    ReconsideredIs(s, x);
    hide MaybeDispose, Reconsidered;
    assert Next(s, SStartDetach(t, c, id)) == Leave(s1, t, c, o);
  }

  lemma ReconsideredIs(s: State, x: Session)
    ensures Reconsidered(s, x) == MaybeDispose(s.closing, x) && Reconsidered(s, x).connections == x.connections
  {
  }

  /** A connection that does not list the session leaves everything as it is; a session that is not live is struck from
      the connection's list. */
  lemma DetachOfOthers(s: State, t: TaskId, c: ConnId, id: SessionId)
    requires Asks(s, t, c)
    ensures id !in s.conns[c].sessionIds ==> Next(s, SStartDetach(t, c, id)) == s
    ensures id in s.conns[c].sessionIds && id !in s.live ==>
              Next(s, SStartDetach(t, c, id))
              == s.(conns := s.conns[c := s.conns[c].(sessionIds := s.conns[c].sessionIds - {id})])
  {
  }

  /** After the snapshot the session is reconsidered; if the snapshot fails, the call is all that goes. */
  lemma DetachEnds(s: State, t: TaskId, failed: bool)
    requires t in s.frames && s.frames[t].DetachBroadcast? && s.frames[t].left in s.sessions
    ensures var o := s.frames[t].left;
            Next(s, SDetachResumes(t, failed))
            == s.(frames := s.frames - {t},
                  sessions := if failed then s.sessions else s.sessions[o := Reconsidered(s, s.sessions[o])])
  {
  }

  /** A connection that is gone is linked to nothing any more, and every session it was linked to is reconsidered. */
  lemma DisconnectUnlinks(s: State, c: ConnId)
    requires c in s.conns && !s.conns[c].disconnected
    ensures var r := Next(s, SDisconnect(c));
            && r.conns == s.conns[c := s.conns[c].(stage := Closed, disconnected := true, sessionIds := {})]
            && r.live == s.live && r.opening == s.opening && r.frames == s.frames && r.sessions.Keys == s.sessions.Keys
            && forall o :: o in s.sessions ==>
                 var x := s.sessions[o];
                 r.sessions[o] == if x.id in s.conns[c].sessionIds && x.id in s.live && s.live[x.id] == o
                                  then Reconsidered(s, x.(connections := x.connections - {c})) else x
  {
  }

  // ----- Operations

  /** A prompt, steer or abort runs exactly if the connection is attached and the session neither ends nor is being
      disposed of; otherwise nothing changes. */
  lemma OperationRuns(s: State, t: TaskId, c: ConnId, id: SessionId)
    requires Asks(s, t, c) && (id in s.live ==> s.live[id] in s.sessions)
    ensures var r := Next(s, SStartOperation(t, c, id));
            if id in s.conns[c].sessionIds && id in s.live && !s.sessions[s.live[id]].terminal && !s.sessions[s.live[id]].disposing
            then var (o, x) := (s.live[id], s.sessions[s.live[id]]);
                 r == s.(frames := s.frames[t := Operating(o)],
                         sessions := s.sessions[o := x.(operationCount := x.operationCount + 1)])
            else r == s
  {
  }

  /** When it is over, one operation less is running, and the session is reconsidered. */
  lemma OperationIsOver(steps: seq<Step>, t: TaskId)
    requires t in Run(INIT, steps).frames && Run(INIT, steps).frames[t].Operating?
    ensures var s := Run(INIT, steps); var o := s.frames[t].operated;
            && o in s.sessions && s.sessions[o].operationCount > 0
            && Next(s, SOperationEnds(t))
               == s.(frames := s.frames - {t},
                     sessions := s.sessions[o := Reconsidered(s, s.sessions[o].(operationCount := s.sessions[o].operationCount - 1))])
  {
    var s := Run(INIT, steps);
    var o := s.frames[t].operated;
    InvariantRun(steps);
    assert FrameOk(s, s.frames[t]);
    OperationsKeepAlive(steps, o);
    assert t in Operations(s, o) && s.sessions[o].operationCount == |Operations(s, o)|;
    hide Run, Invariant, Operations;
    EndsOne(s, t);
  }

  lemma EndsOne(s: State, t: TaskId)
    requires t in s.frames && s.frames[t].Operating? && s.frames[t].operated in s.sessions
    requires s.sessions[s.frames[t].operated].operationCount > 0
    ensures var o := s.frames[t].operated;
            Next(s, SOperationEnds(t))
            == s.(frames := s.frames - {t},
                  sessions := s.sessions[o := Reconsidered(s, s.sessions[o].(operationCount := s.sessions[o].operationCount - 1))])
  {
  }

  // ----- Events, errors, disposes

  /** An event is heard only while the server is subscribed; one that finds the session unused begins its dispose. */
  lemma EventReconsiders(s: State, o: RuntimeId, idle: bool)
    requires o in s.sessions
    ensures var x := s.sessions[o].(idle := idle || s.sessions[o].idle);
            Next(s, SEvent(o, idle)) == s.(sessions := s.sessions[o := if x.subscribed then Reconsidered(s, x) else x])
  {
  }

  /** The first error of a subscribed session makes it ending, and its connections are to be disconnected one by one. */
  lemma ErrorEndsSession(s: State, t: TaskId, o: RuntimeId)
    requires o in s.sessions && t !in s.frames && s.sessions[o].subscribed && !s.sessions[o].terminal
    ensures var r := Next(s, SRuntimeError(t, o));
            && r == s.(sessions := s.sessions[o := s.sessions[o].(terminal := true, subscribed := false)], frames := r.frames)
            && r.frames == s.frames[t := Terminating(o, s.sessions[o].connections)]
  {
  }

  lemma EndingDisconnects(s: State, t: TaskId, c: ConnId)
    requires t in s.frames && s.frames[t].Terminating?
    ensures c in s.frames[t].remaining ==>
              Next(s, STerminateDisconnects(t, c))
              == Next(s, SDisconnect(c)).(frames := s.frames[t := Terminating(s.frames[t].terminated, s.frames[t].remaining - {c})])
    ensures s.frames[t].remaining == {} && s.frames[t].terminated in s.sessions ==>
              var o := s.frames[t].terminated;
              Next(s, STerminateEnds(t))
              == s.(frames := s.frames - {t}, sessions := s.sessions[o := Reconsidered(s, s.sessions[o])])
  {
    hide MaybeDispose;
    if c in s.frames[t].remaining {
      assert Next(s, SDisconnect(c)).frames == s.frames;
    }
    Reconsiders(s, s.frames[t].terminated);
  }

  lemma Reconsiders(s: State, o: RuntimeId)
    ensures MaybeDispose(s.closing, Of(s, o)) == Reconsidered(s, Of(s, o))
  {
  }

  /** A session whose dispose has settled is no longer live, unless another took its place or the dispose was not its
      own doing. */
  lemma DisposedLeaves(s: State, o: RuntimeId, failed: bool)
    requires o in s.sessions && s.sessions[o].stage == Opened && s.sessions[o].disposeCalls > 0 && !s.sessions[o].settled
    ensures var (x, r) := (s.sessions[o], Next(s, SDisposeSettles(o, failed)));
            && r.sessions == s.sessions[o := x.(settled := true, disposeFailed := failed)]
            && r.live == (if x.disposing && x.id in s.live && s.live[x.id] == o then s.live - {x.id} else s.live)
            && r.frames == s.frames && r.conns == s.conns && r.opening == s.opening
  {
  }

  /** Once the openings have settled, closing disposes of every live session that is not being disposed of yet, and
      nothing is live any more. */
  lemma ClosingSweeps(s: State, t: TaskId)
    requires t in s.frames && s.frames[t].ClosingSessions? && s.frames[t].waiting <= s.sessions.Keys
    requires forall o :: o in s.frames[t].waiting ==> s.sessions[o].stage == Opened || s.sessions[o].stage == Failed
    ensures var r := Next(s, SCloseSweeps(t));
            && r.live == map[] && r.cleared && r.frames == s.frames - {t} && r.sessions.Keys == s.sessions.Keys
            && forall o :: o in s.sessions ==>
                 var x := s.sessions[o];
                 r.sessions[o] == if x.id in s.live && s.live[x.id] == o && !x.disposing
                                  then x.(subscribed := false, disposeCalls := x.disposeCalls + 1) else x
  {
  }
}
