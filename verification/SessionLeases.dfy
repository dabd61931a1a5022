/** The lease tables of pi/packages/client/src/client.ts as an object whose methods update its maps and sets, proved to
    be the steps of ClientLeases they stand for. */
module SessionLeasing {
  import Spec = ClientLeases
  import opened ClientLeases
  import opened ClientLeasesExclusion

  /** The generations of the sessions in `ids`, and only those, one further. */
  function Raised(generations: map<SessionId, nat>, ids: set<SessionId>): map<SessionId, nat> {
    map id | id in generations.Keys + ids ::
      if id in ids then (if id in generations then generations[id] else 0) + 1 else generations[id]
  }

  lemma RaisedOne(generations: map<SessionId, nat>, ids: set<SessionId>, id: SessionId)
    requires id !in ids
    ensures Raised(generations, ids + {id})
            == Raised(generations, ids)[id := (if id in Raised(generations, ids) then Raised(generations, ids)[id] else 0) + 1]
  {
  }

  lemma RaisedNone(generations: map<SessionId, nat>)
    ensures Raised(generations, {}) == generations
  {
  }

  lemma RaisedAll(s: State)
    ensures InvalidateAll(s).generations == Raised(s.generations, s.counts.Keys)
  {
  }

  /** Invalidation does not look at the connection, nor touch the requests. */
  lemma InvalidateIgnores(s: State)
    ensures InvalidateAll(s.(connected := false, attached := {})) == InvalidateAll(s).(connected := false, attached := {})
  {
    assert InvalidateAll(s.(connected := false, attached := {})).generations == InvalidateAll(s).generations;
  }

  lemma LeavesRequests(s: State)
    ensures InvalidateAll(s).promises == s.promises
  {
  }

  lemma NothingLeft<K, V>(m: map<K, V>)
    ensures m - m.Keys == map[]
  {
  }

  class SessionLeases {
    var connected: bool
    var disposed: bool
    var sessionLeaseCounts: map<SessionId, nat>
    var exclusiveSessionLeases: map<SessionId, TokenId>
    var sessionLeaseGenerations: map<SessionId, nat>
    var sessionCleanupRequired: set<SessionId>
    var attachedSessionIds: set<SessionId>
    var sessionAttachments: map<SessionId, PromiseId>
    var sessionDetachments: map<SessionId, PromiseId>
    var sessionReconciliations: map<SessionId, PromiseId>
    var promises: map<PromiseId, Promise>
    var nextPromise: nat
    var tokens: map<TokenId, Token>

    ghost function Abs(): State
      reads this
    {
      State(connected, disposed, sessionLeaseCounts, exclusiveSessionLeases, sessionLeaseGenerations, sessionCleanupRequired,
            attachedSessionIds, sessionAttachments, sessionDetachments, sessionReconciliations, promises, nextPromise, tokens)
    }

    constructor ()
      ensures Abs() == INIT
    {
      connected, disposed := false, false;
      sessionLeaseCounts, exclusiveSessionLeases, sessionLeaseGenerations := map[], map[], map[];
      sessionCleanupRequired, attachedSessionIds := {}, {};
      sessionAttachments, sessionDetachments, sessionReconciliations := map[], map[], map[];
      promises, nextPromise, tokens := map[], 0, map[];
    }

    // ----- Reserving and releasing

    method ReserveSessionLease(t: TokenId, id: SessionId, mode: Mode) returns (reserved: bool)
      requires t !in tokens
      modifies this`sessionLeaseCounts, this`exclusiveSessionLeases, this`tokens
      ensures reserved <==> MayReserve(old(Abs()), id, mode)
      ensures Abs() == if reserved then Reserve(old(Abs()), t, id, mode) else old(Abs())
    {
      var count := if id in sessionLeaseCounts then sessionLeaseCounts[id] else 0;
      if mode == Exclusive && count > 0 {
        return false;
      }
      if mode == Shared && id in exclusiveSessionLeases {
        return false;
      }
      tokens := tokens[t := Token(id, mode, Reserved, if id in sessionLeaseGenerations then sessionLeaseGenerations[id] else 0)];
      sessionLeaseCounts := sessionLeaseCounts[id := count + 1];
      if mode == Exclusive {
        exclusiveSessionLeases := exclusiveSessionLeases[id := t];
      }
      return true;
    }

    method ReleaseSessionLease(t: TokenId)
      requires t in tokens
      modifies this`sessionLeaseCounts, this`exclusiveSessionLeases, this`tokens
      ensures Abs() == ReleaseToken(old(Abs()), t)
    {
      var id := tokens[t].session;
      var count := if id in sessionLeaseCounts then sessionLeaseCounts[id] else 0;
      if count <= 1 {
        sessionLeaseCounts := sessionLeaseCounts - {id};
      } else {
        sessionLeaseCounts := sessionLeaseCounts[id := count - 1];
      }
      if id in exclusiveSessionLeases && exclusiveSessionLeases[id] == t {
        exclusiveSessionLeases := exclusiveSessionLeases - {id};
      }
      tokens := tokens[t := tokens[t].(stage := Done)];
    }

    method InvalidateSessionLeases(id: SessionId)
      modifies this`sessionLeaseCounts, this`exclusiveSessionLeases, this`sessionCleanupRequired, this`sessionLeaseGenerations
      ensures sessionLeaseCounts == old(sessionLeaseCounts) - {id} && exclusiveSessionLeases == old(exclusiveSessionLeases) - {id}
      ensures sessionCleanupRequired == old(sessionCleanupRequired) - {id}
      ensures sessionLeaseGenerations == old(sessionLeaseGenerations)[id := GenerationOf(old(Abs()), id) + 1]
    {
      sessionLeaseCounts := sessionLeaseCounts - {id};
      exclusiveSessionLeases := exclusiveSessionLeases - {id};
      sessionCleanupRequired := sessionCleanupRequired - {id};
      var generation := if id in sessionLeaseGenerations then sessionLeaseGenerations[id] else 0;
      sessionLeaseGenerations := sessionLeaseGenerations[id := generation + 1];
    }

    method InvalidateAllSessionLeases()
      modifies this`sessionLeaseCounts, this`exclusiveSessionLeases, this`sessionCleanupRequired, this`sessionLeaseGenerations
      ensures Abs() == InvalidateAll(old(Abs()))
    {
      hide Raised;
      var rest := sessionLeaseCounts.Keys;
      ghost var all := rest;
      ghost var done := {};
      RaisedNone(sessionLeaseGenerations);
      while rest != {}
        invariant rest <= all && done == all - rest
        invariant sessionLeaseCounts == old(sessionLeaseCounts) - done && exclusiveSessionLeases == old(exclusiveSessionLeases) - done
        invariant sessionLeaseGenerations == Raised(old(sessionLeaseGenerations), done)
      {
        var id :| id in rest;
        RaisedOne(old(sessionLeaseGenerations), done, id);
        InvalidateSessionLeases(id);
        rest := rest - {id};
        done := done + {id};
      }
      sessionCleanupRequired := {};
      RaisedAll(old(Abs()));
      NothingLeft(old(sessionLeaseCounts));
    }

    // ----- Requests

    method Request(kind: Kind, id: SessionId) returns (promise: PromiseId)
      modifies this`promises, this`nextPromise
      ensures Abs() == Spec.Request(old(Abs()), kind, id) && promise == old(nextPromise)
    {
      promise := nextPromise;
      if disposed || !connected {
        promises := promises[promise := Promise(kind, id, Rejected)];
      } else {
        promises := promises[promise := Promise(kind, id, Pending)];
      }
      nextPromise := nextPromise + 1;
    }

    /** The server has answered the request behind `p`. */
    method HandleResponse(p: PromiseId, ok: bool)
      requires p in promises && promises[p].settlement == Pending
      modifies this`promises, this`attachedSessionIds, this`sessionCleanupRequired, this`sessionReconciliations
      ensures Abs() == Settle(old(Abs()), p, ok)
    {
      var request := promises[p];
      promises := promises[p := request.(settlement := if ok then Fulfilled else Rejected)];
      if ok {
        if request.kind == Attach {
          attachedSessionIds := attachedSessionIds + {request.session};
        } else {
          attachedSessionIds := attachedSessionIds - {request.session};
        }
      }
      if request.kind == Reconcile {
        if ok {
          sessionCleanupRequired := sessionCleanupRequired - {request.session};
        }
        sessionReconciliations := sessionReconciliations - {request.session};
      }
    }

    // ----- acquireSession

    method CreateSessionLease(t: TokenId)
      requires t in tokens
      modifies this`tokens, this`sessionLeaseGenerations
      ensures Abs() == CreateLease(old(Abs()), t)
    {
      var id := tokens[t].session;
      var generation := if id in sessionLeaseGenerations then sessionLeaseGenerations[id] else 0;
      sessionLeaseGenerations := sessionLeaseGenerations[id := generation];
      tokens := tokens[t := tokens[t].(stage := Active(generation))];
    }

    method Wait(t: TokenId, stage: Stage)
      requires t in tokens
      modifies this`tokens
      ensures Abs() == At(old(Abs()), t, stage)
    {
      tokens := tokens[t := tokens[t].(stage := stage)];
    }

    method AttachUnlessAttached(t: TokenId, reconciled: bool)
      requires t in tokens
      modifies this`tokens, this`sessionLeaseGenerations, this`sessionAttachments, this`promises, this`nextPromise
      ensures Abs() == ThenAttach(old(Abs()), t, reconciled)
    {
      var id := tokens[t].session;
      if !reconciled && id in attachedSessionIds {
        CreateSessionLease(t);
      } else if id in sessionAttachments {
        Wait(t, AwaitingAttach(sessionAttachments[id]));
      } else {
        var attachment := Request(Attach, id);
        sessionAttachments := sessionAttachments[id := attachment];
        Wait(t, AwaitingAttach(attachment));
      }
    }

    method ReconcileSessionCleanup(t: TokenId)
      requires t in tokens
      modifies this`tokens, this`sessionLeaseGenerations, this`sessionAttachments, this`sessionReconciliations
      modifies this`promises, this`nextPromise
      ensures Abs() == ThenCleanUp(old(Abs()), t)
    {
      var id := tokens[t].session;
      if id !in sessionCleanupRequired {
        AttachUnlessAttached(t, false);
      } else if id in sessionReconciliations {
        Wait(t, AwaitingCleanup(sessionReconciliations[id]));
      } else {
        var reconciliation := Request(Reconcile, id);
        if connected && !disposed {
          sessionReconciliations := sessionReconciliations[id := reconciliation];
        }
        Wait(t, AwaitingCleanup(reconciliation));
      }
    }

    /** acquireSession, up to its first await; it fails if the client is disposed or the lease cannot be reserved. */
    method AcquireSession(t: TokenId, id: SessionId, mode: Mode) returns (reserved: bool)
      requires t !in tokens
      modifies this
      ensures Abs() == Acquire(old(Abs()), t, id, mode)
      ensures reserved <==> !disposed && MayReserve(old(Abs()), id, mode)
    {
      if disposed {
        return false;
      }
      reserved := ReserveSessionLease(t, id, mode);
      if reserved {
        if id in sessionDetachments {
          Wait(t, AwaitingDetach(sessionDetachments[id]));
        } else {
          ReconcileSessionCleanup(t);
        }
      }
    }

    /** createSession, when its response is there. */
    method CreateSession(t: TokenId, id: SessionId)
      requires t !in tokens
      modifies this
      ensures Abs() == Created(old(Abs()), t, id)
    {
      var reserved := ReserveSessionLease(t, id, Exclusive);
      if reserved {
        CreateSessionLease(t);
      }
    }

    /** The rest of acquireSession or release, when the promise it waits for has settled. */
    method Resume(t: TokenId)
      requires t in tokens && Waiting(Abs(), t) && PromiseOf(Abs(), tokens[t].stage.on).settlement != Pending
      modifies this
      ensures Abs() == Spec.Resume(old(Abs()), t)
    {
      var ok := tokens[t].stage.on in promises && promises[tokens[t].stage.on].settlement == Fulfilled;
      var id := tokens[t].session;
      match tokens[t].stage {
        case AwaitingDetach(_) => ReconcileSessionCleanup(t);
        case AwaitingCleanup(_) =>
          if ok {
            AttachUnlessAttached(t, true);
          } else {
            ReleaseSessionLease(t);
          }
        case AwaitingAttach(attachment) =>
          if id in sessionAttachments && sessionAttachments[id] == attachment {
            sessionAttachments := sessionAttachments - {id};
          }
          if ok {
            CreateSessionLease(t);
          } else {
            ReleaseSessionLease(t);
          }
        case Releasing(_, detachment, _) =>
          if id in sessionDetachments && sessionDetachments[id] == detachment {
            sessionDetachments := sessionDetachments - {id};
          }
          DetachSettled(t, ok);
      }
    }

    // ----- release

    method ReleaseLease(t: TokenId, relinquish: bool)
      requires t in tokens
      modifies this
      ensures Abs() == Release(old(Abs()), t, relinquish)
    {
      var id := tokens[t].session;
      var generation := if id in sessionLeaseGenerations then sessionLeaseGenerations[id] else 0;
      if disposed || !connected || !tokens[t].stage.Active? || tokens[t].stage.generation != generation || id !in attachedSessionIds {
        return;
      }
      var count := if id in sessionLeaseCounts then sessionLeaseCounts[id] else 0;
      if count <= 1 {
        var detachment := Request(Detach, id);
        sessionDetachments := sessionDetachments[id := detachment];
        Wait(t, Releasing(generation, detachment, relinquish));
      } else {
        ReleaseSessionLease(t);
      }
    }

    method DetachSettled(t: TokenId, ok: bool)
      requires t in tokens && tokens[t].stage.Releasing?
      modifies this
      ensures Abs() == DetachResumes(old(Abs()), t, ok)
    {
      var lease := tokens[t];
      var generation := if lease.session in sessionLeaseGenerations then sessionLeaseGenerations[lease.session] else 0;
      if ok {
        ReleaseSessionLease(t);
      } else if lease.stage.generation != generation {
        Wait(t, Done);
      } else if lease.stage.relinquish {
        ReleaseSessionLease(t);
        sessionCleanupRequired := sessionCleanupRequired + {lease.session};
      } else {
        Wait(t, Active(lease.stage.generation));
      }
    }

    // ----- Connection

    method HandleConnected()
      requires !connected && !disposed
      modifies this`connected, this`attachedSessionIds
      ensures Abs() == Connect(old(Abs()))
    {
      attachedSessionIds := {};
      connected := true;
    }

    /** The server's snapshots of sessions say which of them the client is attached to. */
    method ApplyEvents(attached: set<SessionId>)
      requires connected
      modifies this`attachedSessionIds
      ensures Abs() == Event(old(Abs()), attached)
    {
      attachedSessionIds := attached;
    }

    /** handleConnectionStateChange, when the connection is gone. */
    method HandleDisconnected()
      requires connected
      modifies this
      ensures Abs() == Disconnect(old(Abs()))
    {
      hide InvalidateAll;
      InvalidateIgnores(Abs());
      connected := false;
      attachedSessionIds := {};
      InvalidateAllSessionLeases();
      RejectPendingRequests();
      sessionReconciliations := map[];
      LeavesRequests(old(Abs()));
    }

    method Dispose()
      modifies this
      ensures Abs() == Spec.Dispose(old(Abs()))
    {
      if connected {
        HandleDisconnected();
      }
      attachedSessionIds := {};
      InvalidateAllSessionLeases();
      disposed := true;
    }

    method RejectPendingRequests()
      modifies this`promises
      ensures promises == map p | p in old(promises) ::
                            if old(promises)[p].settlement == Pending then old(promises)[p].(settlement := Rejected) else old(promises)[p]
    {
      var rest := set p | p in promises && promises[p].settlement == Pending;
      while rest != {}
        invariant promises.Keys == old(promises).Keys && rest <= promises.Keys
        invariant forall p :: p in promises ==>
                    if p in rest then promises[p] == old(promises)[p] && promises[p].settlement == Pending
                    else promises[p] == if old(promises)[p].settlement == Pending then old(promises)[p].(settlement := Rejected)
                                        else old(promises)[p]
      {
        var p :| p in rest;
        promises := promises[p := promises[p].(settlement := Rejected)];
        rest := rest - {p};
      }
    }
  }

  /** One step; it does nothing where it is not possible. */
  method Take(leases: SessionLeases, step: Step)
    modifies leases
    ensures leases.Abs() == Next(old(leases.Abs()), step)
  {
    hide Acquire, Created, Spec.Resume, Release, Disconnect, Spec.Dispose;
    match step
    case SAcquire(t, id, mode) => TakeAcquire(leases, t, id, mode);
    case SCreated(t, id) => TakeCreated(leases, t, id);
    case SResume(t) => TakeResume(leases, t);
    case SRelease(t, relinquish) => TakeRelease(leases, t, relinquish);
    case SSettle(p, ok) =>
      if p in leases.promises && leases.promises[p].settlement == Pending {
        leases.HandleResponse(p, ok);
      }
    case SEvent(attached) =>
      if leases.connected {
        leases.ApplyEvents(attached);
      }
    case SConnect =>
      if !leases.connected && !leases.disposed {
        leases.HandleConnected();
      }
    case SDisconnect => TakeDisconnect(leases);
    case SDispose => leases.Dispose();
  }

  method TakeAcquire(leases: SessionLeases, t: TokenId, id: SessionId, mode: Mode)
    modifies leases
    ensures leases.Abs() == Acquire(old(leases.Abs()), t, id, mode)
  {
    if t !in leases.tokens {
      var _ := leases.AcquireSession(t, id, mode);
    }
  }

  method TakeCreated(leases: SessionLeases, t: TokenId, id: SessionId)
    modifies leases
    ensures leases.Abs() == Created(old(leases.Abs()), t, id)
  {
    if t !in leases.tokens {
      leases.CreateSession(t, id);
    }
  }

  method TakeResume(leases: SessionLeases, t: TokenId)
    modifies leases
    ensures leases.Abs() == Spec.Resume(old(leases.Abs()), t)
  {
    if t in leases.tokens {
      var stage := leases.tokens[t].stage;
      if !stage.Reserved? && !stage.Done? && !stage.Active?
         && (stage.on !in leases.promises || leases.promises[stage.on].settlement != Pending) {
        leases.Resume(t);
      }
    }
  }

  method TakeRelease(leases: SessionLeases, t: TokenId, relinquish: bool)
    modifies leases
    ensures leases.Abs() == Release(old(leases.Abs()), t, relinquish)
  {
    if t in leases.tokens {
      leases.ReleaseLease(t, relinquish);
    }
  }

  method TakeDisconnect(leases: SessionLeases)
    modifies leases
    ensures leases.Abs() == Disconnect(old(leases.Abs()))
  {
    if leases.connected {
      leases.HandleDisconnected();
    }
  }

  /** A client's lease tables, driven by any sequence of steps: they are in the state of the run, and keep the invariant
      all along exactly if every call goes on when it is safe. */
  method Serve(steps: seq<Step>) returns (leases: SessionLeases, ghost states: seq<State>)
    ensures fresh(leases) && leases.Abs() == Run(INIT, steps)
    ensures |states| == |steps| + 1 && states[|steps|] == leases.Abs()
    ensures (forall s :: s in states ==> Invariant(s)) <==> SafeRun(steps)
  {
    hide Next, Invariant, SafeRun;
    leases := new SessionLeases();
    states := [leases.Abs()];
    for i := 0 to |steps|
      invariant fresh(leases) && leases.Abs() == Run(INIT, steps[..i]) && |states| == i + 1
      invariant forall n :: 0 <= n <= i ==> states[n] == Run(INIT, steps[..n])
    {
      assert steps[..i + 1][..i] == steps[..i];
      Take(leases, steps[i]);
      states := states + [leases.Abs()];
    }
    assert steps[..|steps|] == steps;
    InvariantIffSafeRun(steps);
  }
}
