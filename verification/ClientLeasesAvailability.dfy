/** What a client that asks for a lease gets, and what becomes of it, in every safe run. */
module ClientLeasesAvailability {
  import opened ClientLeases
  import opened ClientLeasesExclusion

  // ----- Whether a lease can be reserved

  lemma SharedIff(s: State, id: SessionId)
    requires Invariant(s)
    ensures id !in s.exclusive <==> forall u: TokenId :: Holds(s, u, id) ==> s.tokens[u].mode != Exclusive
  {
    assert ExclusiveOk(s, id);
    if id in s.exclusive {
      assert Holds(s, s.exclusive[id], id);
    }
  }

  lemma ExclusiveIff(s: State, id: SessionId)
    requires Invariant(s)
    ensures CountOf(s, id) == 0 <==> Outstanding(s, id) == {}
  {
  }

  /** Token `t` is new, a reservation of `id`, and all that has changed about tokens and generations. */
  ghost predicate Enters(s: State, r: State, t: TokenId, id: SessionId, mode: Mode) {
    && t in r.tokens && r.tokens == s.tokens[t := r.tokens[t]] && r.tokens[t].session == id && r.tokens[t].mode == mode
    && !r.tokens[t].stage.Done? && r.tokens[t].reservedAt == GenerationOf(s, id)
    && forall i :: GenerationOf(r, i) == GenerationOf(s, i)
  }

  lemma ReserveEnters(s: State, t: TokenId, id: SessionId, mode: Mode)
    requires t !in s.tokens
    ensures Enters(s, Reserve(s, t, id, mode), t, id, mode)
  {
  }

  lemma AtEnters(s: State, m: State, t: TokenId, id: SessionId, mode: Mode, stage: Stage)
    requires Enters(s, m, t, id, mode) && !stage.Done?
    ensures Enters(s, At(m, t, stage), t, id, mode)
  {
    assert m.tokens[t := m.tokens[t].(stage := stage)] == s.tokens[t := m.tokens[t].(stage := stage)];
  }

  lemma SameEnters(s: State, m: State, r: State, t: TokenId, id: SessionId, mode: Mode)
    requires Enters(s, m, t, id, mode) && r.tokens == m.tokens && forall i :: GenerationOf(r, i) == GenerationOf(m, i)
    ensures Enters(s, r, t, id, mode)
  {
  }

  lemma CreateLeaseActivates(m: State, t: TokenId)
    ensures var r := CreateLease(m, t);
            && r.tokens == At(m, t, Active(GenerationOf(m, Of(m, t).session))).tokens
            && forall i :: GenerationOf(r, i) == GenerationOf(m, i)
  {
  }

  lemma CreateLeaseEnters(s: State, m: State, t: TokenId, id: SessionId, mode: Mode)
    requires Enters(s, m, t, id, mode)
    ensures Enters(s, CreateLease(m, t), t, id, mode)
  {
    assert Of(m, t).session == id;
    CreateLeaseActivates(m, t);
    hide CreateLease;
    AtEnters(s, m, t, id, mode, Active(GenerationOf(m, id)));
    SameEnters(s, At(m, t, Active(GenerationOf(m, id))), CreateLease(m, t), t, id, mode);
  }

  lemma NewAttachmentEnters(s: State, m: State, t: TokenId, id: SessionId, mode: Mode)
    requires Enters(s, m, t, id, mode)
    ensures Enters(s, NewAttachment(m, t), t, id, mode)
  {
    assert Of(m, t).session == id;
    hide Enters, At;
    var n := Request(m, Attach, id).(attachments := m.attachments[id := m.nextPromise]);
    SameEnters(s, m, n, t, id, mode);
    AtEnters(s, n, t, id, mode, AwaitingAttach(m.nextPromise));
  }

  lemma ThenAttachEnters(s: State, m: State, t: TokenId, id: SessionId, mode: Mode)
    requires Enters(s, m, t, id, mode)
    ensures Enters(s, ThenAttach(m, t, false), t, id, mode)
  {
    assert Of(m, t).session == id;
    hide Enters, At, CreateLease, NewAttachment;
    if id in m.attached {
      CreateLeaseEnters(s, m, t, id, mode);
    } else if id in m.attachments {
      AtEnters(s, m, t, id, mode, AwaitingAttach(m.attachments[id]));
    } else {
      NewAttachmentEnters(s, m, t, id, mode);
    }
  }

  lemma ThenCleanUpEnters(s: State, m: State, t: TokenId, id: SessionId, mode: Mode)
    requires Enters(s, m, t, id, mode)
    ensures Enters(s, ThenCleanUp(m, t), t, id, mode)
  {
    assert Of(m, t).session == id;
    hide Enters, ThenAttach;
    if id !in m.cleanup {
      ThenAttachEnters(s, m, t, id, mode);
    } else if id in m.reconciliations {
      AtEnters(s, m, t, id, mode, AwaitingCleanup(m.reconciliations[id]));
    } else {
      var n := Request(m, Reconcile, id).(
        reconciliations := if m.connected && !m.disposed then m.reconciliations[id := m.nextPromise] else m.reconciliations);
      SameEnters(s, m, n, t, id, mode);
      AtEnters(s, n, t, id, mode, AwaitingCleanup(m.nextPromise));
    }
  }

  lemma AcquireEnters(s: State, t: TokenId, id: SessionId, mode: Mode)
    requires t !in s.tokens && !s.disposed && MayReserve(s, id, mode)
    ensures Enters(s, Acquire(s, t, id, mode), t, id, mode)
  {
    var m := Reserve(s, t, id, mode);
    ReserveEnters(s, t, id, mode);
    hide Enters, Reserve, ThenCleanUp;
    if id in s.detachments {
      AtEnters(s, m, t, id, mode, AwaitingDetach(s.detachments[id]));
    } else {
      ThenCleanUpEnters(s, m, t, id, mode);
    }
  }

  lemma CreatedEnters(s: State, t: TokenId, id: SessionId)
    requires t !in s.tokens && MayReserve(s, id, Exclusive)
    ensures Enters(s, Created(s, t, id), t, id, Exclusive)
  {
    var m := Reserve(s, t, id, Exclusive);
    ReserveEnters(s, t, id, Exclusive);
    hide Enters, Reserve, CreateLease;
    CreateLeaseEnters(s, m, t, id, Exclusive);
  }

  /** An accepted reservation comes on top of the others, which stay. */
  ghost predicate Accepted(s: State, r: State, t: TokenId, id: SessionId, mode: Mode) {
    && t in r.tokens && r.tokens[t].mode == mode && Outstanding(r, id) == Outstanding(s, id) + {t}
    && (forall i :: i != id ==> Outstanding(r, i) == Outstanding(s, i))
    && forall u :: u in s.tokens ==> u in r.tokens && r.tokens[u] == s.tokens[u]
  }

  lemma EntersIsAccepted(s: State, r: State, t: TokenId, id: SessionId, mode: Mode)
    requires t !in s.tokens && Enters(s, r, t, id, mode)
    ensures Accepted(s, r, t, id, mode)
  {
    forall i, u: TokenId ensures Holds(r, u, i) <==> Holds(s, u, i) || (i == id && u == t) {
    }
    forall i, u: TokenId ensures u in Outstanding(r, i) <==> u in Outstanding(s, i) || (i == id && u == t) {
      OutstandingAre(s, i);
      OutstandingAre(r, i);
    }
    hide Outstanding, Holds;
  }

  /** A shared lease is reserved exactly if no outstanding reservation of the session is exclusive. Refused, nothing
      changes. */
  lemma SharedUnlessExclusive(steps: seq<Step>, t: TokenId, id: SessionId)
    requires SafeRun(steps) && t !in Run(INIT, steps).tokens && !Run(INIT, steps).disposed
    ensures var (s, r) := (Run(INIT, steps), Run(INIT, steps + [SAcquire(t, id, Shared)]));
            if forall u: TokenId :: u in Outstanding(s, id) ==> s.tokens[u].mode != Exclusive then Accepted(s, r, t, id, Shared)
            else r == s && t !in Outstanding(r, id)
  {
    RunAppend(steps, SAcquire(t, id, Shared));
    hide Run;
    var s := Run(INIT, steps);
    InvariantRun(steps);
    SharedIff(s, id);
    OutstandingAre(s, id);
    hide Accepted, Outstanding, Invariant;
    if id !in s.exclusive {
      hide Acquire;
      AcquireEnters(s, t, id, Shared);
      EntersIsAccepted(s, Acquire(s, t, id, Shared), t, id, Shared);
    }
  }

  /** An exclusive lease is reserved exactly if no reservation of the session is outstanding. Refused, nothing changes. */
  lemma ExclusiveIfFree(steps: seq<Step>, t: TokenId, id: SessionId)
    requires SafeRun(steps) && t !in Run(INIT, steps).tokens && !Run(INIT, steps).disposed
    ensures var (s, r) := (Run(INIT, steps), Run(INIT, steps + [SAcquire(t, id, Exclusive)]));
            if Outstanding(s, id) == {} then Accepted(s, r, t, id, Exclusive) else r == s && t !in Outstanding(r, id)
  {
    RunAppend(steps, SAcquire(t, id, Exclusive));
    hide Run;
    var s := Run(INIT, steps);
    InvariantRun(steps);
    ExclusiveIff(s, id);
    OutstandingAre(s, id);
    hide Accepted, Outstanding, Invariant;
    if CountOf(s, id) == 0 {
      hide Acquire;
      AcquireEnters(s, t, id, Exclusive);
      EntersIsAccepted(s, Acquire(s, t, id, Exclusive), t, id, Exclusive);
    }
  }

  /** So is the lease of a session that has just been created. */
  lemma CreatedIfFree(steps: seq<Step>, t: TokenId, id: SessionId)
    requires SafeRun(steps) && t !in Run(INIT, steps).tokens
    ensures var (s, r) := (Run(INIT, steps), Run(INIT, steps + [SCreated(t, id)]));
            if Outstanding(s, id) == {} then Accepted(s, r, t, id, Exclusive) else r == s && t !in Outstanding(r, id)
  {
    RunAppend(steps, SCreated(t, id));
    hide Run;
    var s := Run(INIT, steps);
    InvariantRun(steps);
    ExclusiveIff(s, id);
    OutstandingAre(s, id);
    hide Accepted, Outstanding, Invariant;
    if CountOf(s, id) == 0 {
      hide Created;
      CreatedEnters(s, t, id);
      EntersIsAccepted(s, Created(s, t, id), t, id, Exclusive);
    }
  }

  /** A client that has been disposed of leases nothing. */
  lemma DisposedRefuses(steps: seq<Step>, t: TokenId, id: SessionId, mode: Mode)
    requires Run(INIT, steps).disposed
    ensures Run(INIT, steps + [SAcquire(t, id, mode)]) == Run(INIT, steps)
  {
    RunAppend(steps, SAcquire(t, id, mode));
    hide Run;
  }

  // ----- What becomes of it

  lemma RunTwice(steps: seq<Step>, a: Step, b: Step)
    ensures Run(INIT, steps + [a, b]) == Next(Next(Run(INIT, steps), a), b)
  {
    assert steps + [a, b] == steps + [a] + [b];
    hide Next;
    RunAppend(steps, a);
    RunAppend(steps + [a], b);
  }

  /** Nothing is in the way of a lease of this session: no detach is under way, none has failed. */
  predicate Clear(s: State, id: SessionId) {
    id !in s.detachments && id !in s.cleanup
  }

  lemma AcquireWhenClear(s: State, t: TokenId, id: SessionId, mode: Mode)
    requires t !in s.tokens && Clear(s, id) && t in Acquire(s, t, id, mode).tokens
    ensures Acquire(s, t, id, mode) == ThenAttach(Reserve(s, t, id, mode), t, false)
  {
    hide ThenAttach;
  }

  /** A lease of a session the client is attached to is active at once, without a request. */
  lemma ActiveAtOnce(steps: seq<Step>, t: TokenId, id: SessionId, mode: Mode)
    requires t !in Run(INIT, steps).tokens && t in Run(INIT, steps + [SAcquire(t, id, mode)]).tokens
    requires Clear(Run(INIT, steps), id) && id in Run(INIT, steps).attached
    ensures var (s, r) := (Run(INIT, steps), Run(INIT, steps + [SAcquire(t, id, mode)]));
            r.tokens[t].stage == Active(GenerationOf(r, id)) && IsActive(r, t) && r.promises == s.promises
  {
    RunAppend(steps, SAcquire(t, id, mode));
    hide Run;
    AcquireWhenClear(Run(INIT, steps), t, id, mode);
    hide Acquire;
  }

  lemma NewAttachmentWaits(m: State, t: TokenId)
    requires t in m.tokens
    ensures var (r, id) := (NewAttachment(m, t), m.tokens[t].session);
            && t in r.tokens && id in r.attachments && r.tokens[t].stage == AwaitingAttach(r.attachments[id])
            && r.cleanup == m.cleanup && r.reconciliations == m.reconciliations && r.attachments[id] == m.nextPromise
            && r.promises == m.promises[m.nextPromise := Promise(Attach, id, if m.connected && !m.disposed then Pending else Rejected)]
  {
  }

  lemma ThenAttachWaits(m: State, t: TokenId, reconciled: bool)
    requires t in m.tokens && (reconciled || m.tokens[t].session !in m.attached)
    ensures var (r, id) := (ThenAttach(m, t, reconciled), m.tokens[t].session);
            && t in r.tokens && id in r.attachments && r.tokens[t].stage == AwaitingAttach(r.attachments[id])
            && r.cleanup == m.cleanup && r.reconciliations == m.reconciliations
            && (id in m.attachments ==> r.attachments == m.attachments && r.promises == m.promises)
            && (id !in m.attachments ==>
                  && r.attachments[id] == m.nextPromise
                  && r.promises ==
                     m.promises[m.nextPromise := Promise(Attach, id, if m.connected && !m.disposed then Pending else Rejected)])
  {
    hide NewAttachment, CreateLease;
    NewAttachmentWaits(m, t);
  }

  lemma ReserveLeaves(s: State, t: TokenId, id: SessionId, mode: Mode)
    ensures var m := Reserve(s, t, id, mode);
            && m == s.(counts := m.counts, exclusive := m.exclusive, tokens := m.tokens)
            && t in m.tokens && m.tokens[t].session == id
  {
  }

  /** Otherwise it waits for an attach: the one that is under way, or a new request. */
  lemma WaitsForAttach(steps: seq<Step>, t: TokenId, id: SessionId, mode: Mode)
    requires t !in Run(INIT, steps).tokens && t in Run(INIT, steps + [SAcquire(t, id, mode)]).tokens
    requires Clear(Run(INIT, steps), id) && id !in Run(INIT, steps).attached
    ensures var (s, r) := (Run(INIT, steps), Run(INIT, steps + [SAcquire(t, id, mode)]));
            && id in r.attachments && r.tokens[t].stage == AwaitingAttach(r.attachments[id])
            && if id in s.attachments then r.attachments == s.attachments && r.promises == s.promises
               else r.attachments[id] == s.nextPromise
                    && r.promises == s.promises[s.nextPromise := Promise(Attach, id, if s.connected then Pending else Rejected)]
  {
    RunAppend(steps, SAcquire(t, id, mode));
    hide Run;
    var s := Run(INIT, steps);
    AcquireWhenClear(s, t, id, mode);
    ReserveLeaves(s, t, id, mode);
    assert !s.disposed;
    hide Acquire, Reserve, ThenAttach;
    ThenAttachWaits(Reserve(s, t, id, mode), t, false);
  }

  /** Token `t` waits for the pending promise `p` of its session. */
  predicate WaitsFor(s: State, t: TokenId, p: PromiseId, kind: Kind) {
    && t in s.tokens && p in s.promises && s.promises[p] == Promise(kind, s.tokens[t].session, Pending)
    && match kind
       case Attach => s.tokens[t].stage == AwaitingAttach(p)
       case Reconcile => s.tokens[t].stage == AwaitingCleanup(p)
       case Detach => s.tokens[t].stage.Releasing? && s.tokens[t].stage.on == p
  }

  /** Once the session has been attached to, the lease is active. */
  lemma AttachSucceeds(steps: seq<Step>, t: TokenId, p: PromiseId)
    requires WaitsFor(Run(INIT, steps), t, p, Attach)
    ensures var (s, r) := (Run(INIT, steps), Run(INIT, steps + [SSettle(p, true), SResume(t)]));
            && t in r.tokens && var id := s.tokens[t].session;
            && r.tokens[t].session == id && r.tokens[t].stage == Active(GenerationOf(r, id)) && id in r.attached && IsActive(r, t)
  {
    RunTwice(steps, SSettle(p, true), SResume(t));
    hide Run;
  }

  lemma SettleLeaves(s: State, p: PromiseId, ok: bool)
    ensures var m := Settle(s, p, ok);
            m.tokens == s.tokens && m.counts == s.counts && m.exclusive == s.exclusive && m.generations == s.generations
  {
  }

  lemma ReleasedLeaves(s: State, r: State, t: TokenId, id: SessionId)
    requires t in s.tokens && s.tokens[t].session == id && r.generations == s.generations
    requires r.tokens == s.tokens[t := s.tokens[t].(stage := Done)]
    ensures Outstanding(r, id) == Outstanding(s, id) - {t}
  {
    forall u: TokenId ensures u in Outstanding(r, id) <==> u in Outstanding(s, id) && u != t {
    }
  }

  /** If it has not, the reservation is given back. */
  lemma AttachFails(steps: seq<Step>, t: TokenId, p: PromiseId)
    requires WaitsFor(Run(INIT, steps), t, p, Attach)
    ensures var (s, r) := (Run(INIT, steps), Run(INIT, steps + [SSettle(p, false), SResume(t)]));
            && t in r.tokens && var id := s.tokens[t].session;
            && r.tokens[t].stage == Done && Outstanding(r, id) == Outstanding(s, id) - {t}
  {
    RunTwice(steps, SSettle(p, false), SResume(t));
    hide Run, Outstanding;
    var (s, r) := (Run(INIT, steps), Run(INIT, steps + [SSettle(p, false), SResume(t)]));
    var m := Settle(s, p, false);
    SettleLeaves(s, p, false);
    assert PromiseOf(m, p).settlement == Rejected;
    hide Settle;
    ReleasedLeaves(s, r, t, s.tokens[t].session);
  }

  /** A lease that is reserved while a detach is under way waits for it. */
  lemma WaitsForDetach(steps: seq<Step>, t: TokenId, id: SessionId, mode: Mode)
    requires t !in Run(INIT, steps).tokens && t in Run(INIT, steps + [SAcquire(t, id, mode)]).tokens
    requires id in Run(INIT, steps).detachments
    ensures var (s, r) := (Run(INIT, steps), Run(INIT, steps + [SAcquire(t, id, mode)]));
            r.tokens[t].stage == AwaitingDetach(s.detachments[id]) && r.promises == s.promises
  {
    RunAppend(steps, SAcquire(t, id, mode));
    hide Run;
  }

  lemma NewReconciliationWaits(m: State, t: TokenId)
    requires t in m.tokens && !m.disposed
    ensures var (r, id) := (NewReconciliation(m, t), m.tokens[t].session);
            && t in r.tokens && r.tokens[t].stage == AwaitingCleanup(m.nextPromise)
            && r.promises == m.promises[m.nextPromise := Promise(Reconcile, id, if m.connected then Pending else Rejected)]
            && (m.connected ==> id in r.reconciliations && r.reconciliations[id] == m.nextPromise)
  {
  }

  /** A lease of a session whose detach has failed waits for its clean-up: the one that is under way, or a new request. */
  lemma WaitsForCleanUp(steps: seq<Step>, t: TokenId, id: SessionId, mode: Mode)
    requires t !in Run(INIT, steps).tokens && t in Run(INIT, steps + [SAcquire(t, id, mode)]).tokens
    requires id !in Run(INIT, steps).detachments && id in Run(INIT, steps).cleanup
    ensures var (s, r) := (Run(INIT, steps), Run(INIT, steps + [SAcquire(t, id, mode)]));
            && (id in s.reconciliations ==>
                  r.tokens[t].stage == AwaitingCleanup(s.reconciliations[id]) && r.promises == s.promises)
            && (id !in s.reconciliations ==>
                  && r.tokens[t].stage == AwaitingCleanup(s.nextPromise)
                  && r.promises == s.promises[s.nextPromise := Promise(Reconcile, id, if s.connected then Pending else Rejected)]
                  && (s.connected ==> id in r.reconciliations && r.reconciliations[id] == s.nextPromise))
  {
    RunAppend(steps, SAcquire(t, id, mode));
    hide Run;
    var s := Run(INIT, steps);
    var m := Reserve(s, t, id, mode);
    assert Acquire(s, t, id, mode) == ThenCleanUp(m, t) && !s.disposed by {
      hide ThenCleanUp, Reserve;
    }
    ReserveLeaves(s, t, id, mode);
    hide Acquire, Reserve, ThenAttach, NewReconciliation;
    NewReconciliationWaits(m, t);
  }

  /** Once cleaned up, the session is attached to anew, even if the client takes itself to be attached. */
  lemma AttachesAfterCleanUp(steps: seq<Step>, t: TokenId, p: PromiseId)
    requires WaitsFor(Run(INIT, steps), t, p, Reconcile)
    ensures var (s, r) := (Run(INIT, steps), Run(INIT, steps + [SSettle(p, true), SResume(t)]));
            && t in r.tokens && var id := s.tokens[t].session;
            && id !in r.cleanup && id !in r.reconciliations
            && id in r.attachments && r.tokens[t].stage == AwaitingAttach(r.attachments[id])
  {
    RunTwice(steps, SSettle(p, true), SResume(t));
    hide Run;
    var s := Run(INIT, steps);
    var m := Settle(s, p, true);
    var id := s.tokens[t].session;
    assert m.tokens == s.tokens && PromiseOf(m, p).settlement == Fulfilled && id !in m.cleanup && id !in m.reconciliations;
    hide Settle, ThenAttach;
    assert Resume(m, t) == ThenAttach(m, t, true);
    hide Resume;
    ThenAttachWaits(m, t, true);
  }

  /** Token `t` is a lease that can be used. */
  predicate Usable(s: State, t: TokenId) {
    && s.connected && !s.disposed && t in s.tokens
    && s.tokens[t].stage == Active(GenerationOf(s, s.tokens[t].session)) && s.tokens[t].session in s.attached
  }

  /** Releasing one of several leases gives it back at once, without a request. */
  lemma ReleaseOneOfSeveral(steps: seq<Step>, t: TokenId, relinquish: bool)
    requires SafeRun(steps) && Usable(Run(INIT, steps), t)
    requires var s := Run(INIT, steps); Outstanding(s, s.tokens[t].session) != {t}
    ensures var (s, r) := (Run(INIT, steps), Run(INIT, steps + [SRelease(t, relinquish)]));
            && var id := s.tokens[t].session;
            && Outstanding(r, id) == Outstanding(s, id) - {t} && r.promises == s.promises && r.attached == s.attached
  {
    DetachOnlyWhenLast(steps, t, relinquish);
    RunAppend(steps, SRelease(t, relinquish));
    hide Run, Outstanding;
    var s := Run(INIT, steps);
    ReleasedLeaves(s, ReleaseToken(s, t), t, s.tokens[t].session);
  }

  /** Releasing the last one sends a detach and waits for it. */
  lemma ReleaseLast(steps: seq<Step>, t: TokenId, relinquish: bool)
    requires SafeRun(steps) && Usable(Run(INIT, steps), t)
    requires var s := Run(INIT, steps); Outstanding(s, s.tokens[t].session) == {t}
    ensures var (s, r) := (Run(INIT, steps), Run(INIT, steps + [SRelease(t, relinquish)]));
            && var id := s.tokens[t].session;
            && WaitsFor(r, t, s.nextPromise, Detach) && r.tokens[t].stage.relinquish == relinquish
            && id in r.detachments && r.detachments[id] == s.nextPromise && Outstanding(r, id) == {t}
  {
    DetachOnlyWhenLast(steps, t, relinquish);
    RunAppend(steps, SRelease(t, relinquish));
    hide Run, Outstanding;
    var (s, r) := (Run(INIT, steps), Run(INIT, steps + [SRelease(t, relinquish)]));
    var id := s.tokens[t].session;
    forall u: TokenId ensures Holds(r, u, id) <==> Holds(s, u, id) {
    }
    OutstandingAre(s, id);
    OutstandingAre(r, id);
    hide Release;
  }

  /** A release that is not of a lease in use does nothing. */
  lemma ReleaseOfOther(steps: seq<Step>, t: TokenId, relinquish: bool)
    requires !Usable(Run(INIT, steps), t)
    ensures Run(INIT, steps + [SRelease(t, relinquish)]) == Run(INIT, steps)
  {
    RunAppend(steps, SRelease(t, relinquish));
    hide Run;
  }

  /** Once detached, the session is not leased any more, and the client is not attached to it. */
  lemma DetachSucceeds(steps: seq<Step>, t: TokenId, p: PromiseId)
    requires WaitsFor(Run(INIT, steps), t, p, Detach)
    ensures var (s, r) := (Run(INIT, steps), Run(INIT, steps + [SSettle(p, true), SResume(t)]));
            && t in r.tokens && var id := s.tokens[t].session;
            && r.tokens[t].stage == Done && Outstanding(r, id) == Outstanding(s, id) - {t} && id !in r.attached
            && (id in s.detachments && s.detachments[id] == p ==> id !in r.detachments)
  {
    hide Run, Outstanding, Settle, Resume, ReleaseToken, WithoutDetachment;
    RunTwice(steps, SSettle(p, true), SResume(t));
    var (s, r) := (Run(INIT, steps), Run(INIT, steps + [SSettle(p, true), SResume(t)]));
    var (m, id) := (Settle(s, p, true), s.tokens[t].session);
    SettleLeaves(s, p, true);
    DetachSettles(s, p, id);
    ResumesReleasing(m, t, p);
    var n := WithoutDetachment(m, id, p);
    WithoutDetachmentLeaves(m, id, p);
    ReleaseTokenLeaves(n, t);
    ReleasedLeaves(s, r, t, id);
  }

  lemma DetachSettles(s: State, p: PromiseId, id: SessionId)
    requires PromiseOf(s, p) == Promise(Detach, id, Pending)
    ensures var m := Settle(s, p, true);
            PromiseOf(m, p).settlement == Fulfilled && m.detachments == s.detachments && id !in m.attached
  {
  }

  lemma ResumesReleasing(m: State, t: TokenId, p: PromiseId)
    requires t in m.tokens && m.tokens[t].stage.Releasing? && m.tokens[t].stage.on == p && PromiseOf(m, p).settlement == Fulfilled
    ensures Resume(m, t) == ReleaseToken(WithoutDetachment(m, m.tokens[t].session, p), t)
  {
    hide ReleaseToken, ThenAttach, ThenCleanUp, CreateLease;
  }

  lemma WithoutDetachmentLeaves(m: State, id: SessionId, p: PromiseId)
    ensures var n := WithoutDetachment(m, id, p);
            && n == m.(detachments := n.detachments) && (id in m.detachments && m.detachments[id] == p ==> id !in n.detachments)
  {
  }

  lemma AtLeaves(m: State, t: TokenId, stage: Stage)
    requires t in m.tokens
    ensures At(m, t, stage) == m.(tokens := m.tokens[t := m.tokens[t].(stage := stage)])
  {
  }

  lemma ReleaseTokenLeaves(m: State, t: TokenId)
    requires t in m.tokens
    ensures var r := ReleaseToken(m, t);
            && r.tokens == m.tokens[t := m.tokens[t].(stage := Done)]
            && r.generations == m.generations && r.attached == m.attached && r.cleanup == m.cleanup
            && r.detachments == m.detachments
  {
  }

  lemma DetachResumesFailed(m: State, t: TokenId)
    requires t in m.tokens && m.tokens[t].stage.Releasing?
    requires m.tokens[t].stage.generation == GenerationOf(m, m.tokens[t].session)
    ensures var (r, x) := (DetachResumes(m, t, false), m.tokens[t]);
            && r.generations == m.generations && r.attached == m.attached
            && r.tokens == m.tokens[t := x.(stage := if x.stage.relinquish then Done else Active(x.stage.generation))]
            && r.cleanup == if x.stage.relinquish then m.cleanup + {x.session} else m.cleanup
  {
    hide ReleaseToken, At;
    ReleaseTokenLeaves(m, t);
    AtLeaves(m, t, Active(m.tokens[t].stage.generation));
  }

  /** If the detach fails, the lease is active again, or it was to be given up: then the session is to be cleaned up. */
  lemma DetachFails(steps: seq<Step>, t: TokenId, p: PromiseId)
    requires WaitsFor(Run(INIT, steps), t, p, Detach)
    requires var s := Run(INIT, steps); s.tokens[t].stage.generation == GenerationOf(s, s.tokens[t].session)
    ensures var (s, r) := (Run(INIT, steps), Run(INIT, steps + [SSettle(p, false), SResume(t)]));
            && t in r.tokens && var id := s.tokens[t].session;
            && r.attached == s.attached
            && if s.tokens[t].stage.relinquish
               then r.tokens[t].stage == Done && Outstanding(r, id) == Outstanding(s, id) - {t} && r.cleanup == s.cleanup + {id}
               else r.tokens == s.tokens[t := s.tokens[t].(stage := Active(GenerationOf(r, id)))] && r.cleanup == s.cleanup
  {
    RunTwice(steps, SSettle(p, false), SResume(t));
    hide Run, Outstanding;
    var (s, r) := (Run(INIT, steps), Run(INIT, steps + [SSettle(p, false), SResume(t)]));
    var m := Settle(s, p, false);
    SettleLeaves(s, p, false);
    assert PromiseOf(m, p).settlement == Rejected && m.attached == s.attached && m.cleanup == s.cleanup;
    hide Settle, DetachResumes;
    var n := WithoutDetachment(m, s.tokens[t].session, p);
    assert r == DetachResumes(n, t, false);
    assert n.tokens == m.tokens && n.generations == m.generations && n.attached == m.attached && n.cleanup == m.cleanup;
    hide Resume, WithoutDetachment;
    DetachResumesFailed(n, t);
    if s.tokens[t].stage.relinquish {
      ReleasedLeaves(s, r, t, s.tokens[t].session);
    }
  }

  /** A disconnect takes back every reservation. */
  lemma DisconnectTakesAll(steps: seq<Step>, id: SessionId)
    requires SafeRun(steps) && Run(INIT, steps).connected
    ensures var r := Run(INIT, steps + [SDisconnect]);
            Outstanding(r, id) == {} && !r.connected && r.attached == {} && forall t :: !IsActive(r, t)
  {
    RunAppend(steps, SDisconnect);
    hide Run;
    InvariantRun(steps);
    var s := Run(INIT, steps);
    DisconnectKept(s);
    assert CountOf(Disconnect(s), id) == 0;
  }
}
