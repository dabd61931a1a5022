/** Lease counts, exclusion and invalidation over every run. */
module ClientLeasesExclusion {
  import opened ClientLeases

  /** Token `t` is a reservation of the session's current generation that has not been given back. */
  predicate Holds(s: State, t: TokenId, id: SessionId) {
    t in s.tokens && s.tokens[t].session == id && !s.tokens[t].stage.Done? && s.tokens[t].reservedAt == GenerationOf(s, id)
  }

  function Outstanding(s: State, id: SessionId): set<TokenId> {
    set t: TokenId | t in s.tokens && Holds(s, t, id)
  }

  predicate TokenOk(s: State, x: Token) {
    && x.reservedAt <= GenerationOf(s, x.session)
    && (x.stage.Active? || x.stage.Releasing? ==> x.stage.generation == x.reservedAt)
  }

  /** The registered token is exclusive and the only reservation, and no other reservation is exclusive. */
  ghost predicate ExclusiveOk(s: State, id: SessionId) {
    && (id in s.exclusive ==>
          Of(s, s.exclusive[id]).mode == Exclusive && forall t: TokenId :: Holds(s, t, id) <==> t == s.exclusive[id])
    && (forall t: TokenId :: Holds(s, t, id) && s.tokens[t].mode == Exclusive ==> id in s.exclusive && s.exclusive[id] == t)
  }

  ghost predicate Invariant(s: State) {
    && (forall t :: t in s.tokens ==> TokenOk(s, s.tokens[t]))
    && (forall id :: CountOf(s, id) == |Outstanding(s, id)| && (id in s.counts ==> s.counts[id] > 0))
    && (forall id :: ExclusiveOk(s, id))
    && (!s.connected ==> s.attached == {} && forall p :: p in s.promises ==> s.promises[p].settlement != Pending)
  }

  /** The call of token `t` was interrupted by a disconnect: its reservation is no longer counted. */
  predicate Stale(s: State, t: TokenId) {
    t in s.tokens && Waiting(s, t) && Of(s, t).reservedAt != GenerationOf(s, Of(s, t).session)
  }

  /** Going on with the call of token `t` gives back no reservation that is not counted, and makes no lease out of it. */
  predicate Safe(s: State, t: TokenId) {
    Stale(s, t) && PromiseOf(s, s.tokens[t].stage.on).settlement != Pending ==>
      var ok := PromiseOf(s, s.tokens[t].stage.on).settlement == Fulfilled;
      var id := s.tokens[t].session;
      match s.tokens[t].stage
      case AwaitingDetach(_) => id in s.cleanup || id !in s.attached
      case AwaitingCleanup(_) => ok || CountOf(s, id) == 0
      case AwaitingAttach(_) => !ok && CountOf(s, id) == 0
      case Releasing(_, _, _) => ok ==> CountOf(s, id) == 0
  }

  function One(b: bool): nat {
    if b then 1 else 0
  }

  lemma OutstandingWithout(s: State, t: TokenId, id: SessionId)
    ensures |Outstanding(s, id)| == |Outstanding(s, id) - {t}| + One(Holds(s, t, id))
  {
    if Holds(s, t, id) {
      assert Outstanding(s, id) == (Outstanding(s, id) - {t}) + {t};
    } else {
      assert Outstanding(s, id) == Outstanding(s, id) - {t};
    }
  }

  /** Only token `t` has changed, and no generation. */
  ghost predicate OnlyChanges(s: State, r: State, t: TokenId) {
    && (forall u :: u != t ==> (u in r.tokens <==> u in s.tokens) && (u in s.tokens ==> r.tokens[u] == s.tokens[u]))
    && (forall id :: GenerationOf(r, id) == GenerationOf(s, id))
  }

  lemma OutstandingAre(s: State, id: SessionId)
    ensures forall u: TokenId :: u in Outstanding(s, id) <==> Holds(s, u, id)
  {
  }

  lemma OutstandingStep(s: State, r: State, t: TokenId, id: SessionId)
    requires OnlyChanges(s, r, t)
    ensures |Outstanding(r, id)| + One(Holds(s, t, id)) == |Outstanding(s, id)| + One(Holds(r, t, id))
  {
    forall u: TokenId | u != t ensures Holds(s, u, id) <==> Holds(r, u, id) {
    }
    OutstandingAre(s, id);
    OutstandingAre(r, id);
    hide Outstanding, Holds, OnlyChanges;
    OutstandingWithout(s, t, id);
    OutstandingWithout(r, t, id);
    assert Outstanding(s, id) - {t} == Outstanding(r, id) - {t};
  }

  /** What a step on token `t` must do: keep count, and keep exclusion. */
  lemma Kept(s: State, r: State, t: TokenId)
    requires Invariant(s) && OnlyChanges(s, r, t)
    requires t in r.tokens ==> TokenOk(r, r.tokens[t])
    requires forall id :: CountOf(r, id) + One(Holds(s, t, id)) == CountOf(s, id) + One(Holds(r, t, id))
    requires forall id :: id in r.counts ==> r.counts[id] > 0
    requires forall id :: ExclusiveOk(r, id)
    requires !r.connected ==> r.attached == {} && forall p :: p in r.promises ==> r.promises[p].settlement != Pending
    ensures Invariant(r)
  {
    forall id ensures CountOf(r, id) == |Outstanding(r, id)| {
      OutstandingStep(s, r, t, id);
    }
    forall u | u in r.tokens ensures TokenOk(r, r.tokens[u]) {
      assert u != t ==> TokenOk(s, s.tokens[u]);
    }
  }

  /** Promises and attachments settle nothing about reservations. */
  lemma Elsewhere(s: State, r: State)
    requires Invariant(s) && r.tokens == s.tokens && r.counts == s.counts && r.exclusive == s.exclusive
    requires forall id :: GenerationOf(r, id) == GenerationOf(s, id)
    requires !r.connected ==> r.attached == {} && forall p :: p in r.promises ==> r.promises[p].settlement != Pending
    ensures Invariant(r)
  {
    forall id ensures Outstanding(r, id) == Outstanding(s, id) && ExclusiveOk(r, id) {
      assert forall t: TokenId :: Holds(r, t, id) <==> Holds(s, t, id);
      assert ExclusiveOk(s, id);
    }
    forall u | u in r.tokens ensures TokenOk(r, r.tokens[u]) {
      assert TokenOk(s, s.tokens[u]);
    }
  }

  /** A call goes from one await to the next. */
  lemma StageMoves(s: State, t: TokenId, stage: Stage)
    requires Invariant(s) && t in s.tokens && !s.tokens[t].stage.Done? && !stage.Done?
    requires stage.Active? || stage.Releasing? ==> stage.generation == s.tokens[t].reservedAt
    ensures Invariant(At(s, t, stage))
  {
    var r := At(s, t, stage);
    assert TokenOk(s, s.tokens[t]);
    forall id ensures ExclusiveOk(r, id) && (Holds(r, t, id) <==> Holds(s, t, id)) {
      assert ExclusiveOk(s, id);
      assert forall u: TokenId :: Holds(r, u, id) <==> Holds(s, u, id);
    }
    Kept(s, r, t);
  }

  /** A reservation that counts, or one that is no longer counted while there is none to miscount. */
  predicate Harmless(s: State, t: TokenId) {
    Holds(s, t, Of(s, t).session) || CountOf(s, Of(s, t).session) == 0
  }

  lemma ReleaseExclusive(s: State, t: TokenId, id: SessionId)
    requires Invariant(s) && t in s.tokens && !s.tokens[t].stage.Done? && Harmless(s, t)
    ensures ExclusiveOk(ReleaseToken(s, t), id)
  {
    var r := ReleaseToken(s, t);
    assert ExclusiveOk(s, id);
    assert forall u: TokenId :: u != t ==> (Holds(s, u, id) <==> Holds(r, u, id));
    assert !Holds(r, t, id);
    if id in s.exclusive {
      OutstandingWithout(s, s.exclusive[id], id);
    }
  }

  lemma ReleaseCounts(s: State, t: TokenId, id: SessionId)
    requires Invariant(s) && t in s.tokens && !s.tokens[t].stage.Done? && Harmless(s, t)
    ensures var r := ReleaseToken(s, t);
            CountOf(r, id) + One(Holds(s, t, id)) == CountOf(s, id) + One(Holds(r, t, id))
  {
    hide ExclusiveOk;
    OutstandingWithout(s, t, id);
  }

  /** Giving a reservation back. */
  lemma ReleaseKept(s: State, t: TokenId)
    requires Invariant(s) && t in s.tokens && !s.tokens[t].stage.Done? && Harmless(s, t)
    ensures Invariant(ReleaseToken(s, t))
  {
    var r := ReleaseToken(s, t);
    assert TokenOk(s, s.tokens[t]);
    hide ExclusiveOk, Outstanding, Holds, Harmless;
    forall id ensures ExclusiveOk(r, id) && CountOf(r, id) + One(Holds(s, t, id)) == CountOf(s, id) + One(Holds(r, t, id)) {
      ReleaseExclusive(s, t, id);
      ReleaseCounts(s, t, id);
    }
    Kept(s, r, t);
  }

  lemma ReserveExclusive(s: State, t: TokenId, id: SessionId, mode: Mode, i: SessionId)
    requires Invariant(s) && t !in s.tokens && MayReserve(s, id, mode)
    ensures ExclusiveOk(Reserve(s, t, id, mode), i)
  {
    var r := Reserve(s, t, id, mode);
    assert ExclusiveOk(s, i);
    assert forall u: TokenId :: u != t ==> (Holds(s, u, i) <==> Holds(r, u, i));
    if i in s.exclusive {
      assert Holds(s, s.exclusive[i], i);
    }
    if i == id && mode == Exclusive {
      assert Outstanding(s, id) == {};
      forall u: TokenId ensures !Holds(s, u, id) {
        assert u !in Outstanding(s, id);
      }
      assert Holds(r, t, id);
      forall u: TokenId ensures Holds(r, u, id) <==> u == t {
        assert !Holds(s, u, id);
      }
    }
  }

  lemma ReserveKept(s: State, t: TokenId, id: SessionId, mode: Mode)
    requires Invariant(s) && t !in s.tokens && MayReserve(s, id, mode)
    ensures Invariant(Reserve(s, t, id, mode)) && Holds(Reserve(s, t, id, mode), t, id)
  {
    forall i ensures ExclusiveOk(Reserve(s, t, id, mode), i) {
      ReserveExclusive(s, t, id, mode, i);
    }
    Kept(s, Reserve(s, t, id, mode), t);
  }

  lemma CreateLeaseKept(s: State, t: TokenId)
    requires Invariant(s) && Holds(s, t, Of(s, t).session)
    ensures Invariant(CreateLease(s, t))
  {
    var id := Of(s, t).session;
    var m := At(s, t, Active(GenerationOf(s, id)));
    StageMoves(s, t, Active(GenerationOf(s, id)));
    Elsewhere(m, CreateLease(s, t));
  }

  lemma RequestKept(s: State, kind: Kind, id: SessionId)
    requires Invariant(s)
    ensures Invariant(Request(s, kind, id))
  {
    Elsewhere(s, Request(s, kind, id));
  }

  /** A new attach request, and the token that waits for it. */
  lemma AttachRequestKept(s: State, t: TokenId)
    requires Invariant(s) && t in s.tokens && !s.tokens[t].stage.Done?
    ensures Invariant(NewAttachment(s, t))
  {
    hide Invariant;
    var id := s.tokens[t].session;
    RequestKept(s, Attach, id);
    var m := Request(s, Attach, id).(attachments := s.attachments[id := s.nextPromise]);
    AttachmentsElsewhere(Request(s, Attach, id), m);
    StageMoves(m, t, AwaitingAttach(s.nextPromise));
  }

  /** The tables of shared promises settle nothing about reservations. */
  lemma AttachmentsElsewhere(s: State, r: State)
    requires Invariant(s)
    requires r == s.(attachments := r.attachments, detachments := r.detachments, reconciliations := r.reconciliations)
    ensures Invariant(r)
  {
    Elsewhere(s, r);
  }

  lemma ThenAttachKept(s: State, t: TokenId, reconciled: bool)
    requires Invariant(s) && t in s.tokens && !s.tokens[t].stage.Done?
    requires Holds(s, t, s.tokens[t].session) || reconciled || s.tokens[t].session !in s.attached
    ensures Invariant(ThenAttach(s, t, reconciled))
  {
    hide Invariant, CreateLease, Holds, NewAttachment;
    var id := s.tokens[t].session;
    if !reconciled && id in s.attached {
      CreateLeaseKept(s, t);
    } else if id in s.attachments {
      StageMoves(s, t, AwaitingAttach(s.attachments[id]));
    } else {
      AttachRequestKept(s, t);
    }
  }

  lemma CleanUpRequestKept(s: State, t: TokenId)
    requires Invariant(s) && t in s.tokens && !s.tokens[t].stage.Done?
    ensures Invariant(NewReconciliation(s, t))
  {
    hide Invariant;
    var id := s.tokens[t].session;
    var r := Request(s, Reconcile, id);
    RequestKept(s, Reconcile, id);
    var m := r.(reconciliations := if s.connected && !s.disposed then s.reconciliations[id := s.nextPromise] else s.reconciliations);
    AttachmentsElsewhere(r, m);
    StageMoves(m, t, AwaitingCleanup(s.nextPromise));
  }

  lemma ThenCleanUpKept(s: State, t: TokenId)
    requires Invariant(s) && t in s.tokens && !s.tokens[t].stage.Done?
    requires Holds(s, t, s.tokens[t].session) || s.tokens[t].session in s.cleanup || s.tokens[t].session !in s.attached
    ensures Invariant(ThenCleanUp(s, t))
  {
    hide Invariant, ThenAttach, Holds, NewReconciliation;
    var id := s.tokens[t].session;
    if id !in s.cleanup {
      ThenAttachKept(s, t, false);
    } else if id in s.reconciliations {
      StageMoves(s, t, AwaitingCleanup(s.reconciliations[id]));
    } else {
      CleanUpRequestKept(s, t);
    }
  }

  lemma AcquireKept(s: State, t: TokenId, id: SessionId, mode: Mode)
    requires Invariant(s)
    ensures Invariant(Acquire(s, t, id, mode))
  {
    if !(t in s.tokens || s.disposed || !MayReserve(s, id, mode)) {
      ReserveKept(s, t, id, mode);
      var m := Reserve(s, t, id, mode);
      if id in s.detachments {
        StageMoves(m, t, AwaitingDetach(s.detachments[id]));
      } else {
        ThenCleanUpKept(m, t);
      }
    }
  }

  lemma CreatedKept(s: State, t: TokenId, id: SessionId)
    requires Invariant(s)
    ensures Invariant(Created(s, t, id))
  {
    if !(t in s.tokens || !MayReserve(s, id, Exclusive)) {
      ReserveKept(s, t, id, Exclusive);
      CreateLeaseKept(Reserve(s, t, id, Exclusive), t);
    }
  }

  lemma DetachResumesKept(s: State, t: TokenId, ok: bool)
    requires Invariant(s) && t in s.tokens && s.tokens[t].stage.Releasing? && (ok ==> Harmless(s, t))
    ensures Invariant(DetachResumes(s, t, ok))
  {
    var x := s.tokens[t];
    assert TokenOk(s, x);
    if ok || x.stage.generation == GenerationOf(s, x.session) {
      ReleaseKept(s, t);
    }
    if !ok && x.stage.generation != GenerationOf(s, x.session) {
      DoneKept(s, t);
    } else if !ok && x.stage.relinquish {
      Elsewhere(ReleaseToken(s, t), DetachResumes(s, t, ok));
    } else if !ok {
      StageMoves(s, t, Active(x.stage.generation));
    }
  }

  /** An invalidated call that ends without giving anything back. */
  lemma DoneKept(s: State, t: TokenId)
    requires Invariant(s) && t in s.tokens && !Holds(s, t, s.tokens[t].session)
    ensures Invariant(At(s, t, Done))
  {
    var r := At(s, t, Done);
    assert TokenOk(s, s.tokens[t]);
    forall id ensures ExclusiveOk(r, id) {
      assert ExclusiveOk(s, id);
      assert forall u: TokenId :: Holds(s, u, id) <==> Holds(r, u, id);
    }
    Kept(s, r, t);
  }

  lemma AttachResumesKept(s: State, t: TokenId, p: PromiseId, ok: bool)
    requires Invariant(s) && t in s.tokens && !s.tokens[t].stage.Done?
    requires if ok then Holds(s, t, s.tokens[t].session) else Harmless(s, t)
    ensures var m := WithoutAttachment(s, s.tokens[t].session, p);
            Invariant(if ok then CreateLease(m, t) else ReleaseToken(m, t))
  {
    var m := WithoutAttachment(s, s.tokens[t].session, p);
    assert if ok then Holds(m, t, s.tokens[t].session) else Harmless(m, t);
    hide Invariant, Harmless, Holds;
    AttachmentsElsewhere(s, m);
    if ok {
      CreateLeaseKept(m, t);
    } else {
      ReleaseKept(m, t);
    }
  }

  lemma ReleaseResumesKept(s: State, t: TokenId, p: PromiseId, ok: bool)
    requires Invariant(s) && t in s.tokens && s.tokens[t].stage.Releasing? && (ok ==> Harmless(s, t))
    ensures Invariant(DetachResumes(WithoutDetachment(s, s.tokens[t].session, p), t, ok))
  {
    var m := WithoutDetachment(s, s.tokens[t].session, p);
    assert ok ==> Harmless(m, t);
    hide Invariant, Harmless, DetachResumes;
    AttachmentsElsewhere(s, m);
    DetachResumesKept(m, t, ok);
  }

  lemma ResumeKept(s: State, t: TokenId)
    requires Invariant(s) && Safe(s, t)
    ensures Invariant(Resume(s, t))
  {
    if Waiting(s, t) && t in s.tokens && PromiseOf(s, s.tokens[t].stage.on).settlement != Pending {
      var x := s.tokens[t];
      var ok := PromiseOf(s, x.stage.on).settlement == Fulfilled;
      assert Stale(s, t) <==> !Holds(s, t, x.session);
      hide Invariant, Holds, ThenAttach, ThenCleanUp, DetachResumes, CreateLease, ReleaseToken, WithoutAttachment,
        WithoutDetachment;
      match x.stage {
        case AwaitingDetach(_) => ThenCleanUpKept(s, t);
        case AwaitingCleanup(_) =>
          if ok {
            ThenAttachKept(s, t, true);
          } else {
            ReleaseKept(s, t);
          }
        case AwaitingAttach(p) => AttachResumesKept(s, t, p, ok);
        case Releasing(_, p, _) => ReleaseResumesKept(s, t, p, ok);
      }
    }
  }

  /** A reservation that is not counted is given back: the count is then one too small. */
  lemma ReleaseMiscounts(s: State, m: State, t: TokenId)
    requires Invariant(s) && Stale(s, t) && CountOf(s, s.tokens[t].session) > 0
    requires m.tokens == s.tokens && m.counts == s.counts && m.generations == s.generations
    ensures !Invariant(ReleaseToken(m, t))
  {
    var id := s.tokens[t].session;
    OutstandingStep(s, ReleaseToken(m, t), t, id);
  }

  /** A lease made out of a reservation of an older generation takes the new one. */
  lemma CreateLeaseRevives(m: State, t: TokenId)
    requires t in m.tokens && m.tokens[t].reservedAt != GenerationOf(m, m.tokens[t].session)
    ensures !Invariant(CreateLease(m, t))
  {
    assert !TokenOk(CreateLease(m, t), CreateLease(m, t).tokens[t]);
  }

  lemma UnsafeBreaks(s: State, t: TokenId)
    requires Invariant(s) && !Safe(s, t)
    ensures !Invariant(Resume(s, t))
  {
    var id := s.tokens[t].session;
    var ok := PromiseOf(s, s.tokens[t].stage.on).settlement == Fulfilled;
    match s.tokens[t].stage
    case AwaitingDetach(_) => CreateLeaseRevives(s, t);
    case AwaitingCleanup(_) => ReleaseMiscounts(s, s, t);
    case AwaitingAttach(p) =>
      var m := WithoutAttachment(s, id, p);
      if ok {
        CreateLeaseRevives(m, t);
      } else {
        ReleaseMiscounts(s, m, t);
      }
    case Releasing(_, p, _) => ReleaseMiscounts(s, WithoutDetachment(s, id, p), t);
  }

  /** Going on with a call keeps the invariant exactly if it is safe. */
  lemma ResumeKeepsIffSafe(s: State, t: TokenId)
    requires Invariant(s)
    ensures Invariant(Resume(s, t)) <==> Safe(s, t)
  {
    hide Invariant, Safe, Resume;
    if Safe(s, t) {
      ResumeKept(s, t);
    } else {
      UnsafeBreaks(s, t);
    }
  }

  lemma ReleaseStepKept(s: State, t: TokenId, relinquish: bool)
    requires Invariant(s)
    ensures Invariant(Release(s, t, relinquish))
  {
    if !s.disposed && s.connected && IsActive(s, t) {
      var x := Of(s, t);
      assert TokenOk(s, x);
      assert Holds(s, t, x.session);
      if CountOf(s, x.session) <= 1 {
        RequestKept(s, Detach, x.session);
        var m := Request(s, Detach, x.session).(detachments := s.detachments[x.session := s.nextPromise]);
        Elsewhere(Request(s, Detach, x.session), m);
        StageMoves(m, t, Releasing(x.stage.generation, s.nextPromise, relinquish));
      } else {
        ReleaseKept(s, t);
      }
    }
  }

  /** Invalidation leaves no reservation outstanding. */
  lemma InvalidateAllKept(s: State, r: State)
    requires Invariant(s) && r.tokens == s.tokens && r.counts == map[] && r.exclusive == s.exclusive - s.counts.Keys
    requires r.generations == InvalidateAll(s).generations
    requires !r.connected ==> r.attached == {} && forall p :: p in r.promises ==> r.promises[p].settlement != Pending
    ensures Invariant(r)
  {
    forall id, t ensures !Holds(r, t, id) {
      if Holds(r, t, id) {
        assert TokenOk(s, s.tokens[t]);
        assert Holds(s, t, id);
        OutstandingWithout(s, t, id);
      }
    }
    forall id ensures Outstanding(r, id) == {} && ExclusiveOk(r, id) {
      assert ExclusiveOk(s, id);
      if id in s.exclusive {
        assert Holds(s, s.exclusive[id], id);
        OutstandingWithout(s, s.exclusive[id], id);
      }
    }
    forall u | u in r.tokens ensures TokenOk(r, r.tokens[u]) {
      assert TokenOk(s, s.tokens[u]);
    }
  }

  lemma DisconnectKept(s: State)
    requires Invariant(s)
    ensures Invariant(Disconnect(s))
  {
    if s.connected {
      InvalidateAllKept(s, Disconnect(s));
    }
  }

  lemma DisposeKept(s: State)
    requires Invariant(s)
    ensures Invariant(Dispose(s))
  {
    DisconnectKept(s);
    InvalidateAllKept(Disconnect(s), Dispose(s));
  }

  lemma SettleKept(s: State, p: PromiseId, ok: bool)
    requires Invariant(s)
    ensures Invariant(Settle(s, p, ok))
  {
    var r := Settle(s, p, ok);
    if r != s {
      assert r == s.(promises := r.promises, reconciliations := r.reconciliations, attached := r.attached, cleanup := r.cleanup);
      Elsewhere(s, r);
    }
  }

  lemma EventKept(s: State, attached: set<SessionId>)
    requires Invariant(s)
    ensures Invariant(Event(s, attached)) && Invariant(Connect(s))
  {
    Elsewhere(s, Event(s, attached));
    Elsewhere(s, Connect(s));
  }

  /** Every step keeps the invariant, but for a call that goes on when it is not safe. */
  lemma InvariantNext(s: State, step: Step)
    requires Invariant(s)
    ensures Invariant(Next(s, step)) <==> (step.SResume? ==> Safe(s, step.t))
  {
    hide Safe;
    match step
    case SAcquire(t, id, mode) => AcquireKept(s, t, id, mode);
    case SCreated(t, id) => CreatedKept(s, t, id);
    case SResume(t) => ResumeKeepsIffSafe(s, t);
    case SRelease(t, relinquish) => ReleaseStepKept(s, t, relinquish);
    case SSettle(p, ok) => SettleKept(s, p, ok);
    case SEvent(attached) => EventKept(s, attached);
    case SConnect => EventKept(s, {});
    case SDisconnect => DisconnectKept(s);
    case SDispose => DisposeKept(s);
  }

  /** Every call of the run goes on when it is safe. */
  predicate SafeRun(steps: seq<Step>) {
    forall n :: 0 <= n < |steps| && steps[n].SResume? ==> Safe(Run(INIT, steps[..n]), steps[n].t)
  }

  lemma InvariantStart()
    ensures Invariant(INIT)
  {
    forall id ensures Outstanding(INIT, id) == {} {
    }
  }

  lemma {:induction false} InvariantRun(steps: seq<Step>)
    requires SafeRun(steps)
    ensures Invariant(Run(INIT, steps))
    decreases |steps|
  {
    InvariantStart();
    hide Invariant, Safe, Next;
    if steps != [] {
      var init := steps[..|steps| - 1];
      forall n | 0 <= n < |init| && init[n].SResume? ensures Safe(Run(INIT, init[..n]), init[n].t) {
        assert init[..n] == steps[..n];
      }
      InvariantRun(init);
      InvariantNext(Run(INIT, init), steps[|steps| - 1]);
    }
  }

  /** The invariant holds all along a run exactly if every call of the run goes on when it is safe. */
  lemma InvariantIffSafeRun(steps: seq<Step>)
    ensures (forall n :: 0 <= n <= |steps| ==> Invariant(Run(INIT, steps[..n]))) <==> SafeRun(steps)
  {
    hide Invariant, Safe, Next;
    if SafeRun(steps) {
      forall n | 0 <= n <= |steps| ensures Invariant(Run(INIT, steps[..n])) {
        forall k | 0 <= k < n && steps[..n][k].SResume? ensures Safe(Run(INIT, steps[..n][..k]), steps[..n][k].t) {
          assert steps[..n][..k] == steps[..k];
        }
        InvariantRun(steps[..n]);
      }
    } else {
      var n :| 0 <= n < |steps| && steps[n].SResume? && !Safe(Run(INIT, steps[..n]), steps[n].t);
      assert steps[..n + 1][..n] == steps[..n];
      if Invariant(Run(INIT, steps[..n])) {
        InvariantNext(Run(INIT, steps[..n]), steps[n]);
      }
    }
  }

  /** The count of a session is the number of its outstanding reservations; an exclusive reservation is the only one. */
  lemma CountsAndExclusion(steps: seq<Step>, id: SessionId)
    requires SafeRun(steps)
    ensures var s := Run(INIT, steps);
            && CountOf(s, id) == |Outstanding(s, id)|
            && forall t: TokenId :: Holds(s, t, id) && s.tokens[t].mode == Exclusive ==> CountOf(s, id) == 1 && Outstanding(s, id) == {t}
  {
    InvariantRun(steps);
    var s := Run(INIT, steps);
    assert ExclusiveOk(s, id);
    forall t: TokenId | Holds(s, t, id) && s.tokens[t].mode == Exclusive
      ensures CountOf(s, id) == 1 && Outstanding(s, id) == {t}
    {
      assert s.exclusive[id] == t;
      assert Outstanding(s, id) == {t};
    }
  }

  /** A release sends a detach exactly if no other reservation of the session is outstanding. */
  lemma DetachOnlyWhenLast(steps: seq<Step>, t: TokenId, relinquish: bool)
    requires SafeRun(steps)
    ensures var s := Run(INIT, steps);
            && (Release(s, t, relinquish).nextPromise > s.nextPromise <==> SendsDetach(s, t))
            && (SendsDetach(s, t) <==>
                  s.connected && !s.disposed && IsActive(s, t) && Outstanding(s, Of(s, t).session) == {t})
  {
    InvariantRun(steps);
    var s := Run(INIT, steps);
    var id := Of(s, t).session;
    if s.connected && !s.disposed && IsActive(s, t) {
      assert TokenOk(s, s.tokens[t]) && Holds(s, t, id);
      OutstandingWithout(s, t, id);
      if CountOf(s, id) <= 1 {
        assert Outstanding(s, id) - {t} == {};
        assert Outstanding(s, id) == {t};
      }
    }
  }

  /** Token `t` stays what it is, and generation `id` does not go back. */
  predicate Onward(s: State, r: State, t: TokenId, id: SessionId) {
    && (t in s.tokens ==>
          t in r.tokens && r.tokens[t].session == s.tokens[t].session && r.tokens[t].reservedAt == s.tokens[t].reservedAt)
    && GenerationOf(s, id) <= GenerationOf(r, id)
  }

  lemma SameOnward(s: State, m: State, r: State, t: TokenId, id: SessionId)
    requires m.tokens == s.tokens && m.generations == s.generations && Onward(m, r, t, id)
    ensures Onward(s, r, t, id)
  {
  }

  lemma StaysOnward(s: State, r: State, t: TokenId, id: SessionId)
    requires r.tokens == s.tokens && r.generations == s.generations
    ensures Onward(s, r, t, id)
  {
  }

  /** A step that changes one token's stage and no generation. */
  lemma StageOnward(s: State, r: State, u: TokenId, stage: Stage, t: TokenId, id: SessionId)
    requires u in s.tokens && r.generations == s.generations
    requires r.tokens == s.tokens[u := s.tokens[u].(stage := stage)]
    ensures Onward(s, r, t, id)
  {
  }

  lemma ReleaseTokenOnward(s: State, u: TokenId, t: TokenId, id: SessionId)
    requires u in s.tokens
    ensures Onward(s, ReleaseToken(s, u), t, id)
  {
    hide Onward;
    StageOnward(s, ReleaseToken(s, u), u, Done, t, id);
  }

  lemma CreateLeaseOnward(s: State, u: TokenId, t: TokenId, id: SessionId)
    requires u in s.tokens
    ensures Onward(s, CreateLease(s, u), t, id)
  {
  }

  lemma NewAttachmentOnward(s: State, u: TokenId, t: TokenId, id: SessionId)
    requires u in s.tokens
    ensures Onward(s, NewAttachment(s, u), t, id)
  {
    hide Onward;
    StageOnward(s, NewAttachment(s, u), u, AwaitingAttach(s.nextPromise), t, id);
  }

  lemma AtOnward(s: State, u: TokenId, stage: Stage, t: TokenId, id: SessionId)
    requires u in s.tokens
    ensures Onward(s, At(s, u, stage), t, id)
  {
    hide Onward;
    StageOnward(s, At(s, u, stage), u, stage, t, id);
  }

  lemma ThenAttachOnward(s: State, u: TokenId, reconciled: bool, t: TokenId, id: SessionId)
    requires u in s.tokens
    ensures Onward(s, ThenAttach(s, u, reconciled), t, id)
  {
    hide Onward, CreateLease, NewAttachment, At;
    var i := s.tokens[u].session;
    if !reconciled && i in s.attached {
      CreateLeaseOnward(s, u, t, id);
    } else if i in s.attachments {
      AtOnward(s, u, AwaitingAttach(s.attachments[i]), t, id);
    } else {
      NewAttachmentOnward(s, u, t, id);
    }
  }

  lemma NewReconciliationOnward(s: State, u: TokenId, t: TokenId, id: SessionId)
    requires u in s.tokens
    ensures Onward(s, NewReconciliation(s, u), t, id)
  {
    hide Onward;
    StageOnward(s, NewReconciliation(s, u), u, AwaitingCleanup(s.nextPromise), t, id);
  }

  lemma ThenCleanUpOnward(s: State, u: TokenId, t: TokenId, id: SessionId)
    requires u in s.tokens
    ensures Onward(s, ThenCleanUp(s, u), t, id)
  {
    hide Onward, ThenAttach, NewReconciliation, At;
    var i := s.tokens[u].session;
    if i !in s.cleanup {
      ThenAttachOnward(s, u, false, t, id);
    } else if i in s.reconciliations {
      AtOnward(s, u, AwaitingCleanup(s.reconciliations[i]), t, id);
    } else {
      NewReconciliationOnward(s, u, t, id);
    }
  }

  lemma DetachResumesOnward(s: State, u: TokenId, ok: bool, t: TokenId, id: SessionId)
    requires u in s.tokens && s.tokens[u].stage.Releasing?
    ensures Onward(s, DetachResumes(s, u, ok), t, id)
  {
    hide Onward, ReleaseToken, At;
    var x := s.tokens[u];
    var r := DetachResumes(s, u, ok);
    ReleaseTokenOnward(s, u, t, id);
    if !ok && x.stage.generation != GenerationOf(s, x.session) {
      AtOnward(s, u, Done, t, id);
    } else if !ok && x.stage.relinquish {
      StaysOnward(ReleaseToken(s, u), r, t, id);
      OnwardTwice(s, ReleaseToken(s, u), r, t, id);
    } else if !ok {
      AtOnward(s, u, Active(x.stage.generation), t, id);
    }
  }

  lemma AttachResumesOnward(s: State, u: TokenId, p: PromiseId, ok: bool, t: TokenId, id: SessionId)
    requires u in s.tokens
    ensures var m := WithoutAttachment(s, s.tokens[u].session, p);
            Onward(s, if ok then CreateLease(m, u) else ReleaseToken(m, u), t, id)
  {
    hide Onward, CreateLease, ReleaseToken;
    var m := WithoutAttachment(s, s.tokens[u].session, p);
    CreateLeaseOnward(m, u, t, id);
    ReleaseTokenOnward(m, u, t, id);
    SameOnward(s, m, if ok then CreateLease(m, u) else ReleaseToken(m, u), t, id);
  }

  lemma ReleaseResumesOnward(s: State, u: TokenId, p: PromiseId, ok: bool, t: TokenId, id: SessionId)
    requires u in s.tokens && s.tokens[u].stage.Releasing?
    ensures Onward(s, DetachResumes(WithoutDetachment(s, s.tokens[u].session, p), u, ok), t, id)
  {
    hide Onward, DetachResumes;
    var m := WithoutDetachment(s, s.tokens[u].session, p);
    DetachResumesOnward(m, u, ok, t, id);
    SameOnward(s, m, DetachResumes(m, u, ok), t, id);
  }

  lemma ResumeOnward(s: State, u: TokenId, t: TokenId, id: SessionId)
    ensures Onward(s, Resume(s, u), t, id)
  {
    hide Onward, CreateLease, ReleaseToken, ThenAttach, ThenCleanUp, DetachResumes, WithoutAttachment, WithoutDetachment;
    if Waiting(s, u) && u in s.tokens && PromiseOf(s, s.tokens[u].stage.on).settlement != Pending {
      var ok := PromiseOf(s, s.tokens[u].stage.on).settlement == Fulfilled;
      match s.tokens[u].stage {
        case AwaitingDetach(_) => ThenCleanUpOnward(s, u, t, id);
        case AwaitingCleanup(_) =>
          ThenAttachOnward(s, u, true, t, id);
          ReleaseTokenOnward(s, u, t, id);
        case AwaitingAttach(p) => AttachResumesOnward(s, u, p, ok, t, id);
        case Releasing(_, p, _) => ReleaseResumesOnward(s, u, p, ok, t, id);
      }
    } else {
      StaysOnward(s, Resume(s, u), t, id);
    }
  }

  lemma ReserveOnward(s: State, u: TokenId, i: SessionId, mode: Mode, t: TokenId, id: SessionId)
    requires u !in s.tokens
    ensures Onward(s, Reserve(s, u, i, mode), t, id)
  {
  }

  lemma OnwardTwice(s: State, m: State, r: State, t: TokenId, id: SessionId)
    requires Onward(s, m, t, id) && Onward(m, r, t, id)
    ensures Onward(s, r, t, id)
  {
  }

  lemma AcquireOnward(s: State, u: TokenId, i: SessionId, mode: Mode, t: TokenId, id: SessionId)
    ensures Onward(s, Acquire(s, u, i, mode), t, id)
  {
    var r := Acquire(s, u, i, mode);
    if u in s.tokens || s.disposed || !MayReserve(s, i, mode) {
      StaysOnward(s, r, t, id);
    } else {
      var m := Reserve(s, u, i, mode);
      assert u in m.tokens && m.detachments == s.detachments && m.tokens[u].session == i;
      hide Onward, Reserve, ThenCleanUp;
      ReserveOnward(s, u, i, mode, t, id);
      if i in s.detachments {
        StageOnward(m, r, u, AwaitingDetach(s.detachments[i]), t, id);
      } else {
        ThenCleanUpOnward(m, u, t, id);
      }
      OnwardTwice(s, m, r, t, id);
    }
  }

  lemma CreatedOnward(s: State, u: TokenId, i: SessionId, t: TokenId, id: SessionId)
    ensures Onward(s, Created(s, u, i), t, id)
  {
    var r := Created(s, u, i);
    if u in s.tokens || !MayReserve(s, i, Exclusive) {
      StaysOnward(s, r, t, id);
    } else {
      var m := Reserve(s, u, i, Exclusive);
      assert u in m.tokens;
      hide Onward, Reserve, CreateLease;
      ReserveOnward(s, u, i, Exclusive, t, id);
      CreateLeaseOnward(m, u, t, id);
      OnwardTwice(s, m, r, t, id);
    }
  }

  lemma InvalidateOnward(s: State, r: State, t: TokenId, id: SessionId)
    requires r.tokens == s.tokens && r.generations == InvalidateAll(s).generations
    ensures Onward(s, r, t, id)
  {
  }

  lemma DisconnectOnward(s: State, t: TokenId, id: SessionId)
    ensures Onward(s, Disconnect(s), t, id)
  {
    if s.connected {
      InvalidateOnward(s, Disconnect(s), t, id);
    }
  }

  lemma DisposeOnward(s: State, t: TokenId, id: SessionId)
    ensures Onward(s, Dispose(s), t, id)
  {
    hide Onward, Disconnect;
    DisconnectOnward(s, t, id);
    InvalidateOnward(Disconnect(s), Dispose(s), t, id);
    OnwardTwice(s, Disconnect(s), Dispose(s), t, id);
  }

  lemma ReleaseOnward(s: State, u: TokenId, relinquish: bool, t: TokenId, id: SessionId)
    ensures Onward(s, Release(s, u, relinquish), t, id)
  {
    hide Onward;
    var r := Release(s, u, relinquish);
    if s.disposed || !s.connected || !IsActive(s, u) {
      StaysOnward(s, r, t, id);
    } else if CountOf(s, s.tokens[u].session) <= 1 {
      StageOnward(s, r, u, Releasing(s.tokens[u].stage.generation, s.nextPromise, relinquish), t, id);
    } else {
      ReleaseTokenOnward(s, u, t, id);
    }
  }

  lemma OnwardNext(s: State, step: Step, t: TokenId, id: SessionId)
    ensures Onward(s, Next(s, step), t, id)
  {
    hide Onward, Acquire, Created, Resume, Release, Disconnect, Dispose;
    match step
    case SAcquire(u, i, mode) => AcquireOnward(s, u, i, mode, t, id);
    case SCreated(u, i) => CreatedOnward(s, u, i, t, id);
    case SResume(u) => ResumeOnward(s, u, t, id);
    case SRelease(u, relinquish) => ReleaseOnward(s, u, relinquish, t, id);
    case SSettle(p, ok) => StaysOnward(s, Settle(s, p, ok), t, id);
    case SEvent(attached) => StaysOnward(s, Event(s, attached), t, id);
    case SConnect => StaysOnward(s, Connect(s), t, id);
    case SDisconnect => DisconnectOnward(s, t, id);
    case SDispose => DisposeOnward(s, t, id);
  }

  /** The token was reserved in an older generation than the session's. */
  predicate Outdated(s: State, t: TokenId) {
    t in s.tokens && s.tokens[t].reservedAt < GenerationOf(s, s.tokens[t].session)
  }

  lemma OutdatedNext(s: State, step: Step, t: TokenId)
    requires Outdated(s, t)
    ensures Outdated(Next(s, step), t)
  {
    hide Next;
    OnwardNext(s, step, t, s.tokens[t].session);
  }

  lemma {:induction false} OutdatedRun(steps: seq<Step>, more: seq<Step>, t: TokenId)
    requires Outdated(Run(INIT, steps), t)
    ensures Outdated(Run(INIT, steps + more), t)
    decreases |more|
  {
    hide Outdated, Next;
    if more == [] {
      assert steps + more == steps;
    } else {
      var init := more[..|more| - 1];
      assert (steps + more)[..|steps + more| - 1] == steps + init;
      OutdatedRun(steps, init, t);
      OutdatedNext(Run(INIT, steps + init), more[|more| - 1], t);
    }
  }

  /** Once its session has entered a newer generation, a lease is not active again. */
  lemma OldLeaseStaysInactive(steps: seq<Step>, more: seq<Step>, t: TokenId)
    requires SafeRun(steps + more) && Outdated(Run(INIT, steps), t)
    ensures !IsActive(Run(INIT, steps + more), t)
  {
    hide Run;
    InvariantRun(steps + more);
    OutdatedRun(steps, more, t);
    var r := Run(INIT, steps + more);
    assert TokenOk(r, r.tokens[t]);
  }

  lemma RunAppend(steps: seq<Step>, step: Step)
    ensures Run(INIT, steps + [step]) == Next(Run(INIT, steps), step)
  {
    assert (steps + [step])[..|steps|] == steps;
  }

  lemma RunNothing()
    ensures Run(INIT, []) == INIT
  {
  }

  const ATTACHING: seq<Step> := [] + [SConnect] + [SAcquire(0, 0, Shared)]

  lemma FirstAcquire(s: State)
    requires s == INIT.(connected := true)
    ensures Acquire(s, 0, 0, Shared) ==
            s.(counts := map[0 := 1], attachments := map[0 := 0], promises := map[0 := Promise(Attach, 0, Pending)],
               nextPromise := 1, tokens := map[0 := Token(0, Shared, AwaitingAttach(0), 0)])
  {
    var m := Reserve(s, 0, 0, Shared);
    assert m == s.(counts := map[0 := 1], tokens := map[0 := Token(0, Shared, Reserved, 0)]);
    hide Reserve;
    assert Acquire(s, 0, 0, Shared) == ThenAttach(m, 0, false) == NewAttachment(m, 0);
    hide Acquire, ThenAttach, ThenCleanUp;
    var r := Request(m, Attach, 0);
    assert r == m.(promises := map[0 := Promise(Attach, 0, Pending)], nextPromise := 1);
    hide Request;
    assert map[0 := Token(0, Shared, Reserved, 0)][0 := Token(0, Shared, AwaitingAttach(0), 0)]
        == map[0 := Token(0, Shared, AwaitingAttach(0), 0)];
  }

  lemma AfterAttachRequest()
    ensures Run(INIT, ATTACHING) ==
            INIT.(connected := true, counts := map[0 := 1], attachments := map[0 := 0],
                  promises := map[0 := Promise(Attach, 0, Pending)], nextPromise := 1,
                  tokens := map[0 := Token(0, Shared, AwaitingAttach(0), 0)])
  {
    hide Run, Acquire;
    RunNothing();
    RunAppend([], SConnect);
    RunAppend([] + [SConnect], SAcquire(0, 0, Shared));
    FirstAcquire(Run(INIT, [] + [SConnect]));
  }

  /** A client that acquires a session, loses its connection and gets a new one before the acquire has failed. */
  const INTERRUPTED: seq<Step> := ATTACHING + [SDisconnect] + [SConnect]

  lemma AfterInterruption()
    ensures var s := Run(INIT, INTERRUPTED);
            && s.connected && !s.disposed && s.counts == map[] && s.exclusive == map[] && s.cleanup == {} && s.attached == {}
            && s.detachments == map[] && s.attachments == map[0 := 0] && s.tokens == map[0 := Token(0, Shared, AwaitingAttach(0), 0)]
            && GenerationOf(s, 0) == 1 && PromiseOf(s, 0).settlement == Rejected
  {
    hide Run;
    AfterAttachRequest();
    RunAppend(ATTACHING, SDisconnect);
    RunAppend(ATTACHING + [SDisconnect], SConnect);
  }

  /** A session without reservations, clean-up or attachment can be reserved, whatever other tokens there are. */
  lemma AcquireReserves(s: State, t: TokenId, id: SessionId, mode: Mode, u: TokenId)
    requires t !in s.tokens && !s.disposed && CountOf(s, id) == 0 && (mode == Shared ==> id !in s.exclusive)
    requires id !in s.detachments && id !in s.cleanup && id !in s.attached
    ensures var r := Acquire(s, t, id, mode);
            && Holds(r, t, id) && r.tokens[t].mode == mode
            && (u != t && Holds(s, u, id) ==> Holds(r, u, id) && r.tokens[u] == s.tokens[u])
  {
    var m := Reserve(s, t, id, mode);
    var r := Acquire(s, t, id, mode);
    var stage := AwaitingAttach(if id in s.attachments then s.attachments[id] else s.nextPromise);
    assert m.tokens == s.tokens[t := Token(id, mode, Reserved, GenerationOf(s, id))] && m.generations == s.generations;
    assert m.detachments == s.detachments && m.cleanup == s.cleanup && m.attached == s.attached && m.attachments == s.attachments;
    assert m.nextPromise == s.nextPromise;
    hide Reserve;
    assert r == ThenAttach(m, t, false);
    hide Acquire, ThenCleanUp;
    assert r.tokens == m.tokens[t := m.tokens[t].(stage := stage)] && r.generations == m.generations;
    hide ThenAttach;
  }

  const LATE: seq<Step> := INTERRUPTED + [SAcquire(1, 0, Exclusive)] + [SResume(0)]

  lemma AfterLateFailure()
    ensures var s := Run(INIT, LATE);
            && s.connected && !s.disposed && s.counts == map[] && s.cleanup == {} && s.attached == {} && s.detachments == map[]
            && 2 !in s.tokens && Holds(s, 1, 0) && s.tokens[1].mode == Exclusive && GenerationOf(s, 0) == 1
  {
    hide Run;
    AfterInterruption();
    RunAppend(INTERRUPTED, SAcquire(1, 0, Exclusive));
    RunAppend(INTERRUPTED + [SAcquire(1, 0, Exclusive)], SResume(0));
    var a := Run(INIT, INTERRUPTED + [SAcquire(1, 0, Exclusive)]);
    assert a.tokens[1] == Token(0, Exclusive, AwaitingAttach(0), 1) && a.counts == map[0 := 1] && GenerationOf(a, 0) == 1;
    assert a.tokens[0] == Token(0, Shared, AwaitingAttach(0), 0) && PromiseOf(a, 0).settlement == Rejected;
  }

  /** Without the assumption exclusion fails: the late failure of the interrupted acquire takes away the count of a new
      exclusive reservation, and a second one is let in beside it. */
  lemma LateFailureBreaksExclusion()
    ensures var s := Run(INIT, LATE + [SAcquire(2, 0, Exclusive)]);
            && Holds(s, 1, 0) && s.tokens[1].mode == Exclusive && Holds(s, 2, 0) && s.tokens[2].mode == Exclusive
  {
    hide Run;
    AfterLateFailure();
    RunAppend(LATE, SAcquire(2, 0, Exclusive));
    hide Acquire;
    AcquireReserves(Run(INIT, LATE), 2, 0, Exclusive, 1);
  }

  /** A client whose attach is answered just before it loses the connection, so that the acquire goes on afterwards. */
  const ANSWERED: seq<Step> := ATTACHING + [SSettle(0, true)] + [SDisconnect] + [SResume(0)]

  lemma AfterAnswer()
    ensures var s := Run(INIT, ANSWERED);
            && !s.connected && !s.disposed && s.counts == map[] && s.exclusive == map[] && s.cleanup == {} && s.attached == {}
            && s.detachments == map[] && s.attachments == map[] && s.tokens == map[0 := Token(0, Shared, Active(1), 0)]
            && GenerationOf(s, 0) == 1 && s.nextPromise == 1
  {
    hide Run;
    AfterAttachRequest();
    RunAppend(ATTACHING, SSettle(0, true));
    RunAppend(ATTACHING + [SSettle(0, true)], SDisconnect);
    RunAppend(ATTACHING + [SSettle(0, true)] + [SDisconnect], SResume(0));
    var a := Run(INIT, ATTACHING + [SSettle(0, true)] + [SDisconnect]);
    assert GenerationOf(a, 0) == 1 && PromiseOf(a, 0).settlement == Fulfilled && a.counts == map[] && a.cleanup == {};
    assert a.tokens == map[0 := Token(0, Shared, AwaitingAttach(0), 0)] && a.attachments == map[0 := 0];
  }

  const ACQUIRED_AGAIN: seq<Step> := ANSWERED + [SConnect] + [SAcquire(1, 0, Exclusive)]

  lemma AfterSecondAcquire()
    ensures var s := Run(INIT, ACQUIRED_AGAIN);
            && s.connected && s.counts == map[0 := 1] && GenerationOf(s, 0) == 1 && PromiseOf(s, 1) == Promise(Attach, 0, Pending)
            && s.tokens == map[0 := Token(0, Shared, Active(1), 0), 1 := Token(0, Exclusive, AwaitingAttach(1), 1)]
  {
    hide Run;
    AfterAnswer();
    RunAppend(ANSWERED, SConnect);
    RunAppend(ANSWERED + [SConnect], SAcquire(1, 0, Exclusive));
  }

  /** The acquire that went on late is an active lease of the new connection, beside an exclusive one. */
  lemma LateSuccessBreaksExclusion()
    ensures var s := Run(INIT, ACQUIRED_AGAIN + [SSettle(1, true)] + [SResume(1)]);
            && IsActive(s, 0) && IsActive(s, 1) && s.tokens[1].mode == Exclusive && CountOf(s, 0) == 1
  {
    hide Run;
    AfterSecondAcquire();
    RunAppend(ACQUIRED_AGAIN, SSettle(1, true));
    RunAppend(ACQUIRED_AGAIN + [SSettle(1, true)], SResume(1));
    var a := Settle(Run(INIT, ACQUIRED_AGAIN), 1, true);
    assert a == Run(INIT, ACQUIRED_AGAIN + [SSettle(1, true)]) && 0 in a.attached && GenerationOf(a, 0) == 1;
    assert a.counts == map[0 := 1] && PromiseOf(a, 1).settlement == Fulfilled;
    assert a.tokens == map[0 := Token(0, Shared, Active(1), 0), 1 := Token(0, Exclusive, AwaitingAttach(1), 1)];
    hide Settle;
    assert Resume(a, 1) == CreateLease(WithoutAttachment(a, 0, 1), 1);
    hide Resume;
  }
}
