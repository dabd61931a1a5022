/** The session leases of pi/packages/client/src/client.ts as a state machine: one step per stretch of code between two
    awaits. Requests are promises that the server settles, or that a disconnect rejects. */
module ClientLeases {

  type SessionId = nat
  /** A reservation and the lease it becomes share one number. */
  type TokenId = nat
  type PromiseId = nat

  datatype Mode = Shared | Exclusive

  datatype Kind = Attach | Detach | Reconcile

  datatype Settlement = Pending | Fulfilled | Rejected

  datatype Promise = Promise(kind: Kind, session: SessionId, settlement: Settlement)

  /** Where acquireSession or release is: on the way to its first await, waiting for an earlier detach, for the clean-up of
      a failed one, for the attach, in use, waiting for its own detach, or done. A lease keeps the generation it was
      created in. */
  datatype Stage =
    | Reserved
    | AwaitingDetach(on: PromiseId)
    | AwaitingCleanup(on: PromiseId)
    | AwaitingAttach(on: PromiseId)
    | Active(generation: nat)
    | Releasing(generation: nat, on: PromiseId, relinquish: bool)
    | Done

  /** `reservedAt` is the session's generation when the token was reserved; the program does not store it. */
  datatype Token = Token(session: SessionId, mode: Mode, stage: Stage, reservedAt: nat)

  datatype State = State(
    connected: bool,
    disposed: bool,
    counts: map<SessionId, nat>,
    exclusive: map<SessionId, TokenId>,
    generations: map<SessionId, nat>,
    cleanup: set<SessionId>,
    attached: set<SessionId>,
    attachments: map<SessionId, PromiseId>,
    detachments: map<SessionId, PromiseId>,
    reconciliations: map<SessionId, PromiseId>,
    promises: map<PromiseId, Promise>,
    nextPromise: nat,
    tokens: map<TokenId, Token>)

  const INIT: State := State(false, false, map[], map[], map[], {}, {}, map[], map[], map[], map[], 0, map[])

  const NO_TOKEN: Token := Token(0, Shared, Done, 0)

  const NO_PROMISE: Promise := Promise(Attach, 0, Rejected)

  function Of(s: State, t: TokenId): Token {
    if t in s.tokens then s.tokens[t] else NO_TOKEN
  }

  function PromiseOf(s: State, p: PromiseId): Promise {
    if p in s.promises then s.promises[p] else NO_PROMISE
  }

  function CountOf(s: State, id: SessionId): nat {
    if id in s.counts then s.counts[id] else 0
  }

  function GenerationOf(s: State, id: SessionId): nat {
    if id in s.generations then s.generations[id] else 0
  }

  function With(s: State, t: TokenId, x: Token): State {
    s.(tokens := s.tokens[t := x])
  }

  function At(s: State, t: TokenId, stage: Stage): State {
    With(s, t, Of(s, t).(stage := stage))
  }

  // ----- reserveSessionLease, releaseSessionLease, invalidateAllSessionLeases

  predicate MayReserve(s: State, id: SessionId, mode: Mode) {
    (mode == Exclusive ==> CountOf(s, id) == 0) && (mode == Shared ==> id !in s.exclusive)
  }

  function Reserve(s: State, t: TokenId, id: SessionId, mode: Mode): State {
    s.(counts := s.counts[id := CountOf(s, id) + 1],
       exclusive := if mode == Exclusive then s.exclusive[id := t] else s.exclusive,
       tokens := s.tokens[t := Token(id, mode, Reserved, GenerationOf(s, id))])
  }

  /** Releasing does not look at the generation. */
  function ReleaseToken(s: State, t: TokenId): State {
    var id := Of(s, t).session;
    At(s, t, Done).(
      counts := if CountOf(s, id) <= 1 then s.counts - {id} else s.counts[id := CountOf(s, id) - 1],
      exclusive := if id in s.exclusive && s.exclusive[id] == t then s.exclusive - {id} else s.exclusive)
  }

  /** Every session with reservations loses them and enters a new generation. */
  function InvalidateAll(s: State): State {
    s.(counts := map[],
       exclusive := s.exclusive - s.counts.Keys,
       cleanup := {},
       generations := map id | id in s.generations.Keys + s.counts.Keys ::
         if id in s.counts then GenerationOf(s, id) + 1 else s.generations[id])
  }

  // ----- Requests

  /** request: rejected at once without a connection. */
  function Request(s: State, kind: Kind, id: SessionId): State {
    s.(promises := s.promises[s.nextPromise := Promise(kind, id, if s.connected && !s.disposed then Pending else Rejected)],
       nextPromise := s.nextPromise + 1)
  }

  /** The attached sessions after a response. */
  function AttachedAfter(attached: set<SessionId>, x: Promise, ok: bool): set<SessionId> {
    if !ok then attached else if x.kind == Attach then attached + {x.session} else attached - {x.session}
  }

  /** The server's response to a request. */
  function Settle(s: State, p: PromiseId, ok: bool): State {
    var x := PromiseOf(s, p);
    if x.settlement == Pending then
      s.(promises := s.promises[p := x.(settlement := if ok then Fulfilled else Rejected)],
         reconciliations := if x.kind == Reconcile then s.reconciliations - {x.session} else s.reconciliations,
         attached := AttachedAfter(s.attached, x, ok),
         cleanup := if x.kind == Reconcile && ok then s.cleanup - {x.session} else s.cleanup)
    else s
  }

  // ----- acquireSession

  /** createSessionLease. */
  function CreateLease(s: State, t: TokenId): State {
    var id := Of(s, t).session;
    At(s, t, Active(GenerationOf(s, id))).(generations := s.generations[id := GenerationOf(s, id)])
  }

  /** A new attach request that other acquires of the session can share. */
  function NewAttachment(s: State, t: TokenId): State {
    var id := Of(s, t).session;
    At(Request(s, Attach, id).(attachments := s.attachments[id := s.nextPromise]), t, AwaitingAttach(s.nextPromise))
  }

  /** Attaching, unless the session is attached and was not just cleaned up. */
  function ThenAttach(s: State, t: TokenId, reconciled: bool): State {
    var id := Of(s, t).session;
    if !reconciled && id in s.attached then CreateLease(s, t)
    else if id in s.attachments then At(s, t, AwaitingAttach(s.attachments[id]))
    else NewAttachment(s, t)
  }

  function NewReconciliation(s: State, t: TokenId): State {
    var id := Of(s, t).session;
    At(Request(s, Reconcile, id).(
         reconciliations := if s.connected && !s.disposed then s.reconciliations[id := s.nextPromise] else s.reconciliations),
       t, AwaitingCleanup(s.nextPromise))
  }

  /** reconcileSessionCleanup, if needed, before attaching. */
  function ThenCleanUp(s: State, t: TokenId): State {
    var id := Of(s, t).session;
    if id !in s.cleanup then ThenAttach(s, t, false)
    else if id in s.reconciliations then At(s, t, AwaitingCleanup(s.reconciliations[id]))
    else NewReconciliation(s, t)
  }

  function Acquire(s: State, t: TokenId, id: SessionId, mode: Mode): State {
    if t in s.tokens || s.disposed || !MayReserve(s, id, mode) then s
    else if id in s.detachments then At(Reserve(s, t, id, mode), t, AwaitingDetach(s.detachments[id]))
    else ThenCleanUp(Reserve(s, t, id, mode), t)
  }

  /** createSession, when its response is there. */
  function Created(s: State, t: TokenId, id: SessionId): State {
    if t in s.tokens || !MayReserve(s, id, Exclusive) then s else CreateLease(Reserve(s, t, id, Exclusive), t)
  }

  function WithoutAttachment(s: State, id: SessionId, p: PromiseId): State {
    if id in s.attachments && s.attachments[id] == p then s.(attachments := s.attachments - {id}) else s
  }

  function WithoutDetachment(s: State, id: SessionId, p: PromiseId): State {
    if id in s.detachments && s.detachments[id] == p then s.(detachments := s.detachments - {id}) else s
  }

  predicate Waiting(s: State, t: TokenId) {
    !Of(s, t).stage.Reserved? && !Of(s, t).stage.Done? && !Of(s, t).stage.Active?
  }

  /** The promise that the call of token `t` waits for has settled. */
  function Resume(s: State, t: TokenId): State {
    if !Waiting(s, t) || PromiseOf(s, Of(s, t).stage.on).settlement == Pending then s
    else
      var ok := PromiseOf(s, Of(s, t).stage.on).settlement == Fulfilled;
      var id := Of(s, t).session;
      match Of(s, t).stage
      case AwaitingDetach(_) => ThenCleanUp(s, t)
      case AwaitingCleanup(_) => if ok then ThenAttach(s, t, true) else ReleaseToken(s, t)
      case AwaitingAttach(p) =>
        if ok then CreateLease(WithoutAttachment(s, id, p), t) else ReleaseToken(WithoutAttachment(s, id, p), t)
      case Releasing(generation, p, relinquish) => DetachResumes(WithoutDetachment(s, id, p), t, ok)
  }

  // ----- release

  predicate IsActive(s: State, t: TokenId) {
    Of(s, t).stage.Active? && Of(s, t).stage.generation == GenerationOf(s, Of(s, t).session) && Of(s, t).session in s.attached
  }

  /** Whether release sends a detach. */
  predicate SendsDetach(s: State, t: TokenId) {
    !s.disposed && s.connected && IsActive(s, t) && CountOf(s, Of(s, t).session) <= 1
  }

  function Release(s: State, t: TokenId, relinquish: bool): State {
    var id := Of(s, t).session;
    if s.disposed || !s.connected || !IsActive(s, t) then s
    else if SendsDetach(s, t) then
      At(Request(s, Detach, id).(detachments := s.detachments[id := s.nextPromise]), t,
         Releasing(Of(s, t).stage.generation, s.nextPromise, relinquish))
    else ReleaseToken(s, t)
  }

  /** The lease's own detach has settled. */
  function DetachResumes(s: State, t: TokenId, ok: bool): State
    requires Of(s, t).stage.Releasing?
  {
    var x := Of(s, t);
    if ok then ReleaseToken(s, t)
    else if x.stage.generation != GenerationOf(s, x.session) then At(s, t, Done)
    else if x.stage.relinquish then ReleaseToken(s, t).(cleanup := s.cleanup + {x.session})
    else At(s, t, Active(x.stage.generation))
  }

  // ----- Connection

  function Connect(s: State): State {
    if s.disposed || s.connected then s else s.(connected := true, attached := {})
  }

  /** The connection is gone: requests are rejected, attachments forgotten, leases invalidated. */
  function Disconnect(s: State): State {
    if !s.connected then s
    else
      InvalidateAll(s).(
        connected := false,
        attached := {},
        reconciliations := map[],
        promises := map p | p in s.promises ::
          if s.promises[p].settlement == Pending then s.promises[p].(settlement := Rejected) else s.promises[p])
  }

  /** Snapshots of sessions say which of them the client is attached to. */
  function Event(s: State, attached: set<SessionId>): State {
    if s.connected then s.(attached := attached) else s
  }

  function Dispose(s: State): State {
    InvalidateAll(Disconnect(s)).(disposed := true, attached := {})
  }

  // ----- Runs

  datatype Step =
    | SAcquire(t: TokenId, id: SessionId, mode: Mode)
    | SCreated(t: TokenId, id: SessionId)
    | SResume(t: TokenId)
    | SRelease(t: TokenId, relinquish: bool)
    | SSettle(p: PromiseId, ok: bool)
    | SEvent(attached: set<SessionId>)
    | SConnect
    | SDisconnect
    | SDispose

  function Next(s: State, step: Step): State {
    match step
    case SAcquire(t, id, mode) => Acquire(s, t, id, mode)
    case SCreated(t, id) => Created(s, t, id)
    case SResume(t) => Resume(s, t)
    case SRelease(t, relinquish) => Release(s, t, relinquish)
    case SSettle(p, ok) => Settle(s, p, ok)
    case SEvent(attached) => Event(s, attached)
    case SConnect => Connect(s)
    case SDisconnect => Disconnect(s)
    case SDispose => Dispose(s)
  }

  function Run(s: State, steps: seq<Step>): State
    decreases |steps|
  {
    if steps == [] then s else Next(Run(s, steps[..|steps| - 1]), steps[|steps| - 1])
  }
}
