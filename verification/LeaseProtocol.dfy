/**
 The lease protocol for one session: what each event does to the client's state for
 that session. One event is one API call, inbound message or close together with the
 continuations it releases.
 */
module LeaseProtocol {
  import opened Options

  datatype Mode = Shared | Exclusive
  type RequestId = nat

  datatype Token = Token(id: nat, mode: Mode)

  /** What a suspended `acquireSession` call awaits: an in-flight request of the session. */
  datatype Waiting = OnDetachment(id: RequestId) | OnReconciliation(id: RequestId) | OnAttachment(id: RequestId)

  datatype LeaseState = Active | Releasing(id: RequestId, relinquish: bool) | Released | Invalidated
  datatype Lease = Lease(generation: nat, state: LeaseState)

  /** Since the session last needed cleanup: it must still be detached, or still be reported attached again. */
  datatype Stage = Clean | NeedsDetach | NeedsAttach

  /** `count` is zero when the client has no entry. `acquires` and `leases` are the suspended calls and the
      lease closures, by token. `ledger` (tokens reserved and not released since the last invalidation) and
      `stage` are history: no event reads them. */
  datatype Session = Session(
    count: nat, exclusive: Option<Token>, generation: nat,
    attached: bool, cleanup: bool,
    attachment: Option<RequestId>, detachment: Option<RequestId>, reconciliation: Option<RequestId>,
    acquires: map<Token, Waiting>, leases: map<Token, Lease>,
    ledger: set<Token>, stage: Stage)

  // ---- Live and active leases ----

  /** Neither released nor invalidated. */
  predicate Live(x: Session, l: Lease) {
    (l.state.Active? || l.state.Releasing?) && l.generation == x.generation
  }

  predicate IsActive(x: Session, t: Token) {
    t in x.leases && x.leases[t].state.Active? && x.leases[t].generation == x.generation && x.attached
  }

  /** A token whose lease is neither released nor invalidated. */
  predicate HasLive(x: Session, t: Token) {
    t in x.leases && Live(x, x.leases[t])
  }

  // ---- Bookkeeping ----

  function Reserve(x: Session, t: Token): Option<Session> {
    if (t.mode.Exclusive? && x.count > 0) || (t.mode.Shared? && x.exclusive.Some?) then None
    else Some(x.(
      count := x.count + 1,
      exclusive := if t.mode.Exclusive? then Some(t) else x.exclusive,
      ledger := x.ledger + {t}))
  }

  function ReleaseToken(x: Session, t: Token): Session {
    x.(
      count := if x.count <= 1 then 0 else x.count - 1,
      exclusive := if x.exclusive == Some(t) then None else x.exclusive,
      ledger := x.ledger - {t})
  }

  function Invalidate(x: Session): Session {
    x.(count := 0, exclusive := None, cleanup := false, generation := x.generation + 1, ledger := {}, stage := Clean)
  }

  function AddLease(x: Session, t: Token): Session {
    x.(leases := x.leases[t := Lease(x.generation, Active)])
  }

  function Suspend(x: Session, t: Token, w: Waiting): Session {
    x.(acquires := x.acquires[t := w])
  }

  // ---- Acquiring ----

  /** Joins the attach in flight or starts one; a request that cannot be sent fails the call. */
  function StartAttach(x: Session, t: Token, canSend: bool, id: RequestId): Session {
    if x.attachment.Some? then Suspend(x, t, OnAttachment(x.attachment.value))
    else if canSend then Suspend(x.(attachment := Some(id)), t, OnAttachment(id))
    else ReleaseToken(x, t)
  }

  /** An acquire call once no detach is in flight. */
  function Proceed(x: Session, t: Token, canSend: bool, id: RequestId): Session {
    if x.cleanup then
      if x.reconciliation.Some? then Suspend(x, t, OnReconciliation(x.reconciliation.value))
      else if canSend then Suspend(x.(reconciliation := Some(id)), t, OnReconciliation(id))
      else ReleaseToken(x, t)
    else if !x.attached then StartAttach(x, t, canSend, id)
    else AddLease(x, t)
  }

  function Acquire(x: Session, t: Token, canSend: bool, id: RequestId): Option<Session> {
    match Reserve(x, t)
    case None => None
    case Some(y) =>
      if y.detachment.Some? then Some(Suspend(y, t, OnDetachment(y.detachment.value)))
      else Some(Proceed(y, t, canSend, id))
  }

  function Waiters(x: Session, w: Waiting): set<Token> {
    set t | t in x.acquires && x.acquires[t] == w
  }

  /** The order in which the calls waiting for `w` resume. */
  predicate Enumerates(order: seq<Token>, x: Session, w: Waiting) {
    && (forall i | 0 <= i < |order| :: order[i] in Waiters(x, w))
    && (forall t | t in Waiters(x, w) :: t in order)
    && (forall i, j | 0 <= i < j < |order| :: order[i] != order[j])
  }

  function Wake(x: Session, w: Waiting): Session {
    x.(acquires := x.acquires - Waiters(x, w))
  }

  function ProceedAll(x: Session, order: seq<Token>, canSend: bool, id: RequestId): Session
    decreases |order|
  {
    if order == [] then x else ProceedAll(Proceed(x, order[0], canSend, id), order[1..], canSend, id)
  }

  function AttachAll(x: Session, order: seq<Token>, canSend: bool, id: RequestId): Session
    decreases |order|
  {
    if order == [] then x else AttachAll(StartAttach(x, order[0], canSend, id), order[1..], canSend, id)
  }

  function LeaseAll(x: Session, order: seq<Token>): Session
    decreases |order|
  {
    if order == [] then x else LeaseAll(AddLease(x, order[0]), order[1..])
  }

  function ReleaseAll(x: Session, order: seq<Token>): Session
    decreases |order|
  {
    if order == [] then x else ReleaseAll(ReleaseToken(x, order[0]), order[1..])
  }

  /** An attach reply, before the calls waiting for it resume. `attached` is what the session's snapshot says after it. */
  function Reattached(x: Session, id: RequestId, ok: bool, attached: bool): Session {
    var y := Wake(x, OnAttachment(id)).(attachment := if x.attachment == Some(id) then None else x.attachment);
    if ok then y.(attached := attached, stage := if x.stage.NeedsAttach? then Clean else x.stage) else y
  }

  function AttachSettled(x: Session, id: RequestId, ok: bool, attached: bool, order: seq<Token>): Session {
    if ok then LeaseAll(Reattached(x, id, ok, attached), order) else ReleaseAll(Reattached(x, id, ok, attached), order)
  }

  /** The reply to the detach that cleans a session up, before the calls waiting for it resume. */
  function Reconciled(x: Session, id: RequestId, ok: bool): Session {
    var y := Wake(x, OnReconciliation(id)).(reconciliation := None);
    if ok then
      y.(attached := false, cleanup := false, stage := if x.stage.NeedsDetach? then NeedsAttach else x.stage)
    else y
  }

  function ReconcileSettled(
    x: Session, id: RequestId, ok: bool, order: seq<Token>, canSend: bool, next: RequestId): Session
  {
    if ok then AttachAll(Reconciled(x, id, ok), order, canSend, next) else ReleaseAll(Reconciled(x, id, ok), order)
  }

  // ---- Releasing ----

  function SetLease(x: Session, t: Token, state: LeaseState): Session
    requires t in x.leases
  {
    x.(leases := x.leases[t := x.leases[t].(state := state)])
  }

  /** A failed detach: the lease is relinquished (leaving the session to be cleaned up) or active again. */
  function ReleaseFailed(x: Session, t: Token, relinquish: bool): Session
    requires t in x.leases
  {
    if x.leases[t].generation != x.generation then SetLease(x, t, Invalidated)
    else if relinquish then SetLease(ReleaseToken(x, t), t, Released).(cleanup := true, stage := NeedsDetach)
    else SetLease(x, t, Active)
  }

  /** `detach()` (keeps the lease on failure) or `dispose()` (relinquishes it). */
  function Release(x: Session, t: Token, relinquish: bool, canSend: bool, id: RequestId): Session
    requires t in x.leases
  {
    if !IsActive(x, t) then
      if (x.leases[t].state.Active? || x.leases[t].state.Releasing?) && x.leases[t].generation != x.generation
      then SetLease(x, t, Invalidated) else x
    else if x.count > 1 then SetLease(ReleaseToken(x, t), t, Released)
    else if canSend then SetLease(x, t, Releasing(id, relinquish)).(detachment := Some(id))
    else ReleaseFailed(x, t, relinquish)
  }

  /** The reply to the detach a releasing lease sent, before the calls waiting for it resume. */
  function Detached(x: Session, id: RequestId, t: Token, relinquish: bool, ok: bool): Session
    requires t in x.leases
  {
    var y := Wake(x, OnDetachment(id)).(detachment := if x.detachment == Some(id) then None else x.detachment);
    if ok then SetLease(ReleaseToken(y, t), t, Released).(attached := false) else ReleaseFailed(y, t, relinquish)
  }

  function DetachSettled(
    x: Session, id: RequestId, t: Token, relinquish: bool, ok: bool, order: seq<Token>, canSend: bool, next: RequestId)
    : Session
    requires t in x.leases
  {
    ProceedAll(Detached(x, id, t, relinquish, ok), order, canSend, next)
  }

  // ---- Other events ----

  /** A created session: its exclusive lease, unless the id is already held. */
  function Created(x: Session, t: Token, attached: bool): Session {
    var y := x.(attached := attached);
    match Reserve(y, t)
    case None => y
    case Some(z) => AddLease(z, t)
  }

  function Snapshot(x: Session, attached: bool): Session {
    x.(attached := attached, stage := if attached && x.stage.NeedsAttach? then Clean else x.stage)
  }

  function Removed(x: Session): Session {
    Invalidate(x).(attached := false)
  }

  function InvalidatedIfHeld(x: Session): Session {
    if x.count > 0 then Invalidate(x) else x
  }

  /** A close, before the calls in flight fail. */
  function Closed(x: Session): Session {
    InvalidatedIfHeld(x).(attached := false, cleanup := false, stage := Clean)
  }

  /** Every call in flight has failed: suspended acquires let their token go, releasing leases are invalidated. */
  function Abandoned(x: Session): Session {
    x.(attachment := None, detachment := None, reconciliation := None, acquires := map[],
       exclusive := if x.exclusive.Some? && x.exclusive.value in x.acquires then None else x.exclusive,
       ledger := x.ledger - x.acquires.Keys,
       leases := map t | t in x.leases ::
         if x.leases[t].state.Releasing? then x.leases[t].(state := Invalidated) else x.leases[t])
  }

  function Disconnected(x: Session): Session {
    Abandoned(Closed(x))
  }

  const Fresh := Session(0, None, 0, false, false, None, None, None, map[], map[], {}, Clean)
}
