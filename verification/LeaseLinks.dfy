/** How pending requests correspond to what each session has in flight. */
module LeaseLinks {
  import opened LeaseProtocol
  import opened LeaseInvariant
  import opened LeaseRuns
  import opened ClientStates
  import opened Options

  datatype Name = List | Create | Attach | Detach | Other

  /** What the client does when a request settles. */
  datatype Continuation =
    | Caller
    | Creation
    | Attaching(s: SessionId, previous: Option<Snapshot>)
    | Cleaning(s: SessionId)
    | Detaching(s: SessionId, t: Token, relinquish: bool)

  datatype Pending = Pending(name: Name, next: Continuation)
  datatype Result = Result(name: Name, session: SessionId, snapshot: Snapshot)
  datatype Outcome = Resolved(name: Name) | Rejected
  datatype Acquired = Disposed | Owned | Begun(t: Token)
  datatype History = History(worlds: seq<World>, events: seq<Event>)

  function Or<V>(m: map<SessionId, V>, s: SessionId, default: V): V { if s in m then m[s] else default }
  function At<V>(m: map<SessionId, V>, s: SessionId): Option<V> { if s in m then Some(m[s]) else None }

  // What the client's lemmas about two states speak of: a session and the request, lease or event concerned.
  datatype Change = Change(s: SessionId, awaited: map<RequestId, Pending>)
  datatype Ending = Ending(s: SessionId, t: Token, leaseState: LeaseState)
  datatype Sending = Sending(s: SessionId, id: RequestId, p: Pending, x: Session)
  datatype Answering = Answering(s: SessionId, id: RequestId, awaited: map<RequestId, Pending>, leaseState: LeaseState)
  datatype Handling = Handling(s: SessionId, e: Event)
  datatype Adding = Adding(id: RequestId, p: Pending)

  /** Request identifiers are handed out in order; each is pending or has settled, never both. */
  predicate Numbered(pending: map<RequestId, Pending>, outcomes: map<RequestId, Outcome>, last: nat) {
    && (forall id | id in pending :: 1 <= id <= last && id !in outcomes)
    && (forall id | id in outcomes :: 1 <= id <= last)
    && (forall id: RequestId | 1 <= id <= last :: id in pending || id in outcomes)
  }

  lemma SettledNotPending(
    pending: map<RequestId, Pending>, outcomes: map<RequestId, Outcome>, last: nat, id: RequestId)
    requires Numbered(pending, outcomes, last) && id in outcomes
    ensures id !in pending
  {
  }

  /** Whatever session `s`, seen as `x`, has in flight is awaited on its behalf. */
  predicate Awaited(s: SessionId, x: Session, awaited: map<RequestId, Pending>) {
    && (x.attachment.Some? ==>
      && x.attachment.value in awaited
      && awaited[x.attachment.value].next.Attaching? && awaited[x.attachment.value].next.s == s)
    && (x.reconciliation.Some? ==>
      && x.reconciliation.value in awaited && awaited[x.reconciliation.value].next == Cleaning(s))
    && (x.detachment.Some? ==>
      && x.detachment.value in awaited
      && awaited[x.detachment.value].next.Detaching? && awaited[x.detachment.value].next.s == s)
    && (forall t | t in x.leases && x.leases[t].state.Releasing? ::
      && x.leases[t].state.id in awaited
      && awaited[x.leases[t].state.id].next == Detaching(s, t, x.leases[t].state.relinquish))
  }

  /** The session, seen as `x`, waits for this pending request. */
  predicate Expects(id: RequestId, p: Pending, x: Session, isRemoved: bool) {
    match p.next
    case Caller => p.name == List || p.name == Other
    case Creation => p.name == Create
    case Attaching(_, _) => p.name == Attach && x.attachment == Some(id)
    case Cleaning(_) => p.name == Detach && x.reconciliation == Some(id)
    case Detaching(_, t, relinquish) =>
      && p.name == Detach && x.detachment == Some(id) && t in x.leases
      && (x.leases[t].state == Releasing(id, relinquish) || (isRemoved && x.leases[t].state.Invalidated?))
      && (isRemoved ==> x.leases[t].generation < x.generation)
  }

  /** Nothing in flight differs. */
  predicate SameInFlight(x: Session, y: Session) {
    && x.attachment == y.attachment && x.detachment == y.detachment && x.reconciliation == y.reconciliation
    && x.generation <= y.generation
    && (forall t | t in x.leases :: t in y.leases && y.leases[t] == x.leases[t])
    && (forall t | t in y.leases && t !in x.leases :: y.leases[t].state.Active?)
  }

  lemma HeldOnly(x: Session)
    ensures InvalidatedIfHeld(x) == if x.count > 0 then Invalidate(x) else x
  {
  }

  lemma ClosedInFlight(x: Session)
    ensures SameInFlight(x, Closed(x))
  {
  }

  /** Request `id` is in flight for the session. */
  function Sent(x: Session, id: RequestId, next: Continuation): Session {
    match next
    case Attaching(_, _) => x.(attachment := Some(id))
    case Cleaning(_) => x.(reconciliation := Some(id))
    case Detaching(_, t, relinquish) =>
      if t in x.leases then SetLease(x, t, Releasing(id, relinquish)).(detachment := Some(id)) else x
    case _ => x
  }

  predicate CanBeSent(x: Session, next: Continuation) {
    match next
    case Attaching(_, _) => x.attachment.None?
    case Cleaning(_) => x.reconciliation.None?
    case Detaching(_, t, _) => x.detachment.None? && t in x.leases && x.leases[t].state.Active?
    case _ => false
  }

  lemma AwaitedSent(s: SessionId, x: Session, awaited: map<RequestId, Pending>, id: RequestId, p: Pending)
    requires Awaited(s, x, awaited) && id !in awaited && CanBeSent(x, p.next) && p.next.s == s
    ensures Awaited(s, Sent(x, id, p.next), awaited[id := p])
  {
    AwaitedMore(s, x, awaited, id, p);
    if p.next.Detaching? {
      var y := Sent(x, id, p.next);
      assert forall t | t in y.leases && t != p.next.t :: y.leases[t] == x.leases[t];
    }
  }

  /** A lease may end while nothing awaits it, or, once the session is removed, even while something does. */
  predicate CanEnd(x: Session, t: Token, isRemoved: bool, leaseState: LeaseState) {
    && t in x.leases && !leaseState.Releasing?
    && (x.leases[t].state.Active? || (isRemoved && leaseState.Invalidated? && x.leases[t].state.Releasing?))
  }

  lemma EndsInFlight(x: Session, t: Token, relinquish: bool, isRemoved: bool)
    requires t in x.leases
    ensures x.leases[t].state.Active? ==>
      && CanEnd(x, t, isRemoved, Released) && CanEnd(x, t, isRemoved, Invalidated) && CanEnd(x, t, isRemoved, Active)
      && SameInFlight(SetLease(x, t, Released), SetLease(ReleaseToken(x, t), t, Released))
    ensures isRemoved && x.leases[t].state.Releasing? ==> CanEnd(x, t, isRemoved, Invalidated)
    ensures x.leases[t].state.Active? && x.leases[t].generation == x.generation ==>
      var y := ReleaseFailed(x, t, relinquish);
      && t in y.leases && (y.leases[t].state.Released? || y.leases[t].state.Active?)
      && SameInFlight(SetLease(x, t, y.leases[t].state), y)
    ensures SameInFlight(SetLease(x, t, Invalidated), SetLease(x, t, Invalidated))
  {
  }

  lemma CanEndFacts(x: Session, t: Token, isRemoved: bool, leaseState: LeaseState)
    requires CanEnd(x, t, isRemoved, leaseState)
    ensures t in x.leases && !leaseState.Releasing?
  {
  }

  lemma RemovedIsDetached(x: Session, isRemoved: bool)
    requires Inv(x, isRemoved)
    ensures isRemoved ==> !x.attached
  {
  }

  lemma ApartWhenReachable(x: Session, isRemoved: bool)
    requires Inv(x, isRemoved)
    ensures forall t | t in x.acquires :: t !in x.leases
  {
  }

  /** A reply's effect on a session does not depend on whether it was attached before. */
  lemma RepliesAlike(x: Session, attached: bool, id: RequestId, order: seq<Token>)
    ensures var y := x.(attached := attached);
      && AttachSettled(y, id, true, attached, order) == AttachSettled(x, id, true, attached, order)
      && (Enumerates(order, y, OnAttachment(id)) ==> Enumerates(order, x, OnAttachment(id)))
  {
    assert Reattached(x.(attached := attached), id, true, attached) == Reattached(x, id, true, attached);
    assert Waiters(x.(attached := attached), OnAttachment(id)) == Waiters(x, OnAttachment(id));
  }

  lemma CleanupRepliesAlike(x: Session, id: RequestId, order: seq<Token>, canSend: bool, next: RequestId)
    ensures var y := x.(attached := false);
      && ReconcileSettled(y, id, true, order, canSend, next) == ReconcileSettled(x, id, true, order, canSend, next)
      && (Enumerates(order, y, OnReconciliation(id)) ==> Enumerates(order, x, OnReconciliation(id)))
  {
    assert Reconciled(x.(attached := false), id, true) == Reconciled(x, id, true);
    assert Waiters(x.(attached := false), OnReconciliation(id)) == Waiters(x, OnReconciliation(id));
  }

  lemma ReleaseRepliesAlike(
    x: Session, id: RequestId, t: Token, relinquish: bool, order: seq<Token>, canSend: bool, next: RequestId)
    requires t in x.leases
    ensures var y := x.(attached := false);
      && DetachSettled(y, id, t, relinquish, true, order, canSend, next)
         == DetachSettled(x, id, t, relinquish, true, order, canSend, next)
      && (Enumerates(order, y, OnDetachment(id)) ==> Enumerates(order, x, OnDetachment(id)))
  {
    assert Detached(x.(attached := false), id, t, relinquish, true) == Detached(x, id, t, relinquish, true);
    assert Waiters(x.(attached := false), OnDetachment(id)) == Waiters(x, OnDetachment(id));
  }

  /** What a release may rely on. */
  lemma ReleasableFacts(x: Session, isRemoved: bool, t: Token)
    requires Inv(x, isRemoved) && t in x.leases
    ensures IsActive(x, t) ==> !isRemoved && x.detachment.None?
    ensures x.leases[t].state.Releasing? && x.leases[t].generation != x.generation ==> isRemoved
  {
  }

  /** A release by cases. */
  lemma ReleaseCases(x: Session, t: Token, relinquish: bool, canSend: bool, id: RequestId)
    requires t in x.leases
    ensures var l := x.leases[t]; var y := Release(x, t, relinquish, canSend, id);
      && (IsActive(x, t) <==> l.state.Active? && l.generation == x.generation && x.attached)
      && (!IsActive(x, t) ==>
        y == if (l.state.Active? || l.state.Releasing?) && l.generation != x.generation then SetLease(x, t, Invalidated) else x)
      && (IsActive(x, t) && x.count > 1 ==> y == SetLease(ReleaseToken(x, t), t, Released))
      && (IsActive(x, t) && x.count <= 1 ==>
        y == if canSend then SetLease(x, t, Releasing(id, relinquish)).(detachment := Some(id))
             else ReleaseFailed(x, t, relinquish))
  {
    hide SetLease, ReleaseToken, ReleaseFailed;
  }

  lemma AwaitedEnded(s: SessionId, x: Session, t: Token, leaseState: LeaseState, awaited: map<RequestId, Pending>)
    requires Awaited(s, x, awaited) && t in x.leases && !leaseState.Releasing?
    ensures Awaited(s, SetLease(x, t, leaseState), awaited)
  {
  }

  lemma ExpectsEnded(x: Session, t: Token, leaseState: LeaseState, i: RequestId, q: Pending, isRemoved: bool)
    requires Expects(i, q, x, isRemoved) && CanEnd(x, t, isRemoved, leaseState)
    ensures Expects(i, q, SetLease(x, t, leaseState), isRemoved)
  {
  }

  lemma AwaitedRemoved(s: SessionId, x: Session, awaited: map<RequestId, Pending>)
    requires Awaited(s, x, awaited)
    ensures Awaited(s, Removed(x), awaited)
  {
  }

  lemma ExpectsRemoved(x: Session, i: RequestId, q: Pending, isRemoved: bool)
    requires Expects(i, q, x, isRemoved) && Dated(x)
    ensures Expects(i, q, Removed(x), true)
  {
  }

  lemma ExpectsSame(x: Session, y: Session, i: RequestId, q: Pending, isRemoved: bool)
    requires Expects(i, q, x, isRemoved) && SameInFlight(x, y)
    ensures Expects(i, q, y, isRemoved)
  {
  }

  /** The session once the request that `next` continues is no longer in flight. */
  function Answered(x: Session, next: Continuation, leaseState: LeaseState): Session {
    match next
    case Attaching(_, _) => x.(attachment := None)
    case Cleaning(_) => x.(reconciliation := None)
    case Detaching(_, t, _) => if t in x.leases then SetLease(x, t, leaseState).(detachment := None) else x
    case _ => x
  }

  lemma AwaitedAnswered(
    s: SessionId, x: Session, awaited: map<RequestId, Pending>, id: RequestId, leaseState: LeaseState)
    requires Awaited(s, x, awaited) && id in awaited && !awaited[id].next.Detaching?
    requires (awaited[id].next.Attaching? ==> x.attachment == Some(id))
    requires (awaited[id].next.Cleaning? ==> x.reconciliation == Some(id))
    ensures Awaited(s, Answered(x, awaited[id].next, leaseState), awaited - {id})
  {
  }

  lemma AwaitedReleased(
    s: SessionId, x: Session, awaited: map<RequestId, Pending>, id: RequestId, t: Token, relinquish: bool,
    leaseState: LeaseState)
    requires Awaited(s, x, awaited) && id in awaited && awaited[id].next == Detaching(s, t, relinquish)
    requires t in x.leases && x.detachment == Some(id) && !leaseState.Releasing?
    ensures Awaited(s, Answered(x, awaited[id].next, leaseState), awaited - {id})
  {
    var y := Answered(x, awaited[id].next, leaseState);
    assert forall u | u in y.leases && y.leases[u].state.Releasing? :: u != t && y.leases[u] == x.leases[u];
    hide Answered;
  }

  lemma AwaitedSame(s: SessionId, x: Session, y: Session, awaited: map<RequestId, Pending>)
    requires Awaited(s, x, awaited) && SameInFlight(x, y)
    ensures Awaited(s, y, awaited)
  {
  }

  lemma AwaitedElsewhere(
    s: SessionId, x: Session, awaited: map<RequestId, Pending>, id: RequestId)
    requires Awaited(s, x, awaited) && id in awaited
    requires awaited[id].next.Caller? || awaited[id].next.Creation? || awaited[id].next.s != s
    ensures Awaited(s, x, awaited - {id})
  {
  }

  lemma AwaitedMore(s: SessionId, x: Session, awaited: map<RequestId, Pending>, id: RequestId, p: Pending)
    requires Awaited(s, x, awaited) && id !in awaited
    ensures Awaited(s, x, awaited[id := p])
  {
  }

  lemma ExpectsAnswered(
    x: Session, y: Session, i: RequestId, q: Pending, isRemoved: bool, id: RequestId, p: Pending, leaseState: LeaseState)
    requires Expects(i, q, x, isRemoved) && i != id && SameInFlight(Answered(x, p.next, leaseState), y)
    requires p.next.Caller? || p.next.Creation? || Expects(id, p, x, isRemoved)
    ensures Expects(i, q, y, isRemoved)
  {
    var z := Answered(x, p.next, leaseState);
    assert Expects(i, q, z, isRemoved) by {
      hide SameInFlight;
      if p.next.Detaching? { assert !q.next.Detaching?; }
    }
    hide Answered, Expects, SameInFlight;
    ExpectsSame(z, y, i, q, isRemoved);
  }

  lemma ExpectsSent(x: Session, y: Session, i: RequestId, q: Pending, isRemoved: bool, id: RequestId, p: Pending)
    requires Expects(i, q, x, isRemoved) && i != id && SameInFlight(x, y) && CanBeSent(y, p.next)
    ensures Expects(i, q, Sent(y, id, p.next), isRemoved)
  {
  }

  lemma ReservesOnly(x: Session, t: Token)
    ensures Reserve(x, t).Some? ==>
      SameInFlight(x, Reserve(x, t).value) && Reserve(x, t).value.detachment == x.detachment
      && Reserve(x, t).value.leases == x.leases
  {
  }

  lemma AddsOnly(x: Session, t: Token)
    requires Reserve(x, t).Some? && t !in x.leases
    ensures SameInFlight(x, AddLease(Reserve(x, t).value, t))
  {
  }

  lemma ReservesAlike(x: Session, attached: bool, t: Token)
    ensures Reserve(x.(attached := attached), t).Some? <==> Reserve(x, t).Some?
  {
  }

  /** An acquire call of the session would send no request. */
  predicate NothingToSend(x: Session) {
    if x.cleanup then x.reconciliation.Some? else x.attached || x.attachment.Some?
  }

  lemma ProceedAllStep(x: Session, order: seq<Token>, i: nat, canSend: bool, id: RequestId)
    requires i <= |order|
    ensures i < |order| ==>
      ProceedAll(x, order[i..], canSend, id) == ProceedAll(Proceed(x, order[i], canSend, id), order[i + 1..], canSend, id)
    ensures i == |order| ==> ProceedAll(x, order[i..], canSend, id) == x
  {
    if i < |order| { assert order[i..][1..] == order[i + 1..]; }
  }

  lemma DetachedLeases(x: Session, id: RequestId, t: Token, relinquish: bool, ok: bool)
    requires t in x.leases
    ensures Detached(x, id, t, relinquish, ok).leases.Keys == x.leases.Keys
  {
  }

  /** Handling a reply takes just its request out of flight. */
  lemma SettledInFlight(x: Session, id: RequestId, next: Continuation, ok: bool, attached: bool)
    ensures next.Attaching? && x.attachment == Some(id) ==>
      SameInFlight(Answered(x, next, Released), Reattached(x, id, ok, attached))
    ensures next.Cleaning? ==> SameInFlight(Answered(x, next, Released), Reconciled(x, id, ok))
    ensures next.Detaching? && x.detachment == Some(id) && next.t in x.leases ==>
      var y := Detached(x, id, next.t, next.relinquish, ok);
      next.t in y.leases && !y.leases[next.t].state.Releasing?
      && SameInFlight(Answered(x, next, y.leases[next.t].state), y)
  {
  }

  lemma ProceedSends(x: Session, t: Token, canSend: bool, id: RequestId, other: RequestId)
    ensures canSend ==> NothingToSend(Proceed(x, t, canSend, id))
    ensures NothingToSend(x) || !canSend ==> Proceed(x, t, canSend, id) == Proceed(x, t, canSend, other)
    ensures forall u | u != t && u !in x.leases :: u !in Proceed(x, t, canSend, id).leases
  {
  }

  function SessionOf(p: Pending): SessionId {
    if p.next.Caller? || p.next.Creation? then 0 else p.next.s
  }

  /** `y` is session `x` once request `id`, continued by `next`, has failed. */
  ghost predicate Failed(
    id: RequestId, next: Continuation, x: Session, y: Session, order: seq<Token>, canSend: bool, sent: RequestId)
  {
    match next
    case Attaching(_, _) =>
      x.attachment == Some(id) && Enumerates(order, x, OnAttachment(id)) && y == AttachSettled(x, id, false, x.attached, order)
    case Cleaning(_) =>
      && x.reconciliation == Some(id) && Enumerates(order, x, OnReconciliation(id))
      && y == ReconcileSettled(x, id, false, order, canSend, sent)
    case Detaching(_, t, relinquish) =>
      && x.detachment == Some(id) && Enumerates(order, x, OnDetachment(id)) && t in x.leases
      && y == DetachSettled(x, id, t, relinquish, false, order, canSend, sent)
    case _ => y == x
  }

  // ---- Runs and tokens ----

  /** `h` is the run that led to `w`. */
  ghost predicate Recorded(h: History, w: World) {
    IsRun(h.worlds, h.events) && h.worlds[|h.worlds| - 1] == w
  }

  function Extend(h: History, e: Event, w: World): History {
    History(h.worlds + [w], h.events + [e])
  }

  lemma {:induction false} RunExtends(h: History, w: World, e: Event, v: World)
    requires Recorded(h, w) && Step(w, e, v)
    ensures Recorded(Extend(h, e, v), v)
  {
    hide Step;
    var g := Extend(h, e, v);
    forall i | 0 <= i < |g.events| ensures StepAt(g.worlds, g.events, i) {
      if i < |h.events| { assert StepAt(h.worlds, h.events, i); }
    }
  }

  function ClosedWorld(h: History): World {
    if h.worlds == [] then World(Fresh, false)
    else var w := h.worlds[|h.worlds| - 1]; World(Disconnected(w.x), w.removed)
  }

  lemma LastWorld(h: History, w: World)
    requires Recorded(h, w)
    ensures ClosedWorld(h) == World(Disconnected(w.x), w.removed)
  {
    hide Disconnected;
  }

  lemma {:induction false} RecordedKeeps(h: History, w: World)
    requires Recorded(h, w)
    ensures Inv(w.x, w.removed)
  {
    hide Inv;
    RunKeeps(h.worlds, h.events, |h.events|);
  }

  predicate TokensBelow(x: Session, n: nat) {
    && (forall t | t in x.acquires :: t.id < n)
    && (forall t | t in x.leases :: t.id < n)
    && (forall t | t in x.ledger :: t.id < n)
  }

  lemma BelowMore(x: Session, n: nat, m: nat)
    requires TokensBelow(x, n) && n <= m
    ensures TokensBelow(x, m)
  {
  }

  lemma StepIsAfter(w: World, e: Event, v: World)
    requires Step(w, e, v)
    ensures e.ReleaseCall? || e.DetachReply? ==> e.t in w.x.leases
    ensures v.x == After(w.x, e)
  {
    hide After;
  }

  lemma ResumedBelow(x: Session, t: Token, canSend: bool, id: RequestId, n: nat)
    requires TokensBelow(x, n) && t.id < n
    ensures TokensBelow(Proceed(x, t, canSend, id), n) && TokensBelow(StartAttach(x, t, canSend, id), n)
    ensures TokensBelow(AddLease(x, t), n) && TokensBelow(ReleaseToken(x, t), n)
  {
  }

  lemma {:induction false} ResumingBelow(x: Session, order: seq<Token>, canSend: bool, id: RequestId, n: nat)
    requires TokensBelow(x, n) && forall t | t in order :: t.id < n
    ensures TokensBelow(ProceedAll(x, order, canSend, id), n) && TokensBelow(AttachAll(x, order, canSend, id), n)
    ensures TokensBelow(LeaseAll(x, order), n) && TokensBelow(ReleaseAll(x, order), n)
    decreases |order|
  {
    if order != [] {
      hide TokensBelow;
      assert order[0] in order && forall t | t in order[1..] :: t in order;
      ResumedBelow(x, order[0], canSend, id, n);
      ResumingBelow(Proceed(x, order[0], canSend, id), order[1..], canSend, id, n);
      ResumingBelow(StartAttach(x, order[0], canSend, id), order[1..], canSend, id, n);
      ResumingBelow(AddLease(x, order[0]), order[1..], canSend, id, n);
      ResumingBelow(ReleaseToken(x, order[0]), order[1..], canSend, id, n);
    }
  }

  lemma {:induction false} WaitersBelow(x: Session, w: Waiting, order: seq<Token>, n: nat)
    requires TokensBelow(x, n) && Enumerates(order, x, w)
    ensures forall t | t in order :: t.id < n
    ensures TokensBelow(Wake(x, w), n)
  {
    forall t | t in order ensures t.id < n {
      assert t in Waiters(x, w);
    }
  }

  lemma AcquireBelow(x: Session, t: Token, canSend: bool, id: RequestId, n: nat)
    requires TokensBelow(x, n) && t.id < n && Acquire(x, t, canSend, id).Some?
    ensures TokensBelow(Acquire(x, t, canSend, id).value, n)
  {
    var y := Reserve(x, t).value;
    assert TokensBelow(y, n);
    hide Reserve, Proceed;
    ResumedBelow(y, t, canSend, id, n);
    assert TokensBelow(Suspend(y, t, OnAttachment(0)), n);
  }

  lemma ReleaseBelow(x: Session, t: Token, relinquish: bool, canSend: bool, id: RequestId, n: nat)
    requires TokensBelow(x, n) && t in x.leases
    ensures TokensBelow(Release(x, t, relinquish, canSend, id), n)
  {
    var y := Release(x, t, relinquish, canSend, id);
    assert y.leases.Keys == x.leases.Keys && y.acquires == x.acquires && y.ledger <= x.ledger;
    hide Release;
  }

  lemma CreatedBelow(x: Session, t: Token, attached: bool, n: nat)
    requires TokensBelow(x, n) && t.id < n
    ensures TokensBelow(Created(x, t, attached), n)
  {
    var y := Created(x, t, attached);
    assert y.leases.Keys <= x.leases.Keys + {t} && y.acquires == x.acquires && y.ledger <= x.ledger + {t};
    hide Created;
  }

  lemma ReplyBelow(x: Session, id: RequestId, ok: bool, attached: bool, n: nat)
    requires TokensBelow(x, n)
    ensures TokensBelow(Reattached(x, id, ok, attached), n) && TokensBelow(Reconciled(x, id, ok), n)
  {
  }

  lemma DetachedBelow(x: Session, id: RequestId, t: Token, relinquish: bool, ok: bool, n: nat)
    requires TokensBelow(x, n) && t in x.leases
    ensures TokensBelow(Detached(x, id, t, relinquish, ok), n)
  {
    var y := Detached(x, id, t, relinquish, ok);
    assert y.leases.Keys == x.leases.Keys && y.acquires.Keys <= x.acquires.Keys && y.ledger <= x.ledger;
    hide Detached;
  }

  lemma {:induction false} StepBelow(w: World, e: Event, v: World, n: nat)
    requires Step(w, e, v) && TokensBelow(w.x, n)
    requires e.AcquireCall? || e.CreateReply? ==> e.t.id < n
    ensures TokensBelow(v.x, n)
  {
    hide ProceedAll, AttachAll, LeaseAll, ReleaseAll, Enumerates, Reattached, Reconciled, Detached, Acquire, Release, Created;
    var x := w.x;
    if e.AttachReply? {
      WaitersBelow(x, OnAttachment(e.id), e.order, n);
      ReplyBelow(x, e.id, e.ok, e.attached, n);
      ResumingBelow(Reattached(x, e.id, e.ok, e.attached), e.order, true, 0, n);
    } else if e.ReconcileReply? {
      WaitersBelow(x, OnReconciliation(e.id), e.order, n);
      ReplyBelow(x, e.id, e.ok, true, n);
      ResumingBelow(Reconciled(x, e.id, e.ok), e.order, e.canSend, e.next, n);
    } else if e.DetachReply? {
      WaitersBelow(x, OnDetachment(e.id), e.order, n);
      DetachedBelow(x, e.id, e.t, e.relinquish, e.ok, n);
      ResumingBelow(Detached(x, e.id, e.t, e.relinquish, e.ok), e.order, e.canSend, e.next, n);
    } else if e.AcquireCall? {
      if Acquire(x, e.t, e.canSend, e.id).Some? { AcquireBelow(x, e.t, e.canSend, e.id, n); }
    } else if e.ReleaseCall? {
      ReleaseBelow(x, e.t, e.relinquish, e.canSend, e.id, n);
    } else if e.CreateReply? {
      CreatedBelow(x, e.t, e.attached, n);
    }
  }

  // ---- Failures as events ----

  function FailureEvent(
    id: RequestId, next: Continuation, attached: bool, order: seq<Token>, canSend: bool, sent: RequestId): Event
  {
    match next
    case Attaching(_, _) => AttachReply(id, false, attached, order)
    case Cleaning(_) => ReconcileReply(id, false, order, canSend, sent)
    case Detaching(_, t, relinquish) => DetachReply(id, t, relinquish, false, order, canSend, sent)
    case _ => SnapshotReport(attached)
  }

  lemma FailureIsStep(
    id: RequestId, p: Pending, x: Session, y: Session, isRemoved: bool, order: seq<Token>, canSend: bool, sent: RequestId)
    requires Expects(id, p, x, isRemoved) && Failed(id, p.next, x, y, order, canSend, sent)
    requires !p.next.Caller? && !p.next.Creation?
    ensures Step(World(x, isRemoved), FailureEvent(id, p.next, x.attached, order, canSend, sent), World(y, isRemoved))
    ensures p.next.Detaching? ==> p.next.t in x.leases
    ensures y == After(x, FailureEvent(id, p.next, x.attached, order, canSend, sent))
  {
    hide Enumerates, AttachSettled, ReconcileSettled, DetachSettled;
  }

  lemma NothingFailed(
    id: RequestId, next: Continuation, x: Session, y: Session, order: seq<Token>, canSend: bool, sent: RequestId)
    requires Failed(id, next, x, y, order, canSend, sent) && (next.Caller? || next.Creation?)
    ensures y == x
  {
  }

  lemma AcquireIsStep(x: Session, isRemoved: bool, e: Event)
    requires e.AcquireCall? && TokensBelow(x, e.t.id)
    ensures Step(World(x, isRemoved), e, World(After(x, e), isRemoved))
  {
    hide Acquire;
  }

  lemma DetachReplyIsStep(x: Session, y: Session, isRemoved: bool, p: Pending, e: Event)
    requires e.DetachReply? && p.next.Detaching? && e.t == p.next.t && e.relinquish == p.next.relinquish
    requires Expects(e.id, p, x, isRemoved) && Enumerates(e.order, x, OnDetachment(e.id))
    requires y == DetachSettled(x, e.id, e.t, e.relinquish, e.ok, e.order, e.canSend, e.next)
    ensures Step(World(x, isRemoved), e, World(y, isRemoved)) && y == After(x, e)
  {
    hide DetachSettled, Enumerates;
  }

  lemma ReconcileReplyIsStep(x: Session, y: Session, isRemoved: bool, e: Event)
    requires e.ReconcileReply? && x.reconciliation == Some(e.id) && Enumerates(e.order, x, OnReconciliation(e.id))
    requires y == ReconcileSettled(x, e.id, e.ok, e.order, e.canSend, e.next)
    ensures Step(World(x, isRemoved), e, World(y, isRemoved)) && y == After(x, e)
  {
    hide ReconcileSettled, Enumerates;
  }

  // ---- Without a connection ----

  predicate NoLive(x: Session) { forall t | t in x.leases :: !Live(x, x.leases[t]) }

  lemma NoneLiveAfter(w: World, e: Event, v: World)
    requires Step(w, e, v) && NoLive(w.x) && !w.x.attached
    requires (e.AcquireCall? || e.ReleaseCall?) && !e.canSend
    ensures NoLive(v.x)
  {
  }

  lemma NoneLiveDisconnected(x: Session, isRemoved: bool)
    requires Inv(x, isRemoved)
    ensures NoLive(Disconnected(x))
  {
    DisconnectedKeeps(x, isRemoved);
    var y := Disconnected(x);
    if !isRemoved {
      hide Disconnected;
      assert y.ledger == {};
      forall t | t in y.leases ensures !Live(y, y.leases[t]) { assert HasLive(y, t) ==> t in y.ledger; }
    }
  }

  lemma NoHolders(x: Session, isRemoved: bool)
    requires Inv(x, isRemoved) && NoLive(x)
    requires x.attachment.None? && x.detachment.None? && x.reconciliation.None?
    ensures Holders(x) == {}
  {
    assert WaitsInFlight(x);
    assert x.acquires.Keys == {};
  }
}
