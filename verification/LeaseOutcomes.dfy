/**
 What each event of a run does to every token, told by what a caller sees of it: its call is
 still suspended, its lease is live, or its lease has ended.
 */
module LeaseOutcomes {
  import opened LeaseProtocol
  import opened LeaseInvariant
  import opened LeaseRuns
  import LeaseChunks
  import opened Options

  /** A token of which nothing is known was never used, or its call has failed. */
  datatype Standing = Unknown | Waits | Holds | Ends

  function StandingOf(x: Session, t: Token): Standing {
    if t in x.acquires then Waits
    else if HasLive(x, t) then Holds
    else if t in x.leases then Ends
    else Unknown
  }

  /** Someone holds the session in a way that excludes a new token of this mode. */
  predicate Excluded(x: Session, mode: Mode) {
    if mode.Exclusive? then Holders(x) != {} else exists t | t in Holders(x) :: t.mode.Exclusive?
  }

  /** An attach can be had: one is in flight, or one can be sent. */
  predicate Attachable(x: Session, canSend: bool) { x.attachment.Some? || canSend }

  /** The session's requests in flight. */
  function Flights(x: Session): (Option<RequestId>, Option<RequestId>, Option<RequestId>) {
    (x.attachment, x.detachment, x.reconciliation)
  }

  /** What a call comes to that goes on when no detach is in flight: a lease if the session is attached and needs no
      cleanup, otherwise a wait for the request it needs, if that is in flight or can be sent. */
  function Resumes(x: Session, canSend: bool): Standing {
    if x.cleanup then if x.reconciliation.Some? || canSend then Waits else Unknown
    else if x.attached then Holds
    else if Attachable(x, canSend) then Waits
    else Unknown
  }

  /** Nothing but the requests for cleanup and attachment, and the standing of some tokens, may differ. */
  ghost predicate SameSession(x: Session, y: Session) {
    y.attached == x.attached && y.cleanup == x.cleanup && y.generation == x.generation && y.detachment == x.detachment
  }

  // ---- Calls that resume together ----

  lemma {:induction false} ProceededOne(x: Session, t: Token, canSend: bool, id: RequestId)
    requires StandingOf(x, t) == Unknown
    ensures var y := Proceed(x, t, canSend, id);
      && SameSession(x, y) && Resumes(y, canSend) == Resumes(x, canSend)
      && (forall u | u != t :: StandingOf(y, u) == StandingOf(x, u))
      && StandingOf(y, t) == Resumes(x, canSend)
  {
  }

  lemma {:induction false} ProceededAll(x: Session, order: seq<Token>, canSend: bool, id: RequestId)
    requires Distinct(order) && forall t | t in order :: StandingOf(x, t) == Unknown
    ensures var y := ProceedAll(x, order, canSend, id);
      && SameSession(x, y)
      && (forall u | u !in order :: StandingOf(y, u) == StandingOf(x, u))
      && (forall u | u in order :: StandingOf(y, u) == Resumes(x, canSend))
    decreases |order|
  {
    hide Proceed, StandingOf, Resumes;
    if order != [] {
      ProceededOne(x, order[0], canSend, id);
      assert forall t | t in order[1..] :: t != order[0] && t in order;
      ProceededAll(Proceed(x, order[0], canSend, id), order[1..], canSend, id);
      assert order == [order[0]] + order[1..];
    }
  }

  lemma {:induction false} AttachedOne(x: Session, t: Token, canSend: bool, id: RequestId)
    requires StandingOf(x, t) == Unknown
    ensures var y := StartAttach(x, t, canSend, id);
      && SameSession(x, y) && y.reconciliation == x.reconciliation && Attachable(y, canSend) == Attachable(x, canSend)
      && (forall u | u != t :: StandingOf(y, u) == StandingOf(x, u))
      && StandingOf(y, t) == (if Attachable(x, canSend) then Waits else Unknown)
  {
  }

  lemma {:induction false} AttachedAll(x: Session, order: seq<Token>, canSend: bool, id: RequestId)
    requires Distinct(order) && forall t | t in order :: StandingOf(x, t) == Unknown
    ensures var y := AttachAll(x, order, canSend, id);
      && SameSession(x, y) && y.reconciliation == x.reconciliation
      && (forall u | u !in order :: StandingOf(y, u) == StandingOf(x, u))
      && (forall u | u in order :: StandingOf(y, u) == if Attachable(x, canSend) then Waits else Unknown)
    decreases |order|
  {
    hide StartAttach, StandingOf, Attachable;
    if order != [] {
      AttachedOne(x, order[0], canSend, id);
      assert forall t | t in order[1..] :: t != order[0] && t in order;
      AttachedAll(StartAttach(x, order[0], canSend, id), order[1..], canSend, id);
      assert order == [order[0]] + order[1..];
    }
  }

  lemma {:induction false} LeasedAll(x: Session, order: seq<Token>)
    requires forall t | t in order :: t !in x.acquires
    ensures var y := LeaseAll(x, order);
      && SameSession(x, y) && Flights(y) == Flights(x)
      && (forall u | u !in order :: StandingOf(y, u) == StandingOf(x, u))
      && (forall u | u in order :: StandingOf(y, u) == Holds && (IsActive(y, u) <==> x.attached))
  {
    LeaseChunks.LeasedAll(x, order);
  }

  lemma {:induction false} GivenBackAll(x: Session, order: seq<Token>)
    ensures var y := ReleaseAll(x, order);
      && SameSession(x, y) && Flights(y) == Flights(x)
      && forall u :: StandingOf(y, u) == StandingOf(x, u)
    decreases |order|
  {
    if order != [] {
      GivenBackAll(ReleaseToken(x, order[0]), order[1..]);
    }
  }

  /** Those that wake are the calls that waited; nobody else's standing changes. */
  lemma {:induction false} Woken(x: Session, w: Waiting, order: seq<Token>)
    requires Enumerates(order, x, w) && forall t | t in x.acquires :: t !in x.leases
    ensures Distinct(order) && forall t :: t in order <==> t in x.acquires && x.acquires[t] == w
    ensures forall u :: StandingOf(Wake(x, w), u) == if u in order then Unknown else StandingOf(x, u)
  {
    forall t ensures t in order <==> t in x.acquires && x.acquires[t] == w {
      assert t in Waiters(x, w) <==> t in order;
    }
  }

  // ---- Acquiring ----

  /** A call is refused exactly when the session is held against it; otherwise it waits for a detach in flight, or goes
      on at once. Nobody else is touched. */
  lemma {:induction false} AcquireOutcome(worlds: seq<World>, events: seq<Event>, i: nat)
    requires IsRun(worlds, events) && i < |events| && !worlds[i].removed && events[i].AcquireCall?
    ensures var e, x, y := events[i], worlds[i].x, worlds[i + 1].x;
      && SameSession(x, y)
      && (forall u | u != e.t :: StandingOf(y, u) == StandingOf(x, u))
      && StandingOf(y, e.t) ==
           (if Excluded(x, e.t.mode) then Unknown else if x.detachment.Some? then Waits else Resumes(x, e.canSend))
  {
    var e, x := events[i], worlds[i].x;
    assert StepAt(worlds, events, i);
    RefusedIffHeld(worlds, events, i, e.t, e.canSend, e.id);
    hide IsRun, Holders, Resumes, StandingOf, Proceed;
    ReservedOutcome(x, e.t);
    if Reserve(x, e.t).Some? && x.detachment.None? {
      ProceededOne(Reserve(x, e.t).value, e.t, e.canSend, e.id);
    }
  }

  lemma {:induction false} ReservedOutcome(x: Session, t: Token)
    requires IsNew(x, t)
    ensures StandingOf(x, t) == Unknown
    ensures Reserve(x, t).Some? ==>
      var y := Reserve(x, t).value;
      && SameSession(x, y) && Flights(x) == Flights(y) && (forall u :: StandingOf(y, u) == StandingOf(x, u))
      && (forall canSend :: Resumes(y, canSend) == Resumes(x, canSend))
      && (forall w :: StandingOf(Suspend(y, t, w), t) == Waits)
      && (forall w, u | u != t :: StandingOf(Suspend(y, t, w), u) == StandingOf(x, u))
  {
  }

  // ---- Releasing ----

  /** A detach that failed, or could not be sent: `dispose()` ends its lease and leaves the session to be cleaned up,
      `detach()` keeps the lease as it was. */
  lemma {:induction false} FailedRelease(x: Session, t: Token, relinquish: bool)
    requires HasLive(x, t) && t !in x.acquires
    ensures var y := ReleaseFailed(x, t, relinquish);
      && y.attached == x.attached && Flights(y) == Flights(x) && y.acquires == x.acquires
      && (y.cleanup <==> x.cleanup || relinquish)
      && y.generation == x.generation
      && (forall u | u != t :: StandingOf(y, u) == StandingOf(x, u))
      && StandingOf(y, t) == (if relinquish then Ends else Holds)
      && (IsActive(y, t) <==> !relinquish && x.attached)
  {
  }

  /** The lease is active and nobody else holds the session. */
  predicate Alone(x: Session, t: Token) { IsActive(x, t) && Holders(x) == {t} }

  /** A release of a lease that is not active changes no standing; one of several holders ends its lease at once; the
      last one asks the server to detach and, if it cannot, `dispose()` ends the lease and `detach()` keeps it. */
  lemma {:induction false} ReleaseOutcome(worlds: seq<World>, events: seq<Event>, i: nat)
    requires IsRun(worlds, events) && i < |events| && !worlds[i].removed && events[i].ReleaseCall?
    ensures var e, x, y := events[i], worlds[i].x, worlds[i + 1].x;
      && y.attached == x.attached
      && (y.cleanup <==> x.cleanup || (Alone(x, e.t) && !e.canSend && e.relinquish))
      && Flights(y) == (x.attachment, if Alone(x, e.t) && e.canSend then Some(e.id) else x.detachment, x.reconciliation)
      && (forall u | u != e.t :: StandingOf(y, u) == StandingOf(x, u))
      && StandingOf(y, e.t) ==
           (if !IsActive(x, e.t) then StandingOf(x, e.t)
            else if !Alone(x, e.t) then Ends
            else if !e.canSend && e.relinquish then Ends
            else Holds)
      && (IsActive(y, e.t) <==> Alone(x, e.t) && !e.canSend && !e.relinquish)
  {
    var e, x := events[i], worlds[i].x;
    assert StepAt(worlds, events, i);
    RunKeeps(worlds, events, i);
    if IsActive(x, e.t) { OneHolder(worlds, events, i, e.t); }
    hide IsRun, Holders, Inv;
    ReleasedOutcome(x, e.t, e.relinquish, e.canSend, e.id);
  }

  lemma {:induction false} OneHolder(worlds: seq<World>, events: seq<Event>, i: nat, t: Token)
    requires IsRun(worlds, events) && i < |worlds| && !worlds[i].removed && IsActive(worlds[i].x, t)
    ensures worlds[i].x.count <= 1 <==> Holders(worlds[i].x) == {t}
    ensures t !in worlds[i].x.acquires
  {
    var x := worlds[i].x;
    RunKeeps(worlds, events, i);
    CountIsHolders(worlds, events, i);
    assert t in Holders(x);
    if x.count == 1 { assert |Holders(x) - {t}| == 0; }
  }

  lemma {:induction false} ReleasedOutcome(x: Session, t: Token, relinquish: bool, canSend: bool, id: RequestId)
    requires t in x.leases && t !in x.acquires
    ensures var y := Release(x, t, relinquish, canSend, id);
      var alone := IsActive(x, t) && x.count <= 1;
      && y.attached == x.attached && (y.cleanup <==> x.cleanup || (alone && !canSend && relinquish))
      && Flights(y) == (x.attachment, if alone && canSend then Some(id) else x.detachment, x.reconciliation)
      && (forall u | u != t :: StandingOf(y, u) == StandingOf(x, u))
      && StandingOf(y, t) ==
           (if !IsActive(x, t) then StandingOf(x, t)
            else if !alone then Ends
            else if !canSend && relinquish then Ends
            else Holds)
      && (IsActive(y, t) <==> alone && !canSend && !relinquish)
  {
  }

  /** The reply to a detach. On success its lease has ended and the session is detached. On failure `detach()` has its
      lease back as it was, and `dispose()` has none and leaves the session to be cleaned up. Then the calls that
      waited for the detach go on. */
  lemma {:induction false} DetachOutcome(worlds: seq<World>, events: seq<Event>, i: nat)
    requires IsRun(worlds, events) && i < |events| && !worlds[i].removed && events[i].DetachReply?
    ensures var e, x, y := events[i], worlds[i].x, worlds[i + 1].x;
      && StandingOf(x, e.t) == Holds && !x.cleanup && y.detachment.None?
      && (y.attached <==> x.attached && !e.ok) && (y.cleanup <==> !e.ok && e.relinquish)
      && StandingOf(y, e.t) == (if e.ok || e.relinquish then Ends else Holds)
      && (IsActive(y, e.t) <==> !e.ok && !e.relinquish && x.attached)
      && (forall u | u != e.t :: StandingOf(y, u) ==
           if StandingOf(x, u) != Waits then StandingOf(x, u)
           else if y.cleanup then if e.canSend then Waits else Unknown
           else if y.attached then Holds
           else if Attachable(x, e.canSend) then Waits
           else Unknown)
  {
    var e, x := events[i], worlds[i].x;
    assert StepAt(worlds, events, i);
    RunKeeps(worlds, events, i);
    hide IsRun;
    DetachedOutcome(x, e.id, e.t, e.relinquish, e.ok, e.order);
    hide StandingOf, InvWith, Detached, ProceedAll, Enumerates;
    var z := Detached(x, e.id, e.t, e.relinquish, e.ok);
    ProceededAll(z, e.order, e.canSend, e.next);
    ProceedingKeepsLeases(z, e.order, e.canSend, e.next, e.t);
  }

  lemma {:induction false} ProceedingKeepsLeases(x: Session, order: seq<Token>, canSend: bool, id: RequestId, t: Token)
    requires t in x.leases && t !in order
    ensures var y := ProceedAll(x, order, canSend, id);
      t in y.leases && y.leases[t] == x.leases[t] && (IsActive(y, t) <==> IsActive(x, t))
    decreases |order|
  {
    if order != [] {
      ProceedingKeepsLeases(Proceed(x, order[0], canSend, id), order[1..], canSend, id, t);
    }
  }

  lemma {:induction false} DetachedOutcome(
    x: Session, id: RequestId, t: Token, relinquish: bool, ok: bool, order: seq<Token>)
    requires InvWith(x, {}) && x.detachment == Some(id) && Enumerates(order, x, OnDetachment(id))
    requires t in x.leases && x.leases[t].state == Releasing(id, relinquish)
    ensures var z := Detached(x, id, t, relinquish, ok);
      && Distinct(order) && (forall u :: u in order <==> StandingOf(x, u) == Waits)
      && (forall u | u in order :: StandingOf(z, u) == Unknown)
      && t in z.leases && t !in order && StandingOf(x, t) == Holds && !x.cleanup
      && Flights(z) == (x.attachment, None, None)
      && (z.attached <==> x.attached && !ok) && (z.cleanup <==> !ok && relinquish)
      && StandingOf(z, t) == (if ok || relinquish then Ends else Holds)
      && (IsActive(z, t) <==> !ok && !relinquish && x.attached)
      && forall u | u != t && u !in order :: StandingOf(z, u) == StandingOf(x, u)
  {
    Woken(x, OnDetachment(id), order);
    DetachingState(x, id, t);
    hide InvWith, Wake, Enumerates;
    var y := Wake(x, OnDetachment(id)).(detachment := None);
    assert forall u :: StandingOf(y, u) == StandingOf(Wake(x, OnDetachment(id)), u);
    assert HasLive(y, t) && StandingOf(x, t) == Holds;
    assert y.acquires == map[];
    FailedRelease(y, t, relinquish);
    SucceededRelease(y, t);
    hide StandingOf, SetLease, ReleaseToken, ReleaseFailed, IsActive;
  }

  lemma {:induction false} SucceededRelease(x: Session, t: Token)
    requires HasLive(x, t) && t !in x.acquires
    ensures var y := SetLease(ReleaseToken(x, t), t, Released).(attached := false);
      && !y.attached && Flights(y) == Flights(x) && y.acquires == x.acquires && y.cleanup == x.cleanup
      && t in y.leases && !IsActive(y, t) && StandingOf(y, t) == Ends
      && (forall u | u != t :: StandingOf(y, u) == StandingOf(x, u))
  {
  }

  lemma {:induction false} DetachingState(x: Session, id: RequestId, t: Token)
    requires InvWith(x, {}) && x.detachment == Some(id) && t in x.leases && x.leases[t].state.Releasing?
    ensures Live(x, x.leases[t]) && t !in x.acquires && !x.cleanup && x.reconciliation.None?
    ensures forall u | u in x.acquires :: x.acquires[u] == OnDetachment(id) && u !in x.leases
  {
  }

  // ---- Other events ----

  /** The reply to an attach: on success every call that waited for it has a lease, on failure none has, and nobody
      else's standing changes. */
  lemma {:induction false} AttachOutcome(worlds: seq<World>, events: seq<Event>, i: nat)
    requires IsRun(worlds, events) && i < |events| && !worlds[i].removed && events[i].AttachReply?
    ensures var e, x, y := events[i], worlds[i].x, worlds[i + 1].x;
      && y.attached == (if e.ok then e.attached else x.attached) && y.cleanup == x.cleanup
      && Flights(y) == (None, x.detachment, x.reconciliation)
      && (forall u | u !in x.acquires || x.acquires[u] != OnAttachment(e.id) :: StandingOf(y, u) == StandingOf(x, u))
      && (forall u | u in x.acquires && x.acquires[u] == OnAttachment(e.id) ::
           StandingOf(y, u) == (if e.ok then Holds else Unknown) && (IsActive(y, u) <==> e.ok && e.attached))
  {
    var e, x := events[i], worlds[i].x;
    assert StepAt(worlds, events, i);
    RunKeeps(worlds, events, i);
    Woken(x, OnAttachment(e.id), e.order);
    assert worlds[i + 1].x == AttachSettled(x, e.id, e.ok, e.attached, e.order) && x.attachment == Some(e.id);
    hide IsRun, InvWith, Enumerates, Step, LeaseAll, ReleaseAll;
    var z := Reattached(x, e.id, e.ok, e.attached);
    assert forall u :: StandingOf(z, u) == StandingOf(Wake(x, OnAttachment(e.id)), u);
    assert forall u | u in e.order :: u !in z.acquires && u !in z.leases;
    LeasedAll(z, e.order);
    GivenBackAll(z, e.order);
  }

  /** The reply to the detach that cleans a session up: on success it is detached and clean, and the calls that waited
      go on to attach it; on failure it stays to be cleaned up, and they fail. */
  lemma {:induction false} ReconcileOutcome(worlds: seq<World>, events: seq<Event>, i: nat)
    requires IsRun(worlds, events) && i < |events| && !worlds[i].removed && events[i].ReconcileReply?
    ensures var e, x, y := events[i], worlds[i].x, worlds[i + 1].x;
      && x.cleanup && (y.cleanup <==> !e.ok) && (y.attached <==> x.attached && !e.ok)
      && y.reconciliation.None? && y.detachment.None?
      && (forall u | StandingOf(x, u) != Waits :: StandingOf(y, u) == StandingOf(x, u))
      && (forall u | StandingOf(x, u) == Waits ::
           StandingOf(y, u) == if e.ok && Attachable(x, e.canSend) then Waits else Unknown)
  {
    var e, x := events[i], worlds[i].x;
    assert StepAt(worlds, events, i);
    RunKeeps(worlds, events, i);
    Woken(x, OnReconciliation(e.id), e.order);
    assert forall u | u in x.acquires :: x.acquires[u] == OnReconciliation(e.id);
    hide IsRun, InvWith, Enumerates;
    var z := Reconciled(x, e.id, e.ok);
    assert forall u :: StandingOf(z, u) == StandingOf(Wake(x, OnReconciliation(e.id)), u);
    AttachedAll(z, e.order, e.canSend, e.next);
    GivenBackAll(z, e.order);
  }

  /** A created session's exclusive lease is refused exactly when someone holds the session. */
  lemma {:induction false} CreateOutcome(worlds: seq<World>, events: seq<Event>, i: nat)
    requires IsRun(worlds, events) && i < |events| && !worlds[i].removed && events[i].CreateReply?
    ensures var e, x, y := events[i], worlds[i].x, worlds[i + 1].x;
      && y.attached == e.attached && y.cleanup == x.cleanup && Flights(y) == Flights(x)
      && (forall u | u != e.t :: StandingOf(y, u) == StandingOf(x, u))
      && StandingOf(x, e.t) == Unknown
      && StandingOf(y, e.t) == (if Holders(x) == {} then Holds else Unknown)
  {
    var e, x := events[i], worlds[i].x;
    assert StepAt(worlds, events, i);
    RefusedIffHeld(worlds, events, i, e.t, true, 0);
    hide IsRun, Holders;
    ReservedOutcome(x.(attached := e.attached), e.t);
  }

  /** A report tells whether the session is attached, and no more. A removal ends its leases, a disconnection the calls
      in flight as well. */
  lemma {:induction false} ReportOutcome(worlds: seq<World>, events: seq<Event>, i: nat)
    requires IsRun(worlds, events) && i < |events| && !worlds[i].removed
    requires events[i].SnapshotReport? || events[i].Removal? || events[i].Disconnection?
    ensures var e, x, y := events[i], worlds[i].x, worlds[i + 1].x;
      && (y.attached <==> e.SnapshotReport? && e.attached) && (y.cleanup <==> e.SnapshotReport? && x.cleanup)
      && Flights(y) == (if e.Disconnection? then (None, None, None) else Flights(x))
      && forall u :: StandingOf(y, u) ==
           if e.SnapshotReport? then StandingOf(x, u)
           else if StandingOf(x, u) == Holds then Ends
           else if StandingOf(x, u) == Waits && e.Disconnection? then Unknown
           else StandingOf(x, u)
  {
    var e, x := events[i], worlds[i].x;
    assert StepAt(worlds, events, i);
    RunKeeps(worlds, events, i);
    if e.Disconnection? {
      forall t | t in x.leases && Live(x, x.leases[t]) ensures x.count > 0 { assert t in x.ledger; }
    }
  }

  // ---- Disposing ends a lease ----

  /** The lease has ended, or is on its way: `dispose()` has begun its release. */
  ghost predicate Disposing(x: Session, t: Token) {
    Ended(x, t) || (t in x.leases && x.leases[t].state.Releasing? && x.leases[t].state.relinquish)
  }

  lemma {:induction false} ResumingKeepsLeases(x: Session, order: seq<Token>, canSend: bool, id: RequestId, t: Token)
    requires t in x.leases && t !in order
    ensures
      var ys := [ProceedAll(x, order, canSend, id), AttachAll(x, order, canSend, id), LeaseAll(x, order),
                 ReleaseAll(x, order)];
      forall y | y in ys :: t in y.leases && y.leases[t] == x.leases[t]
  {
    ProceedingKeepsLeases(x, order, canSend, id, t);
    AttachAllAges(x, order, canSend, id);
    LeaseChunks.LeasedAll(x, order);
    ReleaseAllAges(x, order);
  }

  /** A release under way goes on until its detach is answered, or the lease ends. */
  lemma {:induction false} ReleasingStays(w: World, e: Event, v: World, t: Token)
    requires Inv(w.x, w.removed) && Step(w, e, v) && HasLive(w.x, t) && w.x.leases[t].state.Releasing?
    requires !(e.DetachReply? && e.t == t)
    ensures Ended(v.x, t) || (t in v.x.leases && v.x.leases[t] == w.x.leases[t])
  {
    var x := w.x;
    if e.AttachReply? {
      Woken(x, OnAttachment(e.id), e.order);
      ResumingKeepsLeases(Reattached(x, e.id, e.ok, e.attached), e.order, true, 0, t);
    }
  }

  lemma {:induction false} DisposingStep(worlds: seq<World>, events: seq<Event>, i: nat, t: Token)
    requires IsRun(worlds, events) && i < |events| && Disposing(worlds[i].x, t)
    ensures Disposing(worlds[i + 1].x, t)
  {
    var e, x := events[i], worlds[i].x;
    RunKeeps(worlds, events, i);
    assert StepAt(worlds, events, i);
    if Ended(x, t) {
      EndedStep(worlds, events, i, t);
    } else if e.DetachReply? && e.t == t {
      DetachOutcome(worlds, events, i);
    } else {
      hide IsRun, Inv, Step;
      ReleasingStays(worlds[i], e, worlds[i + 1], t);
    }
  }

  lemma {:induction false} DisposingLasts(worlds: seq<World>, events: seq<Event>, i: nat, j: nat, t: Token)
    requires IsRun(worlds, events) && i <= j < |worlds| && Disposing(worlds[i].x, t)
    ensures Disposing(worlds[j].x, t)
    decreases j
  {
    hide StepAt, Disposing;
    if i < j {
      DisposingLasts(worlds, events, i, j - 1, t);
      DisposingStep(worlds, events, j - 1, t);
    }
  }

  /** Once a release that `dispose()` began is settled, its lease has ended, whatever the reply and whatever came
      between; and until then the lease is not active. */
  lemma {:induction false} DisposeEnds(worlds: seq<World>, events: seq<Event>, i: nat, j: nat)
    requires IsRun(worlds, events) && i < j < |worlds|
    requires events[i].ReleaseCall? && events[i].relinquish && IsActive(worlds[i].x, events[i].t)
    ensures var x, t := worlds[j].x, events[i].t;
      t in x.leases && !IsActive(x, t) && (!x.leases[t].state.Releasing? ==> Ended(x, t))
  {
    var t := events[i].t;
    assert StepAt(worlds, events, i);
    RunKeeps(worlds, events, i);
    assert Disposing(worlds[i + 1].x, t);
    hide IsRun;
    DisposingLasts(worlds, events, i + 1, j, t);
  }
}
