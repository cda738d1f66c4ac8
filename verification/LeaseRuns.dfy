/** Runs of the lease protocol for one session, and what holds over every run. */
module LeaseRuns {
  import opened LeaseProtocol
  import opened LeaseInvariant
  import opened Options

  /** `canSend` says whether a request can be issued (the client is connected and the command encodes);
      `id` and `next` are the identifiers the event's request gets; `order` is the order in which calls resume. */
  datatype Event =
    | AcquireCall(t: Token, canSend: bool, id: RequestId)
    | AttachReply(id: RequestId, ok: bool, attached: bool, order: seq<Token>)
    | ReconcileReply(id: RequestId, ok: bool, order: seq<Token>, canSend: bool, next: RequestId)
    | ReleaseCall(t: Token, relinquish: bool, canSend: bool, id: RequestId)
    | DetachReply(id: RequestId, t: Token, relinquish: bool, ok: bool, order: seq<Token>, canSend: bool, next: RequestId)
    | CreateReply(t: Token, attached: bool)
    | SnapshotReport(attached: bool)
    | Removal
    | Disconnection

  datatype World = World(x: Session, removed: bool)

  /** When an event can happen. A removed session is never attached, created or reported attached again;
      a created session is none that still waits for cleanup. */
  ghost predicate Allowed(w: World, e: Event) {
    match e
    case AcquireCall(t, _, _) => IsNew(w.x, t)
    case AttachReply(id, ok, _, order) =>
      w.x.attachment == Some(id) && Enumerates(order, w.x, OnAttachment(id)) && (w.removed ==> !ok)
    case ReconcileReply(id, _, order, _, _) =>
      w.x.reconciliation == Some(id) && Enumerates(order, w.x, OnReconciliation(id))
    case ReleaseCall(t, _, _, _) => t in w.x.leases
    case DetachReply(id, t, relinquish, _, order, _, _) =>
      && w.x.detachment == Some(id) && Enumerates(order, w.x, OnDetachment(id)) && t in w.x.leases
      && if w.removed then w.x.leases[t].generation < w.x.generation
         else w.x.leases[t].state == Releasing(id, relinquish)
    case CreateReply(t, _) => IsNew(w.x, t) && t.mode.Exclusive? && w.x.stage.Clean? && !w.removed
    case SnapshotReport(attached) => w.removed ==> !attached
    case Removal => true
    case Disconnection => true
  }

  function After(x: Session, e: Event): Session
    requires e.ReleaseCall? || e.DetachReply? ==> e.t in x.leases
  {
    match e
    case AcquireCall(t, canSend, id) => (match Acquire(x, t, canSend, id) case None => x case Some(y) => y)
    case AttachReply(id, ok, attached, order) => AttachSettled(x, id, ok, attached, order)
    case ReconcileReply(id, ok, order, canSend, next) => ReconcileSettled(x, id, ok, order, canSend, next)
    case ReleaseCall(t, relinquish, canSend, id) => Release(x, t, relinquish, canSend, id)
    case DetachReply(id, t, relinquish, ok, order, canSend, next) =>
      DetachSettled(x, id, t, relinquish, ok, order, canSend, next)
    case CreateReply(t, attached) => Created(x, t, attached)
    case SnapshotReport(attached) => Snapshot(x, attached)
    case Removal => Removed(x)
    case Disconnection => Disconnected(x)
  }

  ghost predicate Step(w: World, e: Event, v: World) {
    Allowed(w, e) && v.x == After(w.x, e) && v.removed == (w.removed || e.Removal?)
  }

  /** `worlds` is a run from a fresh session under `events`. */
  ghost predicate IsRun(worlds: seq<World>, events: seq<Event>) {
    && |worlds| == |events| + 1
    && worlds[0] == World(Fresh, false)
    && forall i | 0 <= i < |events| :: StepAt(worlds, events, i)
  }

  ghost predicate StepAt(worlds: seq<World>, events: seq<Event>, i: nat)
    requires i < |events| && i + 1 < |worlds|
  {
    Step(worlds[i], events[i], worlds[i + 1])
  }

  // ---- One step ----

  lemma {:induction false} LiveStep(w: World, e: Event, v: World)
    requires InvWith(w.x, {}) && !w.removed && Step(w, e, v)
    ensures e.Removal? || e.Disconnection? || InvWith(v.x, {})
  {
    hide InvWith, Acquire, AttachSettled, ReconcileSettled, Release, DetachSettled, Created, Enumerates;
    if e.AcquireCall? {
      if Acquire(w.x, e.t, e.canSend, e.id).Some? { AcquireKeeps(w.x, e.t, e.canSend, e.id); }
    } else if e.AttachReply? {
      AttachSettledKeeps(w.x, e.id, e.ok, e.attached, e.order);
    } else if e.ReconcileReply? {
      ReconcileSettledKeeps(w.x, e.id, e.ok, e.order, e.canSend, e.next);
    } else if e.ReleaseCall? {
      ReleaseKeeps(w.x, e.t, e.relinquish, e.canSend, e.id);
    } else if e.DetachReply? {
      DetachSettledKeeps(w.x, e.id, e.t, e.relinquish, e.ok, e.order, e.canSend, e.next);
    } else if e.CreateReply? {
      CreatedKeeps(w.x, e.t, e.attached);
    } else if e.SnapshotReport? {
      SnapshotKeeps(w.x, e.attached);
    }
  }

  lemma {:induction false} DeadStep(w: World, e: Event, v: World)
    requires Dead(w.x) && w.removed && Step(w, e, v)
    ensures e.Removal? || e.Disconnection? || Dead(v.x)
  {
    hide AttachAll, ProceedAll, ReleaseAll;
    var x := w.x;
    if e.AcquireCall? {
      if Reserve(x, e.t).Some? { DeadAttaches(Reserve(x, e.t).value, e.t, e.canSend, e.id); }
    } else if e.AttachReply? {
      DeadReleasesAll(Reattached(x, e.id, e.ok, e.attached), e.order);
    } else if e.ReconcileReply? {
      SettledAges(x, OnReconciliation(e.id), e.order);
      DeadReleasesAll(Reconciled(x, e.id, e.ok), e.order);
      DeadAttachesAll(Reconciled(x, e.id, e.ok), e.order, e.canSend, e.next);
    } else if e.DetachReply? {
      SettledAges(x, OnDetachment(e.id), e.order);
      DeadAttachesAll(Detached(x, e.id, e.t, e.relinquish, e.ok), e.order, e.canSend, e.next);
    }
  }

  lemma {:induction false} RepliesReachLiveLeases(w: World)
    requires Inv(w.x, w.removed)
    ensures forall t | t in w.x.acquires :: t !in w.x.leases
    ensures !w.removed ==> forall t | t in w.x.leases && w.x.leases[t].state.Releasing? :: Live(w.x, w.x.leases[t])
  {
  }

  lemma {:induction false} AcquireAges(x: Session, t: Token, canSend: bool, id: RequestId)
    requires t !in x.leases && Acquire(x, t, canSend, id).Some?
    ensures Ages(x, Acquire(x, t, canSend, id).value)
  {
    var y := Reserve(x, t).value;
    assert y.leases == x.leases && y.generation == x.generation;
    hide Reserve;
    var z := Proceed(y, t, canSend, id);
    assert z.generation == y.generation && (z.leases == y.leases || z.leases == y.leases[t := Lease(y.generation, Active)]);
    hide Proceed;
  }

  lemma {:induction false} ReleaseAges(x: Session, t: Token, relinquish: bool, canSend: bool, id: RequestId)
    requires t in x.leases
    ensures Ages(x, Release(x, t, relinquish, canSend, id))
  {
  }

  lemma {:induction false} CreatedAges(x: Session, t: Token, attached: bool)
    requires t !in x.leases
    ensures Ages(x, Created(x, t, attached))
  {
  }

  lemma {:induction false} CloseAges(w: World, e: Event, v: World)
    requires Dated(w.x) && Step(w, e, v) && (e.Removal? || e.Disconnection?)
    ensures Ages(w.x, v.x)
  {
    hide Acquire, AttachSettled, ReconcileSettled, Release, DetachSettled, Created;
  }

  lemma {:induction false} AttachReplyAges(x: Session, id: RequestId, ok: bool, attached: bool, order: seq<Token>)
    requires Enumerates(order, x, OnAttachment(id)) && forall t | t in x.acquires :: t !in x.leases
    ensures Ages(x, AttachSettled(x, id, ok, attached, order))
  {
    SettledAges(x, OnAttachment(id), order);
    LeaseAllAges(Reattached(x, id, ok, attached), order);
    ReleaseAllAges(Reattached(x, id, ok, attached), order);
  }

  lemma {:induction false} ReconcileReplyAges(
    x: Session, id: RequestId, ok: bool, order: seq<Token>, canSend: bool, next: RequestId)
    ensures Ages(x, ReconcileSettled(x, id, ok, order, canSend, next))
  {
    ReleaseAllAges(Reconciled(x, id, ok), order);
    AttachAllAges(Reconciled(x, id, ok), order, canSend, next);
  }

  lemma {:induction false} DetachReplyAges(
    x: Session, id: RequestId, t: Token, relinquish: bool, ok: bool, order: seq<Token>, canSend: bool, next: RequestId)
    requires Enumerates(order, x, OnDetachment(id)) && forall t | t in x.acquires :: t !in x.leases
    requires t in x.leases && (Live(x, x.leases[t]) || x.leases[t].generation != x.generation)
    ensures Ages(x, DetachSettled(x, id, t, relinquish, ok, order, canSend, next))
  {
    DetachedAges(x, id, t, relinquish, ok);
    hide Detached;
    SettledAges(x, OnDetachment(id), order);
    ResumedAges(x, Detached(x, id, t, relinquish, ok), order, canSend, next);
  }

  lemma {:induction false} DetachedAges(x: Session, id: RequestId, t: Token, relinquish: bool, ok: bool)
    requires t in x.leases && (Live(x, x.leases[t]) || x.leases[t].generation != x.generation)
    ensures Ages(x, Detached(x, id, t, relinquish, ok))
    ensures Detached(x, id, t, relinquish, ok).generation == x.generation
    ensures forall u | u in Detached(x, id, t, relinquish, ok).leases :: u in x.leases
  {
  }

  lemma {:induction false} ResumedAges(x: Session, z: Session, order: seq<Token>, canSend: bool, next: RequestId)
    requires Ages(x, z) && z.generation == x.generation
    requires Distinct(order) && forall t | t in order :: t !in z.leases
    ensures Ages(x, ProceedAll(z, order, canSend, next))
  {
    ProceedAllAges(z, order, canSend, next);
    hide ProceedAll;
    AgesFurther(x, z, ProceedAll(z, order, canSend, next));
  }

  lemma {:induction false} AgesFurther(x: Session, y: Session, z: Session)
    requires Ages(x, y) && Ages(y, z) && y.generation == z.generation
    ensures Ages(x, z)
  {
  }

  lemma {:induction false} StepAges(w: World, e: Event, v: World)
    requires Inv(w.x, w.removed) && Step(w, e, v)
    ensures Ages(w.x, v.x)
  {
    hide InvWith, Dead, Acquire, AttachSettled, ReconcileSettled, Release, DetachSettled, Created, Enumerates;
    RepliesReachLiveLeases(w);
    if e.AttachReply? {
      AttachReplyAges(w.x, e.id, e.ok, e.attached, e.order);
    } else if e.ReconcileReply? {
      ReconcileReplyAges(w.x, e.id, e.ok, e.order, e.canSend, e.next);
    } else if e.DetachReply? {
      DetachReplyAges(w.x, e.id, e.t, e.relinquish, e.ok, e.order, e.canSend, e.next);
    } else if e.Removal? || e.Disconnection? {
      CloseAges(w, e, v);
    } else if e.ReleaseCall? {
      ReleaseAges(w.x, e.t, e.relinquish, e.canSend, e.id);
    } else if e.CreateReply? {
      CreatedAges(w.x, e.t, e.attached);
    } else if e.AcquireCall? && Acquire(w.x, e.t, e.canSend, e.id).Some? {
      AcquireAges(w.x, e.t, e.canSend, e.id);
    }
  }

  lemma {:induction false} AgesKeepsDated(x: Session, y: Session)
    requires Dated(x) && Ages(x, y)
    ensures Dated(y)
  {
  }

  lemma {:induction false} StepKeeps(w: World, e: Event, v: World)
    requires Inv(w.x, w.removed) && Step(w, e, v)
    ensures Inv(v.x, v.removed) && Ages(w.x, v.x)
  {
    hide InvWith, Dead, Ages, Dated, Allowed, Acquire, AttachSettled, ReconcileSettled, Release, DetachSettled, Created,
      Abandoned, Closed;
    StepAges(w, e, v);
    AgesKeepsDated(w.x, v.x);
    if e.Removal? {
      RemovedIsDead(w.x, w.removed);
    } else if e.Disconnection? {
      DisconnectedKeeps(w.x, w.removed);
    } else if w.removed {
      DeadStep(w, e, v);
    } else {
      LiveStep(w, e, v);
    }
  }

  lemma {:induction false} RunKeeps(worlds: seq<World>, events: seq<Event>, i: nat)
    requires IsRun(worlds, events) && i < |worlds|
    ensures Inv(worlds[i].x, worlds[i].removed)
  {
    if i > 0 {
      RunKeeps(worlds, events, i - 1);
      hide Step, Inv;
      assert StepAt(worlds, events, i - 1);
      StepKeeps(worlds[i - 1], events[i - 1], worlds[i]);
    }
  }

  // ---- What a reachable session guarantees ----

  /** The tokens a caller still has a claim to: calls that have not returned and live leases. */
  function Holders(x: Session): set<Token> {
    x.acquires.Keys + set t | t in x.leases && Live(x, x.leases[t])
  }

  lemma ActiveHolds(x: Session, t: Token)
    requires IsActive(x, t)
    ensures t in Holders(x)
  {
  }

  /** The lease count is the number of holders, and the registered exclusive token is the exclusive holder, alone. */
  lemma {:induction false} CountIsHolders(worlds: seq<World>, events: seq<Event>, i: nat)
    requires IsRun(worlds, events) && i < |worlds| && !worlds[i].removed
    ensures worlds[i].x.count == |Holders(worlds[i].x)| && worlds[i].x.ledger == Holders(worlds[i].x)
    ensures forall t :: worlds[i].x.exclusive == Some(t) <==> t in Holders(worlds[i].x) && t.mode.Exclusive?
    ensures forall t, u | t in Holders(worlds[i].x) && u in Holders(worlds[i].x) && t.mode.Exclusive? :: u == t
  {
    RunKeeps(worlds, events, i);
    var x := worlds[i].x;
    assert x.ledger == Holders(x);
  }

  /** An exclusive request is refused exactly when someone holds the session, a shared one exactly when
      an exclusive token does. */
  lemma {:induction false} RefusedIffHeld(
    worlds: seq<World>, events: seq<Event>, i: nat, t: Token, canSend: bool, id: RequestId)
    requires IsRun(worlds, events) && i < |worlds| && !worlds[i].removed
    ensures Acquire(worlds[i].x, t, canSend, id).None? <==>
            if t.mode.Exclusive? then Holders(worlds[i].x) != {}
            else exists u | u in Holders(worlds[i].x) :: u.mode.Exclusive?
  {
    CountIsHolders(worlds, events, i);
    var x := worlds[i].x;
    if x.exclusive.Some? {
      assert x.exclusive.value in Holders(x);
    }
  }

  /** A release asks the server to detach exactly when its lease is active and nobody else holds the session. */
  lemma {:induction false} DetachOnlyAlone(
    worlds: seq<World>, events: seq<Event>, i: nat, t: Token, relinquish: bool, id: RequestId)
    requires IsRun(worlds, events) && i < |worlds| && !worlds[i].removed && t in worlds[i].x.leases
    ensures Release(worlds[i].x, t, relinquish, true, id).detachment != worlds[i].x.detachment <==>
            IsActive(worlds[i].x, t) && Holders(worlds[i].x) == {t}
  {
    RunKeeps(worlds, events, i);
    CountIsHolders(worlds, events, i);
    var x := worlds[i].x;
    if IsActive(x, t) {
      assert t in Holders(x);
      assert x.count == 1 <==> Holders(x) == {t} by {
        if x.count == 1 { assert |Holders(x) - {t}| == 0; }
      }
    }
  }

  /** While a detach is in flight, or a cleanup is pending, no lease of the session is active. */
  lemma {:induction false} NoLeaseMeanwhile(worlds: seq<World>, events: seq<Event>, i: nat, t: Token)
    requires IsRun(worlds, events) && i < |worlds| && IsActive(worlds[i].x, t)
    ensures !worlds[i].removed && worlds[i].x.stage.Clean? && !worlds[i].x.cleanup
    ensures worlds[i].x.detachment.None? && worlds[i].x.reconciliation.None?
  {
    RunKeeps(worlds, events, i);
  }

  // ---- Ended leases ----

  lemma {:induction false} EndedStep(worlds: seq<World>, events: seq<Event>, i: nat, t: Token)
    requires IsRun(worlds, events) && i + 1 < |worlds|
    ensures Ended(worlds[i].x, t) ==> Ended(worlds[i + 1].x, t)
  {
    hide Inv, InvWith, Dead, Step;
    RunKeeps(worlds, events, i);
    assert StepAt(worlds, events, i);
    StepKeeps(worlds[i], events[i], worlds[i + 1]);
  }

  lemma {:induction false} EndedForever(worlds: seq<World>, events: seq<Event>, i: nat, j: nat, t: Token)
    requires IsRun(worlds, events) && i <= j < |worlds| && Ended(worlds[i].x, t)
    ensures Ended(worlds[j].x, t)
    decreases j
  {
    hide StepAt, Ended;
    if i < j {
      EndedForever(worlds, events, i, j - 1, t);
      EndedStep(worlds, events, j - 1, t);
    }
  }

  /** A close, or the session's removal, ends every lease there is, for good. */
  lemma {:induction false} NoneSurvives(worlds: seq<World>, events: seq<Event>, i: nat, j: nat, t: Token)
    requires IsRun(worlds, events) && i < j < |worlds| && (events[i].Disconnection? || events[i].Removal?)
    requires t in worlds[i].x.leases
    ensures t in worlds[j].x.leases && !IsActive(worlds[j].x, t)
  {
    RunKeeps(worlds, events, i);
    var x := worlds[i].x;
    assert StepAt(worlds, events, i);
    if events[i].Disconnection? {
      forall u | u in x.leases && Live(x, x.leases[u]) ensures x.count > 0 {
        if !worlds[i].removed { assert u in x.ledger; }
      }
      DisconnectedEnds(x);
    }
    assert Ended(worlds[i + 1].x, t);
    EndedForever(worlds, events, i + 1, j, t);
  }

  // ---- Cleanup comes before the next lease ----

  predicate Invalidates(e: Event) { e.Removal? || e.Disconnection? }
  predicate CleansUp(e: Event) { e.ReconcileReply? && e.ok }
  predicate Reattaches(e: Event) { (e.AttachReply? && e.ok) || (e.SnapshotReport? && e.attached) }

  lemma {:induction false} ResumingKeepsStage(x: Session, order: seq<Token>, canSend: bool, id: RequestId)
    ensures ProceedAll(x, order, canSend, id).stage == x.stage && AttachAll(x, order, canSend, id).stage == x.stage
    ensures LeaseAll(x, order).stage == x.stage && ReleaseAll(x, order).stage == x.stage
    decreases |order|
  {
    if order != [] {
      ResumingKeepsStage(Proceed(x, order[0], canSend, id), order[1..], canSend, id);
      ResumingKeepsStage(StartAttach(x, order[0], canSend, id), order[1..], canSend, id);
      ResumingKeepsStage(AddLease(x, order[0]), order[1..], canSend, id);
      ResumingKeepsStage(ReleaseToken(x, order[0]), order[1..], canSend, id);
    }
  }

  lemma {:induction false} StageStep(w: World, e: Event, v: World)
    requires Step(w, e, v) && !Invalidates(e)
    ensures w.x.stage.NeedsDetach? && !CleansUp(e) ==> v.x.stage.NeedsDetach?
    ensures w.x.stage.NeedsAttach? && !Reattaches(e) ==> !v.x.stage.Clean?
    ensures w.x.stage.NeedsDetach? ==> !v.x.stage.Clean?
  {
    hide ProceedAll, AttachAll, LeaseAll, ReleaseAll, Enumerates;
    var x := w.x;
    if e.AttachReply? {
      ResumingKeepsStage(Reattached(x, e.id, e.ok, e.attached), e.order, true, 0);
    } else if e.ReconcileReply? {
      ResumingKeepsStage(Reconciled(x, e.id, e.ok), e.order, e.canSend, e.next);
    } else if e.DetachReply? {
      ResumingKeepsStage(Detached(x, e.id, e.t, e.relinquish, e.ok), e.order, e.canSend, e.next);
    }
  }

  /** Some event in `[i, j)` cleaned the session up, and a later one reported it attached again. */
  predicate CleanedAndReattached(events: seq<Event>, i: nat, j: nat)
    requires j <= |events|
  {
    exists k, m | i <= k < m < j :: CleansUp(events[k]) && Reattaches(events[m])
  }

  lemma {:induction false} StageTellsHistory(worlds: seq<World>, events: seq<Event>, i: nat, j: nat)
    requires IsRun(worlds, events) && i <= j < |worlds| && worlds[i].x.cleanup
    requires forall k | i <= k < j :: !Invalidates(events[k])
    ensures worlds[j].x.stage.NeedsDetach? || exists k | i <= k < j :: CleansUp(events[k])
    ensures !worlds[j].x.stage.Clean? || CleanedAndReattached(events, i, j)
    decreases j
  {
    if i == j {
      RunKeeps(worlds, events, i);
    } else {
      StageTellsHistory(worlds, events, i, j - 1);
      assert StepAt(worlds, events, j - 1);
      hide IsRun, Step;
      StageStep(worlds[j - 1], events[j - 1], worlds[j]);
    }
  }

  /** Once a session needs cleanup, the next active lease comes after a detach that cleaned it up and, after that,
      a report that it is attached again; unless everything was invalidated in between. */
  lemma {:induction false} CleanupBeforeLease(worlds: seq<World>, events: seq<Event>, i: nat, j: nat, t: Token)
    requires IsRun(worlds, events) && i <= j < |worlds| && worlds[i].x.cleanup && IsActive(worlds[j].x, t)
    ensures (exists k | i <= k < j :: Invalidates(events[k])) || CleanedAndReattached(events, i, j)
  {
    NoLeaseMeanwhile(worlds, events, j, t);
    if forall k | i <= k < j :: !Invalidates(events[k]) {
      StageTellsHistory(worlds, events, i, j);
    }
  }

  // ---- Why a removed session must stay unattachable ----

  /** Were an attach to succeed after its session was removed, its waiter would get a lease with no count behind it. */
  lemma AttachAfterRemovalBreaksTheCount()
    ensures var t := Token(0, Shared);
      var waiting := Acquire(Fresh, t, true, 1).value;
      var removed := Removed(waiting);
      var x := AttachSettled(removed, 1, true, true, [t]);
      && waiting.attachment == Some(1) && Enumerates([t], removed, OnAttachment(1))
      && IsActive(x, t) && x.count == 0
      && Acquire(x, Token(1, Exclusive), true, 2).Some?
  {
    var t := Token(0, Shared);
    var y := Reattached(Removed(Acquire(Fresh, t, true, 1).value), 1, true, true);
    assert LeaseAll(y, [t]) == LeaseAll(AddLease(y, t), [t][1..]);
    assert LeaseAll(AddLease(y, t), []) == AddLease(y, t);
  }
}
