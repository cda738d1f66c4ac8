/** What every event keeps of one session's lease state. */
module LeaseInvariant {
  import opened LeaseProtocol
  import opened Options

  // ---- Invariant ----

  /** Every suspended call awaits a request that is in flight. */
  ghost predicate WaitsInFlight(x: Session) {
    forall t | t in x.acquires ::
      match x.acquires[t]
      case OnDetachment(id) => x.detachment == Some(id)
      case OnReconciliation(id) => x.reconciliation == Some(id)
      case OnAttachment(id) => x.attachment == Some(id)
  }

  /** The ledger is exactly the suspended calls, the live leases and the calls `running` in this event. */
  ghost predicate Accounted(x: Session, running: set<Token>) {
    && x.count == |x.ledger|
    && (forall t | t in x.acquires :: t !in x.leases)
    && (forall t | t in running :: t !in x.acquires && t !in x.leases)
    && (forall t :: t in x.ledger <==> t in x.acquires || HasLive(x, t) || t in running)
  }

  /** The registered exclusive token is the only token; every exclusive token is registered. */
  ghost predicate Exclusion(x: Session) {
    && (x.exclusive.Some? ==> x.exclusive.value.mode.Exclusive? && x.ledger == {x.exclusive.value})
    && (forall t | t in x.ledger && t.mode.Exclusive? :: x.exclusive == Some(t))
  }

  /** While a live lease detaches, every other token waits for that detach. */
  ghost predicate Serialized(x: Session) {
    && (x.detachment.Some? ==>
      && x.count > 0
      && (forall t | t in x.acquires :: x.acquires[t].OnDetachment?)
      && (forall t | t in x.leases :: !(x.leases[t].state.Active? && Live(x, x.leases[t]))))
    && forall t | t in x.leases && x.leases[t].state.Releasing? ::
      && Live(x, x.leases[t])
      && x.detachment == Some(x.leases[t].state.id)
      && forall u | u in x.ledger && u != t :: u in x.acquires && x.acquires[u].OnDetachment?
  }

  /** A session that needs cleanup has no live lease, and its calls wait for the cleanup. */
  ghost predicate CleanupFirst(x: Session) {
    && (x.cleanup <==> x.stage.NeedsDetach?)
    && (x.reconciliation.Some? ==> x.cleanup)
    && (!x.stage.Clean? ==> forall t | t in x.leases :: !Live(x, x.leases[t]))
    && (x.cleanup ==> x.detachment.None?)
    && (x.cleanup ==> forall t | t in x.acquires :: x.acquires[t].OnReconciliation?)
    && (x.stage.NeedsAttach? ==> !x.attached)
  }

  ghost predicate InvWith(x: Session, running: set<Token>) {
    WaitsInFlight(x) && Accounted(x, running) && Exclusion(x) && Serialized(x) && CleanupFirst(x)
  }

  /** A removed session has no live lease and can get none. */
  ghost predicate Dead(x: Session) {
    && WaitsInFlight(x)
    && (forall t | t in x.acquires :: t !in x.leases)
    && (forall t | t in x.leases :: !Live(x, x.leases[t]))
    && !x.attached && !x.cleanup
  }

  /** No lease is younger than its session's generation. */
  ghost predicate Dated(x: Session) {
    forall t | t in x.leases :: x.leases[t].generation <= x.generation
  }

  ghost predicate Inv(x: Session, removed: bool) {
    Dated(x) && if removed then Dead(x) else InvWith(x, {})
  }

  predicate IsNew(x: Session, t: Token) {
    t !in x.acquires && t !in x.leases && t !in x.ledger
  }

  // ---- Bookkeeping keeps the account ----

  lemma {:induction false} ReserveKeeps(x: Session, t: Token)
    requires InvWith(x, {}) && IsNew(x, t) && Reserve(x, t).Some?
    ensures x.detachment.None? ==> InvWith(Reserve(x, t).value, {t})
    ensures Accounted(Reserve(x, t).value, {t}) && Exclusion(Reserve(x, t).value)
  {
    var y := Reserve(x, t).value;
    if x.count == 0 {
      assert x.ledger == {};
    }
  }

  lemma {:induction false} ReserveWaits(x: Session, t: Token)
    requires InvWith(x, {}) && IsNew(x, t) && Reserve(x, t).Some? && x.detachment.Some?
    ensures InvWith(Suspend(Reserve(x, t).value, t, OnDetachment(x.detachment.value)), {})
  {
    ReserveKeeps(x, t);
  }

  /** Releasing a token that a running call holds. */
  lemma {:induction false} ReleaseRunning(x: Session, t: Token, running: set<Token>)
    requires InvWith(x, running + {t}) && t !in running && x.detachment.None?
    ensures InvWith(ReleaseToken(x, t), running)
  {
    var y := ReleaseToken(x, t);
    assert t in x.ledger;
  }

  lemma {:induction false} AddLeaseRunning(x: Session, t: Token, running: set<Token>)
    requires InvWith(x, running + {t}) && t !in running && x.detachment.None? && x.stage.Clean?
    ensures InvWith(AddLease(x, t), running)
  {
    var y := AddLease(x, t);
  }

  lemma {:induction false} SuspendRunning(x: Session, t: Token, w: Waiting, running: set<Token>)
    requires InvWith(x, running + {t}) && t !in running && x.detachment.None?
    requires match w
             case OnDetachment(_) => false
             case OnReconciliation(id) => x.reconciliation == Some(id)
             case OnAttachment(id) => x.attachment == Some(id)
    requires x.cleanup ==> w.OnReconciliation?
    ensures InvWith(Suspend(x, t, w), running)
  {
    var y := Suspend(x, t, w);
  }

  lemma {:induction false} StartAttachRunning(x: Session, t: Token, canSend: bool, id: RequestId, running: set<Token>)
    requires InvWith(x, running + {t}) && t !in running && x.detachment.None? && !x.cleanup
    requires x.attachment.None? ==> forall u | u in x.acquires :: !x.acquires[u].OnAttachment?
    ensures InvWith(StartAttach(x, t, canSend, id), running)
    ensures StartAttach(x, t, canSend, id).detachment.None?
  {
    if x.attachment.Some? {
      SuspendRunning(x, t, OnAttachment(x.attachment.value), running);
    } else if canSend {
      var y := x.(attachment := Some(id));
      SuspendRunning(y, t, OnAttachment(id), running);
    } else {
      ReleaseRunning(x, t, running);
    }
  }

  lemma {:induction false} ProceedRunning(x: Session, t: Token, canSend: bool, id: RequestId, running: set<Token>)
    requires InvWith(x, running + {t}) && t !in running && x.detachment.None?
    ensures InvWith(Proceed(x, t, canSend, id), running)
    ensures Proceed(x, t, canSend, id).detachment.None?
  {
    if x.cleanup {
      if x.reconciliation.Some? {
        SuspendRunning(x, t, OnReconciliation(x.reconciliation.value), running);
      } else if canSend {
        var y := x.(reconciliation := Some(id));
        SuspendRunning(y, t, OnReconciliation(id), running);
      } else {
        ReleaseRunning(x, t, running);
      }
    } else if !x.attached {
      StartAttachRunning(x, t, canSend, id, running);
    } else {
      AddLeaseRunning(x, t, running);
    }
  }

  function Set(order: seq<Token>): set<Token> { set i | 0 <= i < |order| :: order[i] }

  predicate Distinct(order: seq<Token>) { forall i, j | 0 <= i < j < |order| :: order[i] != order[j] }

  lemma {:induction false} SplitFirst(order: seq<Token>)
    requires order != [] && Distinct(order)
    ensures Set(order) == Set(order[1..]) + {order[0]} && order[0] !in Set(order[1..]) && Distinct(order[1..])
  {
    assert forall i | 0 <= i < |order| - 1 :: order[1..][i] == order[i + 1];
    forall t | t in Set(order) ensures t in Set(order[1..]) + {order[0]} {
      var i :| 0 <= i < |order| && order[i] == t;
      if i > 0 { assert order[1..][i - 1] == t; }
    }
    forall t | t in Set(order[1..]) ensures t in Set(order) {
      var i :| 0 <= i < |order[1..]| && order[1..][i] == t;
      assert order[i + 1] == t;
    }
  }

  lemma {:induction false} ProceedAllKeeps(x: Session, order: seq<Token>, canSend: bool, id: RequestId)
    requires Distinct(order) && InvWith(x, Set(order)) && x.detachment.None?
    ensures InvWith(ProceedAll(x, order, canSend, id), {})
    decreases |order|
  {
    if order != [] {
      SplitFirst(order);
      ProceedRunning(x, order[0], canSend, id, Set(order[1..]));
      ProceedAllKeeps(Proceed(x, order[0], canSend, id), order[1..], canSend, id);
    }
  }

  lemma {:induction false} AttachAllKeeps(x: Session, order: seq<Token>, canSend: bool, id: RequestId)
    requires Distinct(order) && InvWith(x, Set(order)) && x.detachment.None? && !x.cleanup
    ensures InvWith(AttachAll(x, order, canSend, id), {})
    decreases |order|
  {
    if order != [] {
      SplitFirst(order);
      StartAttachRunning(x, order[0], canSend, id, Set(order[1..]));
      AttachAllKeeps(StartAttach(x, order[0], canSend, id), order[1..], canSend, id);
    }
  }

  lemma {:induction false} LeaseAllKeeps(x: Session, order: seq<Token>)
    requires Distinct(order) && InvWith(x, Set(order)) && x.detachment.None? && x.stage.Clean?
    ensures InvWith(LeaseAll(x, order), {})
    decreases |order|
  {
    if order != [] {
      SplitFirst(order);
      AddLeaseRunning(x, order[0], Set(order[1..]));
      LeaseAllKeeps(AddLease(x, order[0]), order[1..]);
    }
  }

  lemma {:induction false} ReleaseAllKeeps(x: Session, order: seq<Token>)
    requires Distinct(order) && InvWith(x, Set(order)) && x.detachment.None?
    ensures InvWith(ReleaseAll(x, order), {})
    decreases |order|
  {
    if order != [] {
      SplitFirst(order);
      ReleaseRunning(x, order[0], Set(order[1..]));
      ReleaseAllKeeps(ReleaseToken(x, order[0]), order[1..]);
    }
  }

  // ---- Each event keeps the invariant ----

  lemma {:induction false} AcquireKeeps(x: Session, t: Token, canSend: bool, id: RequestId)
    requires InvWith(x, {}) && IsNew(x, t) && Acquire(x, t, canSend, id).Some?
    ensures InvWith(Acquire(x, t, canSend, id).value, {})
  {
    if x.detachment.None? {
      hide Proceed, InvWith;
      ReserveKeeps(x, t);
      ProceedRunning(Reserve(x, t).value, t, canSend, id, {});
    } else {
      ReserveWaits(x, t);
    }
  }

  lemma {:induction false} WakeKeeps(x: Session, w: Waiting, order: seq<Token>)
    requires InvWith(x, {}) && Enumerates(order, x, w)
    ensures Accounted(Wake(x, w), Set(order)) && Distinct(order)
    ensures forall t :: t in Set(order) <==> t in x.acquires && x.acquires[t] == w
    ensures !w.OnDetachment? ==> InvWith(Wake(x, w), Set(order))
    ensures forall t | t in Wake(x, w).acquires :: Wake(x, w).acquires[t] != w
    ensures order != [] ==> order[0] in x.acquires && x.acquires[order[0]] == w
  {
    var y := Wake(x, w);
    forall t ensures t in Set(order) <==> t in x.acquires && x.acquires[t] == w {
      assert t in Waiters(x, w) <==> t in order;
    }
    assert order != [] ==> order[0] in Waiters(x, w);
  }

  lemma {:induction false} NoWaiterHoldsAttachment(
    y: Session, id: RequestId, ok: bool, attached: bool, running: set<Token>)
    requires InvWith(y, running) && y.attachment == Some(id)
    requires forall t | t in y.acquires :: y.acquires[t] != OnAttachment(id)
    ensures InvWith(y.(attachment := None), running)
    ensures InvWith(y.(attachment := None, attached := attached, stage := if y.stage.NeedsAttach? then Clean else y.stage),
                    running)
  {
  }

  lemma {:induction false} WaitersOnAttachment(x: Session, order: seq<Token>, id: RequestId)
    requires InvWith(x, {}) && order != [] && order[0] in x.acquires && x.acquires[order[0]] == OnAttachment(id)
    ensures !x.cleanup && x.detachment.None?
  {
  }

  lemma {:induction false} ReattachedKeeps(x: Session, id: RequestId, ok: bool, attached: bool, order: seq<Token>)
    requires InvWith(x, {}) && x.attachment == Some(id) && Enumerates(order, x, OnAttachment(id))
    ensures Distinct(order) && InvWith(Reattached(x, id, ok, attached), Set(order))
    ensures order != [] ==> Reattached(x, id, ok, attached).detachment.None?
    ensures order != [] && ok ==> Reattached(x, id, ok, attached).stage.Clean?
  {
    WakeKeeps(x, OnAttachment(id), order);
    NoWaiterHoldsAttachment(Wake(x, OnAttachment(id)), id, ok, attached, Set(order));
    hide Wake, Enumerates, Waiters, Accounted, Serialized, Exclusion, InvWith;
    if order != [] {
      WaitersOnAttachment(x, order, id);
    }
  }

  lemma {:induction false} AttachSettledKeeps(x: Session, id: RequestId, ok: bool, attached: bool, order: seq<Token>)
    requires InvWith(x, {}) && x.attachment == Some(id) && Enumerates(order, x, OnAttachment(id))
    ensures InvWith(AttachSettled(x, id, ok, attached, order), {})
  {
    hide InvWith, Wake;
    ReattachedKeeps(x, id, ok, attached, order);
    var y := Reattached(x, id, ok, attached);
    if order == [] {
      assert Set(order) == {};
    } else if ok {
      LeaseAllKeeps(y, order);
    } else {
      ReleaseAllKeeps(y, order);
    }
  }

  lemma {:induction false} ReconcileSettledKeeps(
    x: Session, id: RequestId, ok: bool, order: seq<Token>, canSend: bool, next: RequestId)
    requires InvWith(x, {}) && x.reconciliation == Some(id) && Enumerates(order, x, OnReconciliation(id))
    ensures InvWith(ReconcileSettled(x, id, ok, order, canSend, next), {})
  {
    WakeKeeps(x, OnReconciliation(id), order);
    var y := Wake(x, OnReconciliation(id)).(reconciliation := None);
    if ok {
      AttachAllKeeps(y.(attached := false, cleanup := false, stage := NeedsAttach), order, canSend, next);
    } else {
      ReleaseAllKeeps(y, order);
    }
  }

  lemma {:induction false} OnlyTokenReleasing(x: Session, t: Token)
    requires InvWith(x, {}) && HasLive(x, t) && x.count <= 1
    ensures x.ledger == {t} && x.acquires == map[]
  {
    assert t in x.ledger;
    assert |x.ledger - {t}| == 0;
    assert forall u | u in x.acquires :: u in x.ledger;
  }

  /** `t` is live, every other token is about to resume, and no detach is in flight any more. */
  ghost predicate Alone(x: Session, t: Token, running: set<Token>) {
    && Accounted(x, running) && Exclusion(x)
    && HasLive(x, t) && x.ledger == running + {t}
    && x.acquires == map[] && x.detachment.None? && x.reconciliation.None? && !x.cleanup && x.stage.Clean?
    && forall u | u in x.leases && u != t :: !x.leases[u].state.Releasing?
  }

  lemma {:induction false} AloneReleased(x: Session, t: Token, running: set<Token>)
    requires Alone(x, t, running)
    ensures InvWith(SetLease(ReleaseToken(x, t), t, Released).(attached := false), running)
    ensures InvWith(SetLease(ReleaseToken(x, t), t, Released), running)
  {
    var y := SetLease(ReleaseToken(x, t), t, Released);
    assert |x.ledger - {t}| == |x.ledger| - 1;
    forall u | u in x.leases ensures HasLive(x, u) ==> u == t {
      assert HasLive(x, u) ==> u in x.ledger;
    }
  }

  lemma {:induction false} AloneFailed(x: Session, t: Token, relinquish: bool, running: set<Token>)
    requires Alone(x, t, running)
    ensures InvWith(ReleaseFailed(x, t, relinquish), running)
  {
    if relinquish {
      AloneReleased(x, t, running);
    }
  }

  lemma {:induction false} ReleaseKeeps(x: Session, t: Token, relinquish: bool, canSend: bool, id: RequestId)
    requires InvWith(x, {}) && t in x.leases
    ensures InvWith(Release(x, t, relinquish, canSend, id), {})
  {
    if IsActive(x, t) {
      assert t in x.ledger;
      if x.count > 1 {
        assert x.detachment.None?;
        assert |x.ledger - {t}| == |x.ledger| - 1;
      } else {
        OnlyTokenReleasing(x, t);
        if !canSend {
          assert Alone(x, t, {});
          AloneFailed(x, t, relinquish, {});
        }
      }
    }
  }

  lemma {:induction false} DetachSettledKeeps(
    x: Session, id: RequestId, t: Token, relinquish: bool, ok: bool, order: seq<Token>, canSend: bool, next: RequestId)
    requires InvWith(x, {}) && x.detachment == Some(id) && Enumerates(order, x, OnDetachment(id))
    requires t in x.leases && x.leases[t].state == Releasing(id, relinquish)
    ensures InvWith(DetachSettled(x, id, t, relinquish, ok, order, canSend, next), {})
  {
    DetachedKeeps(x, id, t, relinquish, ok, order);
    ProceedAllKeeps(Detached(x, id, t, relinquish, ok), order, canSend, next);
  }

  lemma {:induction false} DetachingIsAlone(x: Session, id: RequestId, t: Token, order: seq<Token>)
    requires InvWith(x, {}) && x.detachment == Some(id) && Enumerates(order, x, OnDetachment(id))
    requires t in x.leases && x.leases[t].state.Releasing?
    ensures Distinct(order) && Alone(Wake(x, OnDetachment(id)).(detachment := None), t, Set(order))
  {
    hide Set, Enumerates, Distinct;
    WakeKeeps(x, OnDetachment(id), order);
    assert forall u | u in x.acquires :: u in Set(order) by { hide Accounted, Exclusion; }
    assert x.ledger == Set(order) + {t} by { hide Exclusion; assert HasLive(x, t); }
    var y := Wake(x, OnDetachment(id)).(detachment := None);
    assert y.acquires == map[] by { hide Accounted, Exclusion, Serialized, CleanupFirst; }
    hide Wake, Accounted;
  }

  lemma {:induction false} DetachedKeeps(x: Session, id: RequestId, t: Token, relinquish: bool, ok: bool, order: seq<Token>)
    requires InvWith(x, {}) && x.detachment == Some(id) && Enumerates(order, x, OnDetachment(id))
    requires t in x.leases && x.leases[t].state == Releasing(id, relinquish)
    ensures Distinct(order) && InvWith(Detached(x, id, t, relinquish, ok), Set(order))
    ensures Detached(x, id, t, relinquish, ok).detachment.None?
  {
    DetachingIsAlone(x, id, t, order);
    var y := Wake(x, OnDetachment(id)).(detachment := None);
    hide Alone, Wake, InvWith;
    if ok {
      AloneReleased(y, t, Set(order));
    } else {
      AloneFailed(y, t, relinquish, Set(order));
    }
  }

  lemma {:induction false} CreatedKeeps(x: Session, t: Token, attached: bool)
    requires InvWith(x, {}) && IsNew(x, t) && t.mode.Exclusive? && x.stage.Clean?
    ensures InvWith(Created(x, t, attached), {})
  {
    var y := x.(attached := attached);
    assert InvWith(y, {});
    if Reserve(y, t).Some? {
      ReserveKeeps(y, t);
      AddLeaseRunning(Reserve(y, t).value, t, {});
    }
  }

  lemma {:induction false} SnapshotKeeps(x: Session, attached: bool)
    requires InvWith(x, {})
    ensures InvWith(Snapshot(x, attached), {})
  {
  }

  lemma {:induction false} DisconnectedEnds(x: Session)
    requires Dated(x)
    requires forall t | t in x.leases :: Live(x, x.leases[t]) ==> x.count > 0
    ensures Dated(Disconnected(x))
    ensures forall t | t in Disconnected(x).leases ::
      !Live(Disconnected(x), Disconnected(x).leases[t]) && !Disconnected(x).leases[t].state.Releasing?
  {
  }

  lemma {:induction false} DisconnectedKeeps(x: Session, removed: bool)
    requires Inv(x, removed)
    ensures Inv(Disconnected(x), removed)
    ensures !removed ==> Disconnected(x).count == 0
  {
    forall t | t in x.leases && Live(x, x.leases[t]) ensures x.count > 0 {
      if !removed { assert t in x.ledger; }
    }
    DisconnectedEnds(x);
    if !removed && x.count == 0 {
      assert x.ledger == {};
    }
  }

  lemma {:induction false} RemovedIsDead(x: Session, removed: bool)
    requires Inv(x, removed)
    ensures Inv(Removed(x), true)
  {
    assert forall t | t in x.leases :: x.leases[t].generation <= x.generation;
  }

  // ---- Leases age; an ended lease stays ended ----

  ghost predicate Ended(x: Session, t: Token) {
    t in x.leases && !Live(x, x.leases[t])
  }

  /** No lease is forgotten or renewed, and new ones belong to the current generation. */
  ghost predicate Ages(x: Session, y: Session) {
    && x.generation <= y.generation
    && (forall t | t in x.leases :: t in y.leases && y.leases[t].generation == x.leases[t].generation)
    && (forall t | t in y.leases && t !in x.leases :: y.leases[t].generation == y.generation)
    && (forall t | Ended(x, t) :: Ended(y, t))
  }

  lemma {:induction false} ProceedAllAges(x: Session, order: seq<Token>, canSend: bool, id: RequestId)
    requires Distinct(order) && forall t | t in order :: t !in x.leases
    ensures Ages(x, ProceedAll(x, order, canSend, id))
    ensures ProceedAll(x, order, canSend, id).generation == x.generation
    decreases |order|
  {
    if order != [] {
      var y := Proceed(x, order[0], canSend, id);
      assert Ages(x, y);
      assert forall t | t in order[1..] :: t != order[0];
      ProceedAllAges(y, order[1..], canSend, id);
    }
  }

  lemma {:induction false} AttachAllAges(x: Session, order: seq<Token>, canSend: bool, id: RequestId)
    ensures AttachAll(x, order, canSend, id).generation == x.generation
    ensures AttachAll(x, order, canSend, id).leases == x.leases
    decreases |order|
  {
    if order != [] {
      AttachAllAges(StartAttach(x, order[0], canSend, id), order[1..], canSend, id);
    }
  }

  lemma {:induction false} LeaseAllAges(x: Session, order: seq<Token>)
    requires Distinct(order) && forall t | t in order :: t !in x.leases
    ensures Ages(x, LeaseAll(x, order)) && LeaseAll(x, order).generation == x.generation
    decreases |order|
  {
    if order != [] {
      assert forall t | t in order[1..] :: t != order[0];
      LeaseAllAges(AddLease(x, order[0]), order[1..]);
    }
  }

  lemma {:induction false} ReleaseAllAges(x: Session, order: seq<Token>)
    ensures ReleaseAll(x, order).generation == x.generation && ReleaseAll(x, order).leases == x.leases
    decreases |order|
  {
    if order != [] {
      ReleaseAllAges(ReleaseToken(x, order[0]), order[1..]);
    }
  }

  lemma {:induction false} SettledAges(x: Session, w: Waiting, order: seq<Token>)
    requires Enumerates(order, x, w) && forall t | t in x.acquires :: t !in x.leases
    ensures Distinct(order) && forall t | t in order :: t !in x.leases
  {
    forall t | t in order ensures t !in x.leases {
      assert t in Waiters(x, w);
    }
  }

  // ---- A removed session stays dead ----

  lemma {:induction false} DeadAttaches(x: Session, t: Token, canSend: bool, id: RequestId)
    requires Dead(x) && t !in x.leases
    ensures Dead(StartAttach(x, t, canSend, id)) && StartAttach(x, t, canSend, id).leases == x.leases
  {
  }

  lemma {:induction false} DeadAttachesAll(x: Session, order: seq<Token>, canSend: bool, id: RequestId)
    requires Dead(x) && forall t | t in order :: t !in x.leases
    ensures Dead(AttachAll(x, order, canSend, id)) && Dead(ProceedAll(x, order, canSend, id))
    decreases |order|
  {
    if order != [] {
      DeadAttaches(x, order[0], canSend, id);
      DeadAttachesAll(StartAttach(x, order[0], canSend, id), order[1..], canSend, id);
    }
  }

  lemma {:induction false} DeadReleasesAll(x: Session, order: seq<Token>)
    requires Dead(x)
    ensures Dead(ReleaseAll(x, order))
    decreases |order|
  {
    if order != [] {
      DeadReleasesAll(ReleaseToken(x, order[0]), order[1..]);
    }
  }
}
