/** What is left of a session when everything it has in flight fails. */
module LeaseClosing {
  import opened LeaseProtocol
  import opened LeaseInvariant
  import opened LeaseRuns
  import opened LeaseLinks
  import opened Options

  /** Closed, with calls perhaps still to fail. */
  ghost predicate Shut(x: Session) {
    && x.count == 0 && !x.attached && !x.cleanup && x.stage.Clean?
    && WaitsInFlight(x)
    && (forall t | t in x.acquires :: t !in x.leases)
    && (forall t | t in x.leases && x.leases[t].state.Releasing? :: x.leases[t].generation != x.generation)
  }

  /** What is left once the calls in flight and those of `running` have failed. */
  function Left(x: Session, running: set<Token>): Session {
    var y := Abandoned(x);
    y.(exclusive := if y.exclusive.Some? && y.exclusive.value in running then None else y.exclusive,
       ledger := y.ledger - running)
  }

  lemma LeftNone(x: Session)
    ensures Left(x, {}) == Abandoned(x)
  {
    assert Abandoned(x).ledger - {} == Abandoned(x).ledger;
  }

  lemma {:induction false} ClosedIsShut(x: Session, removed: bool)
    requires Inv(x, removed)
    ensures Shut(Closed(x))
  {
    forall t | t in x.leases && Live(x, x.leases[t]) ensures x.count > 0 {
      if !removed { assert t in x.ledger; }
    }
  }

  lemma {:induction false} ReleaseLeaves(x: Session, t: Token, running: set<Token>)
    requires Shut(x)
    ensures Shut(ReleaseToken(x, t)) && Left(ReleaseToken(x, t), running) == Left(x, running + {t})
  {
    hide WaitsInFlight;
    assert WaitsInFlight(ReleaseToken(x, t)) by { WaitsFrame(x, ReleaseToken(x, t)); }
    assert ReleaseToken(x, t).ledger - x.acquires.Keys - running == x.ledger - x.acquires.Keys - (running + {t});
  }

  lemma WaitsFrame(x: Session, y: Session)
    requires WaitsInFlight(x) && x.acquires == y.acquires
    requires x.attachment == y.attachment && x.detachment == y.detachment && x.reconciliation == y.reconciliation
    ensures WaitsInFlight(y)
  {
  }

  lemma {:induction false} ReleaseAllLeaves(x: Session, order: seq<Token>)
    requires Shut(x) && Distinct(order)
    ensures Shut(ReleaseAll(x, order)) && Left(ReleaseAll(x, order), {}) == Left(x, Set(order))
    decreases |order|
  {
    if order == [] {
      assert Set(order) == {};
    } else {
      SplitFirst(order);
      hide Left, Shut, ReleaseToken;
      ReleaseLeaves(x, order[0], Set(order[1..]));
      ReleaseAllLeaves(ReleaseToken(x, order[0]), order[1..]);
    }
  }

  lemma {:induction false} ProceedLeaves(x: Session, t: Token, id: RequestId, running: set<Token>)
    requires Shut(x) && t !in x.leases
    ensures Shut(Proceed(x, t, false, id)) && Left(Proceed(x, t, false, id), running) == Left(x, running + {t})
    ensures Proceed(x, t, false, id).leases == x.leases
  {
    if x.attachment.Some? {
      var y := Suspend(x, t, OnAttachment(x.attachment.value));
      assert y.acquires.Keys == x.acquires.Keys + {t};
      assert y.ledger - y.acquires.Keys - running == x.ledger - x.acquires.Keys - (running + {t});
    } else {
      ReleaseLeaves(x, t, running);
    }
  }

  lemma {:induction false} ProceedAllLeaves(x: Session, order: seq<Token>, id: RequestId)
    requires Shut(x) && Distinct(order) && forall t | t in order :: t !in x.leases
    ensures Shut(ProceedAll(x, order, false, id)) && Left(ProceedAll(x, order, false, id), {}) == Left(x, Set(order))
    decreases |order|
  {
    if order == [] {
      assert Set(order) == {};
    } else {
      SplitFirst(order);
      hide Left, Shut, Proceed;
      ProceedLeaves(x, order[0], id, Set(order[1..]));
      ProceedAllLeaves(Proceed(x, order[0], false, id), order[1..], id);
    }
  }

  lemma {:induction false} WakeLeaves(x: Session, w: Waiting, order: seq<Token>)
    requires Shut(x) && Enumerates(order, x, w)
    ensures Left(Wake(x, w), Set(order)) == Left(x, {})
    ensures forall t | t in Wake(x, w).acquires :: t in x.acquires && Wake(x, w).acquires[t] == x.acquires[t] != w
    ensures Wake(x, w).leases == x.leases
  {
    forall t ensures t in Set(order) <==> t in x.acquires && x.acquires[t] == w {
      assert t in Waiters(x, w) <==> t in order;
    }
    var y := Wake(x, w);
    hide Enumerates, Set, Waiters;
    assert y.acquires.Keys + Set(order) == x.acquires.Keys;
    assert y.ledger - y.acquires.Keys - Set(order) == x.ledger - x.acquires.Keys;
    assert x.ledger - x.acquires.Keys - {} == x.ledger - x.acquires.Keys;
  }

  /** A failed reply leaves of a closed session just what would be left anyway. */
  lemma {:induction false} AttachFailureLeaves(x: Session, id: RequestId, attached: bool, order: seq<Token>)
    requires Shut(x) && x.attachment == Some(id) && Enumerates(order, x, OnAttachment(id))
    ensures var y := AttachSettled(x, id, false, attached, order); Shut(y) && Abandoned(y) == Abandoned(x)
  {
    WakeLeaves(x, OnAttachment(id), order);
    LeftNone(x);
    var y := Reattached(x, id, false, attached);
    assert Shut(y) && Left(y, Set(order)) == Left(Wake(x, OnAttachment(id)), Set(order));
    ReleaseAllLeaves(y, order);
    LeftNone(ReleaseAll(y, order));
  }

  lemma {:induction false} CleanupFailureLeaves(
    x: Session, id: RequestId, order: seq<Token>, canSend: bool, next: RequestId)
    requires Shut(x) && x.reconciliation == Some(id) && Enumerates(order, x, OnReconciliation(id))
    ensures var y := ReconcileSettled(x, id, false, order, canSend, next); Shut(y) && Abandoned(y) == Abandoned(x)
  {
    WakeLeaves(x, OnReconciliation(id), order);
    LeftNone(x);
    var y := Reconciled(x, id, false);
    assert Shut(y) && Left(y, Set(order)) == Left(Wake(x, OnReconciliation(id)), Set(order));
    ReleaseAllLeaves(y, order);
    LeftNone(ReleaseAll(y, order));
  }

  lemma {:induction false} ReleaseFailureLeaves(
    x: Session, id: RequestId, t: Token, relinquish: bool, order: seq<Token>, next: RequestId)
    requires Shut(x) && x.detachment == Some(id) && Enumerates(order, x, OnDetachment(id))
    requires t in x.leases && x.leases[t].generation != x.generation
    requires x.leases[t].state.Releasing? || x.leases[t].state.Invalidated?
    ensures var y := DetachSettled(x, id, t, relinquish, false, order, false, next); Shut(y) && Abandoned(y) == Abandoned(x)
  {
    WakeLeaves(x, OnDetachment(id), order);
    SettledAges(x, OnDetachment(id), order);
    LeftNone(x);
    var y := Detached(x, id, t, relinquish, false);
    assert Shut(y);
    assert Abandoned(y).leases == Abandoned(Wake(x, OnDetachment(id))).leases;
    assert Left(y, Set(order)) == Left(Wake(x, OnDetachment(id)), Set(order));
    ProceedAllLeaves(y, order, next);
    LeftNone(ProceedAll(y, order, false, next));
  }

  /** With nothing in flight there is nothing left to fail. */
  lemma {:induction false} NothingLeft(x: Session)
    requires Shut(x) && x.attachment.None? && x.detachment.None? && x.reconciliation.None?
    requires forall t | t in x.leases :: !x.leases[t].state.Releasing?
    ensures Abandoned(x) == x
  {
    assert x.acquires == map[];
    assert Abandoned(x).leases == x.leases;
    assert x.ledger - {} == x.ledger;
  }

  lemma ShutApart(x: Session)
    requires Shut(x)
    ensures forall t | t in x.acquires :: t !in x.leases
  {
  }

  lemma {:induction false} FailedLeaves(
    id: RequestId, p: Pending, x: Session, y: Session, isRemoved: bool, order: seq<Token>, sent: RequestId)
    requires Shut(x) && Expects(id, p, x, isRemoved) && Failed(id, p.next, x, y, order, false, sent)
    ensures Shut(y) && Abandoned(y) == Abandoned(x)
  {
    match p.next {
      case Attaching(_, _) => AttachFailureLeaves(x, id, x.attached, order);
      case Cleaning(_) => CleanupFailureLeaves(x, id, order, false, sent);
      case Detaching(_, t, relinquish) => ReleaseFailureLeaves(x, id, t, relinquish, order, sent);
      case Caller =>
      case Creation =>
    }
  }
}
