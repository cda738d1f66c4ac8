/**
 Several inbound messages in one chunk: the connection handles all of them before any
 call that a reply resolved goes on, so a call may resume after a later message has
 moved its session's generation on.
 */
module LeaseChunks {
  import opened LeaseProtocol
  import opened LeaseInvariant
  import opened Options

  /** A later message of the same chunk, as far as one session is concerned; `Close` is one that ends the connection. */
  datatype Message = Report(attached: bool) | Removal | Close

  function Handle(x: Session, m: Message): Session {
    match m
    case Report(attached) => Snapshot(x, attached)
    case Removal => Removed(x)
    case Close => Disconnected(x)
  }

  function HandleAll(x: Session, ms: seq<Message>): Session {
    if ms == [] then x else Handle(HandleAll(x, ms[..|ms| - 1]), ms[|ms| - 1])
  }

  predicate OnlyReports(ms: seq<Message>) { forall i | 0 <= i < |ms| :: ms[i].Report? }

  /** Reports keep the account; the first other message drops it and moves the generation on. */
  lemma {:induction false} HandledAll(x: Session, ms: seq<Message>)
    requires x.count > 0
    ensures var z := HandleAll(x, ms);
      if OnlyReports(ms) then z == x.(attached := z.attached, stage := z.stage)
      else z.generation > x.generation && z.count == 0 && z.ledger == {}
    decreases |ms|
  {
    if ms != [] {
      var n := |ms| - 1;
      HandledAll(x, ms[..n]);
      assert OnlyReports(ms) <==> OnlyReports(ms[..n]) && ms[n].Report?;
    }
  }

  lemma {:induction false} LeasedAll(z: Session, order: seq<Token>)
    ensures var w := LeaseAll(z, order);
      && w == z.(leases := w.leases)
      && (forall t :: t in w.leases <==> t in z.leases || t in order)
      && (forall t | t in w.leases :: w.leases[t] == if t in order then Lease(z.generation, Active) else z.leases[t])
    decreases |order|
  {
    if order != [] {
      LeasedAll(AddLease(z, order[0]), order[1..]);
      assert order == [order[0]] + order[1..];
    }
  }

  /** The lease a call gets that resumes after the rest of the chunk has a count behind it exactly when the session's
      generation is the one its token was reserved under; so exactly when nothing after the attach reply removed the
      session or ended the connection. */
  lemma {:induction false} ResumedLeaseIsAccounted(
    x: Session, id: RequestId, attached: bool, order: seq<Token>, ms: seq<Message>, t: Token)
    requires InvWith(x, {}) && x.attachment == Some(id) && Enumerates(order, x, OnAttachment(id)) && t in order
    ensures var z := HandleAll(Reattached(x, id, true, attached), ms);
      var w := LeaseAll(z, order);
      && (z.generation == x.generation <==> OnlyReports(ms))
      && HasLive(w, t)
      && (t in w.ledger <==> z.generation == x.generation)
      && (Accounted(w, {}) <==> z.generation == x.generation)
      && (z.generation != x.generation ==> w.count == 0)
  {
    hide Reattached, Wake, LeaseAll, HandleAll, Serialized, CleanupFirst, WaitsInFlight;
    ReattachedKeeps(x, id, true, attached, order);
    ReattachedGeneration(x, id, attached);
    var y := Reattached(x, id, true, attached);
    InOrder(order, t);
    CountPositive(y, Set(order), t);
    HandledAll(y, ms);
    var z := HandleAll(y, ms);
    LeasedAll(z, order);
    var w := LeaseAll(z, order);
    forall u ensures u in order <==> u in Set(order) { InOrder(order, u); }
    if OnlyReports(ms) {
      LeasedAccount(z, order, w);
    } else {
      assert HasLive(w, t) && t !in w.ledger;
    }
  }

  lemma {:induction false} InOrder(order: seq<Token>, t: Token)
    ensures t in order <==> t in Set(order)
  {
  }

  lemma {:induction false} ReattachedGeneration(x: Session, id: RequestId, attached: bool)
    ensures Reattached(x, id, true, attached).generation == x.generation
  {
  }

  lemma {:induction false} CountPositive(y: Session, running: set<Token>, t: Token)
    requires Accounted(y, running) && t in running
    ensures t in y.ledger && y.count > 0
  {
  }

  lemma {:induction false} LeasedAccount(z: Session, order: seq<Token>, w: Session)
    requires Accounted(z, Set(order)) && w == z.(leases := w.leases)
    requires forall t :: t in order <==> t in Set(order)
    requires forall t :: t in w.leases <==> t in z.leases || t in order
    requires forall t | t in w.leases :: w.leases[t] == if t in order then Lease(z.generation, Active) else z.leases[t]
    ensures Accounted(w, {})
  {
    forall t ensures t in w.ledger <==> t in w.acquires || HasLive(w, t) {
      if t in order { assert t in Set(order) && HasLive(w, t); } else { assert HasLive(w, t) <==> HasLive(z, t); }
    }
  }

  /** The same of a call that waited for a detach and goes on to take a lease or to attach. */
  lemma {:induction false} ResumedCallIsAccounted(
    y: Session, running: set<Token>, t: Token, ms: seq<Message>, canSend: bool, next: RequestId)
    requires Accounted(y, running) && t in running
    ensures var z := HandleAll(y, ms);
      var w := Proceed(z, t, canSend, next);
      && (z.generation == y.generation <==> OnlyReports(ms))
      && (t in w.acquires || HasLive(w, t) ==> (t in w.ledger <==> z.generation == y.generation))
  {
    CountPositive(y, running, t);
    HandledAll(y, ms);
    hide HandleAll;
    var z := HandleAll(y, ms);
    var w := Proceed(z, t, canSend, next);
  }

  /** One chunk holds the reply to an attach and a message that ends the connection: the waiting call gets a lease of
      the new generation with no count behind it, and after a reconnect an exclusive lease is given beside it. */
  lemma AttachAndCloseInOneChunk()
    ensures var t, u := Token(0, Shared), Token(1, Exclusive);
      var waiting := Acquire(Fresh, t, true, 1).value;
      var closed := HandleAll(Reattached(waiting, 1, true, true), [Close]);
      var resumed := LeaseAll(closed, [t]);
      && Acquire(Fresh, t, true, 1).Some? && waiting.attachment == Some(1)
      && Enumerates([t], waiting, OnAttachment(1))
      && HasLive(resumed, t) && resumed.count == 0
      && Acquire(resumed, u, true, 2).Some?
      && var again := AttachSettled(Acquire(resumed, u, true, 2).value, 2, true, true, [u]);
         && IsActive(again, t) && IsActive(again, u) && again.exclusive == Some(u) && again.count == 1
  {
    var t, u := Token(0, Shared), Token(1, Exclusive);
    var waiting := Acquire(Fresh, t, true, 1).value;
    var y := Reattached(waiting, 1, true, true);
    assert HandleAll(y, []) == y && [Close][..0] == [];
    var closed := HandleAll(y, [Close]);
    assert closed == Disconnected(y);
    LeasedAll(closed, [t]);
    var resumed := LeaseAll(closed, [t]);
    var pending := Acquire(resumed, u, true, 2).value;
    LeasedAll(Reattached(pending, 2, true, true), [u]);
  }
}
