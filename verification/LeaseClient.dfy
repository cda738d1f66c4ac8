/** The client: its maps per session, its pending requests, and the calls and lease closures that await replies. */
module LeaseClient {
  import opened LeaseProtocol
  import opened LeaseInvariant
  import opened LeaseRuns
  import opened LeaseLinks
  import opened LeaseClosing
  import opened ClientStates
  import opened Options

  /** An entry of the lease counts is never zero. */
  type LeaseCount = n: nat | n > 0 witness 1

  class PiClient {
    const state: ClientState
    var pendingRequests: map<RequestId, Pending>
    var leaseCounts: map<SessionId, LeaseCount>
    var exclusiveLeases: map<SessionId, Token>
    var generations: map<SessionId, nat>
    var attachments: map<SessionId, RequestId>
    var detachments: map<SessionId, RequestId>
    var cleanupRequired: set<SessionId>
    var reconciliations: map<SessionId, RequestId>
    var requestSequence: nat
    var disposed: bool
    var connected: bool

    // Suspended `acquireSession` calls and lease closures, and the next token's identity.
    var calls: map<SessionId, map<Token, Waiting>>
    var leases: map<SessionId, map<Token, Lease>>
    var tokenSequence: nat

    // History.
    ghost var ledgers: map<SessionId, set<Token>>
    ghost var stages: map<SessionId, Stage>
    ghost var outcomes: map<RequestId, Outcome>
    ghost var removed: set<SessionId>
    ghost var runs: SessionId -> History

    /** The protocol state of one session. */
    ghost function View(s: SessionId): Session
      reads this`leaseCounts, this`exclusiveLeases, this`generations, this`cleanupRequired, state`attachedIds
      reads this`attachments, this`detachments, this`reconciliations, this`calls, this`leases, this`ledgers, this`stages
    {
      Session(
        if s in leaseCounts then leaseCounts[s] else 0, At(exclusiveLeases, s), Or(generations, s, 0),
        s in state.attachedIds, s in cleanupRequired,
        At(attachments, s), At(detachments, s), At(reconciliations, s),
        Or(calls, s, map[]), Or(leases, s, map[]), Or(ledgers, s, {}), Or(stages, s, Clean))
    }

    twostate predicate OthersSame(s: SessionId)
      reads this`leaseCounts, this`exclusiveLeases, this`generations, this`cleanupRequired, state`attachedIds
      reads this`attachments, this`detachments, this`reconciliations, this`calls, this`leases, this`ledgers, this`stages
    {
      forall u | u != s :: View(u) == old(View(u))
    }

    constructor ()
      ensures fresh(state) && Valid() && forall s :: View(s) == Fresh && runs(s).events == []
    {
      state := new ClientState();
      pendingRequests, leaseCounts, exclusiveLeases, generations := map[], map[], map[], map[];
      attachments, detachments, cleanupRequired, reconciliations := map[], map[], {}, map[];
      requestSequence, disposed, connected := 0, false, false;
      calls, leases, tokenSequence := map[], map[], 0;
      ledgers, stages, outcomes, removed := map[], map[], map[], {};
      runs := s => History([World(Fresh, false)], []);
    }

    ghost predicate Valid()
      reads this, state
    {
      && Numbered(pendingRequests, outcomes, requestSequence) && Linked(pendingRequests)
      && (disposed ==> !connected) && (!connected ==> pendingRequests == map[] && state.attachedIds == {})
      && AllRecorded() && AllBelow() && Quiet()
    }

    /** Without a connection no lease is live. */
    ghost predicate Quiet()
      reads this, state
    {
      !connected ==> forall s :: NoLive(View(s))
    }

    /** Each session's history is a run of the protocol that ends in its present state. */
    ghost predicate AllRecorded()
      reads this, state
    {
      forall s :: Recorded(runs(s), World(View(s), s in removed))
    }

    ghost predicate AllBelow()
      reads this, state
    {
      forall s :: TokensBelow(View(s), tokenSequence)
    }

    /** What the sessions have in flight is exactly what is awaited. */
    ghost predicate Linked(awaited: map<RequestId, Pending>)
      reads this`leaseCounts, this`exclusiveLeases, this`generations, this`cleanupRequired, state`attachedIds
      reads this`attachments, this`detachments, this`reconciliations, this`calls, this`leases, this`ledgers, this`stages
      reads this`removed
    {
      && (forall s :: Awaited(s, View(s), awaited))
      && (forall id | id in awaited ::
        Expects(id, awaited[id], View(SessionOf(awaited[id])), SessionOf(awaited[id]) in removed))
    }

    predicate LeaseIsActive(s: SessionId, t: Token)
      requires t in View(s).leases
      reads this`leaseCounts, this`exclusiveLeases, this`generations, this`cleanupRequired, state`attachedIds
      reads this`attachments, this`detachments, this`reconciliations, this`calls, this`leases, this`ledgers, this`stages
      ensures LeaseIsActive(s, t) <==> IsActive(View(s), t)
    {
      leases[s][t].state.Active? && leases[s][t].generation == Or(generations, s, 0) && s in state.attachedIds
    }

    predicate CanSend(encodes: bool)
      reads this`disposed, this`connected
    {
      !disposed && connected && encodes
    }

    /** Event `e` of session `s` has been handled: it alone changed, by a step of the protocol, and its history grew. */
    twostate predicate Handled(s: SessionId, e: Event)
      reads this, state
    {
      && (e.ReleaseCall? || e.DetachReply? ==> e.t in old(View(s)).leases)
      && View(s) == After(old(View(s)), e) && OthersSame(s)
      && runs(s) == Extend(old(runs(s)), e, World(View(s), s in removed))
      && (forall u | u != s :: runs(u) == old(runs(u)))
    }

    /** A settled request stays settled as it was. */
    twostate predicate OutcomesKept()
      reads this`outcomes
    {
      forall i | i in old(outcomes) :: i in outcomes && outcomes[i] == old(outcomes)[i]
    }

    /** What newly settled is rejected. */
    twostate predicate OnlyRejected()
      reads this`outcomes
    {
      OutcomesKept() && forall i | i in outcomes && i !in old(outcomes) :: outcomes[i] == Rejected
    }

    /** No request that was pending has settled: the new outcomes are rejections of requests that could not be sent. */
    twostate predicate NothingSettled()
      reads this`outcomes, this`pendingRequests
    {
      && OutcomesKept()
      && (forall i | i in outcomes && i !in old(outcomes) :: outcomes[i] == Rejected && i !in old(pendingRequests))
      && (forall i | i in old(pendingRequests) :: i in pendingRequests && pendingRequests[i] == old(pendingRequests)[i])
    }

    /** Request `id`, and no other that was pending, has settled. */
    twostate predicate OnlySettled(id: RequestId)
      reads this`outcomes, this`pendingRequests
    {
      && OutcomesKept()
      && id in outcomes && id !in pendingRequests
      && (forall i | i in outcomes && i !in old(outcomes) && i != id ::
        outcomes[i] == Rejected && i !in old(pendingRequests))
      && (forall i | i in old(pendingRequests) && i != id ::
        i in pendingRequests && pendingRequests[i] == old(pendingRequests)[i])
    }

    // ---- Bookkeeping ----

    method ReserveSessionLease(s: SessionId, mode: Mode) returns (r: Option<Token>)
      modifies this`leaseCounts, this`exclusiveLeases, this`tokenSequence, this`ledgers
      ensures r.None? ==> View(s) == old(View(s)) && Reserve(old(View(s)), Token(old(tokenSequence), mode)).None?
      ensures r.Some? ==>
        r.value == Token(old(tokenSequence), mode) && Some(View(s)) == Reserve(old(View(s)), r.value)
      ensures tokenSequence == old(tokenSequence) + 1
      ensures OthersSame(s)
    {
      var token := Token(tokenSequence, mode);
      tokenSequence := tokenSequence + 1;
      var count := if s in leaseCounts then leaseCounts[s] else 0;
      if (mode.Exclusive? && count > 0) || (mode.Shared? && s in exclusiveLeases) {
        return None;
      }
      leaseCounts := leaseCounts[s := count + 1];
      if mode.Exclusive? {
        exclusiveLeases := exclusiveLeases[s := token];
      }
      ledgers := ledgers[s := Or(ledgers, s, {}) + {token}];
      return Some(token);
    }

    method ReleaseSessionLease(s: SessionId, t: Token)
      modifies this`leaseCounts, this`exclusiveLeases, this`ledgers
      ensures View(s) == ReleaseToken(old(View(s)), t)
      ensures OthersSame(s)
    {
      var count := if s in leaseCounts then leaseCounts[s] else 0;
      if count <= 1 {
        leaseCounts := leaseCounts - {s};
      } else {
        leaseCounts := leaseCounts[s := count - 1];
      }
      if s in exclusiveLeases && exclusiveLeases[s] == t {
        exclusiveLeases := exclusiveLeases - {s};
      }
      ledgers := ledgers[s := Or(ledgers, s, {}) - {t}];
    }

    method ForgetLeases(s: SessionId)
      modifies this`leaseCounts, this`exclusiveLeases, this`ledgers
      ensures View(s) == old(View(s)).(count := 0, exclusive := None, ledger := {})
      ensures leaseCounts == old(leaseCounts) - {s}
      ensures OthersSame(s)
    {
      leaseCounts := leaseCounts - {s};
      exclusiveLeases := exclusiveLeases - {s};
      ledgers := ledgers - {s};
    }

    method InvalidateSessionLeases(s: SessionId)
      modifies this`leaseCounts, this`exclusiveLeases, this`cleanupRequired, this`generations, this`ledgers, this`stages
      ensures View(s) == Invalidate(old(View(s)))
      ensures leaseCounts == old(leaseCounts) - {s}
      ensures OthersSame(s)
    {
      ForgetLeases(s);
      cleanupRequired := cleanupRequired - {s};
      generations := generations[s := Or(generations, s, 0) + 1];
      stages := stages - {s};
    }

    method CreateSessionLease(s: SessionId, t: Token)
      modifies this`generations, this`leases
      ensures View(s) == AddLease(old(View(s)), t)
      ensures OthersSame(s)
    {
      var generation := Or(generations, s, 0);
      generations := generations[s := generation];
      leases := leases[s := Or(leases, s, map[])[t := Lease(generation, Active)]];
    }

    /** The acquire call of token `t` awaits `w`. */
    method SuspendCall(s: SessionId, t: Token, w: Waiting)
      modifies this`calls
      ensures View(s) == Suspend(old(View(s)), t, w)
      ensures OthersSame(s)
    {
      calls := calls[s := Or(calls, s, map[])[t := w]];
    }

    method SetLeaseState(s: SessionId, t: Token, leaseState: LeaseState)
      requires t in View(s).leases
      modifies this`leases
      ensures View(s) == SetLease(old(View(s)), t, leaseState)
      ensures OthersSame(s)
    {
      leases := leases[s := leases[s][t := leases[s][t].(state := leaseState)]];
    }

    // ---- Requests ----

    method Request(p: Pending, encodes: bool) returns (r: Option<RequestId>)
      requires Numbered(pendingRequests, outcomes, requestSequence)
      modifies this`pendingRequests, this`requestSequence, this`outcomes
      ensures Numbered(pendingRequests, outcomes, requestSequence)
      ensures r == if CanSend(encodes) then Some(old(requestSequence) + 1) else None
      ensures r.Some? ==> pendingRequests == old(pendingRequests)[r.value := p] && outcomes == old(outcomes)
      ensures r.None? ==> pendingRequests == old(pendingRequests)
      ensures r.Some? ==> r.value !in old(pendingRequests) && r.value !in outcomes
      ensures NothingSettled()
      ensures old(requestSequence) <= requestSequence && (r.Some? ==> requestSequence == r.value)
    {
      if disposed || !connected {
        return None;
      }
      requestSequence := requestSequence + 1;
      var id := requestSequence;
      pendingRequests := pendingRequests[id := p];
      if !encodes {
        pendingRequests := pendingRequests - {id};
        outcomes := outcomes[id := Rejected];
        return None;
      }
      return Some(id);
    }

    // ---- Acquiring ----

    /** Nothing in flight has changed. */
    twostate lemma LinkedFor(c: Change)
      requires old(Linked(c.awaited)) && OthersSame(c.s) && SameInFlight(old(View(c.s)), View(c.s))
      requires removed == old(removed)
      ensures Linked(c.awaited)
    {
      hide Awaited, Expects, SameInFlight;
      forall u ensures Awaited(u, View(u), c.awaited) {
        assert old(Awaited(u, View(u), c.awaited));
        if u == c.s { AwaitedSame(c.s, old(View(c.s)), View(c.s), c.awaited); }
      }
      forall i | i in c.awaited
        ensures Expects(i, c.awaited[i], View(SessionOf(c.awaited[i])), SessionOf(c.awaited[i]) in removed)
      {
        assert old(Expects(i, c.awaited[i], View(SessionOf(c.awaited[i])), SessionOf(c.awaited[i]) in removed));
        if SessionOf(c.awaited[i]) == c.s { ExpectsSame(old(View(c.s)), View(c.s), i, c.awaited[i], c.s in removed); }
      }
    }

    twostate lemma LinkedEnded(c: Ending)
      requires old(Linked(pendingRequests)) && OthersSame(c.s) && CanEnd(old(View(c.s)), c.t, c.s in removed, c.leaseState)
      requires SameInFlight(SetLease(old(View(c.s)), c.t, c.leaseState), View(c.s))
      requires pendingRequests == old(pendingRequests) && removed == old(removed)
      ensures Linked(pendingRequests)
    {
      hide Awaited, Expects, SameInFlight, CanEnd, SetLease;
      assert c.t in old(View(c.s)).leases && !c.leaseState.Releasing? by {
        CanEndFacts(old(View(c.s)), c.t, c.s in removed, c.leaseState);
      }
      var y := SetLease(old(View(c.s)), c.t, c.leaseState);
      forall u ensures Awaited(u, View(u), pendingRequests) {
        assert old(Awaited(u, View(u), pendingRequests));
        if u == c.s {
          AwaitedEnded(c.s, old(View(c.s)), c.t, c.leaseState, pendingRequests);
          AwaitedSame(c.s, y, View(c.s), pendingRequests);
        }
      }
      forall i | i in pendingRequests
        ensures Expects(i, pendingRequests[i], View(SessionOf(pendingRequests[i])), SessionOf(pendingRequests[i]) in removed)
      {
        var q := pendingRequests[i];
        assert old(Expects(i, q, View(SessionOf(q)), SessionOf(q) in removed));
        if SessionOf(q) == c.s {
          ExpectsEnded(old(View(c.s)), c.t, c.leaseState, i, q, c.s in removed);
          ExpectsSame(y, View(c.s), i, q, c.s in removed);
        }
      }
    }

    /** Request `id` for `s` has been sent and is the only new thing in flight. */
    twostate lemma LinkedSent(c: Sending)
      requires old(Linked(pendingRequests)) && OthersSame(c.s) && removed == old(removed)
      requires c.id !in old(pendingRequests) && pendingRequests == old(pendingRequests)[c.id := c.p]
      requires SessionOf(c.p) == c.s && Expects(c.id, c.p, View(c.s), c.s in removed)
      requires SameInFlight(old(View(c.s)), c.x) && CanBeSent(c.x, c.p.next) && View(c.s) == Sent(c.x, c.id, c.p.next)
      ensures Linked(pendingRequests)
    {
      hide Awaited, Expects, SameInFlight, Sent;
      var before := old(pendingRequests);
      forall u ensures Awaited(u, View(u), pendingRequests) {
        assert old(Awaited(u, View(u), pendingRequests));
        if u == c.s {
          AwaitedSame(c.s, old(View(c.s)), c.x, before);
          AwaitedSent(c.s, c.x, before, c.id, c.p);
        } else {
          AwaitedMore(u, View(u), before, c.id, c.p);
        }
      }
      forall i | i in pendingRequests
        ensures Expects(i, pendingRequests[i], View(SessionOf(pendingRequests[i])), SessionOf(pendingRequests[i]) in removed)
      {
        if i != c.id && SessionOf(pendingRequests[i]) == c.s {
          ExpectsSent(old(View(c.s)), c.x, i, before[i], c.s in removed, c.id, c.p);
        }
      }
    }

    /** Request `id` of session `s` has settled and is no longer in flight. */
    twostate lemma LinkedAnswered(c: Answering)
      requires old(Linked(c.awaited)) && OthersSame(c.s) && removed == old(removed)
      requires c.id in c.awaited && pendingRequests == c.awaited - {c.id}
      requires c.awaited[c.id].next.Caller? || c.awaited[c.id].next.Creation? || c.awaited[c.id].next.s == c.s
      requires !c.leaseState.Releasing?
      requires SameInFlight(Answered(old(View(c.s)), c.awaited[c.id].next, c.leaseState), View(c.s))
      ensures Linked(pendingRequests)
    {
      hide Awaited, SameInFlight, Answered;
      var p := c.awaited[c.id];
      assert old(Expects(c.id, p, View(SessionOf(p)), SessionOf(p) in removed));
      forall u ensures Awaited(u, View(u), pendingRequests) {
        assert old(Awaited(u, View(u), c.awaited));
        if u == c.s {
          if p.next.Detaching? {
            AwaitedReleased(c.s, old(View(c.s)), c.awaited, c.id, p.next.t, p.next.relinquish, c.leaseState);
          } else {
            AwaitedAnswered(c.s, old(View(c.s)), c.awaited, c.id, c.leaseState);
          }
          AwaitedSame(c.s, Answered(old(View(c.s)), p.next, c.leaseState), View(c.s), pendingRequests);
        } else {
          AwaitedElsewhere(u, View(u), c.awaited, c.id);
        }
      }
      forall i | i in pendingRequests
        ensures Expects(i, pendingRequests[i], View(SessionOf(pendingRequests[i])), SessionOf(pendingRequests[i]) in removed)
      {
        assert old(Expects(i, c.awaited[i], View(SessionOf(c.awaited[i])), SessionOf(c.awaited[i]) in removed));
        if SessionOf(pendingRequests[i]) == c.s {
          ExpectsAnswered(old(View(c.s)), View(c.s), i, c.awaited[i], c.s in removed, c.id, p, c.leaseState);
        }
      }
    }

    method SetAttachment(s: SessionId, id: RequestId)
      modifies this`attachments
      ensures View(s) == old(View(s)).(attachment := Some(id)) && OthersSame(s)
    {
      attachments := attachments[s := id];
    }

    method SetReconciliation(s: SessionId, id: RequestId)
      modifies this`reconciliations
      ensures View(s) == old(View(s)).(reconciliation := Some(id)) && OthersSame(s)
    {
      reconciliations := reconciliations[s := id];
    }

    method SetDetachment(s: SessionId, id: RequestId)
      modifies this`detachments
      ensures View(s) == old(View(s)).(detachment := Some(id)) && OthersSame(s)
    {
      detachments := detachments[s := id];
    }

    /** Sends an attach, unless it cannot be sent. */
    method SendAttach(s: SessionId, previous: Option<Snapshot>, encodes: bool) returns (r: Option<RequestId>)
      requires Numbered(pendingRequests, outcomes, requestSequence) && Linked(pendingRequests)
      requires View(s).attachment.None?
      modifies this`pendingRequests, this`requestSequence, this`outcomes, this`attachments
      ensures Numbered(pendingRequests, outcomes, requestSequence) && Linked(pendingRequests) && NothingSettled()
      ensures r == if CanSend(encodes) then Some(old(requestSequence) + 1) else None
      ensures View(s) == if r.Some? then old(View(s)).(attachment := r) else old(View(s))
      ensures !CanSend(encodes) ==> pendingRequests == old(pendingRequests)
      ensures OthersSame(s)
    {
      hide View, Linked, Numbered, NothingSettled;
      var p := Pending(Attach, Attaching(s, previous));
      r := Request(p, encodes);
      if r.None? {
        LinkedFor(Change(s, pendingRequests));
      } else {
        SetAttachment(s, r.value);
        LinkedSent(Sending(s, r.value, p, old(View(s))));
      }
    }

    /** The session's snapshot is forgotten while the attach is in flight. */
    method AttachSession(s: SessionId, encodes: bool) returns (r: Option<RequestId>)
      requires Numbered(pendingRequests, outcomes, requestSequence) && Linked(pendingRequests)
      requires View(s).attachment.None?
      modifies this`pendingRequests, this`requestSequence, this`outcomes, this`attachments, state`snapshots
      ensures Numbered(pendingRequests, outcomes, requestSequence) && Linked(pendingRequests) && NothingSettled()
      ensures r == if CanSend(encodes) then Some(old(requestSequence) + 1) else None
      ensures View(s) == if r.Some? then old(View(s)).(attachment := r) else old(View(s))
      ensures !CanSend(encodes) ==> pendingRequests == old(pendingRequests)
      ensures OthersSame(s)
    {
      hide View, Linked, Numbered;
      var previous := state.ForgetSessionSnapshot(s);
      r := SendAttach(s, previous, encodes);
      if r.None? && previous.Some? { state.RestoreSessionSnapshot(s, previous.value); }
    }

    twostate lemma Untouched()
      requires outcomes == old(outcomes) && pendingRequests == old(pendingRequests)
      ensures NothingSettled()
    {
    }

    /** `SuspendCall` and `ReleaseSessionLease` put nothing in flight. */
    method SuspendFor(s: SessionId, t: Token, w: Waiting)
      requires Linked(pendingRequests)
      modifies this`calls
      ensures Linked(pendingRequests) && View(s) == Suspend(old(View(s)), t, w) && OthersSame(s)
    {
      hide Linked;
      SuspendCall(s, t, w);
      LinkedFor(Change(s, pendingRequests));
    }

    method GiveBack(s: SessionId, t: Token)
      requires Linked(pendingRequests)
      modifies this`leaseCounts, this`exclusiveLeases, this`ledgers
      ensures Linked(pendingRequests) && View(s) == ReleaseToken(old(View(s)), t) && OthersSame(s)
    {
      hide Linked;
      ReleaseSessionLease(s, t);
      LinkedFor(Change(s, pendingRequests));
    }

    /** Joins the attach in flight, or sends one. */
    method AwaitAttachment(s: SessionId, t: Token, encodes: bool)
      requires Numbered(pendingRequests, outcomes, requestSequence) && Linked(pendingRequests)
      modifies this`pendingRequests, this`requestSequence, this`outcomes, this`attachments, this`calls
      modifies this`leaseCounts, this`exclusiveLeases, this`ledgers, state`snapshots
      ensures Numbered(pendingRequests, outcomes, requestSequence) && Linked(pendingRequests) && NothingSettled()
      ensures View(s) == StartAttach(old(View(s)), t, CanSend(encodes), old(requestSequence) + 1)
      ensures !CanSend(encodes) ==> pendingRequests == old(pendingRequests)
      ensures OthersSame(s)
    {
      hide Linked, Numbered, NothingSettled;
      if s !in attachments {
        var r := AttachSession(s, encodes);
        if r.None? {
          GiveBack(s, t);
          return;
        }
      } else {
        Untouched();
      }
      SuspendFor(s, t, OnAttachment(attachments[s]));
    }

    /** Sends the detach that cleans a session up. */
    method StartCleanup(s: SessionId, encodes: bool) returns (r: Option<RequestId>)
      requires Numbered(pendingRequests, outcomes, requestSequence) && Linked(pendingRequests)
      requires View(s).reconciliation.None?
      modifies this`pendingRequests, this`requestSequence, this`outcomes, this`reconciliations
      ensures Numbered(pendingRequests, outcomes, requestSequence) && Linked(pendingRequests) && NothingSettled()
      ensures r == if CanSend(encodes) then Some(old(requestSequence) + 1) else None
      ensures View(s) == if r.Some? then old(View(s)).(reconciliation := r) else old(View(s))
      ensures !CanSend(encodes) ==> pendingRequests == old(pendingRequests)
      ensures OthersSame(s)
    {
      hide View, Linked, Numbered, NothingSettled;
      var p := Pending(Detach, Cleaning(s));
      r := Request(p, encodes);
      if r.None? {
        LinkedFor(Change(s, pendingRequests));
      } else {
        SetReconciliation(s, r.value);
        LinkedSent(Sending(s, r.value, p, old(View(s))));
      }
    }

    method ReconcileSessionCleanup(s: SessionId, t: Token, encodes: bool)
      requires Numbered(pendingRequests, outcomes, requestSequence) && Linked(pendingRequests)
      requires s in cleanupRequired
      modifies this`pendingRequests, this`requestSequence, this`outcomes, this`reconciliations, this`calls
      modifies this`leaseCounts, this`exclusiveLeases, this`ledgers
      ensures Numbered(pendingRequests, outcomes, requestSequence) && Linked(pendingRequests) && NothingSettled()
      ensures View(s) == Proceed(old(View(s)), t, CanSend(encodes), old(requestSequence) + 1)
      ensures !CanSend(encodes) ==> pendingRequests == old(pendingRequests)
      ensures OthersSame(s)
    {
      hide Linked, Numbered, NothingSettled;
      if s !in reconciliations {
        var r := StartCleanup(s, encodes);
        if r.None? {
          GiveBack(s, t);
          return;
        }
      } else {
        Untouched();
      }
      SuspendFor(s, t, OnReconciliation(reconciliations[s]));
    }

    /** An acquire call once no detach is in flight. */
    method ProceedAcquire(s: SessionId, t: Token, encodes: bool)
      requires Numbered(pendingRequests, outcomes, requestSequence) && Linked(pendingRequests)
      requires t !in View(s).leases
      modifies this`pendingRequests, this`requestSequence, this`outcomes, this`attachments, this`reconciliations
      modifies this`calls, this`leases, this`generations
      modifies this`leaseCounts, this`exclusiveLeases, this`ledgers, state`snapshots
      ensures Numbered(pendingRequests, outcomes, requestSequence) && Linked(pendingRequests) && NothingSettled()
      ensures View(s) == Proceed(old(View(s)), t, CanSend(encodes), old(requestSequence) + 1)
      ensures !CanSend(encodes) ==> pendingRequests == old(pendingRequests)
      ensures OthersSame(s)
    {
      hide Linked, Numbered;
      if s in cleanupRequired {
        ReconcileSessionCleanup(s, t, encodes);
      } else if s !in state.attachedIds {
        AwaitAttachment(s, t, encodes);
      } else {
        CreateSessionLease(s, t);
        LinkedFor(Change(s, pendingRequests));
      }
    }

    // ---- Resuming ----

    /** The calls awaiting `w`, taken out of the suspended ones, in the order in which they resume. */
    method TakeWaiting(s: SessionId, w: Waiting) returns (order: seq<Token>)
      modifies this`calls
      ensures View(s) == Wake(old(View(s)), w) && Enumerates(order, old(View(s)), w)
      ensures OthersSame(s)
    {
      var suspended := Or(calls, s, map[]);
      var waiting := set t | t in suspended && suspended[t] == w;
      assert waiting == Waiters(View(s), w);
      order := [];
      var rest := waiting;
      while rest != {}
        invariant rest <= waiting
        invariant forall i | 0 <= i < |order| :: order[i] in waiting && order[i] !in rest
        invariant forall t | t in waiting :: t in rest || t in order
        invariant Distinct(order)
      {
        var t :| t in rest;
        rest := rest - {t};
        order := order + [t];
      }
      calls := calls[s := suspended - waiting];
    }

    method ProceedWaiting(s: SessionId, order: seq<Token>, encodes: bool)
      requires Numbered(pendingRequests, outcomes, requestSequence) && Linked(pendingRequests)
      requires Distinct(order) && forall t | t in order :: t !in View(s).leases
      modifies this`pendingRequests, this`requestSequence, this`outcomes, this`attachments, this`reconciliations
      modifies this`calls, this`leases, this`generations
      modifies this`leaseCounts, this`exclusiveLeases, this`ledgers, state`snapshots
      ensures Numbered(pendingRequests, outcomes, requestSequence) && Linked(pendingRequests) && NothingSettled()
      ensures View(s) == ProceedAll(old(View(s)), order, CanSend(encodes), old(requestSequence) + 1)
      ensures !CanSend(encodes) ==> pendingRequests == old(pendingRequests)
      ensures OthersSame(s)
    {
      hide View, Linked, Numbered, Proceed, ProceedAll, NothingToSend;
      var i := 0;
      ghost var id := requestSequence + 1;
      assert order[0..] == order;
      while i < |order|
        invariant 0 <= i <= |order|
        invariant Numbered(pendingRequests, outcomes, requestSequence) && Linked(pendingRequests) && NothingSettled()
        invariant ProceedAll(View(s), order[i..], CanSend(encodes), id)
               == ProceedAll(old(View(s)), order, CanSend(encodes), id)
        invariant forall k | i <= k < |order| :: order[k] !in View(s).leases
        invariant requestSequence + 1 == id || !CanSend(encodes) || NothingToSend(View(s))
        invariant !CanSend(encodes) ==> pendingRequests == old(pendingRequests)
        invariant OthersSame(s)
      {
        ProceedSends(View(s), order[i], CanSend(encodes), requestSequence + 1, id);
        ProceedAllStep(View(s), order, i, CanSend(encodes), id);
        ProceedAcquire(s, order[i], encodes);
        i := i + 1;
      }
      ProceedAllStep(View(s), order, i, CanSend(encodes), id);
    }

    method LeaseWaiting(s: SessionId, order: seq<Token>)
      requires Linked(pendingRequests)
      requires Distinct(order) && forall t | t in order :: t !in View(s).leases
      modifies this`leases, this`generations
      ensures Linked(pendingRequests)
      ensures View(s) == LeaseAll(old(View(s)), order)
      ensures OthersSame(s)
    {
      hide View, Linked;
      var i := 0;
      assert order[0..] == order;
      while i < |order|
        invariant 0 <= i <= |order|
        invariant Linked(pendingRequests)
        invariant LeaseAll(View(s), order[i..]) == LeaseAll(old(View(s)), order)
        invariant forall k | i <= k < |order| :: order[k] !in View(s).leases
        invariant OthersSame(s)
      {
        label before:
        CreateSessionLease(s, order[i]);
        LinkedFor@before(Change(s, pendingRequests));
        assert order[i..][1..] == order[i + 1..];
        i := i + 1;
      }
    }

    method ReleaseWaiting(s: SessionId, order: seq<Token>)
      requires Linked(pendingRequests)
      modifies this`leaseCounts, this`exclusiveLeases, this`ledgers
      ensures Linked(pendingRequests)
      ensures View(s) == ReleaseAll(old(View(s)), order)
      ensures OthersSame(s)
    {
      hide Linked;
      var i := 0;
      assert order[0..] == order;
      while i < |order|
        invariant 0 <= i <= |order|
        invariant Linked(pendingRequests)
        invariant ReleaseAll(View(s), order[i..]) == ReleaseAll(old(View(s)), order)
        invariant OthersSame(s)
      {
        label before:
        ReleaseSessionLease(s, order[i]);
        LinkedFor@before(Change(s, pendingRequests));
        assert order[i..][1..] == order[i + 1..];
        i := i + 1;
      }
    }

    method AttachWaiting(s: SessionId, order: seq<Token>, encodes: bool)
      requires Numbered(pendingRequests, outcomes, requestSequence) && Linked(pendingRequests)
      modifies this`pendingRequests, this`requestSequence, this`outcomes, this`attachments, this`calls
      modifies this`leaseCounts, this`exclusiveLeases, this`ledgers, state`snapshots
      ensures Numbered(pendingRequests, outcomes, requestSequence) && Linked(pendingRequests) && NothingSettled()
      ensures View(s) == AttachAll(old(View(s)), order, CanSend(encodes), old(requestSequence) + 1)
      ensures !CanSend(encodes) ==> pendingRequests == old(pendingRequests)
      ensures OthersSame(s)
    {
      hide View, Linked, Numbered;
      var i := 0;
      ghost var id := requestSequence + 1;
      assert order[0..] == order;
      while i < |order|
        invariant 0 <= i <= |order|
        invariant Numbered(pendingRequests, outcomes, requestSequence) && Linked(pendingRequests) && NothingSettled()
        invariant AttachAll(View(s), order[i..], CanSend(encodes), id)
               == AttachAll(old(View(s)), order, CanSend(encodes), id)
        invariant requestSequence + 1 == id || !CanSend(encodes) || View(s).attachment.Some?
        invariant !CanSend(encodes) ==> pendingRequests == old(pendingRequests)
        invariant OthersSame(s)
      {
        AwaitAttachment(s, order[i], encodes);
        assert order[i..][1..] == order[i + 1..];
        i := i + 1;
      }
    }

    // ---- Settling ----

    lemma InFlightNow(id: RequestId, awaited: map<RequestId, Pending>)
      requires Linked(awaited) && id in awaited
      ensures Expects(id, awaited[id], View(SessionOf(awaited[id])), SessionOf(awaited[id]) in removed)
    {
    }

    /** The calls that wait for the attach go on, and it is no longer in flight. */
    method WakeAttach(s: SessionId, id: RequestId) returns (order: seq<Token>)
      requires View(s).attachment == Some(id)
      modifies this`attachments, this`calls
      ensures Enumerates(order, old(View(s)), OnAttachment(id))
      ensures View(s) == Wake(old(View(s)), OnAttachment(id)).(attachment := None)
      ensures OthersSame(s)
    {
      hide Enumerates;
      order := TakeWaiting(s, OnAttachment(id));
      attachments := attachments - {s};
    }

    /** An attach that failed gives back the snapshot it had put aside. */
    method NoteAttachReply(s: SessionId, previous: Option<Snapshot>, ok: bool)
      modifies this`stages, state`snapshots
      ensures View(s) == old(View(s)).(stage := if ok && old(View(s)).stage.NeedsAttach? then Clean else old(View(s)).stage)
      ensures OthersSame(s)
    {
      if ok {
        if Or(stages, s, Clean).NeedsAttach? { stages := stages[s := Clean]; }
      } else if previous.Some? {
        state.RestoreSessionSnapshot(s, previous.value);
      }
    }

    /** The attach `id` has settled; the calls that waited for it are about to resume. */
    method FinishAttach(s: SessionId, id: RequestId, previous: Option<Snapshot>, ok: bool) returns (order: seq<Token>)
      requires View(s).attachment == Some(id)
      modifies this`attachments, this`calls, this`stages, state`snapshots
      ensures Enumerates(order, old(View(s)), OnAttachment(id))
      ensures View(s) == Reattached(old(View(s)), id, ok, old(View(s)).attached)
      ensures OthersSame(s)
    {
      hide View, Enumerates;
      order := WakeAttach(s, id);
      NoteAttachReply(s, previous, ok);
    }

    method SettleAttach(
      s: SessionId, id: RequestId, previous: Option<Snapshot>, ok: bool, ghost awaited: map<RequestId, Pending>)
      returns (order: seq<Token>)
      requires Linked(awaited) && id in awaited && pendingRequests == awaited - {id}
      requires awaited[id].next == Attaching(s, previous)
      requires forall t | t in View(s).acquires :: t !in View(s).leases
      modifies this`attachments, this`calls, this`leases, this`generations
      modifies this`leaseCounts, this`exclusiveLeases, this`ledgers, this`stages, state`snapshots
      ensures Linked(pendingRequests)
      ensures Enumerates(order, old(View(s)), OnAttachment(id))
      ensures View(s) == AttachSettled(old(View(s)), id, ok, old(View(s)).attached, order)
      ensures OthersSame(s)
    {
      hide Linked, LeaseAll, ReleaseAll, Enumerates, Reattached;
      InFlightNow(id, awaited);
      order := FinishAttach(s, id, previous, ok);
      SettledAges(old(View(s)), OnAttachment(id), order);
      SettledInFlight(old(View(s)), id, awaited[id].next, ok, old(View(s)).attached);
      LinkedAnswered(Answering(s, id, awaited, Released));
      if ok { LeaseWaiting(s, order); } else { ReleaseWaiting(s, order); }
    }

    /** The detach `id` that cleans the session up has settled; the calls that waited for it are about to resume. */
    method FinishCleanup(s: SessionId, id: RequestId, ok: bool) returns (order: seq<Token>)
      requires ok ==> s !in state.attachedIds
      modifies this`reconciliations, this`calls, this`cleanupRequired, this`stages
      ensures Enumerates(order, old(View(s)), OnReconciliation(id))
      ensures View(s) == Reconciled(old(View(s)), id, ok)
      ensures OthersSame(s)
    {
      hide Enumerates;
      order := TakeWaiting(s, OnReconciliation(id));
      reconciliations := reconciliations - {s};
      if ok {
        cleanupRequired := cleanupRequired - {s};
        if Or(stages, s, Clean).NeedsDetach? { stages := stages[s := NeedsAttach]; }
      }
    }

    method SettleCleanup(s: SessionId, id: RequestId, ok: bool, encodes: bool, ghost awaited: map<RequestId, Pending>)
      returns (order: seq<Token>)
      requires Numbered(pendingRequests, outcomes, requestSequence)
      requires Linked(awaited) && id in awaited && pendingRequests == awaited - {id}
      requires awaited[id].next == Cleaning(s) && (ok ==> s !in state.attachedIds)
      modifies this`pendingRequests, this`requestSequence, this`outcomes, this`attachments, this`reconciliations
      modifies this`calls, this`cleanupRequired
      modifies this`leaseCounts, this`exclusiveLeases, this`ledgers, this`stages, state`snapshots
      ensures Numbered(pendingRequests, outcomes, requestSequence) && Linked(pendingRequests) && NothingSettled()
      ensures Enumerates(order, old(View(s)), OnReconciliation(id))
      ensures View(s)
           == ReconcileSettled(old(View(s)), id, ok, order, CanSend(encodes), old(requestSequence) + 1)
      ensures !CanSend(encodes) ==> pendingRequests == old(pendingRequests)
      ensures OthersSame(s)
    {
      hide View, Linked, Numbered, AttachAll, ReleaseAll, Enumerates, Reconciled;
      InFlightNow(id, awaited);
      order := FinishCleanup(s, id, ok);
      SettledInFlight(old(View(s)), id, awaited[id].next, ok, false);
      LinkedAnswered(Answering(s, id, awaited, Released));
      if ok { AttachWaiting(s, order, encodes); } else { ReleaseWaiting(s, order); }
    }

    /** A release whose detach failed. */
    method FailRelease(s: SessionId, t: Token, relinquish: bool)
      requires t in View(s).leases
      modifies this`leases, this`cleanupRequired, this`leaseCounts, this`exclusiveLeases, this`ledgers, this`stages
      ensures View(s) == ReleaseFailed(old(View(s)), t, relinquish)
      ensures OthersSame(s)
    {
      if leases[s][t].generation != Or(generations, s, 0) {
        SetLeaseState(s, t, Invalidated);
      } else if relinquish {
        ReleaseSessionLease(s, t);
        cleanupRequired := cleanupRequired + {s};
        stages := stages[s := NeedsDetach];
        SetLeaseState(s, t, LeaseState.Released);
      } else {
        SetLeaseState(s, t, Active);
      }
    }

    /** The detach `id` that releases the lease of `t` has settled; the calls that waited for it are about to resume. */
    method FinishRelease(s: SessionId, id: RequestId, t: Token, relinquish: bool, ok: bool) returns (order: seq<Token>)
      requires View(s).detachment == Some(id) && t in View(s).leases && (ok ==> s !in state.attachedIds)
      modifies this`detachments, this`calls, this`leases, this`cleanupRequired
      modifies this`leaseCounts, this`exclusiveLeases, this`ledgers, this`stages
      ensures Enumerates(order, old(View(s)), OnDetachment(id))
      ensures View(s) == Detached(old(View(s)), id, t, relinquish, ok)
      ensures OthersSame(s)
    {
      hide Enumerates;
      order := TakeWaiting(s, OnDetachment(id));
      detachments := detachments - {s};
      label woken:
      assert View(s) == Wake(old(View(s)), OnDetachment(id)).(detachment := None) && OthersSame(s);
      hide Wake, ReleaseFailed;
      if ok {
        ReleaseSessionLease(s, t);
        SetLeaseState(s, t, LeaseState.Released);
      } else {
        FailRelease(s, t, relinquish);
      }
    }

    method SettleRelease(
      s: SessionId, id: RequestId, t: Token, relinquish: bool, ok: bool, encodes: bool,
      ghost awaited: map<RequestId, Pending>)
      returns (order: seq<Token>)
      requires Numbered(pendingRequests, outcomes, requestSequence)
      requires Linked(awaited) && id in awaited && pendingRequests == awaited - {id}
      requires awaited[id].next == Detaching(s, t, relinquish) && (ok ==> s !in state.attachedIds)
      requires forall u | u in View(s).acquires :: u !in View(s).leases
      modifies this`pendingRequests, this`requestSequence, this`outcomes, this`attachments, this`reconciliations
      modifies this`detachments, this`calls, this`leases, this`generations, this`cleanupRequired
      modifies this`leaseCounts, this`exclusiveLeases, this`ledgers, this`stages, state`snapshots
      ensures Numbered(pendingRequests, outcomes, requestSequence) && Linked(pendingRequests) && NothingSettled()
      ensures t in old(View(s)).leases && Enumerates(order, old(View(s)), OnDetachment(id))
      ensures View(s)
           == DetachSettled(old(View(s)), id, t, relinquish, ok, order, CanSend(encodes), old(requestSequence) + 1)
      ensures !CanSend(encodes) ==> pendingRequests == old(pendingRequests)
      ensures OthersSame(s)
    {
      hide View, Linked, Numbered, ProceedAll, Enumerates, Detached;
      InFlightNow(id, awaited);
      order := FinishRelease(s, id, t, relinquish, ok);
      SettledInFlight(old(View(s)), id, awaited[id].next, ok, false);
      LinkedAnswered(Answering(s, id, awaited, View(s).leases[t].state));
      SettledAges(old(View(s)), OnDetachment(id), order);
      DetachedLeases(old(View(s)), id, t, relinquish, ok);
      ProceedWaiting(s, order, encodes);
    }

    // ---- Failing ----

    twostate lemma LinkedKeptAll()
      requires old(Linked(pendingRequests)) && forall s :: SameInFlight(old(View(s)), View(s))
      requires pendingRequests == old(pendingRequests) && removed == old(removed)
      ensures Linked(pendingRequests)
    {
      hide View, Awaited, Expects, SameInFlight;
      forall u ensures Awaited(u, View(u), pendingRequests) {
        assert old(Awaited(u, View(u), pendingRequests));
        AwaitedSame(u, old(View(u)), View(u), pendingRequests);
      }
      forall i | i in pendingRequests
        ensures Expects(i, pendingRequests[i], View(SessionOf(pendingRequests[i])), SessionOf(pendingRequests[i]) in removed)
      {
        var q := pendingRequests[i];
        var s := SessionOf(q);
        assert old(Expects(i, q, View(s), s in removed));
        ExpectsSame(old(View(s)), View(s), i, q, s in removed);
      }
    }

    method TakePendingRequest(id: RequestId, ghost outcome: Outcome) returns (p: Pending)
      requires Numbered(pendingRequests, outcomes, requestSequence) && id in pendingRequests
      modifies this`pendingRequests, this`outcomes
      ensures p == old(pendingRequests)[id] && pendingRequests == old(pendingRequests) - {id}
      ensures outcomes == old(outcomes)[id := outcome] && OnlySettled(id)
      ensures Numbered(pendingRequests, outcomes, requestSequence)
    {
      p := pendingRequests[id];
      pendingRequests := pendingRequests - {id};
      outcomes := outcomes[id := outcome];
    }

    /** Request `id` fails, and whatever awaits it with it. */
    method FailRequest(id: RequestId, encodes: bool) returns (order: seq<Token>)
      requires Numbered(pendingRequests, outcomes, requestSequence) && Linked(pendingRequests)
      requires id in pendingRequests
      requires forall s, t | t in View(s).acquires :: t !in View(s).leases
      modifies this`pendingRequests, this`requestSequence, this`outcomes, this`attachments, this`reconciliations
      modifies this`detachments, this`calls, this`leases, this`generations, this`cleanupRequired
      modifies this`leaseCounts, this`exclusiveLeases, this`ledgers, this`stages, state`snapshots
      ensures Numbered(pendingRequests, outcomes, requestSequence) && Linked(pendingRequests) && OnlySettled(id)
      ensures id !in pendingRequests && id in outcomes && outcomes[id] == Rejected
      ensures Failed(id, old(pendingRequests)[id].next, old(View(SessionOf(pendingRequests[id]))),
                     View(SessionOf(old(pendingRequests)[id])), order, CanSend(encodes), old(requestSequence) + 1)
      ensures !CanSend(encodes) ==> pendingRequests == old(pendingRequests) - {id}
      ensures OthersSame(SessionOf(old(pendingRequests)[id]))
    {
      hide View, Linked, Numbered, Enumerates, AttachSettled, ReconcileSettled, DetachSettled;
      ghost var awaited := pendingRequests;
      InFlightNow(id, awaited);
      var p := TakePendingRequest(id, Rejected);
      order := [];
      match p.next {
        case Attaching(s, previous) => order := SettleAttach(s, id, previous, false, awaited);
        case Cleaning(s) => order := SettleCleanup(s, id, false, encodes, awaited);
        case Detaching(s, t, relinquish) => order := SettleRelease(s, id, t, relinquish, false, encodes, awaited);
        case Caller => LinkedAnswered(Answering(0, id, awaited, Released));
        case Creation => LinkedAnswered(Answering(0, id, awaited, Released));
      }
      SettledNotPending(pendingRequests, outcomes, requestSequence, id);
    }

    // ---- Closing ----

    lemma HeldNow()
      ensures forall u ::
        InvalidatedIfHeld(View(u)) == if u in leaseCounts then Invalidate(View(u)) else View(u)
    {
      forall u ensures InvalidatedIfHeld(View(u)) == if u in leaseCounts then Invalidate(View(u)) else View(u) {
        HeldOnly(View(u));
      }
    }

    method InvalidateHeldLeases()
      modifies this`leaseCounts, this`exclusiveLeases, this`cleanupRequired, this`generations, this`ledgers, this`stages
      ensures leaseCounts == map[]
      ensures forall u :: View(u) == InvalidatedIfHeld(old(View(u)))
    {
      hide Invalidate, InvalidatedIfHeld, View;
      var rest := leaseCounts.Keys;
      HeldNow();
      while rest != {}
        invariant leaseCounts.Keys == rest
        invariant forall u :: View(u) == if u in rest then old(View(u)) else InvalidatedIfHeld(old(View(u)))
      {
        var s :| s in rest;
        InvalidateSessionLeases(s);
        rest := rest - {s};
      }
    }

    method InvalidateAllSessionLeases()
      requires Linked(pendingRequests) && state.attachedIds == {}
      modifies this`leaseCounts, this`exclusiveLeases, this`cleanupRequired, this`generations, this`ledgers, this`stages
      ensures leaseCounts == map[]
      ensures forall u :: View(u) == Closed(old(View(u)))
      ensures Linked(pendingRequests)
    {
      hide Linked;
      InvalidateHeldLeases();
      cleanupRequired := {};
      stages := map[];
      assert forall u :: View(u) == Closed(old(View(u))) by { hide InvalidatedIfHeld; }
      forall u ensures SameInFlight(old(View(u)), View(u)) { ClosedInFlight(old(View(u))); }
      hide Closed, SameInFlight;
      LinkedKeptAll();
    }

    lemma NothingInFlight(s: SessionId)
      requires Linked(map[]) && Shut(View(s))
      ensures Abandoned(View(s)) == View(s)
    {
      assert Awaited(s, View(s), map[]);
      hide Linked, Shut;
      NothingLeft(View(s));
    }

    /** Rejects every pending request. */
    method RejectPendingRequests()
      requires Numbered(pendingRequests, outcomes, requestSequence) && Linked(pendingRequests)
      requires !connected && forall s :: Shut(View(s))
      modifies this`pendingRequests, this`requestSequence, this`outcomes, this`attachments, this`reconciliations
      modifies this`detachments, this`calls, this`leases, this`generations, this`cleanupRequired
      modifies this`leaseCounts, this`exclusiveLeases, this`ledgers, this`stages, state`snapshots
      ensures Numbered(pendingRequests, outcomes, requestSequence) && Linked(pendingRequests) && OnlyRejected()
      ensures pendingRequests == map[]
      ensures forall i | i in old(pendingRequests) :: i in outcomes && outcomes[i] == Rejected
      ensures forall s :: View(s) == Abandoned(old(View(s)))
    {
      hide View, Linked, Numbered, Abandoned, Failed, Shut, Expects;
      while pendingRequests != map[]
        invariant Numbered(pendingRequests, outcomes, requestSequence) && Linked(pendingRequests) && OnlyRejected()
        invariant forall s :: Shut(View(s)) && Abandoned(View(s)) == Abandoned(old(View(s)))
        invariant forall i | i in old(pendingRequests) :: i in pendingRequests || (i in outcomes && outcomes[i] == Rejected)
        decreases pendingRequests.Keys
      {
        var id :| id in pendingRequests;
        ghost var p := pendingRequests[id];
        ghost var x := View(SessionOf(p));
        InFlightNow(id, pendingRequests);
        forall s ensures forall t | t in View(s).acquires :: t !in View(s).leases { ShutApart(View(s)); }
        ghost var next := requestSequence + 1;
        ghost var isRemoved := SessionOf(p) in removed;
        var order := FailRequest(id, false);
        FailedLeaves(id, p, x, View(SessionOf(p)), isRemoved, order, next);
      }
      forall s ensures Abandoned(View(s)) == View(s) { NothingInFlight(s); }
    }

    // ---- Events ----

    /** Event `e` of session `s`, the only session it changed, has been handled and recorded. */
    twostate lemma Concluded(c: Handling)
      requires old(Valid()) && OthersSame(c.s)
      requires Numbered(pendingRequests, outcomes, requestSequence) && Linked(pendingRequests)
      requires (disposed ==> !connected) && (!connected ==> pendingRequests == map[] && state.attachedIds == {})
      requires Step(World(old(View(c.s)), c.s in old(removed)), c.e, World(View(c.s), c.s in removed))
      requires forall u | u != c.s :: u in removed <==> u in old(removed)
      requires forall u | u != c.s :: runs(u) == old(runs(u))
      requires runs(c.s) == Extend(old(runs(c.s)), c.e, World(View(c.s), c.s in removed))
      requires old(tokenSequence) <= tokenSequence && (c.e.AcquireCall? || c.e.CreateReply? ==> c.e.t.id < tokenSequence)
      requires !connected ==> !old(connected) && (c.e.AcquireCall? || c.e.ReleaseCall?) && !c.e.canSend
      ensures Valid() && Handled(c.s, c.e)
    {
      hide Linked, Numbered, Recorded, Step, TokensBelow, After, NoLive;
      if !connected {
        assert !old(View(c.s)).attached;
        assert old(NoLive(View(c.s)));
        NoneLiveAfter(World(old(View(c.s)), c.s in old(removed)), c.e, World(View(c.s), c.s in removed));
        forall u ensures NoLive(View(u)) { assert old(NoLive(View(u))); }
      }
      ghost var w, v := World(old(View(c.s)), c.s in old(removed)), World(View(c.s), c.s in removed);
      assert old(Recorded(runs(c.s), World(View(c.s), c.s in removed)));
      RunExtends(old(runs(c.s)), w, c.e, v);
      assert old(TokensBelow(View(c.s), tokenSequence));
      BelowMore(w.x, old(tokenSequence), tokenSequence);
      StepBelow(w, c.e, v, tokenSequence);
      StepIsAfter(w, c.e, v);
      forall u ensures Recorded(runs(u), World(View(u), u in removed)) && TokensBelow(View(u), tokenSequence) {
        if u != c.s {
          assert old(Recorded(runs(u), World(View(u), u in removed)) && TokensBelow(View(u), tokenSequence));
          BelowMore(View(u), old(tokenSequence), tokenSequence);
        }
      }
    }

    ghost method Record(s: SessionId, e: Event)
      modifies this`runs
      ensures runs(s) == Extend(old(runs(s)), e, World(View(s), s in removed))
      ensures forall u | u != s :: runs(u) == old(runs(u))
    {
      var before, w := runs, World(View(s), s in removed);
      runs := (u: SessionId) => if u == s then Extend(before(u), e, w) else before(u);
    }

    lemma ViewParts(s: SessionId)
      ensures View(s).count == (if s in leaseCounts then leaseCounts[s] else 0)
      ensures View(s).generation == Or(generations, s, 0)
      ensures (View(s).attached <==> s in state.attachedIds) && (View(s).detachment.Some? <==> s in detachments)
      ensures forall t | t in View(s).leases :: s in leases && t in leases[s] && leases[s][t] == View(s).leases[t]
    {
    }

    lemma AttachedInView(s: SessionId)
      ensures View(s).attached <==> s in state.attachedIds
    {
    }

    lemma ValidParts()
      requires Valid()
      ensures Numbered(pendingRequests, outcomes, requestSequence) && Linked(pendingRequests)
      ensures (disposed ==> !connected) && (!connected ==> pendingRequests == map[] && state.attachedIds == {})
    {
    }

    /** What a reachable session satisfies, at any time. */
    lemma Reachable(s: SessionId)
      requires Valid()
      ensures Inv(View(s), s in removed) && TokensBelow(View(s), tokenSequence)
      ensures IsRun(runs(s).worlds, runs(s).events) && |runs(s).worlds| == |runs(s).events| + 1
      ensures runs(s).worlds[|runs(s).events|] == World(View(s), s in removed)
    {
      hide Inv;
      assert Recorded(runs(s), World(View(s), s in removed));
      RecordedKeeps(runs(s), World(View(s), s in removed));
    }

    method AwaitDetachment(s: SessionId, t: Token)
      requires Linked(pendingRequests) && s in detachments
      modifies this`calls
      ensures Linked(pendingRequests) && OthersSame(s)
      ensures View(s) == Suspend(old(View(s)), t, OnDetachment(old(View(s)).detachment.value))
    {
      SuspendFor(s, t, OnDetachment(detachments[s]));
    }

    /** An acquire call that holds its token: it waits for the detach in flight, or goes on. */
    method EnterAcquire(s: SessionId, t: Token, encodes: bool)
      requires Numbered(pendingRequests, outcomes, requestSequence) && Linked(pendingRequests)
      requires t !in View(s).leases
      modifies this`pendingRequests, this`requestSequence, this`outcomes, this`attachments, this`reconciliations
      modifies this`calls, this`leases, this`generations
      modifies this`leaseCounts, this`exclusiveLeases, this`ledgers, state`snapshots
      ensures Numbered(pendingRequests, outcomes, requestSequence) && Linked(pendingRequests) && NothingSettled()
      ensures View(s) ==
        if old(View(s)).detachment.Some? then Suspend(old(View(s)), t, OnDetachment(old(View(s)).detachment.value))
        else Proceed(old(View(s)), t, CanSend(encodes), old(requestSequence) + 1)
      ensures !CanSend(encodes) ==> pendingRequests == old(pendingRequests)
      ensures OthersSame(s)
    {
      hide View, Linked, Numbered, NothingSettled, Suspend, Proceed;
      ViewParts(s);
      if s in detachments {
        Untouched();
        AwaitDetachment(s, t);
      } else {
        ProceedAcquire(s, t, encodes);
      }
    }

    method ReserveFor(s: SessionId, mode: Mode) returns (r: Option<Token>)
      requires Linked(pendingRequests)
      modifies this`leaseCounts, this`exclusiveLeases, this`tokenSequence, this`ledgers
      ensures Linked(pendingRequests)
      ensures r.None? ==> View(s) == old(View(s)) && Reserve(old(View(s)), Token(old(tokenSequence), mode)).None?
      ensures r.Some? ==>
        r.value == Token(old(tokenSequence), mode) && Some(View(s)) == Reserve(old(View(s)), r.value)
      ensures tokenSequence == old(tokenSequence) + 1
      ensures OthersSame(s)
    {
      hide View, Linked, Reserve;
      r := ReserveSessionLease(s, mode);
      ReservesOnly(old(View(s)), Token(old(tokenSequence), mode));
      LinkedFor(Change(s, pendingRequests));
    }

    method BeginAcquire(s: SessionId, mode: Mode, encodes: bool) returns (token: Option<Token>)
      requires Numbered(pendingRequests, outcomes, requestSequence) && Linked(pendingRequests)
      requires TokensBelow(View(s), tokenSequence)
      modifies this`pendingRequests, this`requestSequence, this`outcomes, this`attachments, this`reconciliations
      modifies this`calls, this`leases, this`generations, this`tokenSequence
      modifies this`leaseCounts, this`exclusiveLeases, this`ledgers, state`snapshots
      ensures Numbered(pendingRequests, outcomes, requestSequence) && Linked(pendingRequests) && NothingSettled()
      ensures var e := AcquireCall(Token(old(tokenSequence), mode), CanSend(encodes), old(requestSequence) + 1);
        && View(s) == After(old(View(s)), e)
        && token == if Acquire(old(View(s)), e.t, e.canSend, e.id).Some? then Some(e.t) else None
      ensures !CanSend(encodes) ==> pendingRequests == old(pendingRequests)
      ensures tokenSequence == old(tokenSequence) + 1
      ensures OthersSame(s)
    {
      hide View, Linked, Numbered, Proceed, Suspend, Reserve;
      ReservesOnly(View(s), Token(tokenSequence, mode));
      token := ReserveFor(s, mode);
      if token.Some? { EnterAcquire(s, token.value, encodes); }
    }

    method AcquireSession(s: SessionId, mode: Mode, encodes: bool) returns (r: Acquired)
      requires Valid()
      modifies this, state`snapshots
      ensures Valid() && OthersSame(s) && NothingSettled()
      ensures old(disposed) ==> r == Disposed && View(s) == old(View(s)) && runs == old(runs)
      ensures !old(disposed) ==>
        var e := AcquireCall(Token(old(tokenSequence), mode), old(CanSend(encodes)), old(requestSequence) + 1);
        && Handled(s, e)
        && r == if Acquire(old(View(s)), e.t, e.canSend, e.id).Some? then Begun(e.t) else Owned
    {
      hide View, Valid, Handled, Linked, Numbered, Acquire, Inv, IsRun, Step, After, TokensBelow;
      if disposed {
        return Disposed;
      }
      ValidParts();
      Reachable(s);
      ghost var e := AcquireCall(Token(tokenSequence, mode), CanSend(encodes), requestSequence + 1);
      var token := BeginAcquire(s, mode, encodes);
      if token.None? {
        r := Owned;
      } else {
        r := Begun(token.value);
      }
      AcquireIsStep(old(View(s)), s in removed, e);
      Record(s, e);
      Concluded(Handling(s, e));
    }

    // ---- Releasing ----

    /** Sends the detach that releases the lease of `t`. */
    method StartRelease(s: SessionId, t: Token, relinquish: bool, encodes: bool) returns (r: Option<RequestId>)
      requires Numbered(pendingRequests, outcomes, requestSequence) && Linked(pendingRequests)
      requires IsActive(View(s), t) && View(s).detachment.None? && s !in removed
      modifies this`pendingRequests, this`requestSequence, this`outcomes, this`detachments, this`leases
      ensures Numbered(pendingRequests, outcomes, requestSequence) && Linked(pendingRequests) && NothingSettled()
      ensures r == if CanSend(encodes) then Some(old(requestSequence) + 1) else None
      ensures View(s) ==
        if r.Some? then SetLease(old(View(s)), t, Releasing(r.value, relinquish)).(detachment := r) else old(View(s))
      ensures OthersSame(s)
      ensures !CanSend(encodes) ==> pendingRequests == old(pendingRequests)
    {
      hide View, Linked, Numbered, NothingSettled;
      var p := Pending(Detach, Detaching(s, t, relinquish));
      r := Request(p, encodes);
      if r.None? {
        LinkedFor(Change(s, pendingRequests));
      } else {
        SetDetachment(s, r.value);
        SetLeaseState(s, t, Releasing(r.value, relinquish));
        LinkedSent(Sending(s, r.value, p, old(View(s))));
      }
    }

    /** Releases the only lease there is. */
    method ReleaseLast(s: SessionId, t: Token, relinquish: bool, encodes: bool)
      requires Numbered(pendingRequests, outcomes, requestSequence) && Linked(pendingRequests)
      requires IsActive(View(s), t) && View(s).detachment.None? && s !in removed
      modifies this`pendingRequests, this`requestSequence, this`outcomes, this`detachments, this`leases
      modifies this`cleanupRequired, this`leaseCounts, this`exclusiveLeases, this`ledgers, this`stages
      ensures Numbered(pendingRequests, outcomes, requestSequence) && Linked(pendingRequests) && NothingSettled()
      ensures View(s) ==
        if CanSend(encodes)
        then SetLease(old(View(s)), t, Releasing(old(requestSequence) + 1, relinquish)).(
          detachment := Some(old(requestSequence) + 1))
        else ReleaseFailed(old(View(s)), t, relinquish)
      ensures !CanSend(encodes) ==> pendingRequests == old(pendingRequests)
      ensures OthersSame(s)
    {
      hide View, Linked, Numbered, SameInFlight, CanEnd, ReleaseFailed;
      EndsInFlight(View(s), t, relinquish, s in removed);
      var r := StartRelease(s, t, relinquish, encodes);
      if r.None? {
        label refused:
        FailRelease(s, t, relinquish);
        LinkedEnded@refused(Ending(s, t, View(s).leases[t].state));
      }
    }

    method EndStaleLease(s: SessionId, t: Token)
      requires Linked(pendingRequests) && CanEnd(View(s), t, s in removed, Invalidated)
      modifies this`leases
      ensures Linked(pendingRequests) && View(s) == SetLease(old(View(s)), t, Invalidated) && OthersSame(s)
    {
      hide View, Linked, CanEnd;
      CanEndFacts(View(s), t, s in removed, Invalidated);
      EndsInFlight(View(s), t, true, s in removed);
      SetLeaseState(s, t, Invalidated);
      LinkedEnded(Ending(s, t, Invalidated));
    }

    method ReleaseShared(s: SessionId, t: Token)
      requires Linked(pendingRequests) && t in View(s).leases && View(s).leases[t].state.Active?
      modifies this`leases, this`leaseCounts, this`exclusiveLeases, this`ledgers
      ensures Linked(pendingRequests) && OthersSame(s)
      ensures View(s) == SetLease(ReleaseToken(old(View(s)), t), t, Released)
    {
      hide View, Linked, CanEnd, SameInFlight;
      EndsInFlight(View(s), t, true, s in removed);
      ReleaseSessionLease(s, t);
      SetLeaseState(s, t, LeaseState.Released);
      LinkedEnded(Ending(s, t, LeaseState.Released));
    }

    method BeginRelease(s: SessionId, t: Token, relinquish: bool, encodes: bool)
      requires Numbered(pendingRequests, outcomes, requestSequence) && Linked(pendingRequests)
      requires (disposed ==> !connected) && (!connected ==> state.attachedIds == {})
      requires t in View(s).leases && Inv(View(s), s in removed)
      modifies this`pendingRequests, this`requestSequence, this`outcomes, this`detachments, this`leases
      modifies this`cleanupRequired, this`leaseCounts, this`exclusiveLeases, this`ledgers, this`stages
      ensures Numbered(pendingRequests, outcomes, requestSequence) && Linked(pendingRequests) && NothingSettled()
      ensures View(s) == Release(old(View(s)), t, relinquish, CanSend(encodes), old(requestSequence) + 1)
      ensures !CanSend(encodes) ==> pendingRequests == old(pendingRequests)
      ensures OthersSame(s)
    {
      hide View, Linked, Numbered, Inv, InvWith, Dead, SameInFlight, CanEnd;
      hide ReleaseToken, ReleaseFailed, SetLease, Release, IsActive;
      ViewParts(s);
      ReleasableFacts(View(s), s in removed, t);
      EndsInFlight(View(s), t, relinquish, s in removed);
      ReleaseCases(View(s), t, relinquish, CanSend(encodes), requestSequence + 1);
      var lease := leases[s][t];
      var count := if s in leaseCounts then leaseCounts[s] else 0;
      var current := Or(generations, s, 0);
      if (lease.state.Active? || lease.state.Releasing?) && lease.generation != current {
        EndStaleLease(s, t);
      } else if !lease.state.Active? || disposed || !connected || s !in state.attachedIds {
        // Released, invalidated or releasing already; or the call fails since the lease is not active.
      } else if count > 1 {
        ReleaseShared(s, t);
      } else {
        ReleaseLast(s, t, relinquish, encodes);
      }
    }

    /** `detach()` and `dispose()` of a lease. */
    method ReleaseLease(s: SessionId, t: Token, relinquish: bool, encodes: bool)
      requires Valid() && t in View(s).leases
      modifies this
      ensures Valid() && OthersSame(s) && NothingSettled()
      ensures var e := ReleaseCall(t, relinquish, old(CanSend(encodes)), old(requestSequence) + 1);
        Handled(s, e)
    {
      hide View, NothingSettled, Valid, Handled, OthersSame, Linked, Numbered, Inv, Release, IsRun;
      ValidParts();
      Reachable(s);
      ghost var e := ReleaseCall(t, relinquish, CanSend(encodes), requestSequence + 1);
      BeginRelease(s, t, relinquish, encodes);
      Record(s, e);
      Concluded(Handling(s, e));
    }

    // ---- Replies ----

    /** A snapshot of session `s` has arrived. */
    method NoteSnapshot(s: SessionId, p: Snapshot, ghost awaited: map<RequestId, Pending>)
      requires Linked(awaited)
      modifies state
      ensures View(s) == old(View(s)).(attached := s in state.attachedIds)
      ensures s in state.attachedIds ==> s in old(state.attachedIds) || p.attached
      ensures OthersSame(s) && Linked(awaited)
    {
      hide Linked;
      ghost var known := state.Of(s);
      state.ApplySessionSnapshot(s, p, false);
      assert state.Of(s) == Applied(known, p, false);
      assert forall u | u != s :: state.Of(u) == old(state.Of(u)) && (u in state.attachedIds <==> state.Of(u).attached);
      assert old(View(s)).attached == known.attached;
      LinkedFor(Change(s, awaited));
    }

    method TakeAttachReply(id: RequestId, snapshot: Snapshot) returns (order: seq<Token>)
      requires Numbered(pendingRequests, outcomes, requestSequence) && Linked(pendingRequests)
      requires id in pendingRequests && pendingRequests[id].next.Attaching?
      requires var s := SessionOf(pendingRequests[id]); forall t | t in View(s).acquires :: t !in View(s).leases
      modifies this`pendingRequests, this`outcomes, this`attachments, this`calls, this`leases, this`generations
      modifies this`leaseCounts, this`exclusiveLeases, this`ledgers, this`stages, state
      ensures Numbered(pendingRequests, outcomes, requestSequence) && Linked(pendingRequests) && OnlySettled(id)
      ensures outcomes == old(outcomes)[id := Resolved(Attach)]
      ensures var s := old(SessionOf(pendingRequests[id]));
        && OthersSame(s)
        && old(View(s)).attachment == Some(id) && Enumerates(order, old(View(s)), OnAttachment(id))
        && View(s) == AttachSettled(old(View(s)), id, true, s in state.attachedIds, order)
    {
      hide View, Linked, Numbered, Enumerates, AttachSettled;
      ghost var awaited := pendingRequests;
      InFlightNow(id, awaited);
      var p := TakePendingRequest(id, Resolved(Attach));
      var s := p.next.s;
      NoteSnapshot(s, snapshot, awaited);
      order := SettleAttach(s, id, p.next.previous, true, awaited);
      RepliesAlike(old(View(s)), s in state.attachedIds, id, order);
    }

    method ReplyAttach(id: RequestId, snapshot: Snapshot) returns (order: seq<Token>)
      requires Valid() && connected && id in pendingRequests && pendingRequests[id].next.Attaching?
      requires pendingRequests[id].next.s !in removed
      modifies this, state
      ensures Valid() && OthersSame(old(pendingRequests)[id].next.s) && OnlySettled(id)
      ensures outcomes == old(outcomes)[id := Resolved(Attach)]
      ensures var s := old(pendingRequests)[id].next.s;
        var e := AttachReply(id, true, s in state.attachedIds, order);
        Handled(s, e)
    {
      hide View, OnlySettled, Valid, Handled, OthersSame, Linked, Numbered, Inv, Enumerates, AttachSettled, IsRun;
      ValidParts();
      var s := pendingRequests[id].next.s;
      Reachable(s);
      ApartWhenReachable(View(s), s in removed);
      order := TakeAttachReply(id, snapshot);
      ghost var e := AttachReply(id, true, s in state.attachedIds, order);
      Record(s, e);
      Concluded(Handling(s, e));
    }

    /** A detach reply of session `s` has arrived. */
    method NoteDetached(s: SessionId, ghost awaited: map<RequestId, Pending>)
      requires Linked(awaited)
      modifies state
      ensures View(s) == old(View(s)).(attached := false)
      ensures OthersSame(s) && Linked(awaited) && s !in state.attachedIds
    {
      hide Linked;
      state.ApplyDetached(s);
      assert forall u | u != s :: state.Of(u) == old(state.Of(u)) && (u in state.attachedIds <==> state.Of(u).attached);
      LinkedFor(Change(s, awaited));
    }

    method TakeCleanupReply(id: RequestId, encodes: bool) returns (order: seq<Token>)
      requires Numbered(pendingRequests, outcomes, requestSequence) && Linked(pendingRequests)
      requires id in pendingRequests && pendingRequests[id].next.Cleaning?
      modifies this`pendingRequests, this`requestSequence, this`outcomes, this`attachments, this`reconciliations
      modifies this`calls, this`cleanupRequired
      modifies this`leaseCounts, this`exclusiveLeases, this`ledgers, this`stages, state
      ensures Numbered(pendingRequests, outcomes, requestSequence) && Linked(pendingRequests) && OnlySettled(id)
      ensures id in outcomes && outcomes[id] == Resolved(Detach)
      ensures var s := old(SessionOf(pendingRequests[id]));
        && OthersSame(s)
        && old(View(s)).reconciliation == Some(id) && Enumerates(order, old(View(s)), OnReconciliation(id))
        && View(s) == ReconcileSettled(old(View(s)), id, true, order, CanSend(encodes), old(requestSequence) + 1)
    {
      hide View, Linked, Numbered, Enumerates, ReconcileSettled;
      ghost var awaited := pendingRequests;
      InFlightNow(id, awaited);
      var p := TakePendingRequest(id, Resolved(Detach));
      var s := p.next.s;
      NoteDetached(s, awaited);
      order := SettleCleanup(s, id, true, encodes, awaited);
      SettledNotPending(pendingRequests, outcomes, requestSequence, id);
      CleanupRepliesAlike(old(View(s)), id, order, CanSend(encodes), old(requestSequence) + 1);
    }

    method ReplyCleanup(id: RequestId, encodes: bool) returns (order: seq<Token>)
      requires Valid() && connected && id in pendingRequests && pendingRequests[id].next.Cleaning?
      modifies this, state
      ensures Valid() && OthersSame(old(pendingRequests)[id].next.s) && OnlySettled(id)
      ensures id in outcomes && outcomes[id] == Resolved(Detach)
      ensures var s := old(pendingRequests)[id].next.s;
        var e := ReconcileReply(id, true, order, old(CanSend(encodes)), old(requestSequence) + 1);
        Handled(s, e)
    {
      hide View, OnlySettled, Valid, Handled, OthersSame, Linked, Numbered, Enumerates, ReconcileSettled, Step, After;
      ValidParts();
      var s := pendingRequests[id].next.s;
      ghost var canSend, sent := CanSend(encodes), requestSequence + 1;
      order := TakeCleanupReply(id, encodes);
      ghost var e := ReconcileReply(id, true, order, canSend, sent);
      ReconcileReplyIsStep(old(View(s)), View(s), s in removed, e);
      Record(s, e);
      Concluded(Handling(s, e));
    }

    method TakeReleaseReply(id: RequestId, encodes: bool) returns (order: seq<Token>)
      requires Numbered(pendingRequests, outcomes, requestSequence) && Linked(pendingRequests)
      requires id in pendingRequests && pendingRequests[id].next.Detaching?
      requires var s := SessionOf(pendingRequests[id]); forall t | t in View(s).acquires :: t !in View(s).leases
      modifies this`pendingRequests, this`requestSequence, this`outcomes, this`attachments, this`reconciliations
      modifies this`detachments, this`calls, this`leases, this`generations, this`cleanupRequired
      modifies this`leaseCounts, this`exclusiveLeases, this`ledgers, this`stages, state
      ensures Numbered(pendingRequests, outcomes, requestSequence) && Linked(pendingRequests) && OnlySettled(id)
      ensures id in outcomes && outcomes[id] == Resolved(Detach)
      ensures var s, p := old(SessionOf(pendingRequests[id])), old(pendingRequests)[id];
        && OthersSame(s)
        && p.next.t in old(View(s)).leases && Expects(id, p, old(View(s)), s in old(removed))
        && Enumerates(order, old(View(s)), OnDetachment(id))
        && View(s) == DetachSettled(
          old(View(s)), id, p.next.t, p.next.relinquish, true, order, CanSend(encodes), old(requestSequence) + 1)
    {
      hide View, Linked, Numbered, Enumerates, DetachSettled, OnlyRejected;
      ghost var awaited := pendingRequests;
      InFlightNow(id, awaited);
      ghost var x := View(SessionOf(pendingRequests[id]));
      var p := TakePendingRequest(id, Resolved(Detach));
      var s := p.next.s;
      NoteDetached(s, awaited);
      assert View(s) == x.(attached := false);
      order := SettleRelease(s, id, p.next.t, p.next.relinquish, true, encodes, awaited);
      SettledNotPending(pendingRequests, outcomes, requestSequence, id);
      ReleaseRepliesAlike(
        x, id, p.next.t, p.next.relinquish, order, CanSend(encodes), old(requestSequence) + 1);
    }

    method ReplyRelease(id: RequestId, encodes: bool) returns (order: seq<Token>)
      requires Valid() && connected && id in pendingRequests && pendingRequests[id].next.Detaching?
      modifies this, state
      ensures Valid() && OthersSame(old(pendingRequests)[id].next.s) && OnlySettled(id)
      ensures id in outcomes && outcomes[id] == Resolved(Detach)
      ensures var s, n := old(pendingRequests)[id].next.s, old(pendingRequests)[id].next;
        var e := DetachReply(id, n.t, n.relinquish, true, order, old(CanSend(encodes)), old(requestSequence) + 1);
        Handled(s, e)
    {
      hide View, OnlySettled, Valid, Handled, OthersSame, Linked, Numbered, Inv, Enumerates, DetachSettled;
      hide IsRun, Step, After, Expects;
      ValidParts();
      var n := pendingRequests[id].next;
      var s := n.s;
      Reachable(s);
      ApartWhenReachable(View(s), s in removed);
      ghost var canSend, sent := CanSend(encodes), requestSequence + 1;
      order := TakeReleaseReply(id, encodes);
      ghost var e := DetachReply(id, n.t, n.relinquish, true, order, canSend, sent);
      DetachReplyIsStep(old(View(s)), View(s), s in removed, old(pendingRequests)[id], e);
      Record(s, e);
      Concluded(Handling(s, e));
    }

    method TakeCreateReply(id: RequestId, s: SessionId, snapshot: Snapshot) returns (token: Option<Token>)
      requires Numbered(pendingRequests, outcomes, requestSequence) && Linked(pendingRequests)
      requires id in pendingRequests && pendingRequests[id].next.Creation?
      requires TokensBelow(View(s), tokenSequence)
      modifies this`pendingRequests, this`outcomes, this`leaseCounts, this`exclusiveLeases, this`tokenSequence
      modifies this`ledgers, this`generations, this`leases, state
      ensures Numbered(pendingRequests, outcomes, requestSequence) && Linked(pendingRequests) && OnlySettled(id)
      ensures id in outcomes && outcomes[id] == Resolved(Create)
      ensures tokenSequence == old(tokenSequence) + 1
      ensures token == if Reserve(old(View(s)), Token(old(tokenSequence), Exclusive)).Some?
                       then Some(Token(old(tokenSequence), Exclusive)) else None
      ensures View(s) == Created(old(View(s)), Token(old(tokenSequence), Exclusive), s in state.attachedIds)
      ensures OthersSame(s)
    {
      hide View, Linked, Numbered, Reserve, AddLease;
      ghost var awaited := pendingRequests;
      var p := TakePendingRequest(id, Resolved(Create));
      LinkedAnswered(Answering(s, id, awaited, Released));
      NoteSnapshot(s, snapshot, pendingRequests);
      ReservesAlike(old(View(s)), s in state.attachedIds, Token(tokenSequence, Exclusive));
      ReservesOnly(View(s), Token(tokenSequence, Exclusive));
      label noted:
      token := ReserveSessionLease(s, Exclusive);
      if token.Some? {
        CreateSessionLease(s, token.value);
        AddsOnly(old@noted(View(s)), token.value);
      }
      LinkedFor@noted(Change(s, pendingRequests));
    }

    /** The result of a `create`: an exclusive lease of the new session, unless someone holds it already. */
    method ReplyCreate(id: RequestId, s: SessionId, snapshot: Snapshot) returns (r: Acquired)
      requires Valid() && connected && id in pendingRequests && pendingRequests[id].next.Creation?
      requires s !in removed && View(s).stage.Clean?
      modifies this, state
      ensures Valid() && OthersSame(s) && OnlySettled(id)
      ensures id in outcomes && outcomes[id] == Resolved(Create)
      ensures var t := Token(old(tokenSequence), Exclusive);
        var e := CreateReply(t, s in state.attachedIds);
        && Handled(s, e)
        && r == if Reserve(old(View(s)), t).Some? then Begun(t) else Owned
    {
      hide View, OnlySettled, Valid, Handled, OthersSame, Linked, Numbered, Inv, Reserve, Created, IsRun;
      ValidParts();
      Reachable(s);
      var token := TakeCreateReply(id, s, snapshot);
      r := if token.Some? then Begun(token.value) else Owned;
      ghost var e := CreateReply(Token(old(tokenSequence), Exclusive), s in state.attachedIds);
      Record(s, e);
      Concluded(Handling(s, e));
    }

    /** The result of a `list`, or of a command of a lease, whose reply carries a snapshot of the session. */
    method ReplyCaller(id: RequestId, s: SessionId, snapshot: Snapshot)
      requires Valid() && connected && id in pendingRequests && pendingRequests[id].next.Caller?
      requires s in removed ==> !snapshot.attached
      modifies this, state
      ensures Valid() && OthersSame(s) && OnlySettled(id)
      ensures id in outcomes && outcomes[id] == Resolved(old(pendingRequests)[id].name)
      ensures old(pendingRequests)[id].name == List ==> View(s) == old(View(s)) && runs == old(runs)
      ensures old(pendingRequests)[id].name == Other ==>
        var e := SnapshotReport(s in state.attachedIds);
        Handled(s, e)
    {
      AttachedInView(s);
      hide View, OnlySettled, Valid, Handled, Linked, Numbered, Inv, IsRun;
      ValidParts();
      Reachable(s);
      RemovedIsDetached(View(s), s in removed);
      ghost var awaited := pendingRequests;
      var p := TakePendingRequest(id, Resolved(pendingRequests[id].name));
      LinkedAnswered(Answering(s, id, awaited, Released));
      if p.name != List {
        ReportSnapshot(s, snapshot);
        Concluded(Handling(s, SnapshotReport(s in state.attachedIds)));
      } else {
        Unchanged();
      }
    }

    method ReportSnapshot(s: SessionId, snapshot: Snapshot)
      requires Linked(pendingRequests)
      modifies this`runs, this`stages, state
      ensures View(s) == LeaseProtocol.Snapshot(old(View(s)), s in state.attachedIds)
      ensures s in state.attachedIds ==> s in old(state.attachedIds) || snapshot.attached
      ensures Linked(pendingRequests) && OthersSame(s)
      ensures runs(s) == Extend(old(runs(s)), SnapshotReport(s in state.attachedIds), World(View(s), s in removed))
      ensures forall u | u != s :: runs(u) == old(runs(u))
    {
      hide Linked;
      NoteSnapshot(s, snapshot, pendingRequests);
      if s in state.attachedIds && Or(stages, s, Clean).NeedsAttach? {
        label noted:
        stages := stages[s := Clean];
        LinkedFor@noted(Change(s, pendingRequests));
      }
      Record(s, SnapshotReport(s in state.attachedIds));
    }

    lemma AllApart()
      requires Valid()
      ensures forall s, t | t in View(s).acquires :: t !in View(s).leases
    {
      hide View, Valid, Inv;
      forall u ensures forall t | t in View(u).acquires :: t !in View(u).leases {
        Reachable(u);
        ApartWhenReachable(View(u), u in removed);
      }
    }

    /** Only a caller of the client waits for the failed request. */
    method FailCaller(id: RequestId, encodes: bool) returns (order: seq<Token>)
      requires Valid() && connected && id in pendingRequests
      requires pendingRequests[id].next.Caller? || pendingRequests[id].next.Creation?
      modifies this, state`snapshots
      ensures Valid() && OnlySettled(id)
      ensures id in outcomes && outcomes[id] == Rejected
      ensures (forall s :: View(s) == old(View(s))) && runs == old(runs)
    {
      hide View, Valid, OnlySettled, Linked, Numbered, Inv, Enumerates, Failed, IsRun, Step, After;
      ValidParts();
      var p := pendingRequests[id];
      var s := SessionOf(p);
      AllApart();
      ghost var x, next, canSend := View(s), requestSequence + 1, CanSend(encodes);
      order := FailRequest(id, encodes);
      NothingFailed(id, p.next, x, View(s), order, canSend, next);
      Unchanged();
    }

    /** A request fails that a lease or an acquire call of session `s` waits for. */
    method FailHeld(s: SessionId, id: RequestId, encodes: bool) returns (order: seq<Token>)
      requires Valid() && connected && id in pendingRequests && SessionOf(pendingRequests[id]) == s
      requires !pendingRequests[id].next.Caller? && !pendingRequests[id].next.Creation?
      modifies this, state`snapshots
      ensures Valid() && OnlySettled(id) && OthersSame(s)
      ensures id in outcomes && outcomes[id] == Rejected
      ensures Handled(s, FailureEvent(id, old(pendingRequests)[id].next, old(View(s)).attached, order,
                                      old(CanSend(encodes)), old(requestSequence) + 1))
    {
      hide View, Valid, Handled, OnlySettled, Linked, Numbered, Inv, Enumerates, Failed, IsRun, Step, After;
      ValidParts();
      var p := pendingRequests[id];
      AllApart();
      InFlightNow(id, pendingRequests);
      ghost var x, next, canSend := View(s), requestSequence + 1, CanSend(encodes);
      order := FailRequest(id, encodes);
      ghost var e := FailureEvent(id, p.next, x.attached, order, canSend, next);
      FailureIsStep(id, p, x, View(s), s in removed, order, canSend, next);
      Record(s, e);
      Concluded(Handling(s, e));
    }

    /** An error reply. */
    method ReplyFailure(id: RequestId, encodes: bool) returns (order: seq<Token>)
      requires Valid() && connected && id in pendingRequests
      modifies this, state`snapshots
      ensures Valid() && OnlySettled(id)
      ensures id in outcomes && outcomes[id] == Rejected
      ensures var s, n := old(SessionOf(pendingRequests[id])), old(pendingRequests)[id].next;
        && OthersSame(s)
        && if n.Caller? || n.Creation? then View(s) == old(View(s)) && runs == old(runs)
           else
             var e := FailureEvent(id, n, old(View(s)).attached, order, old(CanSend(encodes)), old(requestSequence) + 1);
             Handled(s, e)
    {
      hide View, Valid, Handled, OnlySettled, Linked, Numbered, Inv, FailureEvent;
      var p := pendingRequests[id];
      if p.next.Caller? || p.next.Creation? {
        order := FailCaller(id, encodes);
      } else {
        order := FailHeld(SessionOf(p), id, encodes);
      }
    }

    twostate lemma Unchanged()
      requires old(Valid()) && forall s :: View(s) == old(View(s))
      requires Numbered(pendingRequests, outcomes, requestSequence) && Linked(pendingRequests)
      requires (disposed ==> !connected) && (!connected ==> pendingRequests == map[] && state.attachedIds == {})
      requires removed == old(removed) && runs == old(runs) && tokenSequence == old(tokenSequence)
      requires !connected ==> !old(connected)
      ensures Valid()
    {
      hide Linked, Numbered, Recorded, TokensBelow, NoLive;
      if !connected {
        forall s ensures NoLive(View(s)) { assert old(NoLive(View(s))); }
      }
      forall s ensures Recorded(runs(s), World(View(s), s in removed)) {
        assert old(Recorded(runs(s), World(View(s), s in removed)));
      }
      forall s ensures TokensBelow(View(s), tokenSequence) {
        assert old(TokensBelow(View(s), tokenSequence));
      }
    }

    // ---- Events from the server ----

    method HandleSessionSnapshot(s: SessionId, snapshot: Snapshot)
      requires Valid() && connected && (s in removed ==> !snapshot.attached)
      modifies this`runs, this`stages, state
      ensures Valid() && OthersSame(s) && pendingRequests == old(pendingRequests) && outcomes == old(outcomes)
      ensures var e := SnapshotReport(s in state.attachedIds);
        Handled(s, e)
    {
      AttachedInView(s);
      hide View, Valid, Handled, OthersSame, Linked, Numbered, Inv, IsRun;
      ValidParts();
      Reachable(s);
      RemovedIsDetached(View(s), s in removed);
      ReportSnapshot(s, snapshot);
      Concluded(Handling(s, SnapshotReport(s in state.attachedIds)));
    }

    twostate lemma LinkedRemoved(s: SessionId)
      requires old(Linked(pendingRequests)) && OthersSame(s)
      requires Dated(old(View(s))) && View(s) == Removed(old(View(s)))
      requires pendingRequests == old(pendingRequests) && removed == old(removed) + {s}
      ensures Linked(pendingRequests)
    {
      hide Awaited, Expects, Removed;
      forall u ensures Awaited(u, View(u), pendingRequests) {
        assert old(Awaited(u, View(u), pendingRequests));
        if u == s { AwaitedRemoved(s, old(View(s)), pendingRequests); }
      }
      forall i | i in pendingRequests
        ensures Expects(i, pendingRequests[i], View(SessionOf(pendingRequests[i])), SessionOf(pendingRequests[i]) in removed)
      {
        var q := pendingRequests[i];
        assert old(Expects(i, q, View(SessionOf(q)), SessionOf(q) in removed));
        if SessionOf(q) == s { ExpectsRemoved(old(View(s)), i, q, s in old(removed)); }
      }
    }

    method RemoveSession(s: SessionId)
      modifies this`leaseCounts, this`exclusiveLeases, this`cleanupRequired, this`generations, this`ledgers, this`stages
      modifies state
      ensures View(s) == Removed(old(View(s))) && OthersSame(s)
      ensures s !in state.attachedIds && state.attachedIds <= old(state.attachedIds)
    {
      InvalidateSessionLeases(s);
      label invalidated:
      hide Invalidate;
      state.ApplyRemoved(s);
      assert forall u | u != s :: state.Of(u) == old(state.Of(u)) && (u in state.attachedIds <==> state.Of(u).attached);
      assert !state.Of(s).attached;
      assert View(s) == old@invalidated(View(s)).(attached := false);
    }

    method HandleSessionRemoved(s: SessionId)
      requires Valid() && connected
      modifies this, state
      ensures Valid() && OthersSame(s) && removed == old(removed) + {s}
      ensures Handled(s, Removal)
      ensures pendingRequests == old(pendingRequests) && outcomes == old(outcomes)
    {
      hide View, Valid, Handled, OthersSame, Linked, Numbered, InvWith, Dead, Dated, IsRun, Removed;
      ValidParts();
      Reachable(s);
      RemoveSession(s);
      removed := removed + {s};
      LinkedRemoved(s);
      Record(s, Removal);
      Concluded(Handling(s, Removal));
    }

    // ---- Connecting and closing ----

    /** Nobody holds a session without a connection. */
    lemma NobodyHolds(s: SessionId)
      requires Valid() && !connected
      ensures Holders(View(s)) == {}
    {
      assert Awaited(s, View(s), map[]);
      assert NoLive(View(s));
      Reachable(s);
      hide Linked, Numbered, Recorded;
      NoHolders(View(s), s in removed);
    }

    method Connect() returns (ok: bool)
      requires Valid()
      modifies this`connected, state
      ensures Valid() && ok == (!disposed && !old(connected)) && connected == (old(connected) || ok)
      ensures forall s :: View(s) == old(View(s))
      ensures ok ==> forall s :: Holders(View(s)) == {} && !View(s).attached
    {
      hide Linked, Numbered, Recorded, Holders;
      ok := !disposed && !connected;
      if ok {
        forall s ensures Holders(View(s)) == {} { NobodyHolds(s); }
        state.Reset();
        connected := true;
        assert forall s :: View(s) == old(View(s));
        LinkedKeptAll();
        Unchanged();
      }
    }

    /** Everything in flight fails, every lease ends. */
    method Disconnect()
      requires Valid()
      modifies this, state
      ensures Valid() && !connected && disposed == old(disposed) && pendingRequests == map[] && OnlyRejected()
      ensures forall i | i in old(pendingRequests) :: i in outcomes && outcomes[i] == Rejected
      ensures old(connected) ==> forall s ::
        && View(s) == Disconnected(old(View(s)))
        && runs(s) == Extend(old(runs(s)), Disconnection, World(View(s), s in removed))
      ensures !old(connected) ==> forall s :: View(s) == old(View(s)) && runs(s) == old(runs(s))
    {
      hide View, Linked, Numbered, Inv, Recorded, Disconnected, TokensBelow, NoLive;
      if !connected {
        return;
      }
      forall s ensures Inv(View(s), s in removed) && NoLive(Disconnected(View(s))) {
        Reachable(s);
        NoneLiveDisconnected(View(s), s in removed);
      }
      FailEverything();
      RecordClose();
      AllClosed();
    }

    ghost method RecordClose()
      modifies this`runs
      ensures forall s :: runs(s) == Extend(old(runs(s)), Disconnection, ClosedWorld(old(runs(s))))
    {
      var before := runs;
      runs := (s: SessionId) => Extend(before(s), Disconnection, ClosedWorld(before(s)));
    }

    method FailEverything()
      requires Numbered(pendingRequests, outcomes, requestSequence) && Linked(pendingRequests)
      requires forall s :: Inv(View(s), s in removed)
      modifies this`pendingRequests, this`requestSequence, this`outcomes, this`attachments, this`reconciliations
      modifies this`detachments, this`calls, this`leases, this`generations, this`cleanupRequired, this`connected
      modifies this`leaseCounts, this`exclusiveLeases, this`ledgers, this`stages, state
      ensures Numbered(pendingRequests, outcomes, requestSequence) && Linked(pendingRequests) && OnlyRejected()
      ensures !connected && pendingRequests == map[] && state.attachedIds == {}
      ensures forall i | i in old(pendingRequests) :: i in outcomes && outcomes[i] == Rejected
      ensures forall s :: View(s) == Disconnected(old(View(s)))
    {
      hide View, Linked, Numbered, Inv, Shut, Closed, Abandoned;
      connected := false;
      CloseSessions();
      RejectPendingRequests();
    }

    twostate lemma AllClosed()
      requires old(AllRecorded() && AllBelow()) && forall s :: View(s) == Disconnected(old(View(s)))
      requires forall s :: runs(s) == Extend(old(runs(s)), Disconnection, ClosedWorld(old(runs(s))))
      requires removed == old(removed) && tokenSequence == old(tokenSequence)
      ensures AllRecorded() && AllBelow()
      ensures forall s :: runs(s) == Extend(old(runs(s)), Disconnection, World(View(s), s in removed))
    {
      hide Recorded, TokensBelow, Disconnected;
      forall s
        ensures Recorded(runs(s), World(View(s), s in removed)) && TokensBelow(View(s), tokenSequence)
        ensures runs(s) == Extend(old(runs(s)), Disconnection, World(View(s), s in removed))
      {
        var w, v := World(old(View(s)), s in old(removed)), World(View(s), s in removed);
        assert old(Recorded(runs(s), World(View(s), s in removed)));
        LastWorld(old(runs(s)), w);
        assert Step(w, Disconnection, v);
        RunExtends(old(runs(s)), w, Disconnection, v);
        assert old(TokensBelow(View(s), tokenSequence));
        StepBelow(w, Disconnection, v, tokenSequence);
      }
    }

    method CloseSessions()
      requires Linked(pendingRequests)
      requires forall s :: Inv(View(s), s in removed)
      modifies this`leaseCounts, this`exclusiveLeases, this`cleanupRequired, this`generations, this`ledgers, this`stages
      modifies state`attachedIds
      ensures Linked(pendingRequests) && state.attachedIds == {}
      ensures forall s :: View(s) == Closed(old(View(s))) && Shut(View(s))
    {
      hide Linked, Inv, Shut;
      state.ClearAttachments();
      assert forall s :: View(s) == old(View(s)).(attached := false);
      LinkedKeptAll();
      label cleared:
      InvalidateAllSessionLeases();
      forall s ensures View(s) == Closed(old(View(s))) && Shut(View(s)) {
        assert View(s) == Closed(old@cleared(View(s)));
        ClosedIsShut(old(View(s)), s in removed);
      }
    }

    /** Nothing can be acquired or sent any more. */
    method Dispose()
      requires Valid()
      modifies this, state
      ensures Valid() && disposed && !connected && pendingRequests == map[] && OnlyRejected()
      ensures old(connected) ==> forall s :: View(s) == Disconnected(old(View(s)))
      ensures !old(connected) ==> forall s :: View(s) == old(View(s))
    {
      Disconnect();
      hide Linked, Numbered, Recorded;
      label closed:
      disposed := true;
      Unchanged@closed();
    }

    // ---- Requests of callers ----

    /** `createSession`, or a command that concerns no lease. */
    method SendRequest(name: Name, encodes: bool) returns (r: Option<RequestId>)
      requires Valid() && (name == Create || name == List)
      modifies this`pendingRequests, this`requestSequence, this`outcomes
      ensures Valid() && NothingSettled()
      ensures r == if CanSend(encodes) then Some(old(requestSequence) + 1) else None
      ensures forall s :: View(s) == old(View(s))
    {
      hide Valid, Linked, Numbered;
      ValidParts();
      var p := Pending(name, if name == Create then Creation else Caller);
      r := Request(p, encodes);
      if r.Some? { LinkedAdded(Adding(r.value, p)); }
      Unchanged();
    }

    twostate lemma LinkedAdded(c: Adding)
      requires old(Linked(pendingRequests)) && forall s :: View(s) == old(View(s))
      requires c.id !in old(pendingRequests) && pendingRequests == old(pendingRequests)[c.id := c.p] && removed == old(removed)
      requires c.p.next.Caller? || c.p.next.Creation?
      requires Expects(c.id, c.p, View(0), 0 in removed)
      ensures Linked(pendingRequests)
    {
      hide Awaited, Expects;
      forall s ensures Awaited(s, View(s), pendingRequests) {
        assert old(Awaited(s, View(s), pendingRequests));
        AwaitedMore(s, View(s), old(pendingRequests), c.id, c.p);
      }
    }

    /** A command of the lease of `t` is sent only while the lease is active. */
    method LeaseRequest(s: SessionId, t: Token, encodes: bool) returns (r: Option<RequestId>)
      requires Valid() && t in View(s).leases
      modifies this`pendingRequests, this`requestSequence, this`outcomes
      ensures Valid() && NothingSettled()
      ensures r == if CanSend(encodes) && IsActive(View(s), t) then Some(old(requestSequence) + 1) else None
      ensures forall u :: View(u) == old(View(u))
    {
      hide Valid, Linked, Numbered;
      ValidParts();
      if disposed || !connected || !LeaseIsActive(s, t) {
        return None;
      }
      hide IsActive;
      var p := Pending(Other, Caller);
      r := Request(p, encodes);
      if r.Some? { LinkedAdded(Adding(r.value, p)); }
      Unchanged();
    }

    // ---- Responses ----

    /** What a server may answer: a removed session is never attached again, and a created one is new. */
    ghost predicate Plausible(id: RequestId, r: Result)
      requires id in pendingRequests
      reads this, state
    {
      match pendingRequests[id].next
      case Attaching(s, _) => s !in removed && r.session == s
      case Creation => r.session !in removed && View(r.session).stage.Clean?
      case Caller => r.session in removed ==> !r.snapshot.attached
      case Cleaning(s) => r.session == s
      case Detaching(s, _, _) => r.session == s
    }

    /** A request settles when its response arrives, resolved exactly when the response carries its command's result.
        A response to nothing, or with another command's result, closes the connection. */
    method HandleResponse(id: RequestId, reply: Option<Result>, encodes: bool)
      requires Valid() && connected
      requires id in pendingRequests && reply.Some? && reply.value.name == pendingRequests[id].name ==>
                 Plausible(id, reply.value)
      modifies this, state
      ensures Valid() && OutcomesKept()
      ensures forall i | i in outcomes && i !in old(outcomes) && i != id :: outcomes[i] == Rejected
      ensures id in old(pendingRequests) && (reply.None? || reply.value.name == old(pendingRequests)[id].name) ==>
        OnlySettled(id)
      ensures id in old(pendingRequests) ==>
        var name := old(pendingRequests)[id].name;
        && id in outcomes
        && outcomes[id] == if reply.Some? && reply.value.name == name then Resolved(name) else Rejected
      ensures id !in old(pendingRequests) || (reply.Some? && reply.value.name != old(pendingRequests)[id].name) ==>
        && !connected && pendingRequests == map[] && (forall s :: View(s) == Disconnected(old(View(s))))
    {
      hide View, Valid, Handled, OthersSame, Disconnected;
      if id !in pendingRequests || (reply.Some? && reply.value.name != pendingRequests[id].name) {
        // The request, if there is one, is rejected like all the others.
        Disconnect();
      } else if reply.None? {
        var order := ReplyFailure(id, encodes);
      } else {
        NamesMatch(id);
        var r := reply.value;
        match pendingRequests[id].next {
          case Attaching(_, _) => var order := ReplyAttach(id, r.snapshot);
          case Cleaning(_) => var order := ReplyCleanup(id, encodes);
          case Detaching(_, _, _) => var order := ReplyRelease(id, encodes);
          case Creation => var lease := ReplyCreate(id, r.session, r.snapshot);
          case Caller => ReplyCaller(id, r.session, r.snapshot);
        }
      }
    }

    lemma NamesMatch(id: RequestId)
      requires Valid() && id in pendingRequests
      ensures match pendingRequests[id].next
              case Attaching(_, _) => pendingRequests[id].name == Attach
              case Cleaning(_) => pendingRequests[id].name == Detach
              case Detaching(_, _, _) => pendingRequests[id].name == Detach
              case Creation => pendingRequests[id].name == Create
              case Caller => pendingRequests[id].name == List || pendingRequests[id].name == Other
    {
      hide Numbered, AllRecorded, AllBelow, Awaited, View;
      assert Expects(id, pendingRequests[id], View(SessionOf(pendingRequests[id])), SessionOf(pendingRequests[id]) in removed);
    }

    // ---- What a client guarantees at any time ----

    /** For a session that was not removed, the lease count is the number of suspended calls and live leases;
        the registered exclusive token is the exclusive holder, and then the only one. */
    lemma CountsAreHolders(s: SessionId)
      requires Valid() && s !in removed
      ensures (if s in leaseCounts then leaseCounts[s] else 0) == |Holders(View(s))|
      ensures forall t :: s in exclusiveLeases && exclusiveLeases[s] == t <==> t in Holders(View(s)) && t.mode.Exclusive?
      ensures s in exclusiveLeases ==> Holders(View(s)) == {exclusiveLeases[s]}
    {
      hide Valid, IsRun, Inv, Holders;
      Reachable(s);
      CountIsHolders(runs(s).worlds, runs(s).events, |runs(s).events|);
      assert View(s).exclusive == At(exclusiveLeases, s);
      if s in exclusiveLeases {
        assert View(s).exclusive == Some(exclusiveLeases[s]);
        assert forall t | t in Holders(View(s)) :: t == exclusiveLeases[s];
      }
    }

    /** An active lease means a connected client, an attached session that was not removed, and no detach in flight. */
    lemma ActiveLease(s: SessionId, t: Token)
      requires Valid() && IsActive(View(s), t)
      ensures connected && !disposed && s in state.attachedIds && s !in removed
      ensures s !in detachments && s !in cleanupRequired && s !in reconciliations
      ensures forall u | IsActive(View(s), u) && (t.mode.Exclusive? || u.mode.Exclusive?) :: u == t
    {
      hide IsRun, Inv, InvWith, Holders;
      Reachable(s);
      NoLeaseMeanwhile(runs(s).worlds, runs(s).events, |runs(s).events|, t);
      ValidParts();
      CountIsHolders(runs(s).worlds, runs(s).events, |runs(s).events|);
      forall u | IsActive(View(s), u) ensures u in Holders(View(s)) { ActiveHolds(View(s), u); }
    }
  }
}
