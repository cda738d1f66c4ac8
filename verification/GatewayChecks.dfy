/** What the checks of `prompt` do over a whole run, and exactly when a turn is replaced. */
module GatewayChecks {
  import opened GatewayTurns
  import opened Options

  // ---- A refused prompt ----

  lemma {:induction false} ReturnedForever(worlds: seq<World>, steps: seq<Step>, i: nat, j: nat, u: Worker)
    requires IsRun(worlds, steps) && i <= j < |worlds| && PlaceOf(worlds[i], u) == Returned
    ensures PlaceOf(worlds[j], u) == Returned
    decreases j
  {
    if i < j {
      ReturnedForever(worlds, steps, i, j - 1, u);
      assert Moves(worlds, steps, j - 1);
    }
  }

  lemma {:induction false} RegisteredForever(worlds: seq<World>, steps: seq<Step>, i: nat, j: nat, u: Worker)
    requires IsRun(worlds, steps) && i < j < |worlds| && steps[i] == Register(u)
    ensures HasRegistered(PlaceOf(worlds[j], u))
    decreases j
  {
    assert Moves(worlds, steps, j - 1);
    if i < j - 1 {
      RegisteredForever(worlds, steps, i, j - 1, u);
    }
  }

  /** A prompt that is refused has returned for good and never registers a turn. */
  ghost predicate Refused(worlds: seq<World>, steps: seq<Step>, i: nat, u: Worker)
    requires |worlds| == |steps| + 1
  {
    && (forall j | i < j < |worlds| :: PlaceOf(worlds[j], u) == Returned)
    && forall j | 0 <= j < |steps| :: steps[j] != Register(u)
  }

  lemma {:induction false} RefusedIfReturned(worlds: seq<World>, steps: seq<Step>, i: nat, u: Worker)
    requires IsRun(worlds, steps) && i < |steps|
    requires !HasRegistered(PlaceOf(worlds[i], u)) && PlaceOf(worlds[i + 1], u) == Returned
    requires steps[i] != Register(u)
    ensures Refused(worlds, steps, i, u)
  {
    forall j | i < j < |worlds| ensures PlaceOf(worlds[j], u) == Returned {
      ReturnedForever(worlds, steps, i + 1, j, u);
    }
    forall j | 0 <= j < |steps| ensures steps[j] != Register(u) {
      assert Moves(worlds, steps, j);
      if steps[j] == Register(u) && j < i { RegisteredForever(worlds, steps, j, i, u); }
    }
  }

  /** A prompt that finds a turn in flight is refused, and one that finds none goes on. */
  lemma {:induction false} InFlightIsRefused(worlds: seq<World>, steps: seq<Step>, i: nat, u: Worker)
    requires IsRun(worlds, steps) && i < |steps| && steps[i] == CheckFree(u)
    ensures if worlds[i].slot.Some? then Refused(worlds, steps, i, u) else PlaceOf(worlds[i + 1], u) == Free
  {
    assert Moves(worlds, steps, i);
    if worlds[i].slot.Some? { RefusedIfReturned(worlds, steps, i, u); }
  }

  /** So is one that finds the gateway dead, and one whose request cannot be sent. */
  lemma {:induction false} DeadIsRefused(worlds: seq<World>, steps: seq<Step>, i: nat, u: Worker)
    requires IsRun(worlds, steps) && i < |steps| && (steps[i] == Look(u) || (steps[i].Submit? && steps[i].t == u))
    ensures if (steps[i].Look? && worlds[i].isDead) || (steps[i].Submit? && !steps[i].ok)
            then Refused(worlds, steps, i, u) else !PlaceOf(worlds[i + 1], u).Returned?
  {
    assert Moves(worlds, steps, i);
    if PlaceOf(worlds[i + 1], u) == Returned { RefusedIfReturned(worlds, steps, i, u); }
  }

  /** The gateway stays dead. */
  lemma {:induction false} DeadForever(worlds: seq<World>, steps: seq<Step>, i: nat, j: nat)
    requires IsRun(worlds, steps) && i < j < |worlds| && (steps[i].Die? || steps[i].Close?)
    ensures worlds[j].isDead
    decreases j
  {
    assert Moves(worlds, steps, j - 1);
    if i < j - 1 { DeadForever(worlds, steps, i, j - 1); }
  }

  // ---- Who came to register ----

  /** A worker past its check found the slot empty then. */
  lemma {:induction false} CheckedFree(worlds: seq<World>, steps: seq<Step>, i: nat, u: Worker)
    requires IsRun(worlds, steps) && i < |worlds|
    requires PlaceOf(worlds[i], u) == Free || PlaceOf(worlds[i], u) == Submitted
    ensures exists j | 0 <= j < i :: steps[j] == CheckFree(u) && worlds[j].slot.None?
  {
    if i > 0 {
      assert Moves(worlds, steps, i - 1);
      if steps[i - 1] == CheckFree(u) {
        assert worlds[i - 1].slot.None?;
      } else {
        CheckedFree(worlds, steps, i - 1, u);
      }
    }
  }

  /** A turn in the slot has been there since it was registered. */
  lemma {:induction false} InSlotSince(worlds: seq<World>, steps: seq<Step>, i: nat, t: Worker) returns (k: nat)
    requires IsRun(worlds, steps) && i < |worlds| && worlds[i].slot == Some(t)
    ensures k < i && steps[k] == Register(t) && forall m | k < m <= i :: worlds[m].slot == Some(t)
  {
    assert i > 0;
    assert Moves(worlds, steps, i - 1);
    if steps[i - 1] == Register(t) {
      k := i - 1;
    } else {
      k := InSlotSince(worlds, steps, i - 1, t);
    }
  }

  // ---- Exactly when a turn is replaced ----

  /** Before `i`, `u` checked that the slot was empty, then `t` registered, and then `u` did, with `t` still in the slot. */
  ghost predicate Overlapped(worlds: seq<World>, steps: seq<Step>, i: nat, t: Worker)
    requires i < |worlds| == |steps| + 1
  {
    exists j: nat, k: nat, l: nat, u: Worker ::
      j < k < l < i && Overlaps(worlds, steps, j, k, l, t, u)
  }

  ghost predicate Overlaps(
    worlds: seq<World>, steps: seq<Step>, j: nat, k: nat, l: nat, t: Worker, u: Worker)
    requires j < k < l < |steps| && |worlds| == |steps| + 1
  {
    && steps[j] == CheckFree(u) && worlds[j].slot.None?
    && steps[k] == Register(t) && steps[l] == Register(u) && worlds[l].slot == Some(t)
  }

  /** A turn is replaced exactly if another prompt passed its check before the turn was registered and registers while
      it still is. */
  lemma {:induction false} ReplacedIffOverlapped(worlds: seq<World>, steps: seq<Step>, i: nat, t: Worker)
    requires IsRun(worlds, steps) && i < |worlds|
    ensures t in worlds[i].overwritten <==> Overlapped(worlds, steps, i, t)
  {
    if i > 0 {
      ReplacedIffOverlapped(worlds, steps, i - 1, t);
      assert Moves(worlds, steps, i - 1);
      var s, w := steps[i - 1], worlds[i - 1];
      if s.Register? && w.slot == Some(t) {
        var k := InSlotSince(worlds, steps, i - 1, t);
        CheckedFree(worlds, steps, i - 1, s.t);
        var j :| 0 <= j < i - 1 && steps[j] == CheckFree(s.t) && worlds[j].slot.None?;
        assert j < k;
        assert Overlaps(worlds, steps, j, k, i - 1, t, s.t);
      } else if Overlapped(worlds, steps, i, t) {
        var j: nat, k: nat, l: nat, u: Worker :| j < k < l < i && Overlaps(worlds, steps, j, k, l, t, u);
        assert l < i - 1;
      }
    }
  }

  // ---- A prompt that goes on ----

  /** A worker returns from its wait only once its turn has been woken. */
  lemma {:induction false} ReturnsWoken(worlds: seq<World>, steps: seq<Step>, i: nat, t: Worker)
    requires IsRun(worlds, steps) && i < |steps|
    requires PlaceOf(worlds[i], t) == Waiting && PlaceOf(worlds[i + 1], t) != Waiting
    ensures steps[i] == Return(t) && t in worlds[i].woken && PlaceOf(worlds[i + 1], t) == Returned
  {
    assert Moves(worlds, steps, i);
  }

  /** Step `k` takes the turn of `t` out of the slot: the reader at the end of a turn or after the gateway's death, or a
      worker that found the gateway dead. */
  ghost predicate Takes(worlds: seq<World>, steps: seq<Step>, k: nat, t: Worker)
    requires k < |steps| && |worlds| == |steps| + 1
  {
    && worlds[k].slot == Some(t) && worlds[k + 1].slot.None?
    && (steps[k].TakeEnded? || steps[k].TakeCleanup? || (steps[k].TakeOwn? && worlds[k].isDead))
  }

  lemma {:induction false} OwnTakeIsDead(worlds: seq<World>, steps: seq<Step>, i: nat, u: Worker)
    requires IsRun(worlds, steps) && i < |worlds| && PlaceOf(worlds[i], u) == Taking
    ensures worlds[i].isDead
  {
    assert i > 0;
    assert Moves(worlds, steps, i - 1);
    if steps[i - 1] != LookAgain(u) { OwnTakeIsDead(worlds, steps, i - 1, u); }
  }

  lemma {:induction false} WokenWasTaken(worlds: seq<World>, steps: seq<Step>, i: nat, t: Worker) returns (k: nat)
    requires IsRun(worlds, steps) && i < |worlds| && (t in worlds[i].woken || BeingWoken(worlds[i], t))
    ensures k < i && Takes(worlds, steps, k, t)
  {
    assert i > 0;
    assert Moves(worlds, steps, i - 1);
    var w, s, v := worlds[i - 1], steps[i - 1], worlds[i];
    if t in w.woken || BeingWoken(w, t) {
      k := WokenWasTaken(worlds, steps, i - 1, t);
    } else {
      assert BeingWoken(v, t) by { if t in v.woken { WokenAfter(w, s, v, t); } }
      k := i - 1;
      WakingBegins(w, s, v, t);
      if s.TakeOwn? { OwnTakeIsDead(worlds, steps, i - 1, s.t); }
    }
  }

  /** So a worker that returns from its wait had its turn taken by a thread that had reason to end it. */
  lemma {:induction false} ReturnedWasTaken(worlds: seq<World>, steps: seq<Step>, i: nat, t: Worker)
    requires IsRun(worlds, steps) && i < |steps| && steps[i] == Return(t)
    ensures exists k | 0 <= k < i :: Takes(worlds, steps, k, t)
  {
    assert Moves(worlds, steps, i);
    var k := WokenWasTaken(worlds, steps, i, t);
  }

  /** After registering its turn a worker waits if the gateway is alive, and otherwise ends a turn itself. */
  lemma {:induction false} LooksAgain(worlds: seq<World>, steps: seq<Step>, i: nat, t: Worker)
    requires IsRun(worlds, steps) && i < |steps| && steps[i] == LookAgain(t)
    ensures PlaceOf(worlds[i + 1], t) == (if worlds[i].isDead then Taking else Waiting)
    ensures exists k | 0 <= k < i :: steps[k] == Register(t)
  {
    assert Moves(worlds, steps, i);
    RegisteredBefore(worlds, steps, i, t);
  }

  lemma {:induction false} RegisteredBefore(worlds: seq<World>, steps: seq<Step>, i: nat, t: Worker)
    requires IsRun(worlds, steps) && i < |worlds| && InTurn(PlaceOf(worlds[i], t))
    ensures exists k | 0 <= k < i :: steps[k] == Register(t)
  {
    assert i > 0;
    assert Moves(worlds, steps, i - 1);
    if steps[i - 1] != Register(t) { RegisteredBefore(worlds, steps, i - 1, t); }
  }
}
