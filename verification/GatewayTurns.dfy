/** The race between a gateway's death and the turns and calls that wait on it: worker threads and one reader thread. */
module GatewayTurns {
  import opened Options

  type Worker = nat

  /** Where a worker is in `prompt`: it looks whether the gateway is dead and whether a turn is in flight, submits,
      registers its turn, looks again, and waits; `Taking` and `Waking` are its own `_finish_turn`. */
  datatype Place = Idle | Looked | Free | Submitted | Registered | Taking | Waking(taken: Option<Worker>) | Waiting | Returned

  /** Where the reader is: reading, ending a turn, and after the gateway's death in its cleanup. */
  datatype Reader = Reading | Ending(taken: Option<Worker>) | Dead | Clearing(taken: Option<Worker>) | Cleaned

  /** `slot` is `_pending_turn`. `overwritten` is history: the turns whose registration another one replaced. */
  datatype World = World(
    places: map<Worker, Place>, reader: Reader, isDead: bool,
    slot: Option<Worker>, woken: set<Worker>, overwritten: set<Worker>)

  function PlaceOf(w: World, t: Worker): Place { if t in w.places then w.places[t] else Idle }

  function At(w: World, t: Worker, p: Place): World { w.(places := w.places[t := p]) }

  function Wake(w: World, taken: Option<Worker>): World {
    if taken.Some? then w.(woken := w.woken + {taken.value}) else w
  }

  /** Every turn uses an event of its own; here a worker prompts once. `Close` is `close`, called from any thread: it
      marks the gateway dead, perhaps before the reader has noticed. */
  datatype Step =
    | Look(t: Worker) | CheckFree(t: Worker) | Submit(t: Worker, ok: bool) | Register(t: Worker) | LookAgain(t: Worker)
    | TakeOwn(t: Worker) | WakeOwn(t: Worker) | Return(t: Worker)
    | TakeEnded | WakeEnded | Die | TakeCleanup | WakeCleanup | Close

  /** What a step does; none if it is not the thread's next. */
  function Do(w: World, s: Step): Option<World> {
    match s
    case Look(t) =>
      if PlaceOf(w, t) != Idle then None else Some(At(w, t, if w.isDead then Returned else Looked))
    case CheckFree(t) =>
      if PlaceOf(w, t) != Looked then None else Some(At(w, t, if w.slot.Some? then Returned else Free))
    case Submit(t, ok) => if PlaceOf(w, t) != Free then None else Some(At(w, t, if ok then Submitted else Returned))
    case Register(t) =>
      if PlaceOf(w, t) != Submitted then None
      else Some(At(w, t, Registered).(
        slot := Some(t), overwritten := if w.slot.Some? then w.overwritten + {w.slot.value} else w.overwritten))
    case LookAgain(t) =>
      if PlaceOf(w, t) != Registered then None else Some(At(w, t, if w.isDead then Taking else Waiting))
    case TakeOwn(t) =>
      if PlaceOf(w, t) != Taking then None else Some(At(w, t, Waking(w.slot)).(slot := None))
    case WakeOwn(t) =>
      if !PlaceOf(w, t).Waking? then None else Some(At(Wake(w, PlaceOf(w, t).taken), t, Waiting))
    case Return(t) =>
      if PlaceOf(w, t) != Waiting || t !in w.woken then None else Some(At(w, t, Returned))
    case TakeEnded => if w.reader != Reading then None else Some(w.(reader := Ending(w.slot), slot := None))
    case WakeEnded => if !w.reader.Ending? then None else Some(Wake(w, w.reader.taken).(reader := Reading))
    case Die => if w.reader != Reading then None else Some(w.(reader := Dead, isDead := true))
    case TakeCleanup => if w.reader != Dead then None else Some(w.(reader := Clearing(w.slot), slot := None))
    case Close => Some(w.(isDead := true))
    case WakeCleanup => if !w.reader.Clearing? then None else Some(Wake(w, w.reader.taken).(reader := Cleaned))
  }

  const START := World(map[], Reading, false, None, {}, {})

  ghost predicate IsRun(worlds: seq<World>, steps: seq<Step>) {
    && |worlds| == |steps| + 1 && worlds[0] == START
    && forall i | 0 <= i < |steps| :: Moves(worlds, steps, i)
  }

  ghost predicate Moves(worlds: seq<World>, steps: seq<Step>, i: nat)
    requires i < |steps| && i + 1 < |worlds|
  {
    Do(worlds[i], steps[i]) == Some(worlds[i + 1])
  }

  // ---- Who will wake a turn ----

  /** A thread has taken the turn of `t` and is about to wake it. */
  predicate BeingWoken(w: World, t: Worker) {
    || (w.reader.Ending? && w.reader.taken == Some(t)) || (w.reader.Clearing? && w.reader.taken == Some(t))
    || exists u | u in w.places :: w.places[u].Waking? && w.places[u].taken == Some(t)
  }

  /** A thread is about to take whatever turn is registered. */
  predicate AboutToTake(w: World) {
    w.reader.Reading? || w.reader.Ending? || w.reader.Dead?
    || exists u | u in w.places :: w.places[u].Taking? || (w.places[u].Registered? && w.isDead)
  }

  /** A registered turn is woken, being woken, replaced, or in the slot. */
  ghost predicate Accounted(w: World) {
    forall t | t in w.places && InTurn(w.places[t]) ::
      t in w.woken || t in w.overwritten || BeingWoken(w, t) || w.slot == Some(t)
  }

  /** While a turn is in the slot some thread is still to take it. */
  ghost predicate SlotIsWatched(w: World) {
    w.slot.Some? ==> AboutToTake(w)
  }

  predicate InTurn(p: Place) { p.Registered? || p.Taking? || p.Waking? || p.Waiting? }

  predicate HasRegistered(p: Place) { InTurn(p) || p.Returned? }

  /** A turn has been registered before anything happens to it, and one that is woken, or about to be, is neither in
      the slot nor replaced; nor is a replaced one in the slot. */
  ghost predicate OneFate(w: World, t: Worker) {
    && (t in w.woken || BeingWoken(w, t) || t in w.overwritten || w.slot == Some(t) ==> HasRegistered(PlaceOf(w, t)))
    && (t in w.woken || BeingWoken(w, t) ==> t !in w.overwritten && w.slot != Some(t))
    && (t in w.overwritten ==> w.slot != Some(t))
  }

  ghost predicate Apart(w: World) { forall t :: OneFate(w, t) }

  ghost predicate Inv(w: World) {
    && Accounted(w) && SlotIsWatched(w) && Apart(w)
    && (w.reader.Dead? || w.reader.Clearing? || w.reader.Cleaned? ==> w.isDead)
  }

  /** Only a turn in the slot comes to be woken, and it leaves the slot then. */
  lemma {:induction false} WakingBegins(w: World, s: Step, v: World, t: Worker)
    requires Do(w, s) == Some(v) && BeingWoken(v, t) && !BeingWoken(w, t)
    ensures w.slot == Some(t) && v.slot.None?
  {
    if !(v.reader.Ending? && v.reader.taken == Some(t)) && !(v.reader.Clearing? && v.reader.taken == Some(t)) {
      var u :| u in v.places && v.places[u].Waking? && v.places[u].taken == Some(t);
      assert s == TakeOwn(u) || PlaceOf(w, u) == PlaceOf(v, u);
    }
  }

  lemma {:induction false} WokenAfter(w: World, s: Step, v: World, t: Worker)
    requires Do(w, s) == Some(v) && t in v.woken && t !in w.woken
    ensures BeingWoken(w, t) && v.slot == w.slot && v.overwritten == w.overwritten
  {
  }

  lemma {:induction false} OneFateAfter(w: World, s: Step, v: World, t: Worker)
    requires OneFate(w, t) && Do(w, s) == Some(v)
    ensures OneFate(v, t)
  {
    if BeingWoken(v, t) && !BeingWoken(w, t) { WakingBegins(w, s, v, t); }
    if t in v.woken && t !in w.woken { WokenAfter(w, s, v, t); }
    hide BeingWoken;
  }

  lemma {:induction false} AccountedAfter(w: World, s: Step, v: World, t: Worker)
    requires Inv(w) && Do(w, s) == Some(v) && t in v.places && InTurn(v.places[t])
    ensures t in v.woken || t in v.overwritten || BeingWoken(v, t) || v.slot == Some(t)
  {
    if s == Register(t) {
      // In the slot.
    } else if w.slot == Some(t) {
      if s.TakeOwn? { assert v.places[s.t].Waking? && v.places[s.t].taken == Some(t); }
    } else {
      assert t in w.places && InTurn(w.places[t]);
      if BeingWoken(w, t) && t !in v.woken && !v.reader.Ending? && !v.reader.Clearing? {
        var u :| u in w.places && w.places[u].Waking? && w.places[u].taken == Some(t);
        assert v.places[u] == w.places[u];
      } else if BeingWoken(w, t) && t !in v.woken {
        if u :| u in w.places && w.places[u].Waking? && w.places[u].taken == Some(t) {
          assert v.places[u] == w.places[u];
        }
      }
    }
  }

  lemma {:induction false} WatchedAfter(w: World, s: Step, v: World)
    requires Inv(w) && Do(w, s) == Some(v) && v.slot.Some?
    ensures AboutToTake(v)
  {
    if s.Register? {
      assert v.places[s.t].Registered?;
    } else if !(v.reader.Reading? || v.reader.Ending? || v.reader.Dead?) {
      assert w.slot == v.slot;
      var u :| u in w.places && (w.places[u].Taking? || (w.places[u].Registered? && w.isDead));
      assert u in v.places && (v.places[u].Taking? || v.places[u].Registered?);
    }
  }

  lemma {:induction false} StepKeeps(w: World, s: Step, v: World)
    requires Inv(w) && Do(w, s) == Some(v)
    ensures Inv(v)
  {
    forall t | t in v.places && InTurn(v.places[t])
      ensures t in v.woken || t in v.overwritten || BeingWoken(v, t) || v.slot == Some(t)
    {
      AccountedAfter(w, s, v, t);
    }
    if v.slot.Some? { WatchedAfter(w, s, v); }
    forall t ensures OneFate(v, t) { OneFateAfter(w, s, v, t); }
  }

  lemma {:induction false} RunKeeps(worlds: seq<World>, steps: seq<Step>, i: nat)
    requires IsRun(worlds, steps) && i < |worlds|
    ensures Inv(worlds[i])
  {
    if i > 0 {
      RunKeeps(worlds, steps, i - 1);
      assert Moves(worlds, steps, i - 1);
      StepKeeps(worlds[i - 1], steps[i - 1], worlds[i]);
    }
  }

  /** The step by which a thread, if it is at one, goes on to wake the turn of `t`. */
  predicate WillBeWoken(w: World, t: Worker) {
    BeingWoken(w, t) || (w.slot == Some(t) && AboutToTake(w))
  }

  /** In every interleaving, a turn that waits is woken or some thread is on its way to wake it, unless its registration
      was replaced by another; then neither is so. */
  lemma {:induction false} NoLostWakeUp(worlds: seq<World>, steps: seq<Step>, i: nat, t: Worker)
    requires IsRun(worlds, steps) && i < |worlds| && PlaceOf(worlds[i], t) == Waiting
    ensures t in worlds[i].woken || WillBeWoken(worlds[i], t) <==> t !in worlds[i].overwritten
  {
    RunKeeps(worlds, steps, i);
    assert OneFate(worlds[i], t);
  }

  /** Once the reader has cleaned up and no worker is on its way, a turn that waits has been woken exactly if it was
      not replaced. */
  lemma {:induction false} NoneLeftWaiting(worlds: seq<World>, steps: seq<Step>, i: nat, t: Worker)
    requires IsRun(worlds, steps) && i < |worlds| && worlds[i].reader == Cleaned
    requires forall u | u in worlds[i].places :: !worlds[i].places[u].Registered? && !worlds[i].places[u].Taking?
                                                && !worlds[i].places[u].Waking?
    requires PlaceOf(worlds[i], t) == Waiting
    ensures t in worlds[i].woken <==> t !in worlds[i].overwritten
  {
    NoLostWakeUp(worlds, steps, i, t);
  }

  // ---- One turn at a time ----

  predicate Busy(p: Place) { !p.Idle? && !p.Returned? }

  /** No worker begins a prompt while another is in one. */
  ghost predicate OneAtATime(worlds: seq<World>) {
    forall i, t, u | 0 <= i < |worlds| && t in worlds[i].places && u in worlds[i].places
                     && Busy(worlds[i].places[t]) && Busy(worlds[i].places[u]) :: t == u
  }

  /** One prompt at a time: only finished turns are ever replaced. */
  ghost predicate ReplacedAreOver(w: World) {
    forall t | t in w.overwritten :: PlaceOf(w, t) == Returned
  }

  lemma {:induction false} ReplacedAreOverAfter(w: World, s: Step, v: World)
    requires Inv(w) && ReplacedAreOver(w) && Do(w, s) == Some(v)
    requires forall t, u | t in w.places && u in w.places && Busy(w.places[t]) && Busy(w.places[u]) :: t == u
    ensures ReplacedAreOver(v)
  {
    forall t | t in v.overwritten ensures PlaceOf(v, t) == Returned {
      if t !in w.overwritten {
        assert s.Register? && w.slot == Some(t) && Busy(w.places[s.t]) && OneFate(w, t);
      }
    }
  }

  lemma {:induction false} NoneReplaced(worlds: seq<World>, steps: seq<Step>, i: nat)
    requires IsRun(worlds, steps) && i < |worlds| && OneAtATime(worlds)
    ensures ReplacedAreOver(worlds[i])
  {
    if i > 0 {
      NoneReplaced(worlds, steps, i - 1);
      assert Moves(worlds, steps, i - 1);
      RunKeeps(worlds, steps, i - 1);
      ReplacedAreOverAfter(worlds[i - 1], steps[i - 1], worlds[i]);
    }
  }

  /** With one prompt at a time, once the reader has cleaned up, a worker that waits has been woken. */
  lemma {:induction false} DeathWakesTheTurn(worlds: seq<World>, steps: seq<Step>, i: nat, t: Worker)
    requires IsRun(worlds, steps) && i < |worlds| && OneAtATime(worlds)
    requires worlds[i].reader == Cleaned && PlaceOf(worlds[i], t) == Waiting
    ensures t in worlds[i].woken
  {
    NoneReplaced(worlds, steps, i);
    var w := worlds[i];
    forall u | u in w.places && Busy(w.places[u]) ensures u == t {}
    NoneLeftWaiting(worlds, steps, i, t);
  }

  // ---- Two prompts at once ----

  lemma Then(worlds: seq<World>, steps: seq<Step>, s: Step) returns (ws: seq<World>, ss: seq<Step>)
    requires IsRun(worlds, steps) && Do(worlds[|steps|], s).Some?
    ensures IsRun(ws, ss) && |ss| == |steps| + 1 && Some(ws[|ss|]) == Do(worlds[|steps|], s)
  {
    ws, ss := worlds + [Do(worlds[|steps|], s).value], steps + [s];
    hide Do;
    forall i | 0 <= i < |ss| ensures Moves(ws, ss, i) {
      if i < |steps| { assert Moves(worlds, steps, i); }
    }
  }

  /** Both workers pass the check for a turn in flight before either registers. */
  lemma BothFree() returns (worlds: seq<World>, steps: seq<Step>)
    ensures IsRun(worlds, steps)
    ensures worlds[|steps|] == World(map[0 := Free, 1 := Free], Reading, false, None, {}, {})
  {
    hide IsRun;
    worlds, steps := [START], [];
    StartIsRun();
    worlds, steps := Then(worlds, steps, Look(0));
    worlds, steps := Then(worlds, steps, Look(1));
    worlds, steps := Then(worlds, steps, CheckFree(0));
    worlds, steps := Then(worlds, steps, CheckFree(1));
  }

  lemma StartIsRun()
    ensures IsRun([START], [])
  {
  }

  lemma BothRegistered() returns (worlds: seq<World>, steps: seq<Step>)
    ensures IsRun(worlds, steps)
    ensures worlds[|steps|] == World(map[0 := Registered, 1 := Registered], Reading, false, Some(1), {}, {0})
  {
    hide IsRun;
    worlds, steps := BothFree();
    worlds, steps := Then(worlds, steps, Submit(0, true));
    worlds, steps := Then(worlds, steps, Submit(1, true));
    worlds, steps := Then(worlds, steps, Register(0));
    worlds, steps := Then(worlds, steps, Register(1));
  }

  /** The check for a turn in flight and the registration are apart, so two prompts can both pass the check; the
      one replaced in the slot is still waiting when the reader has cleaned up and every thread is at rest. */
  lemma ReplacedTurnIsLost() returns (worlds: seq<World>, steps: seq<Step>)
    ensures IsRun(worlds, steps)
    ensures worlds[|steps|] == World(map[0 := Waiting, 1 := Waiting], Cleaned, true, None, {1}, {0})
  {
    hide IsRun;
    worlds, steps := BothRegistered();
    worlds, steps := Then(worlds, steps, LookAgain(0));
    worlds, steps := Then(worlds, steps, LookAgain(1));
    worlds, steps := Then(worlds, steps, Die);
    worlds, steps := Then(worlds, steps, TakeCleanup);
    worlds, steps := Then(worlds, steps, WakeCleanup);
  }
}
