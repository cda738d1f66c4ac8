/** The gateway's RPC calls: callers that wait by identifier, the reader that answers them, and its death. */
module GatewayCalls {
  import opened Options

  type CallId = nat

  /** A response frame: the identifier it bears, and a result or an error. */
  datatype Reply = Reply(id: CallId, payload: nat, isError: bool)

  datatype Failure = FromServer(reply: Reply) | GatewayExited

  /** What a caller shares with the reader: the results merged so far, the errors, and the event. */
  datatype Holder = Holder(results: seq<Reply>, errors: seq<Failure>, woken: bool)

  /** What `_rpccall` comes to. */
  datatype Outcome = Returned(results: seq<Reply>) | Raised(error: Failure) | TimedOut | Lost

  /** The reader between its two steps for a response: it has looked the holder up and not yet filled it. */
  datatype Reader = Reading | Answering(reply: Reply, found: bool) | Failing(left: seq<CallId>) | Done

  /** `holders` are all there ever were; `pending` the identifiers still in the table. */
  datatype World = World(
    holders: map<CallId, Holder>, pending: set<CallId>, nextId: nat, reader: Reader, outcomes: map<CallId, Outcome>)

  datatype Step =
    | Begin
    | Collect(id: CallId) | TimeOut(id: CallId)
    | Look(reply: Reply) | Fill
    | Die(order: seq<CallId>) | FailOne

  function Wake(h: Holder, reply: Reply): Holder {
    if reply.isError then h.(errors := h.errors + [FromServer(reply)], woken := true)
    else h.(results := h.results + [reply], woken := true)
  }

  /** Each of the identifiers once, in some order. */
  predicate Lists(order: seq<CallId>, ids: set<CallId>) {
    && (forall i | 0 <= i < |order| :: order[i] in ids)
    && (forall id | id in ids :: id in order)
    && (forall i, j | 0 <= i < j < |order| :: order[i] != order[j])
  }

  /** What a step does; none if it cannot happen. */
  function Do(w: World, s: Step): Option<World> {
    match s
    case Begin =>
      var id := w.nextId + 1;
      Some(w.(nextId := id, holders := w.holders[id := Holder([], [], false)], pending := w.pending + {id}))
    case Collect(id) =>
      if id !in w.holders || !w.holders[id].woken || id in w.outcomes then None
      else
        var h := w.holders[id];
        var o := if id !in w.pending then Lost
                 else if h.errors != [] then Raised(h.errors[0]) else Returned(h.results);
        Some(w.(pending := w.pending - {id}, outcomes := w.outcomes[id := o]))
    case TimeOut(id) =>
      // The wait may have ended just before the response came.
      if id !in w.holders || id in w.outcomes then None
      else Some(w.(pending := w.pending - {id}, outcomes := w.outcomes[id := TimedOut]))
    case Look(reply) =>
      if w.reader != Reading then None else Some(w.(reader := Answering(reply, reply.id in w.pending)))
    case Fill =>
      if !w.reader.Answering? then None
      else
        var r := w.reader.reply;
        Some(w.(reader := Reading,
                holders := if w.reader.found && r.id in w.holders then w.holders[r.id := Wake(w.holders[r.id], r)] else w.holders))
    case Die(order) =>
      if w.reader != Reading || !Lists(order, w.pending) then None
      else Some(w.(reader := Failing(order), pending := {}))
    case FailOne =>
      if !w.reader.Failing? then None
      else if w.reader.left == [] then Some(w.(reader := Done))
      else
        var id, left := w.reader.left[0], w.reader.left[1..];
        Some(w.(reader := Failing(left),
                holders := if id in w.holders
                           then w.holders[id := w.holders[id].(errors := w.holders[id].errors + [GatewayExited], woken := true)]
                           else w.holders))
  }

  const START := World(map[], {}, 0, Reading, map[])

  ghost predicate IsRun(worlds: seq<World>, steps: seq<Step>) {
    && |worlds| == |steps| + 1 && worlds[0] == START
    && forall i | 0 <= i < |steps| :: Moves(worlds, steps, i)
  }

  ghost predicate Moves(worlds: seq<World>, steps: seq<Step>, i: nat)
    requires i < |steps| && i + 1 < |worlds|
  {
    Do(worlds[i], steps[i]) == Some(worlds[i + 1])
  }

  // ---- Each caller gets only its own ----

  predicate OwnFailure(f: Failure, id: CallId) { f.FromServer? ==> f.reply.id == id && f.reply.isError }

  /** A holder has only responses to its own call. */
  predicate Own(h: Holder, id: CallId) {
    && (forall r | r in h.results :: r.id == id && !r.isError)
    && (forall f | f in h.errors :: OwnFailure(f, id))
    && (h.woken <==> h.results != [] || h.errors != [])
  }

  predicate OwnOutcome(o: Outcome, id: CallId) {
    match o
    case Returned(rs) => rs != [] && forall r | r in rs :: r.id == id && !r.isError
    case Raised(f) => f.FromServer? && OwnFailure(f, id)
    case TimedOut => true
    case Lost => true
  }

  ghost predicate Inv(w: World) {
    && (forall id | id in w.holders :: id <= w.nextId && Own(w.holders[id], id))
    && (forall id | id in w.outcomes :: OwnOutcome(w.outcomes[id], id))
    && (forall id | id in w.pending :: id in w.holders && GatewayExited !in w.holders[id].errors)
    && (w.reader.Answering? && w.reader.found ==> w.reader.reply.id in w.holders)
    && (w.reader.Failing? ==> forall id | id in w.reader.left :: id in w.holders && id !in w.pending)
  }

  /** A caller not yet answered is in the table, in the reader's hands, or has timed out. */
  ghost predicate Reached(w: World, id: CallId)
    requires id in w.holders
  {
    || id in w.pending || id in w.outcomes || w.holders[id].woken
    || (w.reader.Failing? && id in w.reader.left)
  }

  lemma {:induction false} StepKeeps(w: World, s: Step, v: World)
    requires Inv(w) && Do(w, s) == Some(v)
    ensures Inv(v)
  {
  }

  lemma {:induction false} ReachedAfter(w: World, s: Step, v: World, id: CallId)
    requires Inv(w) && Do(w, s) == Some(v) && id in v.holders
    requires id in w.holders ==> Reached(w, id)
    ensures Reached(v, id)
  {
  }

  lemma {:induction false} RunKeeps(worlds: seq<World>, steps: seq<Step>, i: nat)
    requires IsRun(worlds, steps) && i < |worlds|
    ensures Inv(worlds[i])
    ensures forall id | id in worlds[i].holders :: Reached(worlds[i], id)
  {
    if i > 0 {
      RunKeeps(worlds, steps, i - 1);
      assert Moves(worlds, steps, i - 1);
      StepKeeps(worlds[i - 1], steps[i - 1], worlds[i]);
      forall id | id in worlds[i].holders ensures Reached(worlds[i], id) {
        ReachedAfter(worlds[i - 1], steps[i - 1], worlds[i], id);
      }
    }
  }

  /** In every interleaving, what a call returns is results for its own identifier and nothing else, and what it raises
      is its own error, a timeout or a lost response. The gateway's exit is never raised: what was pending is taken out
      of the table before its holders are failed, so a call woken by that finds its response lost. */
  lemma {:induction false} OnlyOwnResponses(worlds: seq<World>, steps: seq<Step>, i: nat, id: CallId)
    requires IsRun(worlds, steps) && i < |worlds| && id in worlds[i].outcomes
    ensures OwnOutcome(worlds[i].outcomes[id], id)
  {
    RunKeeps(worlds, steps, i);
  }

  predicate Exited(r: Reader) { r.Failing? || r.Done? }

  /** Step `j` begins call `id`, after the reader has taken what was pending at the gateway's death. */
  ghost predicate BegunAfterExit(worlds: seq<World>, steps: seq<Step>, j: nat, id: CallId)
    requires j < |steps| && j < |worlds|
  {
    steps[j].Begin? && worlds[j].nextId + 1 == id && Exited(worlds[j].reader)
  }

  lemma {:induction false} PendingIsLate(worlds: seq<World>, steps: seq<Step>, i: nat, id: CallId)
    requires IsRun(worlds, steps) && i < |worlds| && Exited(worlds[i].reader) && id in worlds[i].pending
    ensures exists j | 0 <= j < i :: BegunAfterExit(worlds, steps, j, id)
  {
    var w, s := worlds[i - 1], steps[i - 1];
    assert Moves(worlds, steps, i - 1);
    if s.Begin? && id == w.nextId + 1 {
      assert BegunAfterExit(worlds, steps, i - 1, id);
    } else {
      PendingIsLate(worlds, steps, i - 1, id);
    }
  }

  /** Once the reader has failed what was pending at its death, a call is answered, or it was begun after that: only such
      calls wait for their timeout. */
  lemma {:induction false} DeathAnswersAll(worlds: seq<World>, steps: seq<Step>, i: nat, id: CallId)
    requires IsRun(worlds, steps) && i < |worlds| && worlds[i].reader == Done && id in worlds[i].holders
    ensures if id in worlds[i].pending then exists j | 0 <= j < i :: BegunAfterExit(worlds, steps, j, id)
            else id in worlds[i].outcomes || worlds[i].holders[id].woken
  {
    RunKeeps(worlds, steps, i);
    if id in worlds[i].pending { PendingIsLate(worlds, steps, i, id); }
  }
}
