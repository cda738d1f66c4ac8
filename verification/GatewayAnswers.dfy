/** What each RPC call comes to: exactly the responses that arrived for it while it was pending. */
module GatewayAnswers {
  import opened GatewayCalls
  import opened Options

  // ---- What arrives for a call ----

  /** The responses to call `id` that the reader read before `i` while the call was pending. */
  ghost function Arrived(worlds: seq<World>, steps: seq<Step>, i: nat, id: CallId): seq<Reply>
    requires i <= |steps| < |worlds|
  {
    if i == 0 then []
    else
      var s := steps[i - 1];
      Arrived(worlds, steps, i - 1, id)
      + if s.Look? && s.reply.id == id && id in worlds[i - 1].pending then [s.reply] else []
  }

  /** A response that has been read and not yet handed to its call. */
  function InHand(w: World, id: CallId): seq<Reply> {
    if w.reader.Answering? && w.reader.found && w.reader.reply.id == id then [w.reader.reply] else []
  }

  function Results(rs: seq<Reply>): seq<Reply> {
    if rs == [] then []
    else
      var n := |rs| - 1;
      Results(rs[..n]) + if rs[n].isError then [] else [rs[n]]
  }

  function Errors(rs: seq<Reply>): seq<Failure> {
    if rs == [] then []
    else
      var n := |rs| - 1;
      Errors(rs[..n]) + if rs[n].isError then [FromServer(rs[n])] else []
  }

  lemma OneMoreReply(rs: seq<Reply>, r: Reply)
    ensures Results(rs + [r]) == Results(rs) + if r.isError then [] else [r]
    ensures Errors(rs + [r]) == Errors(rs) + if r.isError then [FromServer(r)] else []
  {
    assert (rs + [r])[..|rs|] == rs;
  }

  lemma NoReplies()
    ensures Results([]) == [] && Errors([]) == []
  {
  }

  /** The gateway's death has taken the call out of the table. */
  ghost predicate TakenByDeath(worlds: seq<World>, steps: seq<Step>, i: nat, id: CallId)
    requires i <= |steps| < |worlds|
  {
    exists k | 0 <= k < i :: steps[k].Die? && id in worlds[k].pending
  }

  /** A call is in the table until it comes to something or the gateway's death takes it out, and never again. */
  ghost predicate Tabled(worlds: seq<World>, steps: seq<Step>, i: nat, id: CallId)
    requires i <= |steps| < |worlds|
  {
    var w := worlds[i];
    && (id in w.pending || id in w.outcomes || TakenByDeath(worlds, steps, i, id) ==> id in w.holders)
    && (id in w.holders ==> id <= w.nextId)
    && (id in w.pending <==> id in w.holders && id !in w.outcomes && !TakenByDeath(worlds, steps, i, id))
    && (TakenByDeath(worlds, steps, i, id) ==> Exited(w.reader))
  }

  lemma {:induction false} TakenMore(worlds: seq<World>, steps: seq<Step>, i: nat, id: CallId)
    requires 0 < i <= |steps| < |worlds|
    ensures TakenByDeath(worlds, steps, i, id) <==>
            TakenByDeath(worlds, steps, i - 1, id) || (steps[i - 1].Die? && id in worlds[i - 1].pending)
  {
  }

  lemma {:induction false} TabledAlways(worlds: seq<World>, steps: seq<Step>, i: nat, id: CallId)
    requires IsRun(worlds, steps) && i < |worlds|
    ensures Tabled(worlds, steps, i, id)
  {
    if i > 0 {
      TabledAlways(worlds, steps, i - 1, id);
      TakenMore(worlds, steps, i, id);
      assert Moves(worlds, steps, i - 1);
      hide TakenByDeath, IsRun;
    }
  }

  // ---- What a call's holder has ----

  /** The responses handed over before `i`. */
  ghost function Given(worlds: seq<World>, steps: seq<Step>, i: nat, id: CallId): seq<Reply>
    requires i <= |steps| < |worlds|
  {
    if i == 0 then []
    else Given(worlds, steps, i - 1, id) + if steps[i - 1].Fill? then InHand(worlds[i - 1], id) else []
  }

  /** Every response that arrived for a pending call is handed over, in order, but for one that still is in hand. */
  lemma {:induction false} ArrivedIsGiven(worlds: seq<World>, steps: seq<Step>, i: nat, id: CallId)
    requires IsRun(worlds, steps) && i < |worlds|
    ensures Arrived(worlds, steps, i, id) == Given(worlds, steps, i, id) + InHand(worlds[i], id)
  {
    if i > 0 {
      ArrivedIsGiven(worlds, steps, i - 1, id);
      assert Moves(worlds, steps, i - 1);
    }
  }

  /** Of a gateway that died, the call has been told. */
  ghost predicate Told(worlds: seq<World>, steps: seq<Step>, i: nat, id: CallId)
    requires i <= |steps| < |worlds|
  {
    TakenByDeath(worlds, steps, i, id) && !(worlds[i].reader.Failing? && id in worlds[i].reader.left)
  }

  /** What a call has: the results among what it was given, and the errors among that, followed by the gateway's exit if
      it has been told. */
  ghost predicate Has(worlds: seq<World>, steps: seq<Step>, i: nat, id: CallId)
    requires i <= |steps| < |worlds|
  {
    var w, given := worlds[i], Given(worlds, steps, i, id);
    if id in w.holders then HasOf(w.holders[id], given, Told(worlds, steps, i, id)) else given == []
  }

  ghost predicate LeftOnce(worlds: seq<World>, steps: seq<Step>, i: nat)
    requires i <= |steps| < |worlds|
  {
    worlds[i].reader.Failing? ==>
      var left := worlds[i].reader.left;
      && (forall a, b | 0 <= a < b < |left| :: left[a] != left[b])
      && forall id | id in left :: TakenByDeath(worlds, steps, i, id)
  }

  lemma {:induction false} LeftAlwaysOnce(worlds: seq<World>, steps: seq<Step>, i: nat)
    requires IsRun(worlds, steps) && i < |worlds|
    ensures LeftOnce(worlds, steps, i)
  {
    if i > 0 {
      LeftAlwaysOnce(worlds, steps, i - 1);
      assert Moves(worlds, steps, i - 1);
      forall id ensures TakenByDeath(worlds, steps, i, id) <==>
        TakenByDeath(worlds, steps, i - 1, id) || (steps[i - 1].Die? && id in worlds[i - 1].pending) {
        TakenMore(worlds, steps, i, id);
      }
      hide TakenByDeath, IsRun;
    }
  }

  predicate FailsNext(w: World, s: Step, id: CallId) {
    s.FailOne? && w.reader.Failing? && w.reader.left != [] && w.reader.left[0] == id
  }

  /** A holder after it is given these responses, at most one, or told of the gateway's exit. */
  function HolderThen(h: Holder, given: seq<Reply>, told: bool): Holder {
    if given != [] then Wake(h, given[0])
    else if told then h.(errors := h.errors + [GatewayExited], woken := true)
    else h
  }

  predicate HasOf(h: Holder, given: seq<Reply>, told: bool) {
    h.results == Results(given) && h.errors == Errors(given) + if told then [GatewayExited] else []
  }

  lemma HasMore(h: Holder, given: seq<Reply>, told: bool, more: seq<Reply>, tells: bool)
    requires HasOf(h, given, told) && |more| <= 1 && (more != [] || tells ==> !told) && (more != [] ==> !tells)
    ensures HasOf(HolderThen(h, more, tells), given + more, told || tells)
  {
    if more == [] {
      assert given + more == given;
      assert Errors(given) + [] == Errors(given);
    } else {
      assert more == [more[0]];
      OneMoreReply(given, more[0]);
      assert Errors(given) + [] == Errors(given) && Errors(given + more) + [] == Errors(given + more);
    }
  }

  lemma {:induction false} HolderAfter(w: World, s: Step, v: World, id: CallId)
    requires GatewayCalls.Inv(w) && Do(w, s) == Some(v)
    ensures id in w.holders ==>
      id in v.holders && v.holders[id] == HolderThen(w.holders[id], if s.Fill? then InHand(w, id) else [], FailsNext(w, s, id))
    ensures id !in w.holders ==> InHand(w, id) == [] && (id in v.holders ==> v.holders[id] == Holder([], [], false))
  {
  }

  lemma {:induction false} ToldAfter(worlds: seq<World>, steps: seq<Step>, i: nat, id: CallId)
    requires IsRun(worlds, steps) && 0 < i < |worlds|
    ensures Told(worlds, steps, i, id) <==> Told(worlds, steps, i - 1, id) || FailsNext(worlds[i - 1], steps[i - 1], id)
    ensures FailsNext(worlds[i - 1], steps[i - 1], id) ==> !Told(worlds, steps, i - 1, id)
    ensures steps[i - 1].Fill? && InHand(worlds[i - 1], id) != [] ==> !Told(worlds, steps, i - 1, id)
    ensures FailsNext(worlds[i - 1], steps[i - 1], id) ==> !steps[i - 1].Fill? && id in worlds[i - 1].holders
    ensures Told(worlds, steps, i - 1, id) ==> id in worlds[i - 1].holders
  {
    LeftAlwaysOnce(worlds, steps, i - 1);
    TabledAlways(worlds, steps, i - 1, id);
    TakenMore(worlds, steps, i, id);
    assert Moves(worlds, steps, i - 1);
    hide TakenByDeath, IsRun;
  }

  lemma {:induction false} HasAlways(worlds: seq<World>, steps: seq<Step>, i: nat, id: CallId)
    requires IsRun(worlds, steps) && i < |worlds|
    ensures Has(worlds, steps, i, id)
  {
    if i > 0 {
      HasAlways(worlds, steps, i - 1, id);
      RunKeeps(worlds, steps, i - 1);
      ToldAfter(worlds, steps, i, id);
      assert Moves(worlds, steps, i - 1);
      HolderAfter(worlds[i - 1], steps[i - 1], worlds[i], id);
      hide TakenByDeath, IsRun, Do, GatewayCalls.Inv, Told, FailsNext, HasOf, HolderThen;
      var w, given := worlds[i - 1], Given(worlds, steps, i - 1, id);
      var more := if steps[i - 1].Fill? then InHand(w, id) else [];
      if id in w.holders {
        HasMore(w.holders[id], given, Told(worlds, steps, i - 1, id), more, FailsNext(w, steps[i - 1], id));
      } else {
        HasNothing();
        assert given + more == [];
      }
    }
  }

  lemma HasNothing()
    ensures HasOf(Holder([], [], false), [], false)
  {
    NoReplies();
  }

  // ---- What a call comes to ----

  /** A call that goes on once it is woken has lost its response exactly if the gateway's death took it out of the table
      first. Otherwise it raises the first error it was given, if any, and else returns the results it was given. */
  lemma {:induction false} CollectComesTo(worlds: seq<World>, steps: seq<Step>, i: nat, id: CallId)
    requires IsRun(worlds, steps) && i < |steps| && steps[i] == Collect(id)
    ensures id !in worlds[i].outcomes && id in worlds[i + 1].outcomes && id !in worlds[i + 1].pending
    ensures var given := Given(worlds, steps, i, id);
      worlds[i + 1].outcomes[id] ==
        if TakenByDeath(worlds, steps, i, id) then Lost
        else if Errors(given) != [] then Raised(Errors(given)[0])
        else Returned(Results(given))
  {
    assert Moves(worlds, steps, i);
    HasAlways(worlds, steps, i, id);
    TabledAlways(worlds, steps, i, id);
  }

  /** A call whose wait ends has timed out, and whatever comes for it later finds no one. */
  lemma {:induction false} TimeOutComesTo(worlds: seq<World>, steps: seq<Step>, i: nat, id: CallId)
    requires IsRun(worlds, steps) && i < |steps| && steps[i] == TimeOut(id)
    ensures id !in worlds[i].outcomes && id in worlds[i + 1].outcomes && worlds[i + 1].outcomes[id] == TimedOut
    ensures id !in worlds[i + 1].pending
  {
    assert Moves(worlds, steps, i);
  }

  /** A call comes to one thing, and is out of the table from then on. */
  lemma {:induction false} SettledOnce(worlds: seq<World>, steps: seq<Step>, i: nat, j: nat, id: CallId)
    requires IsRun(worlds, steps) && i <= j < |worlds| && id in worlds[i].outcomes
    ensures id in worlds[j].outcomes && worlds[j].outcomes[id] == worlds[i].outcomes[id] && id !in worlds[j].pending
    decreases j
  {
    TabledAlways(worlds, steps, j, id);
    if i < j {
      SettledOnce(worlds, steps, i, j - 1, id);
      assert Moves(worlds, steps, j - 1);
    }
  }

  /** A call is woken exactly if it was given a response or told of the gateway's exit. */
  lemma {:induction false} WokenIffAnswered(worlds: seq<World>, steps: seq<Step>, i: nat, id: CallId)
    requires IsRun(worlds, steps) && i < |worlds| && id in worlds[i].holders
    ensures worlds[i].holders[id].woken <==> Given(worlds, steps, i, id) != [] || Told(worlds, steps, i, id)
  {
    HasAlways(worlds, steps, i, id);
    RunKeeps(worlds, steps, i);
    SplitsReplies(Given(worlds, steps, i, id));
  }

  lemma SplitsReplies(rs: seq<Reply>)
    ensures rs != [] <==> Results(rs) != [] || Errors(rs) != []
  {
  }
}
