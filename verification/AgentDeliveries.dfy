/** Messages queued during a run are what its turns are given: each once, in the order they were queued. */
module AgentDeliveries {
  import opened AgentTypes
  import opened AgentQueue
  import opened AgentRecords
  import opened Options

  /** The message that an operation puts into a queue, if any. */
  function Put(op: QueueOp, source: Source): seq<Message> {
    if source.Steering? && op.Steer? then [op.message]
    else if source.FollowUps? && op.FollowUp? then [op.message]
    else []
  }

  function Sent(ops: seq<QueueOp>, source: Source): seq<Message> {
    if ops == [] then [] else Sent(ops[..|ops| - 1], source) + Put(ops[|ops| - 1], source)
  }

  predicate Clears(op: QueueOp, source: Source) {
    (source.Steering? && op.ClearSteering?) || (source.FollowUps? && op.ClearFollowUps?)
  }

  predicate ClearsNothing(ops: seq<QueueOp>, source: Source) {
    forall i | 0 <= i < |ops| :: !Clears(ops[i], source)
  }

  lemma {:induction false} SentJoins(a: seq<QueueOp>, b: seq<QueueOp>, source: Source)
    ensures Sent(a + b, source) == Sent(a, source) + Sent(b, source)
  {
    hide Put;
    if b == [] {
      assert a + b == a;
    } else {
      var n := |b| - 1;
      SentJoins(a, b[..n], source);
      assert (a + b)[..|a| + n] == a + b[..n];
      Append(Sent(a, source), Sent(b[..n], source), Put(b[n], source));
    }
  }

  /** After operations that do not clear it, a queue holds what it held and then what they put into it. */
  lemma {:induction false} QueuedInOrder(q: Queues, ops: seq<QueueOp>, source: Source)
    requires ClearsNothing(ops, source)
    ensures OpsDone(q, ops).Of(source).messages == q.Of(source).messages + Sent(ops, source)
  {
    if ops != [] {
      var n := |ops| - 1;
      assert !Clears(ops[n], source);
      QueuedInOrder(q, ops[..n], source);
    }
  }

  /** After clearing, it holds only what was put into it since. */
  lemma {:induction false} QueuedSinceCleared(q: Queues, ops: seq<QueueOp>, source: Source, i: nat)
    requires i < |ops| && Clears(ops[i], source) && ClearsNothing(ops[i + 1..], source)
    ensures OpsDone(q, ops).Of(source).messages == Sent(ops[i + 1..], source)
    decreases |ops|
  {
    var n := |ops| - 1;
    if i == n {
      assert ops[i + 1..] == [];
    } else {
      var later, now := ops[i + 1..], ops[..n];
      assert later[..|later| - 1] == now[i + 1..] && later[|later| - 1] == ops[n];
      assert !Clears(later[|later| - 1], source);
      QueuedSinceCleared(q, now, source, i);
    }
  }

  predicate SetsMode(op: QueueOp, source: Source) {
    (source.Steering? && op.SetSteeringMode?) || (source.FollowUps? && op.SetFollowUpMode?)
  }

  /** A queue's mode is the one it was last set to, if any. */
  lemma {:induction false} ModeLastSet(q: Queues, ops: seq<QueueOp>, source: Source, i: nat)
    requires i <= |ops| && forall j | i <= j < |ops| :: !SetsMode(ops[j], source)
    requires i > 0 ==> SetsMode(ops[i - 1], source)
    ensures OpsDone(q, ops).Of(source).mode == if i > 0 then ops[i - 1].mode else q.Of(source).mode
    decreases |ops|
  {
    if i < |ops| {
      var now := ops[..|ops| - 1];
      assert !SetsMode(ops[|ops| - 1], source);
      assert forall j | 0 <= j < |now| :: now[j] == ops[j];
      ModeLastSet(q, now, source, i);
    }
  }

  /** What a poll gives and what it leaves are what the queue held; the other queue is not touched. */
  lemma {:induction false} PollSplits(q: Queues, source: Source)
    ensures var h := Poll(q, source);
      && h.source == source && h.messages + h.queues.Of(source).messages == q.Of(source).messages
      && (q.Of(source).messages != [] ==> h.messages != [])
      && (q.Of(source).mode.All? ==> h.queues.Of(source).messages == [])
      && (q.Of(source).mode.OneAtATime? ==> |h.messages| <= 1)
      && forall other | other != source :: h.queues.Of(other) == q.Of(other)
  {
  }

  // ---- A whole run ----

  /** After turn `i` nothing was left to go on for, so follow-ups were polled. */
  predicate Idle(o: Origin, log: seq<Turn>, i: nat)
    requires i < |log| && i < |o.script.turns|
  {
    AfterTurn(HeldAt(o, log, i), o.script.turns[i]).messages == [] && !log[i].more
  }

  /** What the next turn is given from the queue, and what the queue still holds. */
  function Kept(h: Held, source: Source): seq<Message> {
    (if h.source == source then h.messages else []) + h.queues.Of(source).messages
  }

  lemma {:induction false} PolledKeeps(q: Queues, ops: seq<QueueOp>, polled: Source, source: Source)
    requires ClearsNothing(ops, source)
    ensures Kept(Poll(OpsDone(q, ops), polled), source) == q.Of(source).messages + Sent(ops, source)
  {
    hide OpsDone, Poll;
    QueuedInOrder(q, ops, source);
    PollSplits(OpsDone(q, ops), polled);
  }

  lemma {:induction false} FirstKeeps(q: Queues, ops: seq<QueueOp>, skips: bool, source: Source)
    requires ClearsNothing(ops, source)
    ensures Kept(First(q, ops, skips), source) == q.Of(source).messages + Sent(ops, source)
  {
    PolledKeeps(q, ops, Steering, source);
    QueuedInOrder(q, ops, source);
  }

  lemma {:induction false} NextKeeps(h: Held, ops: seq<QueueOp>, source: Source)
    requires ClearsNothing(ops, source)
    ensures Kept(ForNextTurn(h, ops), source) == Kept(h, source) + Sent(ops, source)
  {
    PolledKeeps(h.queues, ops, Steering, source);
    QueuedInOrder(h.queues, ops, source);
  }

  lemma {:induction false} JoinedClears(a: seq<QueueOp>, b: seq<QueueOp>, source: Source)
    requires ClearsNothing(a + b, source)
    ensures ClearsNothing(a, source) && ClearsNothing(b, source)
  {
    assert forall i | 0 <= i < |a| :: (a + b)[i] == a[i];
    assert forall i | 0 <= i < |b| :: (a + b)[|a| + i] == b[i];
  }

  /** The operations from the end of turn `i` to the last of the polls that follow it. */
  function OpsAfter(o: Origin, log: seq<Turn>, i: nat): seq<QueueOp>
    requires i < |log| && i < |o.script.turns|
  {
    o.script.turns[i].whileRunning + if Idle(o, log, i) then o.script.turns[i].whileIdle else []
  }

  /** What those polls give. */
  function PolledAfter(o: Origin, log: seq<Turn>, i: nat): Held
    requires i < |log| && i < |o.script.turns|
  {
    var a := AfterTurn(HeldAt(o, log, i), o.script.turns[i]);
    if Idle(o, log, i) then WhenIdle(a, o.script.turns[i]) else a
  }

  /** The operations done by the time turn `i` injects its messages. */
  function OpsBefore(o: Origin, log: seq<Turn>, i: nat): seq<QueueOp>
    requires i <= |log| && (i > 0 ==> i < |o.script.turns|)
  {
    if i == 0 then o.script.whileStarting
    else OpsBefore(o, log, i - 1) + (OpsAfter(o, log, i - 1) + o.script.turns[i].whilePreparing)
  }

  lemma {:induction false} HeldAfter(o: Origin, log: seq<Turn>, i: nat)
    requires i < |log| && i + 1 < |o.script.turns|
    ensures HeldAt(o, log, i + 1) == ForNextTurn(PolledAfter(o, log, i), o.script.turns[i + 1].whilePreparing)
  {
    hide ForNextTurn, AfterTurn, WhenIdle;
  }

  lemma {:induction false} PolledAfterKeeps(o: Origin, log: seq<Turn>, source: Source, i: nat)
    requires i < |log| && i < |o.script.turns| && ClearsNothing(OpsAfter(o, log, i), source)
    ensures Kept(PolledAfter(o, log, i), source)
         == HeldAt(o, log, i).queues.Of(source).messages + Sent(OpsAfter(o, log, i), source)
  {
    hide HeldAt, ClearsNothing, Sent, Kept, Poll, OpsDone;
    var h, inp := HeldAt(o, log, i), o.script.turns[i];
    var idle := if Idle(o, log, i) then inp.whileIdle else [];
    JoinedClears(inp.whileRunning, idle, source);
    SentJoins(inp.whileRunning, idle, source);
    PolledKeeps(h.queues, inp.whileRunning, Steering, source);
    if Idle(o, log, i) {
      IdleKeeps(h, inp, source);
    } else {
      NothingSent(source);
    }
  }

  lemma {:induction false} IdleKeeps(h: Held, inp: TurnInput, source: Source)
    requires ClearsNothing(inp.whileRunning, source) && ClearsNothing(inp.whileIdle, source)
    requires AfterTurn(h, inp).messages == []
    ensures Kept(WhenIdle(AfterTurn(h, inp), inp), source)
         == h.queues.Of(source).messages + (Sent(inp.whileRunning, source) + Sent(inp.whileIdle, source))
  {
    PolledKeeps(h.queues, inp.whileRunning, Steering, source);
    PolledKeeps(AfterTurn(h, inp).queues, inp.whileIdle, FollowUps, source);
    hide OpsDone, Poll, Sent;
    Append(h.queues.Of(source).messages, Sent(inp.whileRunning, source), Sent(inp.whileIdle, source));
  }

  lemma {:induction false} TurnKeeps(o: Origin, log: seq<Turn>, source: Source, i: nat)
    requires i < |log| && i + 1 < |o.script.turns|
    requires ClearsNothing(OpsAfter(o, log, i) + o.script.turns[i + 1].whilePreparing, source)
    ensures Kept(HeldAt(o, log, i + 1), source)
         == HeldAt(o, log, i).queues.Of(source).messages
            + Sent(OpsAfter(o, log, i) + o.script.turns[i + 1].whilePreparing, source)
  {
    hide *;
    var preparing := o.script.turns[i + 1].whilePreparing;
    JoinedClears(OpsAfter(o, log, i), preparing, source);
    SentJoins(OpsAfter(o, log, i), preparing, source);
    Append(HeldAt(o, log, i).queues.Of(source).messages, Sent(OpsAfter(o, log, i), source), Sent(preparing, source));
    HeldAfter(o, log, i);
    PolledAfterKeeps(o, log, source, i);
    NextKeeps(PolledAfter(o, log, i), preparing, source);
  }

  lemma NothingSent(source: Source)
    ensures Sent([], source) == []
  {
  }

  lemma {:induction false} GivenStep(o: Origin, log: seq<Turn>, source: Source, i: nat, before: seq<Message>)
    requires LogPolls(o, log) && i < |log| && i + 1 < |o.script.turns|
    requires ClearsNothing(OpsAfter(o, log, i) + o.script.turns[i + 1].whilePreparing, source)
    requires o.queues.Of(source).messages + before == InjectedFrom(log[..i], source) + Kept(HeldAt(o, log, i), source)
    ensures o.queues.Of(source).messages
            + (before + Sent(OpsAfter(o, log, i) + o.script.turns[i + 1].whilePreparing, source))
         == InjectedFrom(log[..i + 1], source) + Kept(HeldAt(o, log, i + 1), source)
  {
    hide *;
    GivenLast(o, log, source, i);
    TurnKeeps(o, log, source, i);
    AccountGrows(o.queues.Of(source).messages, before,
                 Sent(OpsAfter(o, log, i) + o.script.turns[i + 1].whilePreparing, source),
                 InjectedFrom(log[..i + 1], source), HeldAt(o, log, i).queues.Of(source).messages);
  }

  /** If nobody clears the queue, its messages from before the run and those put into it since are, in this order, the
      messages its turns have been given, those the next turn is given, and those it still holds. */
  lemma {:induction false} GivenInOrder(o: Origin, log: seq<Turn>, source: Source, i: nat)
    requires LogPolls(o, log) && i <= |log| && (i > 0 ==> i < |o.script.turns|)
    requires ClearsNothing(OpsBefore(o, log, i), source)
    ensures o.queues.Of(source).messages + Sent(OpsBefore(o, log, i), source)
         == InjectedFrom(log[..i], source) + Kept(HeldAt(o, log, i), source)
  {
    hide *;
    OpsGrow(o, log, i);
    if i == 0 {
      GivenFirst(o, log, source);
    } else {
      var before, since := OpsBefore(o, log, i - 1), OpsAfter(o, log, i - 1) + o.script.turns[i].whilePreparing;
      JoinedClears(before, since, source);
      SentJoins(before, since, source);
      GivenInOrder(o, log, source, i - 1);
      GivenStep(o, log, source, i - 1, Sent(before, source));
    }
  }

  lemma {:induction false} OpsGrow(o: Origin, log: seq<Turn>, i: nat)
    requires i <= |log| && (i > 0 ==> i < |o.script.turns|)
    ensures OpsBefore(o, log, i) ==
      if i == 0 then o.script.whileStarting
      else OpsBefore(o, log, i - 1) + (OpsAfter(o, log, i - 1) + o.script.turns[i].whilePreparing)
  {
  }

  lemma AccountGrows(q: seq<Message>, before: seq<Message>, since: seq<Message>, given: seq<Message>, rest: seq<Message>)
    requires q + before == given + rest
    ensures q + (before + since) == given + (rest + since)
  {
    Append(q, before, since);
    Append(given, rest, since);
  }

  lemma {:induction false} GivenFirst(o: Origin, log: seq<Turn>, source: Source)
    requires ClearsNothing(o.script.whileStarting, source)
    ensures o.queues.Of(source).messages + Sent(OpsBefore(o, log, 0), source)
         == InjectedFrom(log[..0], source) + Kept(HeldAt(o, log, 0), source)
  {
    hide Kept, Sent, First;
    FirstKeeps(o.queues, o.script.whileStarting, o.skips, source);
    assert InjectedFrom(log[..0], source) == [];
  }

  lemma {:induction false} GivenLast(o: Origin, log: seq<Turn>, source: Source, i: nat)
    requires LogPolls(o, log) && i < |log|
    ensures InjectedFrom(log[..i], source) + Kept(HeldAt(o, log, i), source)
         == InjectedFrom(log[..i + 1], source) + HeldAt(o, log, i).queues.Of(source).messages
  {
    hide HeldAt;
    assert log[..i + 1][..i] == log[..i] && Injects(log[i], HeldAt(o, log, i));
  }

  // ---- Why a run goes on, and why it ends ----

  /** A turn that injects nothing leaves no steering behind, unless the run skipped its first poll. */
  lemma {:induction false} NothingLeftBehind(o: Origin, log: seq<Turn>, i: nat)
    requires i <= |log| && (if i > 0 then i < |o.script.turns| else !o.skips)
    requires HeldAt(o, log, i).messages == []
    ensures HeldAt(o, log, i).queues.steering.messages == []
  {
    if i == 0 {
      PollSplits(OpsDone(o.queues, o.script.whileStarting), Steering);
    } else {
      HeldAfter(o, log, i - 1);
      PollSplits(OpsDone(PolledAfter(o, log, i - 1).queues, o.script.turns[i].whilePreparing), Steering);
    }
  }

  /** The steering there was after turn `i`, and the follow-ups there were once nothing else was left. */
  function SteeringAfter(o: Origin, log: seq<Turn>, i: nat): seq<Message>
    requires i < |log| && i < |o.script.turns|
  {
    OpsDone(HeldAt(o, log, i).queues, o.script.turns[i].whileRunning).steering.messages
  }

  function FollowUpsAfter(o: Origin, log: seq<Turn>, i: nat): seq<Message>
    requires i < |log| && i < |o.script.turns|
  {
    var turn := o.script.turns[i];
    OpsDone(OpsDone(HeldAt(o, log, i).queues, turn.whileRunning), turn.whileIdle).followUps.messages
  }

  lemma {:induction false} AfterTurnIs(o: Origin, log: seq<Turn>, i: nat)
    requires i < |log| && i < |o.script.turns|
    ensures var turn := o.script.turns[i];
      var a := AfterTurn(HeldAt(o, log, i), turn);
      && (a.messages == [] <==> SteeringAfter(o, log, i) == [])
      && (a.messages == [] ==>
           && (WhenIdle(a, turn).messages == [] <==> FollowUpsAfter(o, log, i) == [])
           && (WhenIdle(a, turn).messages == [] ==> WhenIdle(a, turn).queues.followUps.messages == [])
           && OpsDone(HeldAt(o, log, i).queues, turn.whileRunning) == a.queues)
  {
    var h, turn := HeldAt(o, log, i), o.script.turns[i];
    hide HeldAt, OpsDone;
    PollSplits(OpsDone(h.queues, turn.whileRunning), Steering);
    var a := AfterTurn(h, turn);
    PollSplits(OpsDone(a.queues, turn.whileIdle), FollowUps);
    if a.messages == [] {
      assert OpsDone(h.queues, turn.whileRunning) == a.queues by { NothingTaken(OpsDone(h.queues, turn.whileRunning), Steering); }
    }
  }

  lemma NothingTaken(q: Queues, source: Source)
    requires Poll(q, source).messages == []
    ensures Poll(q, source).queues == q
  {
  }

  /** A turn is followed by another exactly if its response was not broken, it was not told to stop, and there was
      something to go on for: calls that want a turn, a steering message, or, with neither, a follow-up. */
  predicate GoesOnAfter(o: Origin, log: seq<Turn>, i: nat)
    requires i < |log| && i < |o.script.turns|
  {
    && !log[i].assistant.Broken() && !o.script.turns[i].shouldStop
    && (log[i].more || SteeringAfter(o, log, i) != [] || FollowUpsAfter(o, log, i) != [])
  }

  lemma {:induction false} WentOnBecause(o: Origin, log: seq<Turn>, sequentialConfig: bool, i: nat)
    requires LogFollows(log, o.script.turns, sequentialConfig) && LogWentOn(o, log) && i + 1 < |log|
    ensures GoesOnAfter(o, log, i)
  {
    assert TurnFollows(log[i], o.script.turns[i], sequentialConfig) && GoesOn(log[i], log[i + 1]) && LetsGoOn(o, log, i);
    AfterTurnIs(o, log, i);
    hide HeldAt, AfterTurn, WhenIdle, OpsDone;
  }

  lemma {:induction false} EndedBecause(o: Origin, log: seq<Turn>, sequentialConfig: bool, queues: Queues)
    requires LogFollows(log, o.script.turns, sequentialConfig) && Ended(o, log, queues)
    ensures !GoesOnAfter(o, log, |log| - 1)
    ensures log[|log| - 1].assistant.Broken() || o.script.turns[|log| - 1].shouldStop ==>
              queues == HeldAt(o, log, |log| - 1).queues
    ensures !log[|log| - 1].assistant.Broken() && !o.script.turns[|log| - 1].shouldStop ==> queues.followUps.messages == []
  {
    var i := |log| - 1;
    assert TurnFollows(log[i], o.script.turns[i], sequentialConfig);
    AfterTurnIs(o, log, i);
    hide HeldAt, AfterTurn, WhenIdle, OpsDone;
  }
}
